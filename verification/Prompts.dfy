/** The text that a summariser is asked about: which part of each message enters it
    (pkg/compress/compaction.go:25-34, 179-200, 328-337). */
module Prompts {
  import opened Messages
  import opened Text

  const TOOL_OUTPUT_MAX_CHARS := 2000
  const SAVED_MARK: string := "Full output saved to:"
  const SEPARATOR: string := "\n\n"

  /** The last position below `n` where `sub` stands, or -1. */
  function LastIndex(s: string, sub: string, n: nat): (r: int)
    ensures -1 <= r < n && (r >= 0 ==> StandsAt(s, r, sub))
    ensures forall i :: r < i < n && 0 <= i ==> !StandsAt(s, i, sub)
  {
    if n == 0 then -1 else if StandsAt(s, n - 1, sub) then n - 1 else LastIndex(s, sub, n - 1)
  }

  /** The last place where `sub` stands. */
  predicate IsLastAt(s: string, sub: string, k: int) {
    0 <= k <= |s| && StandsAt(s, k, sub) && forall i :: k < i <= |s| ==> !StandsAt(s, i, sub)
  }

  /** Long output is cut, but the note where the whole was saved is kept. */
  function TruncateToolOutput(content: string): (r: string)
    ensures |content| <= 2000 ==> r == content
    ensures |content| > 2000 ==> content[..2000] + "\n[truncated]" <= r
    ensures |content| > 2000 ==> forall k :: IsLastAt(content, "Full output saved to:", k) ==>
      r == content[..2000] + "\n[truncated]" + "\n" + content[k..]
    ensures |content| > 2000 && !Contains(content, "Full output saved to:") ==> r == content[..2000] + "\n[truncated]"
  {
    if |content| <= TOOL_OUTPUT_MAX_CHARS then content
    else
      var head := content[..TOOL_OUTPUT_MAX_CHARS] + "\n[truncated]";
      var at := LastIndex(content, SAVED_MARK, |content| + 1);
      if at >= 0 then head + "\n" + content[at..] else head
  }

  /** What a message contributes: its trimmed content behind a label, tool output cut; nothing if it is blank. */
  function PartOf(m: RawMessage): seq<string> {
    var content := Trim(m.content);
    if content == [] then []
    else if m.role.Tool? then ["[Tool Result]: " + TruncateToolOutput(content)]
    else if m.role.Assistant? then ["[Assistant]: " + content]
    else ["[User]: " + content]
  }

  function PartsOf(ms: seq<RawMessage>): seq<string> {
    if ms == [] then [] else PartsOf(ms[..|ms| - 1]) + PartOf(ms[|ms| - 1])
  }

  function Joined(parts: seq<string>): string {
    if parts == [] then []
    else if |parts| == 1 then parts[0]
    else Joined(parts[..|parts| - 1]) + SEPARATOR + parts[|parts| - 1]
  }

  /** `escape` removes the tags that mark the ends of the conversation. */
  method SerializeConversation(ms: seq<RawMessage>, escape: string -> string) returns (text: string)
    ensures text == escape(Joined(PartsOf(ms)))
  {
    hide Trim, Joined, TruncateToolOutput;
    var parts: seq<string> := [];
    for i := 0 to |ms|
      invariant parts == PartsOf(ms[..i])
    {
      assert ms[..i + 1][..i] == ms[..i];
      var content := Trim(ms[i].content);
      if content == "" {
        continue;
      }
      match ms[i].role
      case Tool => parts := parts + ["[Tool Result]: " + TruncateToolOutput(content)];
      case Assistant => parts := parts + ["[Assistant]: " + content];
      case _ => parts := parts + ["[User]: " + content];
    }
    assert ms[..|ms|] == ms;
    text := escape(Joined(parts));
  }

  /** The parts of a list are those of its messages, in order, and each is the trimmed content behind its label;
    they are
      joined by an empty line. */
  lemma {:induction false} PartsAre(a: seq<RawMessage>, b: seq<RawMessage>, m: RawMessage, parts: seq<string>,
      part: string)
    ensures PartsOf([]) == [] && PartsOf(a + b) == PartsOf(a) + PartsOf(b)
    ensures var content := Trim(m.content);
      PartsOf([m]) == if Blank(m.content) then [] else
        match m.role
        case Tool => ["[Tool Result]: " + TruncateToolOutput(content)]
        case Assistant => ["[Assistant]: " + content]
        case _ => ["[User]: " + content]
    ensures Joined([]) == "" && Joined([part]) == part
    ensures parts != [] ==> Joined(parts + [part]) == Joined(parts) + "\n\n" + part
  {
    hide Trim, TruncateToolOutput;
    TrimEmpty(m.content);
    assert [m][..0] == [];
    assert (parts + [part])[..|parts|] == parts;
    PartsConcat(a, b);
  }

  lemma {:induction false} PartsConcat(a: seq<RawMessage>, b: seq<RawMessage>)
    ensures PartsOf(a + b) == PartsOf(a) + PartsOf(b)
  {
    hide PartOf;
    if b == [] {
      assert a + b == a;
    } else {
      assert (a + b)[..|a + b| - 1] == a + b[..|b| - 1];
      PartsConcat(a, b[..|b| - 1]);
    }
  }

  lemma {:induction false} ContainsOn(a: string, b: string, c: string, sub: string)
    requires Contains(b, sub)
    ensures Contains(a + b + c, sub)
  {
    var i :| 0 <= i <= |b| && StandsAt(b, i, sub);
    var s, at := a + b + c, |a| + i;
    assert s[|a|..|a| + |b|] == b;
    assert s[at..at + |sub|] == s[|a|..|a| + |b|][i..i + |sub|];
    assert StandsAt(s, at, sub);
  }

  lemma {:induction false} PartJoined(parts: seq<string>, k: nat)
    requires k < |parts|
    ensures Contains(Joined(parts), parts[k])
  {
    var n := |parts| - 1;
    if k == n {
      assert StandsAt(parts[n], 0, parts[n]);
      if n == 0 {
        assert Contains(parts[0], parts[0]);
      } else {
        ContainsOn(Joined(parts[..n]) + SEPARATOR, parts[n], [], parts[n]);
        assert Joined(parts[..n]) + SEPARATOR + parts[n] + [] == Joined(parts);
      }
    } else {
      PartJoined(parts[..n], k);
      ContainsOn([], Joined(parts[..n]), SEPARATOR + parts[n], parts[k]);
      assert [] + Joined(parts[..n]) + (SEPARATOR + parts[n]) == Joined(parts);
    }
  }

  lemma {:induction false} PartOfMember(ms: seq<RawMessage>, i: nat)
    requires i < |ms|
    ensures forall part :: part in PartOf(ms[i]) ==> part in PartsOf(ms)
  {
    hide PartOf;
    if i < |ms| - 1 { PartOfMember(ms[..|ms| - 1], i); }
  }

  /** Before the tags are removed, the text holds the part of every message: the whole trimmed content of a message
      that is no tool result, and of a tool result at least its first 2000 bytes. */
  lemma {:induction false} EveryMessageEnters(ms: seq<RawMessage>, i: nat)
    requires i < |ms| && Trim(ms[i].content) != []
    ensures |PartOf(ms[i])| == 1 && Contains(Joined(PartsOf(ms)), PartOf(ms[i])[0])
    ensures var content := Trim(ms[i].content);
      var kept := if ms[i].role.Tool? && |content| > TOOL_OUTPUT_MAX_CHARS then content[..TOOL_OUTPUT_MAX_CHARS]
        else content;
      Contains(PartOf(ms[i])[0], kept)
  {
    hide Trim, Joined, PartsOf;
    PartOfMember(ms, i);
    var part := PartOf(ms[i])[0];
    assert part in PartsOf(ms);
    var k :| 0 <= k < |PartsOf(ms)| && PartsOf(ms)[k] == part;
    PartJoined(PartsOf(ms), k);
    KeptInPart(ms[i]);
  }

  lemma {:induction false} Labelled(tag: string, content: string, kept: string)
    requires kept <= content
    ensures Contains(tag + content, kept)
  {
    var s := tag + content;
    assert s[|tag|..|tag| + |kept|] == kept;
    assert StandsAt(s, |tag|, kept);
  }

  lemma {:induction false} KeptInPart(m: RawMessage)
    requires Trim(m.content) != []
    ensures var content := Trim(m.content);
      var kept := if m.role.Tool? && |content| > TOOL_OUTPUT_MAX_CHARS then content[..TOOL_OUTPUT_MAX_CHARS]
        else content;
      Contains(PartOf(m)[0], kept)
  {
    hide Trim, Contains, TruncateToolOutput;
    var content := Trim(m.content);
    if m.role.Tool? {
      var kept := if |content| > TOOL_OUTPUT_MAX_CHARS then content[..TOOL_OUTPUT_MAX_CHARS] else content;
      Labelled("[Tool Result]: ", TruncateToolOutput(content), kept);
    } else {
      Labelled(if m.role.Assistant? then "[Assistant]: " else "[User]: ", content, content);
    }
  }
}
