/** The append-only session transcript and the two index-carrying operations on it:
    marking a compaction and computing the context the model sees. */
module Sessions {
  import opened Messages
  import opened Text

  // ---- Specification functions on transcripts ----

  function FlagBefore(h: seq<Message>, t: int): (r: seq<Message>)
    ensures |r| == |h|
    ensures forall i :: 0 <= i < |h| ==>
      r[i] == if i < t && !h[i].role.System? then h[i].(compacted := true) else h[i]
  {
    seq(|h|, i requires 0 <= i < |h| =>
      if i < t && !h[i].role.System? then h[i].(compacted := true) else h[i])
  }

  function Marked(h: seq<Message>, tailStartID: int, summary: string): seq<Message> {
    FlagBefore(h, tailStartID) + [PromptMessage(), SummaryMessage(summary, tailStartID)]
  }

  function Cleared(h: seq<Message>, index: int, content: string): seq<Message> {
    if 0 <= index < |h| then h[index := h[index].(content := content, compacted := true)] else h
  }

  /** Index of the last summary written by the assistant, or -1. */
  function LastMarker(h: seq<Message>): (m: int)
    ensures -1 <= m < |h|
    ensures m >= 0 ==> IsMarker(h[m])
    ensures forall i :: m < i < |h| ==> !IsMarker(h[i])
  {
    if h == [] then -1
    else if IsMarker(h[|h| - 1]) then |h| - 1
    else LastMarker(h[..|h| - 1])
  }

  /** Index of the last user message before `n`, or -1. */
  function LastUserBefore(h: seq<Message>, n: nat): (u: int)
    requires n <= |h|
    ensures -1 <= u < n
    ensures u >= 0 ==> h[u].role.User?
    ensures forall i :: u < i < n ==> !h[i].role.User?
  {
    if n == 0 then -1 else if h[n - 1].role.User? then n - 1 else LastUserBefore(h, n - 1)
  }

  /** The messages at positions `lo` up to `hi`, leaving out positions `a` and `b`. */
  function Except<T>(h: seq<T>, lo: nat, hi: nat, a: int, b: int): seq<T>
    requires hi <= |h|
    decreases hi
  {
    if hi <= lo then []
    else if hi - 1 == a || hi - 1 == b then Except(h, lo, hi - 1, a, b)
    else Except(h, lo, hi - 1, a, b) + [h[hi - 1]]
  }

  /** What the model sees of a transcript, pins aside. */
  function Visible(h: seq<Message>): seq<Message> {
    var m := LastMarker(h);
    if m < 0 then h else
    var u := LastUserBefore(h, m);
    if u < 0 then h else
    var t := if h[m].tailStartID <= 0 || h[m].tailStartID >= |h| then u + 1 else h[m].tailStartID;
    (if h[0].role.System? then [h[0]] else []) + ([h[u], h[m]] + Except(h, t, |h|, u, m))
  }

  predicate HasUserContent(h: seq<Message>, content: string) {
    exists i :: 0 <= i < |h| && h[i].role.User? && Trim(h[i].content) == Trim(content)
  }

  /** The pins that the visible messages do not already repeat, as user messages. */
  function MissingPins(visible: seq<Message>, pinned: seq<string>): seq<Message> {
    if pinned == [] then [] else
    var n := |pinned| - 1;
    MissingPins(visible, pinned[..n]) +
    if HasUserContent(visible, pinned[n]) then [] else [UserMessage(pinned[n])]
  }

  /** Length of the prefix up to and including the first system message, or 0. */
  function SystemPrefix(h: seq<Message>, n: nat): (k: nat)
    requires n <= |h|
    ensures k <= n
    ensures k > 0 ==> h[k - 1].role == System && (forall i :: 0 <= i < k - 1 ==> h[i].role != System)
    ensures k == 0 ==> (forall i :: 0 <= i < n ==> h[i].role != System)
  {
    if n == 0 then 0
    else if SystemPrefix(h, n - 1) > 0 then SystemPrefix(h, n - 1)
    else if h[n - 1].role.System? then n else 0
  }

  /** Pins go right after the first system message, or at the end without one. */
  function WithPins(visible: seq<Message>, pinned: seq<string>): seq<Message> {
    var k := SystemPrefix(visible, |visible|);
    if pinned == [] then visible
    else if k > 0 then visible[..k] + MissingPins(visible, pinned) + visible[k..]
    else visible + MissingPins(visible, pinned)
  }

  function Context(h: seq<Message>, pinned: seq<string>): seq<Message> {
    WithPins(Visible(h), pinned)
  }

  // ---- The session object ----

  class Session {
    var messages: seq<Message>
    var pinned: seq<string>

    constructor (systemPrompt: string)
      ensures messages == if systemPrompt == "" then []
        else [Message(System, systemPrompt, [], "", "", false, false, false, 0)]
      ensures pinned == []
    {
      pinned := [];
      messages := if systemPrompt == "" then [] else [SystemMessage(systemPrompt)];
    }

    method UpdateSystemPrompt(prompt: string)
      modifies this`messages
      ensures messages ==
        if old(messages) != [] && old(messages)[0].role.System?
        then old(messages)[0 := old(messages)[0].(content := prompt)]
        else [Message(System, prompt, [], "", "", false, false, false, 0)] + old(messages)
    {
      if |messages| > 0 && messages[0].role.System? {
        messages := messages[0 := messages[0].(content := prompt)];
      } else {
        messages := [SystemMessage(prompt)] + messages;
      }
    }

    method AddUserMessage(content: string)
      modifies this`messages
      ensures messages == old(messages) + [Message(User, content, [], "", "", false, false, false, 0)]
    {
      messages := messages + [UserMessage(content)];
    }

    method AddAssistantMessage(content: string)
      modifies this`messages
      ensures messages == old(messages) + [Message(Assistant, content, [], "", "", false, false, false, 0)]
    {
      messages := messages + [AssistantMessage(content)];
    }

    method AddAssistantMessageInternal(content: string)
      modifies this`messages
      ensures messages == old(messages) + [Message(Assistant, content, [], "", "", false, true, false, 0)]
    {
      messages := messages + [InternalMessage(content)];
    }

    method AddAssistantMessageWithToolCalls(content: string, calls: seq<ToolCall>)
      modifies this`messages
      ensures messages == old(messages) + [Message(Assistant, content, calls, "", "", false, false, false, 0)]
    {
      messages := messages + [CallMessage(content, calls)];
    }

    method AddToolMessage(id: string, name: string, content: string)
      modifies this`messages
      ensures messages == old(messages) + [Message(Tool, content, [], id, name, false, false, false, 0)]
    {
      messages := messages + [ToolMessage(id, name, content)];
    }

    method MarkCompaction(tailStartID: int, summary: string)
      modifies this`messages
      ensures messages == Marked(old(messages), tailStartID, summary)
    {
      var i := 0;
      if tailStartID > 0 {
        while i < tailStartID && i < |messages|
          invariant 0 <= i <= |messages| == |old(messages)| && i <= tailStartID
          invariant forall k :: 0 <= k < i ==> messages[k] == FlagBefore(old(messages), tailStartID)[k]
          invariant forall k :: i <= k < |messages| ==> messages[k] == old(messages)[k]
          decreases |messages| - i
        {
          if !messages[i].role.System? {
            messages := messages[i := messages[i].(compacted := true)];
          }
          i := i + 1;
        }
      }
      assert messages == FlagBefore(old(messages), tailStartID);
      messages := messages + [PromptMessage()];
      messages := messages + [SummaryMessage(summary, tailStartID)];
    }

    method MarkMessageCompacted(index: int, content: string)
      modifies this`messages
      ensures messages == Cleared(old(messages), index, content)
    {
      if index < 0 || index >= |messages| {
        return;
      }
      messages := messages[index := messages[index].(content := content)];
      messages := messages[index := messages[index].(compacted := true)];
    }

    method AddPinned(content: string)
      modifies this`pinned
      ensures pinned == old(pinned) + if Trim(content) == "" then [] else [Trim(content)]
    {
      var trimmed := Trim(content);
      if trimmed == "" {
        return;
      }
      pinned := pinned + [trimmed];
    }

    method GetContextMessages() returns (out: seq<Message>)
      ensures out == Context(messages, pinned)
    {
      var visible := VisibleMessages();
      out := InsertPins(visible);
    }

    /** The second half of the context builder: the pins, once, after the system message. */
    method InsertPins(visible: seq<Message>) returns (out: seq<Message>)
      ensures out == WithPins(visible, pinned)
    {
      out := [];
      var inserted := false;
      ghost var before := [];
      for i := 0 to |visible|
        invariant inserted == (SystemPrefix(visible, i) > 0 && |pinned| > 0)
        invariant inserted ==> before == visible[..SystemPrefix(visible, i)] + MissingPins(visible, pinned)
        invariant inserted ==> out == before + visible[SystemPrefix(visible, i)..i]
        invariant !inserted ==> out == visible[..i]
      {
        out := out + [visible[i]];
        if !inserted && visible[i].role.System? && |pinned| > 0 {
          var pins := AppendMissing(visible);
          out := out + pins;
          inserted, before := true, out;
        }
      }
      assert visible[..|visible|] == visible;
      if !inserted && |pinned| > 0 {
        var pins := AppendMissing(visible);
        out := out + pins;
      }
    }

    /** The first half of the context builder: which messages are still visible. */
    method VisibleMessages() returns (visible: seq<Message>)
      ensures visible == Visible(messages)
    {
      hide Visible, LastMarker, LastUserBefore, Except;
      var history := messages;
      var marker, tailStart := FindLastCompactionMarker(history);
      if marker < 0 {
        AllVisible(history);
        return history;
      }
      var compactionUser := FindUserBefore(history, marker);
      if tailStart <= 0 || tailStart >= |history| {
        tailStart := compactionUser + 1;
      }
      if compactionUser < 0 {
        NoUserNoChange(history, marker);
        return history;
      }
      VisibleWith(history, marker, compactionUser);
      visible := [history[compactionUser], history[marker]];
      var tail := TailWithout(history, tailStart, compactionUser, marker);
      visible := visible + tail;
      if history[0].role.System? {
        visible := [history[0]] + visible;
      }
    }

    static method TailWithout(history: seq<Message>, tailStart: nat, u: int, marker: int)
      returns (tail: seq<Message>)
      ensures tail == Except(history, tailStart, |history|, u, marker)
    {
      tail := [];
      var i := tailStart;
      while i < |history|
        invariant tailStart <= i && (i <= |history| || i == tailStart)
        invariant tail == if i <= |history| then Except(history, tailStart, i, u, marker) else []
      {
        if i != u && i != marker {
          tail := tail + [history[i]];
        }
        i := i + 1;
      }
    }

    static method FindUserBefore(history: seq<Message>, marker: nat) returns (u: int)
      requires marker <= |history|
      ensures u == LastUserBefore(history, marker)
    {
      u := marker - 1;
      while u >= 0
        invariant -1 <= u < marker
        invariant forall k :: u < k < marker ==> !history[k].role.User?
      {
        if history[u].role.User? {
          return;
        }
        u := u - 1;
      }
    }

    /** The pin loop that the context builder runs in either of two places. */
    method AppendMissing(visible: seq<Message>) returns (pins: seq<Message>)
      ensures pins == MissingPins(visible, pinned)
    {
      pins := [];
      for i := 0 to |pinned|
        invariant pins == MissingPins(visible, pinned[..i])
      {
        assert pinned[..i + 1][..i] == pinned[..i];
        if !HasUserContent(visible, pinned[i]) {
          pins := pins + [UserMessage(pinned[i])];
        }
      }
      assert pinned[..|pinned|] == pinned;
    }

    static method FindLastCompactionMarker(msgs: seq<Message>) returns (marker: int, tailStart: int)
      ensures marker == LastMarker(msgs)
      ensures tailStart == if marker >= 0 then msgs[marker].tailStartID else 0
    {
      var i := |msgs| - 1;
      while i >= 0
        invariant -1 <= i < |msgs|
        invariant forall k :: i < k < |msgs| ==> !IsMarker(msgs[k])
      {
        if msgs[i].role.Assistant? && msgs[i].summary {
          return i, msgs[i].tailStartID;
        }
        i := i - 1;
      }
      return -1, 0;
    }
  }

  // ---- Properties ----

  lemma {:induction false} ExceptRange<T>(h: seq<T>, lo: nat, hi: nat, a: int, b: int)
    requires lo <= hi <= |h| && !(lo <= a < hi) && !(lo <= b < hi)
    ensures Except(h, lo, hi, a, b) == h[lo..hi]
  {
    if lo < hi {
      ExceptRange(h, lo, hi - 1, a, b);
      assert h[lo..hi] == h[lo..hi - 1] + [h[hi - 1]];
    }
  }

  lemma {:induction false} ExceptSplit<T>(h: seq<T>, lo: nat, mid: nat, hi: nat, a: int, b: int)
    requires lo <= mid <= hi <= |h|
    ensures Except(h, lo, hi, a, b) == Except(h, lo, mid, a, b) + Except(h, mid, hi, a, b)
  {
    if mid < hi { ExceptSplit(h, lo, mid, hi - 1, a, b); }
  }

  /** Leaving out two adjacent positions is cutting them out of the tail. */
  lemma {:induction false} ExceptPair<T>(h: seq<T>, lo: nat, u: nat)
    requires u + 1 < |h| && lo <= u
    ensures Except(h, lo, |h|, u, u + 1) == h[lo..u] + h[u + 2..]
  {
    ExceptSplit(h, lo, u, |h|, u, u + 1);
    ExceptSplit(h, u, u + 2, |h|, u, u + 1);
    ExceptRange(h, lo, u, u, u + 1);
    ExceptRange(h, u + 2, |h|, u, u + 1);
    assert Except(h, u, u + 1, u, u + 1) == [];
  }

  lemma {:induction false} MissingPinsShown(visible: seq<Message>, pinned: seq<string>, p: nat)
    requires p < |pinned|
    ensures HasUserContent(visible, pinned[p]) || HasUserContent(MissingPins(visible, pinned), pinned[p])
  {
    hide HasUserContent;
    var n := |pinned| - 1;
    var before := MissingPins(visible, pinned[..n]);
    var last := if HasUserContent(visible, pinned[n]) then [] else [UserMessage(pinned[n])];
    HasUserContentConcat(before, last, pinned[p]);
    if p < n {
      MissingPinsShown(visible, pinned[..n], p);
    } else if !HasUserContent(visible, pinned[n]) {
      SaysItself(pinned[n]);
    }
  }

  lemma {:induction false} SaysItself(content: string)
    ensures HasUserContent([UserMessage(content)], content)
  {
    assert [UserMessage(content)][0].role.User?;
  }

  lemma {:induction false} HasUserContentConcat(a: seq<Message>, b: seq<Message>, content: string)
    ensures HasUserContent(a + b, content) <==> HasUserContent(a, content) || HasUserContent(b, content)
  {
    if HasUserContent(a, content) {
      var i :| 0 <= i < |a| && a[i].role.User? && Trim(a[i].content) == Trim(content);
      assert (a + b)[i] == a[i];
    }
    if HasUserContent(b, content) {
      var i :| 0 <= i < |b| && b[i].role.User? && Trim(b[i].content) == Trim(content);
      assert (a + b)[|a| + i] == b[i];
    }
  }

  /** What marking does: the messages before the tail start are flagged, but for system messages;
    behind all of them come the
      prompt and the summary with the tail start. */
  lemma {:induction false} MarkedIs(h: seq<Message>, tailStartID: int, summary: string)
    ensures var r := Marked(h, tailStartID, summary);
      && |r| == |h| + 2
      && (forall k :: 0 <= k < |h| && k < tailStartID && h[k].role != System ==> r[k] == h[k].(compacted := true))
      && (forall k :: 0 <= k < |h| && (k >= tailStartID || h[k].role == System) ==> r[k] == h[k])
      && r[|h|] == Message(User, COMPACTION_USER_MESSAGE, [], "", "", false, false, false, 0)
      && r[|h| + 1] == Message(Assistant, summary, [], "", "", true, false, false, tailStartID)
  {
  }

  /** Which pins are put in: each that the visible messages do not say, in order. */
  lemma {:induction false} MissingPinsAre(visible: seq<Message>, a: seq<string>, b: seq<string>, pin: string)
    ensures MissingPins(visible, []) == []
    ensures MissingPins(visible, a + b) == MissingPins(visible, a) + MissingPins(visible, b)
    ensures MissingPins(visible, [pin]) ==
      if exists i :: 0 <= i < |visible| && visible[i].role == User && Trim(visible[i].content) == Trim(pin) then []
      else [UserMessage(pin)]
  {
    hide Trim;
    assert [pin][..0] == [];
    if b == [] {
      assert a + b == a;
    } else {
      var n := |b| - 1;
      assert (a + b)[..|a + b| - 1] == a + b[..n];
      MissingPinsAre(visible, a, b[..n], pin);
    }
  }

  /** What is left of a list without two positions: all others, in order. */
  lemma {:induction false} ExceptIs<T>(h: seq<T>, lo: nat, i: nat, hi: nat, a: int, b: int)
    requires lo <= i < hi <= |h|
    ensures Except(h, lo, lo, a, b) == []
    ensures Except(h, lo, hi, a, b) == Except(h, lo, i, a, b) + Except(h, i, hi, a, b)
    ensures Except(h, i, i + 1, a, b) == if i == a || i == b then [] else [h[i]]
  {
    ExceptSplit(h, lo, i, hi, a, b);
    assert Except(h, i, i, a, b) == [];
  }

  /** What the model sees, in full: without a summary, or without a user message before it, everything; otherwise the
      leading system message, that user message and the summary, and all from the tail start on but these two. The tail
      starts behind the user message if the recorded place is none. */
  lemma {:induction false} VisibleIs(h: seq<Message>, m: nat, u: nat)
    requires m < |h| && h[m].role == Assistant && h[m].summary
    requires forall i :: m < i < |h| ==> !(h[i].role == Assistant && h[i].summary)
    ensures (forall i :: 0 <= i < m ==> h[i].role != User) ==> Visible(h) == h
    ensures u < m && h[u].role == User && (forall i :: u < i < m ==> h[i].role != User) ==>
      var t := if 0 < h[m].tailStartID < |h| then h[m].tailStartID else u + 1;
      Visible(h) == (if h[0].role == System then [h[0]] else []) + ([h[u], h[m]] + Except(h, t, |h|, u, m))
  {
    hide Except, LastMarker, LastUserBefore;
    hide Visible;
    LastMarkerIs(h, m);
    if forall i :: 0 <= i < m ==> h[i].role != User {
      NoUserBefore(h, m);
      NoUserNoChange(h, m);
    }
    if u < m && h[u].role == User && (forall i :: u < i < m ==> h[i].role != User) {
      LastUserIs(h, m, u);
      VisibleWith(h, m, u);
    }
  }

  lemma {:induction false} NoUserNoChange(h: seq<Message>, m: nat)
    requires m < |h| && LastMarker(h) == m && LastUserBefore(h, m) == -1
    ensures Visible(h) == h
  {
    hide LastMarker, LastUserBefore, Except;
  }

  lemma {:induction false} VisibleWith(h: seq<Message>, m: nat, u: nat)
    requires u < m < |h| && LastMarker(h) == m && LastUserBefore(h, m) == u
    ensures var t := if 0 < h[m].tailStartID < |h| then h[m].tailStartID else u + 1;
      Visible(h) == (if h[0].role == System then [h[0]] else []) + ([h[u], h[m]] + Except(h, t, |h|, u, m))
  {
    hide LastMarker, LastUserBefore, Except;
    var t := if h[m].tailStartID <= 0 || h[m].tailStartID >= |h| then u + 1 else h[m].tailStartID;
    assert Visible(h) == (if h[0].role.System? then [h[0]] else []) + ([h[u], h[m]] + Except(h, t, |h|, u, m));
    hide Visible;
  }

  lemma {:induction false} NoUserBefore(h: seq<Message>, m: nat)
    requires m <= |h| && forall i :: 0 <= i < m ==> h[i].role != User
    ensures LastUserBefore(h, m) == -1
  {
  }

  lemma {:induction false} LastUserIs(h: seq<Message>, m: nat, u: nat)
    requires u < m <= |h| && h[u].role == User && forall i :: u < i < m ==> h[i].role != User
    ensures LastUserBefore(h, m) == u
  {
  }

  lemma {:induction false} LastMarkerIs(h: seq<Message>, m: nat)
    requires m < |h| && IsMarker(h[m]) && forall i :: m < i < |h| ==> !IsMarker(h[i])
    ensures LastMarker(h) == m
  {
  }

  lemma {:induction false} AllVisible(h: seq<Message>)
    requires forall i :: 0 <= i < |h| ==> !(h[i].role == Assistant && h[i].summary)
    ensures Visible(h) == h
  {
  }

  /** Where the pins go: one contiguous stretch of the context. */
  function PinIndex(h: seq<Message>): (k: nat)
    ensures k <= |Visible(h)|
  {
    var v := Visible(h);
    if SystemPrefix(v, |v|) > 0 then SystemPrefix(v, |v|) else |v|
  }

  /** Taking the stretch of pins out of the context gives the visible transcript back. */
  lemma {:induction false} ContextShape(h: seq<Message>, pinned: seq<string>)
    ensures var v, k, pins := Visible(h), PinIndex(h), MissingPins(Visible(h), pinned);
      Context(h, pinned) == v[..k] + pins + v[k..]
  {
    hide Visible, SystemPrefix, HasUserContent;
    var v, k := Visible(h), PinIndex(h);
    CutAndJoined(v, k);
    CutAndJoined(v, |v|);
    if pinned != [] {
      hide MissingPins;
      AtTheEnd(v, MissingPins(v, pinned));
    }
  }

  lemma {:induction false} CutAndJoined(v: seq<Message>, k: nat)
    requires k <= |v|
    ensures v == v[..k] + [] + v[k..]
  {
  }

  lemma {:induction false} AtTheEnd(v: seq<Message>, pins: seq<Message>)
    ensures v + pins == v[..|v|] + pins + v[|v|..]
  {
  }

  /** Every pin is in the context the model sees, whatever was compacted away. */
  lemma {:induction false} PinsSurviveCompaction(h: seq<Message>, pinned: seq<string>, p: nat)
    requires p < |pinned|
    ensures HasUserContent(Context(h, pinned), pinned[p])
  {
    hide MissingPins, HasUserContent, Visible, Context, SystemPrefix;
    var v, k, pins := Visible(h), PinIndex(h), MissingPins(Visible(h), pinned);
    ContextShape(h, pinned);
    MissingPinsShown(v, pinned, p);
    HasUserContentConcat(v[..k] + pins, v[k..], pinned[p]);
    HasUserContentConcat(v[..k], pins, pinned[p]);
    HasUserContentConcat(v[..k], v[k..], pinned[p]);
    assert v[..k] + v[k..] == v;
  }
}
