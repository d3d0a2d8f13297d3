/** Copying the messages of a turn from the agent's session into the peer's stored session while
    the turn runs, and handing over the steering messages that the turn left behind. */
module TurnMirrors {
  import opened Messages
  import opened Sessions
  import opened PeerInputs
  import Text

  predicate IsScaffolding(content: string) {
    || content == COMPACTION_USER_MESSAGE
    || content == COMPACTION_AUTO_CONTINUE_TEXT
    || content == COMPACTION_OVERFLOW_CONTINUE_TEXT
  }

  const COMPACTION_PROMPTS: set<string> :=
    {COMPACTION_USER_MESSAGE, COMPACTION_AUTO_CONTINUE_TEXT, COMPACTION_OVERFLOW_CONTINUE_TEXT}

  /** What is copied for a message; an empty plain answer is copied only as the last message. */
  function CopyOf(m: Message, last: bool): (c: seq<Message>)
    ensures |c| <= 1
  {
    match m.role
    case System => []
    case User => if IsScaffolding(m.content) then [] else [UserMessage(m.content)]
    case Tool => [ToolMessage(m.toolCallID, m.name, m.content)]
    case Assistant =>
      if m.summary then []
      else if m.internalOnly || IsInternalText(m.content) then [InternalMessage(m.content)]
      else if m.toolCalls != [] then [CallMessage(m.content, m.toolCalls)]
      else if m.content != "" || last then [AssistantMessage(m.content)]
      else []
  }

  /** What is copied is the message itself, apart from its flags: of a user,
    unless it is one of the three prompts of the
      compaction; of a tool; of a call; and of an answer, which if it is empty must be the last message. Of an internal
      text only the text is copied; of system messages and summaries nothing. */
  lemma {:induction false} CopyIs(m: Message, last: bool)
    ensures m.role == System || (m.role == Assistant && m.summary) ==> CopyOf(m, last) == []
    ensures m.role == User && m.content in COMPACTION_PROMPTS ==> CopyOf(m, last) == []
    ensures m.role == User && m.content !in COMPACTION_PROMPTS ==>
      CopyOf(m, last) == [Message(User, m.content, [], "", "", false, false, false, 0)]
    ensures m.role == Tool ==>
      CopyOf(m, last) == [Message(Tool, m.content, [], m.toolCallID, m.name, false, false, false, 0)]
    ensures m.role == Assistant && !m.summary && (m.internalOnly || "[REASONING SUMMARY]" <= Text.Trim(m.content)) ==>
      CopyOf(m, last) == [Message(Assistant, m.content, [], "", "", false, true, false, 0)]
    ensures m.role == Assistant && !m.summary && !(m.internalOnly || "[REASONING SUMMARY]" <= Text.Trim(m.content)) ==>
      CopyOf(m, last) ==
        if m.toolCalls == [] && m.content == "" && !last then []
        else [Message(Assistant, m.content, m.toolCalls, "", "", false, false, false, 0)]
  {
    hide Text.Trim;
  }

  /** The copies of positions `lo` up to `hi` of a history that has `n` messages at that time. */
  function Copies(h: seq<Message>, lo: nat, hi: nat, n: nat): seq<Message>
    requires hi <= |h|
    decreases hi
  {
    if hi <= lo then [] else Copies(h, lo, hi - 1, n) + CopyOf(h[hi - 1], hi == n)
  }

  function MirroredTexts(h: seq<Message>, lo: nat, hi: nat): set<string>
    requires hi <= |h|
    decreases hi
  {
    if hi <= lo then {} else
    MirroredTexts(h, lo, hi - 1) +
    if h[hi - 1].role.User? && !IsScaffolding(h[hi - 1].content) then {h[hi - 1].content} else {}
  }

  class TurnMirror {
    const target: Session
    const source: Session
    var cursor: nat
    var mirrored: set<string>

    constructor (target: Session, source: Session, start: nat)
      ensures this.target == target && this.source == source && cursor == start && mirrored == {}
    {
      this.target, this.source, cursor, mirrored := target, source, start, {};
    }

    method Sync()
      requires target != source
      modifies this`cursor, this`mirrored, target`messages
      ensures target.messages == old(target.messages) +
        Copies(source.messages, old(cursor), |source.messages|, |source.messages|)
      ensures mirrored == old(mirrored) + MirroredTexts(source.messages, old(cursor), |source.messages|)
      ensures cursor == if old(cursor) < |source.messages| then |source.messages| else old(cursor)
    {
      hide CopyOf, IsScaffolding;
      var history := source.messages;
      while cursor < |history|
        invariant old(cursor) <= cursor && (cursor <= |history| || cursor == old(cursor))
        invariant source.messages == history
        invariant cursor <= |history| ==>
          target.messages == old(target.messages) + Copies(history, old(cursor), cursor, |history|)
        invariant cursor <= |history| ==> mirrored == old(mirrored) + MirroredTexts(history, old(cursor), cursor)
        invariant cursor > |history| ==> target.messages == old(target.messages) && mirrored == old(mirrored)
      {
        CopyMessage(history[cursor], cursor == |history| - 1);
        cursor := cursor + 1;
      }
    }

    method CopyMessage(msg: Message, last: bool)
      modifies this`mirrored, target`messages
      ensures target.messages == old(target.messages) + CopyOf(msg, last)
      ensures mirrored == old(mirrored) +
        if msg.role.User? && !IsScaffolding(msg.content) then {msg.content} else {}
    {
      hide IsScaffolding, IsInternalText;
      match msg.role
      case System =>
      case User =>
        if IsScaffolding(msg.content) {
          return;
        }
        mirrored := mirrored + {msg.content};
        target.AddUserMessage(msg.content);
      case Assistant =>
        if msg.summary {
          return;
        }
        if msg.internalOnly || IsInternalText(msg.content) {
          target.AddAssistantMessageInternal(msg.content);
        } else if |msg.toolCalls| > 0 {
          target.AddAssistantMessageWithToolCalls(msg.content, msg.toolCalls);
        } else if msg.content != "" || last {
          target.AddAssistantMessage(msg.content);
        }
      case Tool =>
        target.AddToolMessage(msg.toolCallID, msg.name, msg.content);
    }

    /** The end of a turn: a last sync, and the drained messages that the turn did not record. */
    method FinishTurn(input: PeerInput, cancelled: bool)
      requires target != source
      modifies this`cursor, this`mirrored, target`messages, input`promoted
      ensures var copies := Copies(source.messages, old(cursor), |source.messages|, |source.messages|);
        target.messages == old(target.messages) + copies +
          if cancelled then [] else UserMessages(Leftovers(old(input.promoted), mirrored))
      ensures mirrored == old(mirrored) + MirroredTexts(source.messages, old(cursor), |source.messages|)
      ensures input.promoted == if cancelled then old(input.promoted) else []
    {
      hide Copies, MirroredTexts, Leftovers, UserMessages;
      Sync();
      if cancelled {
        return;
      }
      var promoted := input.TakePromoted();
      PromoteLeftovers(promoted);
    }

    method PromoteLeftovers(promoted: seq<string>)
      modifies target`messages
      ensures target.messages == old(target.messages) + UserMessages(Leftovers(promoted, mirrored))
    {
      for i := 0 to |promoted|
        invariant target.messages == old(target.messages) + UserMessages(Leftovers(promoted[..i], mirrored))
      {
        assert promoted[..i + 1][..i] == promoted[..i];
        if promoted[i] in mirrored {
          continue;
        }
        target.AddUserMessage(promoted[i]);
      }
      assert promoted[..|promoted|] == promoted;
    }
  }

  /** The drained texts that no copied message already contains. */
  function Leftovers(promoted: seq<string>, mirrored: set<string>): seq<string> {
    if promoted == [] then [] else
    Leftovers(promoted[..|promoted| - 1], mirrored) +
    if promoted[|promoted| - 1] in mirrored then [] else [promoted[|promoted| - 1]]
  }

  /** Which drained texts are left over: all that were not copied, in order and with repetitions. */
  lemma {:induction false} LeftoversAre(a: seq<string>, text: string, mirrored: set<string>)
    ensures Leftovers([], mirrored) == []
    ensures Leftovers(a + [text], mirrored) == Leftovers(a, mirrored) + if text in mirrored then [] else [text]
  {
    assert (a + [text])[..|a|] == a;
  }

  // ---- Syncs of a source that goes on ----

  /** Where the cursor stands after syncs of these histories of the source. */
  function CursorOver(start: nat, hs: seq<seq<Message>>): nat {
    if hs == [] then start else
    var c := CursorOver(start, hs[..|hs| - 1]);
    if c < |hs[|hs| - 1]| then |hs[|hs| - 1]| else c
  }

  /** What syncs of these histories copy altogether. */
  function SyncedOver(start: nat, hs: seq<seq<Message>>): seq<Message> {
    if hs == [] then [] else
    var h := hs[|hs| - 1];
    SyncedOver(start, hs[..|hs| - 1]) + Copies(h, CursorOver(start, hs[..|hs| - 1]), |h|, |h|)
  }

  /** The texts of user messages that they copy. */
  function MirroredOver(start: nat, hs: seq<seq<Message>>): set<string> {
    if hs == [] then {} else
    var h := hs[|hs| - 1];
    MirroredOver(start, hs[..|hs| - 1]) + MirroredTexts(h, CursorOver(start, hs[..|hs| - 1]), |h|)
  }

  lemma {:induction false} OneMoreSync(start: nat, hs: seq<seq<Message>>, h: seq<Message>)
    ensures var c := CursorOver(start, hs);
      && CursorOver(start, hs + [h]) == (if c < |h| then |h| else c)
      && SyncedOver(start, hs + [h]) == SyncedOver(start, hs) + Copies(h, c, |h|, |h|)
      && MirroredOver(start, hs + [h]) == MirroredOver(start, hs) + MirroredTexts(h, c, |h|)
  {
    hide Copies, MirroredTexts;
    assert (hs + [h])[..|hs + [h]| - 1] == hs;
  }

  // ---- Checkpoints do not matter ----

  predicate IsEmptyPlain(m: Message) {
    m.role.Assistant? && !m.summary && !m.internalOnly && m.toolCalls == [] && m.content == ""
  }

  /** Where the cursor stands after syncs at these lengths of the source. */
  function CursorAfter(start: nat, lengths: seq<nat>): nat {
    if lengths == [] then start else
    var c := CursorAfter(start, lengths[..|lengths| - 1]);
    if c < lengths[|lengths| - 1] then lengths[|lengths| - 1] else c
  }

  /** What syncs at these lengths of an append-only source copy altogether. */
  function CopiedBySyncs(h: seq<Message>, start: nat, lengths: seq<nat>): seq<Message>
    requires forall k :: 0 <= k < |lengths| ==> lengths[k] <= |h|
  {
    if lengths == [] then [] else
    var n := |lengths| - 1;
    CopiedBySyncs(h, start, lengths[..n]) + Copies(h, CursorAfter(start, lengths[..n]), lengths[n], lengths[n])
  }

  /** Some sync before the end of the source had an empty plain answer as its newest message. */
  predicate CaughtEmpty(h: seq<Message>, start: nat, lengths: seq<nat>)
    requires forall k :: 0 <= k < |lengths| ==> lengths[k] <= |h|
  {
    lengths != [] &&
    var n := |lengths| - 1;
    || CaughtEmpty(h, start, lengths[..n])
    || (CursorAfter(start, lengths[..n]) < lengths[n] < |h| && IsEmptyPlain(h[lengths[n] - 1]))
  }

  lemma {:induction false} CopiesSplit(h: seq<Message>, lo: nat, mid: nat, hi: nat, n: nat)
    requires lo <= mid <= hi <= |h|
    ensures Copies(h, lo, hi, n) == Copies(h, lo, mid, n) + Copies(h, mid, hi, n)
  {
    hide CopyOf;
    if mid < hi {
      CopiesSplit(h, lo, mid, hi - 1, n);
    }
  }

  /** Before the last position it does not matter how long the history is. */
  lemma {:induction false} CopiesBeforeEnd(h: seq<Message>, lo: nat, hi: nat, n1: nat, n2: nat)
    requires hi <= |h| && hi < n1 && hi < n2
    ensures Copies(h, lo, hi, n1) == Copies(h, lo, hi, n2)
  {
    hide CopyOf;
    if lo < hi {
      CopiesBeforeEnd(h, lo, hi - 1, n1, n2);
    }
  }

  lemma {:induction false} LastMattersOnlyIfEmpty(m: Message)
    ensures if IsEmptyPlain(m) then CopyOf(m, true) == [AssistantMessage("")] && CopyOf(m, false) == []
            else CopyOf(m, true) == CopyOf(m, false)
  {
    hide IsInternalText, IsScaffolding;
    if m.content == "" {
      InternalIsNotEmpty();
    }
  }

  lemma {:induction false} InternalIsNotEmpty()
    ensures !IsInternalText("")
  {
    assert Text.Trim("") == "";
    assert INTERNAL_LABEL[0] == '[';
  }

  /** One sync that stops at `n`, compared with the same stretch of a single final sync. */
  lemma {:induction false} SyncAgainstFinal(h: seq<Message>, c: nat, n: nat)
    requires n <= |h|
    ensures c >= n || n == |h| || !IsEmptyPlain(h[n - 1]) ==> Copies(h, c, n, n) == Copies(h, c, n, |h|)
    ensures c < n < |h| && IsEmptyPlain(h[n - 1]) ==> |Copies(h, c, n, n)| == |Copies(h, c, n, |h|)| + 1
  {
    hide CopyOf, IsEmptyPlain;
    if c < n < |h| {
      CopiesBeforeEnd(h, c, n - 1, n, |h|);
      LastMattersOnlyIfEmpty(h[n - 1]);
    }
  }

  lemma {:induction false} SyncsAgainstFinal(h: seq<Message>, start: nat, lengths: seq<nat>)
    requires start <= |h| && forall k :: 0 <= k < |lengths| ==> lengths[k] <= |h|
    ensures start <= CursorAfter(start, lengths) <= |h|
    ensures var final := Copies(h, start, CursorAfter(start, lengths), |h|);
      if CaughtEmpty(h, start, lengths) then |CopiedBySyncs(h, start, lengths)| > |final|
      else CopiedBySyncs(h, start, lengths) == final
  {
    hide Copies, IsEmptyPlain;
    if lengths == [] {
      assert Copies(h, start, start, |h|) == [] by { NoCopies(h, start, start, |h|); }
    } else {
      var k := |lengths| - 1;
      var c, n := CursorAfter(start, lengths[..k]), lengths[k];
      SyncsAgainstFinal(h, start, lengths[..k]);
      SyncAgainstFinal(h, c, n);
      if c < n {
        CopiesSplit(h, start, c, n, |h|);
      } else {
        NoCopies(h, c, n, n);
      }
    }
  }

  lemma {:induction false} NoCopies(h: seq<Message>, lo: nat, hi: nat, n: nat)
    requires hi <= |h| && hi <= lo
    ensures Copies(h, lo, hi, n) == []
  {
  }

  /** Any placement of checkpoints that ends with a sync of the whole source gives the target that
      a single final sync gives, exactly when no earlier checkpoint caught an empty answer. */
  lemma {:induction false} CheckpointsDoNotMatterIff(h: seq<Message>, start: nat, lengths: seq<nat>)
    requires start <= |h| && lengths != [] && lengths[|lengths| - 1] == |h|
    requires forall k :: 0 <= k < |lengths| ==> lengths[k] <= |h|
    ensures CopiedBySyncs(h, start, lengths) == Copies(h, start, |h|, |h|) <==> !CaughtEmpty(h, start, lengths)
  {
    hide Copies, CopiedBySyncs, CaughtEmpty;
    SyncsAgainstFinal(h, start, lengths);
  }

  // ---- Every drained message reaches the stored session ----

  function CountOf(s: seq<string>, text: string): nat { multiset(s)[text] }

  lemma {:induction false} LeftoverCount(promoted: seq<string>, mirrored: set<string>, text: string)
    ensures CountOf(Leftovers(promoted, mirrored), text) == if text in mirrored then 0 else CountOf(promoted, text)
  {
    if promoted != [] {
      var n := |promoted| - 1;
      LeftoverCount(promoted[..n], mirrored, text);
      assert promoted == promoted[..n] + [promoted[n]];
    }
  }

  predicate Says(h: seq<Message>, text: string) {
    exists i :: 0 <= i < |h| && h[i].role.User? && h[i].content == text
  }

  lemma {:induction false} SaysConcat(a: seq<Message>, b: seq<Message>, text: string)
    ensures Says(a + b, text) <==> Says(a, text) || Says(b, text)
  {
    if Says(a, text) {
      var i :| 0 <= i < |a| && a[i].role.User? && a[i].content == text;
      assert (a + b)[i] == a[i];
    }
    if Says(b, text) {
      var i :| 0 <= i < |b| && b[i].role.User? && b[i].content == text;
      assert (a + b)[|a| + i] == b[i];
    }
  }

  /** The mirrored texts are those that the user messages of the stretch say, prompts of the compaction aside. */
  lemma {:induction false} MirroredIff(h: seq<Message>, lo: nat, hi: nat, text: string)
    requires lo <= hi <= |h|
    ensures text in MirroredTexts(h, lo, hi) <==> !IsScaffolding(text) && Says(h[lo..hi], text)
  {
    hide IsScaffolding;
    if lo < hi {
      MirroredIff(h, lo, hi - 1, text);
      assert h[lo..hi] == h[lo..hi - 1] + [h[hi - 1]];
      SaysConcat(h[lo..hi - 1], [h[hi - 1]], text);
      assert Says([h[hi - 1]], text) <==> h[hi - 1].role.User? && h[hi - 1].content == text by {
        assert [h[hi - 1]][0] == h[hi - 1];
      }
    }
  }

  lemma {:induction false} MirroredSplit(h: seq<Message>, lo: nat, mid: nat, hi: nat)
    requires lo <= mid <= hi <= |h|
    ensures MirroredTexts(h, lo, hi) == MirroredTexts(h, lo, mid) + MirroredTexts(h, mid, hi)
  {
    hide IsScaffolding;
    if mid < hi {
      MirroredSplit(h, lo, mid, hi - 1);
    }
  }

  lemma {:induction false} MirroredIsCopied(h: seq<Message>, lo: nat, hi: nat, n: nat, text: string)
    requires hi <= |h| && text in MirroredTexts(h, lo, hi)
    ensures Says(Copies(h, lo, hi, n), text)
  {
    var before, last := Copies(h, lo, hi - 1, n), CopyOf(h[hi - 1], hi == n);
    if text in MirroredTexts(h, lo, hi - 1) {
      MirroredIsCopied(h, lo, hi - 1, n, text);
      var i :| 0 <= i < |before| && before[i].role.User? && before[i].content == text;
      assert (before + last)[i] == before[i];
    } else {
      assert (before + last)[|before|] == UserMessage(text);
    }
  }

  /** In a turn that was not cancelled, every text that was drained into it is in the stored
      session afterwards: as a copy of the turn's own message, or added at the end. */
  lemma {:induction false} DrainedReachesSession(h: seq<Message>, start: nat, promoted: seq<string>, text: string)
    requires text in promoted
    ensures Says(Copies(h, start, |h|, |h|) + UserMessages(Leftovers(promoted, MirroredTexts(h, start, |h|))), text)
  {
    hide Copies, MirroredTexts, Leftovers;
    var copies, mirrored := Copies(h, start, |h|, |h|), MirroredTexts(h, start, |h|);
    var added := UserMessages(Leftovers(promoted, mirrored));
    if text in mirrored {
      MirroredIsCopied(h, start, |h|, |h|, text);
      var i :| 0 <= i < |copies| && copies[i].role.User? && copies[i].content == text;
      assert (copies + added)[i] == copies[i];
    } else {
      LeftoverCount(promoted, mirrored, text);
      assert text in multiset(promoted);
      var i :| 0 <= i < |added| && Leftovers(promoted, mirrored)[i] == text;
      assert (copies + added)[|copies| + i] == UserMessage(text);
    }
  }

  /** How many user messages say the text. */
  function SaidCount(h: seq<Message>, text: string): nat {
    if h == [] then 0 else
    SaidCount(h[..|h| - 1], text) + if h[|h| - 1].role.User? && h[|h| - 1].content == text then 1 else 0
  }

  lemma {:induction false} SaidCountConcat(a: seq<Message>, b: seq<Message>, text: string)
    ensures SaidCount(a + b, text) == SaidCount(a, text) + SaidCount(b, text)
  {
    if b == [] {
      assert a + b == a;
    } else {
      assert (a + b)[..|a + b| - 1] == a + b[..|b| - 1];
      SaidCountConcat(a, b[..|b| - 1], text);
    }
  }

  lemma {:induction false} SaidCountOfTexts(texts: seq<string>, text: string)
    ensures SaidCount(UserMessages(texts), text) == CountOf(texts, text)
  {
    if texts != [] {
      var n := |texts| - 1;
      SaidCountOfTexts(texts[..n], text);
      assert UserMessages(texts)[..n] == UserMessages(texts[..n]);
      assert texts == texts[..n] + [texts[n]];
    }
  }

  lemma {:induction false} UnmirroredIsNotCopied(h: seq<Message>, lo: nat, hi: nat, n: nat, text: string)
    requires hi <= |h| && text !in MirroredTexts(h, lo, hi)
    ensures SaidCount(Copies(h, lo, hi, n), text) == 0
  {
    hide IsScaffolding, CopyOf, SaidCount;
    if lo < hi {
      UnmirroredIsNotCopied(h, lo, hi - 1, n, text);
      CopyCount(h[hi - 1], hi == n, text);
      SaidCountConcat(Copies(h, lo, hi - 1, n), CopyOf(h[hi - 1], hi == n), text);
    } else {
      NothingSaid(text);
    }
  }

  lemma {:induction false} NothingSaid(text: string)
    ensures SaidCount([], text) == 0
  {
  }

  lemma {:induction false} CopyCount(m: Message, last: bool, text: string)
    ensures SaidCount(CopyOf(m, last), text) ==
      if m.role.User? && !IsScaffolding(m.content) && m.content == text then 1 else 0
  {
    hide IsScaffolding, IsInternalText;
    var c := CopyOf(m, last);
    assert c != [] ==> c[..|c| - 1] == [];
  }

  /** How often the turn's end leaves a drained text in the stored session: as often as the turn
      recorded it, if it did at all, and otherwise as often as it was drained. So when a text was
      drained more often than it was recorded, the surplus is lost exactly if it was recorded. */
  lemma {:induction false} DrainedCount(h: seq<Message>, start: nat, promoted: seq<string>, text: string)
    ensures var copies, mirrored := Copies(h, start, |h|, |h|), MirroredTexts(h, start, |h|);
      var total := SaidCount(copies + UserMessages(Leftovers(promoted, mirrored)), text);
      && total == (if text in mirrored then SaidCount(copies, text) else CountOf(promoted, text))
      && (total < CountOf(promoted, text) <==> text in mirrored && SaidCount(copies, text) < CountOf(promoted, text))
  {
    hide Copies, MirroredTexts, Leftovers, SaidCount, UserMessages;
    var copies, mirrored := Copies(h, start, |h|, |h|), MirroredTexts(h, start, |h|);
    SaidCountConcat(copies, UserMessages(Leftovers(promoted, mirrored)), text);
    SaidCountOfTexts(Leftovers(promoted, mirrored), text);
    LeftoverCount(promoted, mirrored, text);
    if text !in mirrored {
      UnmirroredIsNotCopied(h, start, |h|, |h|, text);
    }
  }

  // ---- The checkpoints of a turn ----

  /** Behind a tool result a sync does not care whether it is the last one. */
  lemma {:induction false} NotCaughtBehindResults(h: seq<Message>, start: nat, lengths: seq<nat>)
    requires forall k :: 0 <= k < |lengths| ==> lengths[k] <= |h|
    requires forall k :: 0 <= k < |lengths| && 0 < lengths[k] < |h| ==> h[lengths[k] - 1].role.Tool?
    ensures !CaughtEmpty(h, start, lengths)
  {
    if lengths != [] {
      NotCaughtBehindResults(h, start, lengths[..|lengths| - 1]);
    }
  }

  /** The checkpoints of a turn are fired behind tool results: so they never matter. */
  lemma {:induction false} TurnCheckpointsDoNotMatter(h: seq<Message>, start: nat, lengths: seq<nat>)
    requires start <= |h| && lengths != [] && lengths[|lengths| - 1] == |h|
    requires forall k :: 0 <= k < |lengths| ==> lengths[k] <= |h|
    requires forall k :: 0 <= k < |lengths| && 0 < lengths[k] < |h| ==> h[lengths[k] - 1].role.Tool?
    ensures CopiedBySyncs(h, start, lengths) == Copies(h, start, |h|, |h|)
  {
    NotCaughtBehindResults(h, start, lengths);
    CheckpointsDoNotMatterIff(h, start, lengths);
  }

  /** A text that is drained twice, but enters the turn's transcript only once because the turn reached its limit
      first, is stored once. */
  lemma {:induction false} DrainedTwiceStoredOnce(text: string, notice: string)
    requires !IsScaffolding(text)
    ensures var input := PeerInputs.Run(Empty(), [Admit(text), Drain, Admit(text), Drain]);
      var h := [SystemMessage("s"), UserMessage(text), AssistantMessage(notice)];
      var stored := Copies(h, 1, 3, 3) + UserMessages(Leftovers(input.promoted, MirroredTexts(h, 1, 3)));
      && input.promoted == [text, text] && input.drained[text] == 2
      && SaidCount(stored, text) == 1
  {
    var h := [SystemMessage("s"), UserMessage(text), AssistantMessage(notice)];
    PromotedTwice(text);
    assert MirroredTexts(h, 1, 1) == {} && MirroredTexts(h, 1, 2) == {text};
    assert MirroredTexts(h, 1, 3) == {text};
    DrainedCount(h, 1, [text, text], text);
    CopiesSplit(h, 1, 2, 3, 3);
    NoCopies(h, 1, 1, 3);
    NoCopies(h, 2, 2, 3);
    SaidCountConcat(Copies(h, 1, 2, 3), Copies(h, 2, 3, 3), text);
    CopyCount(h[1], false, text);
    CopyCount(h[2], true, text);
    assert Copies(h, 1, 2, 3) == CopyOf(h[1], false) && Copies(h, 2, 3, 3) == CopyOf(h[2], true);
  }

  lemma {:induction false} PromotedTwice(text: string)
    ensures var input := PeerInputs.Run(Empty(), [Admit(text), Drain, Admit(text), Drain]);
      input.promoted == [text, text] && input.drained[text] == 2
  {
    var es := [Admit(text), Drain, Admit(text), Drain];
    assert es[..3] == [Admit(text), Drain, Admit(text)] && es[..3][..2] == [Admit(text), Drain];
    assert es[..3][..2][..1] == [Admit(text)] && es[..3][..2][..1][..0] == [];
    assert PeerInputs.Run(Empty(), es[..3][..2][..1]).pending == [text];
    assert PeerInputs.Run(Empty(), es[..3][..2]).promoted == [text];
    assert PeerInputs.Run(Empty(), es[..3]).pending == [text];
  }
}
