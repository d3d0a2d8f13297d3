/** What mirroring a turn does to the stored session: as events of its transcript, and to its calls and results
    (pkg/agentloop/turn_mirror.go:31-81). */
module Mirroring {
  import opened Messages
  import opened Sessions
  import opened Transcripts
  import opened Pairing
  import opened Replay
  import opened Traces
  import opened TurnMirrors
  import Text

  /** A call message that is copied without its calls. */
  predicate Strips(m: Message) {
    m.toolCalls != [] && (m.summary || m.internalOnly || IsInternalText(m.content))
  }

  ghost predicate NoneStripped(h: seq<Message>, lo: nat) {
    forall i :: lo <= i < |h| ==> !Strips(h[i])
  }

  /** Not in the middle of the results of a call. */
  predicate Boundary(h: seq<Message>, lo: nat) {
    lo <= |h| && (lo < |h| ==> !h[lo].role.Tool?)
  }

  // ---------------------------------------------------------------- events that append

  /** Messages as a turn stores them: no compaction, no pruning, no typed compaction prompt, complete batches. */
  predicate IsTalk(e: Event) {
    (e.AddUser? || e.AddAssistant? || e.AddInternal? || e.AddBatch?) && TypesNoPrompt(e) && IsLegal(e)
  }

  function Appends(e: Event): seq<Message> {
    match e
    case AddUser(text) => [UserMessage(text)]
    case AddAssistant(text) => [AssistantMessage(text)]
    case AddInternal(text) => [InternalMessage(text)]
    case AddBatch(text, calls, results) => [CallMessage(text, calls)] + ResultMessages(results)
    case _ => []
  }

  function Appended(events: seq<Event>): seq<Message> {
    if events == [] then [] else Appends(events[0]) + Appended(events[1..])
  }

  ghost predicate AllTalk(events: seq<Event>) {
    forall k :: 0 <= k < |events| ==> IsTalk(events[k])
  }

  lemma {:induction false} AppendedConcat(a: seq<Event>, b: seq<Event>)
    ensures Appended(a + b) == Appended(a) + Appended(b)
  {
    hide Appends;
    if a == [] {
      assert a + b == b;
    } else {
      assert (a + b)[1..] == a[1..] + b;
      AppendedConcat(a[1..], b);
      assert Appends(a[0]) + (Appended(a[1..]) + Appended(b)) == Appends(a[0]) + Appended(a[1..]) + Appended(b);
    }
  }

  lemma {:induction false} AppendedOne(e: Event)
    ensures Appended([e]) == Appends(e)
  {
    hide Appends;
    assert [e][1..] == [];
  }

  lemma {:induction false} TalkStep(t: State, e: Event)
    requires IsTalk(e)
    ensures Step(t, e) == t.(history := t.history + Appends(e))
  {
    hide LegalBatch;
  }

  /** Running such events only appends their messages. */
  lemma {:induction false} TalkAppends(t: State, events: seq<Event>)
    requires AllTalk(events)
    ensures Run(t, events) == t.(history := t.history + Appended(events))
  {
    hide Step, Appends, IsTalk, Appended;
    if events == [] {
      NothingAppended();
      assert t.history + [] == t.history;
    } else {
      var n := |events| - 1;
      var before, e := events[..n], events[n];
      TalkAppends(t, before);
      TalkStep(Run(t, before), e);
      assert events == before + [e];
      AppendedConcat(before, [e]);
      AppendedOne(e);
      assert t.history + Appended(before) + Appends(e) == t.history + (Appended(before) + Appends(e));
    }
  }

  // ---------------------------------------------------------------- copies

  lemma {:induction false} CopiesFirst(h: seq<Message>, lo: nat, n: nat)
    requires lo < |h|
    ensures Copies(h, lo, |h|, n) == CopyOf(h[lo], lo + 1 == n) + Copies(h, lo + 1, |h|, n)
  {
    hide CopyOf;
    CopiesSplit(h, lo, lo + 1, |h|, n);
    NoCopies(h, lo, lo, n);
  }

  /** The results that stand from `at` on. */
  function ResultsAt(h: seq<Message>, at: nat, n: nat): (r: seq<ToolResult>)
    requires at + n <= |h|
    ensures |r| == n
    ensures forall k :: 0 <= k < n ==> r[k] == ToolResult(h[at + k].toolCallID, h[at + k].name, h[at + k].content)
  {
    seq(n, k requires 0 <= k < n => ToolResult(h[at + k].toolCallID, h[at + k].name, h[at + k].content))
  }

  lemma {:induction false} ResultsCopied(h: seq<Message>, at: nat, n: nat, total: nat)
    requires at + n <= |h| && forall k :: at <= k < at + n ==> h[k].role.Tool?
    ensures Copies(h, at, at + n, total) == ResultMessages(ResultsAt(h, at, n))
  {
    if n > 0 {
      ResultsCopied(h, at, n - 1, total);
      assert ResultsAt(h, at, n)[..n - 1] == ResultsAt(h, at, n - 1);
      assert ResultMessages(ResultsAt(h, at, n)) == ResultMessages(ResultsAt(h, at, n - 1)) +
        [ToolMessage(h[at + n - 1].toolCallID, h[at + n - 1].name, h[at + n - 1].content)];
    }
  }

  lemma {:induction false} AnsweredBy(h: seq<Message>, j: nat) returns (i: nat)
    requires Paired(h) && j < |h| && h[j].role.Tool?
    ensures i < j <= i + |h[i].toolCalls| && h[i].toolCalls != []
  {
    i :| Answers(h, i, j);
  }

  lemma {:induction false} BlockEnds(h: seq<Message>, i: nat)
    requires Paired(h) && i < |h| && h[i].toolCalls != []
    ensures i + |h[i].toolCalls| < |h| && h[i].role.Assistant?
    ensures forall k :: i < k <= i + |h[i].toolCalls| ==> h[k].role.Tool?
    ensures Boundary(h, i + |h[i].toolCalls| + 1)
  {
    assert Block(h, i);
  }

  lemma {:induction false} ToolsCallNothing(h: seq<Message>, k: nat)
    requires Paired(h) && k < |h| && h[k].role.Tool?
    ensures h[k].toolCalls == []
  {
  }

  lemma {:induction false} NextBoundary(h: seq<Message>, lo: nat)
    requires Paired(h) && lo < |h| && !h[lo].role.Tool?
    ensures var n := |h[lo].toolCalls|;
      Boundary(h, lo + 1 + n) && forall k :: lo < k <= lo + n ==> h[k].role.Tool? && h[k].toolCalls == []
  {
    hide Paired;
    var n := |h[lo].toolCalls|;
    if n > 0 {
      BlockEnds(h, lo);
      forall k | lo < k <= lo + n ensures h[k].toolCalls == [] { ToolsCallNothing(h, k); }
    } else if lo + 1 < |h| && h[lo + 1].role.Tool? {
      var i := AnsweredBy(h, lo + 1);
      BlockEnds(h, i);
    }
  }

  /** The results of the call message at `lo` answer its calls. */
  lemma {:induction false} BlockIsLegal(h: seq<Message>, lo: nat)
    requires Paired(h) && lo < |h| && h[lo].toolCalls != []
    ensures lo + |h[lo].toolCalls| < |h| && h[lo].role.Assistant?
    ensures LegalBatch(h[lo].toolCalls, ResultsAt(h, lo + 1, |h[lo].toolCalls|))
  {
    hide Paired, CallIDs, ResultIDs, ResultMessages, ResultsAt;
    BlockAt(h, lo);
    ResultIDsAt(h, lo + 1, |h[lo].toolCalls|);
  }

  lemma {:induction false} BlockAt(h: seq<Message>, lo: nat)
    requires Paired(h) && lo < |h| && h[lo].toolCalls != []
    ensures var n := |h[lo].toolCalls|;
      && lo + 1 + n <= |h| && h[lo].role.Assistant?
      && multiset(ResultIDs(h[lo + 1..lo + 1 + n])) == multiset(CallIDs(h[lo].toolCalls))
  {
    hide CallIDs, ResultIDs;
    assert Block(h, lo);
  }

  lemma {:induction false} ResultIDsAt(h: seq<Message>, at: nat, n: nat)
    requires at + n <= |h|
    ensures ResultIDs(ResultMessages(ResultsAt(h, at, n))) == ResultIDs(h[at..at + n])
  {
  }

  /** The copy of a message without calls, as events. */
  lemma {:induction false} PlainCopyEvents(m: Message, last: bool) returns (events: seq<Event>)
    requires m.toolCalls == [] && !m.role.Tool?
    ensures AllTalk(events) && Appended(events) == CopyOf(m, last)
  {
    hide IsInternalText;
    if CopyOf(m, last) == [] {
      events := [];
    } else {
      var e := match m.role
        case User => AddUser(m.content)
        case _ =>
          if m.internalOnly || IsInternalText(m.content) then AddInternal(m.content) else AddAssistant(m.content);
      events := [e];
      AppendedOne(e);
    }
  }

  /** The copies of a call message and its results, as an event. */
  lemma {:induction false} BlockCopyEvent(h: seq<Message>, lo: nat, total: nat) returns (e: Event)
    requires Paired(h) && lo < |h| && h[lo].toolCalls != [] && !Strips(h[lo])
    ensures lo + 1 + |h[lo].toolCalls| <= |h|
    ensures IsTalk(e) && Appends(e) == Copies(h, lo, lo + 1 + |h[lo].toolCalls|, total)
  {
    hide Paired, IsInternalText, LegalBatch, ResultMessages, ResultsAt, Boundary, Copies;
    var m, n := h[lo], |h[lo].toolCalls|;
    BlockIsLegal(h, lo);
    NextBoundary(h, lo);
    e := AddBatch(m.content, m.toolCalls, ResultsAt(h, lo + 1, n));
    ResultsCopied(h, lo + 1, n, total);
    CopiesSplit(h, lo, lo + 1, lo + 1 + n, total);
    OneCopy(h, lo, total);
    assert CopyOf(m, lo + 1 == total) == [CallMessage(m.content, m.toolCalls)];
  }

  /** From a boundary on, the copies of a paired history are complete events of the stored transcript, if no copied
      call message is internal. */
  lemma {:induction false} MirrorEvents(h: seq<Message>, lo: nat, total: nat) returns (events: seq<Event>)
    requires Paired(h) && Boundary(h, lo) && NoneStripped(h, lo)
    ensures AllTalk(events) && Appended(events) == Copies(h, lo, |h|, total)
    decreases |h| - lo
  {
    hide Paired, Copies, CopyOf, IsTalk, Appends, Appended, Strips;
    if lo == |h| {
      NoCopies(h, lo, lo, total);
      events := [];
      NothingAppended();
    } else {
      var m, n := h[lo], |h[lo].toolCalls|;
      NextBoundary(h, lo);
      var rest := MirrorEvents(h, lo + 1 + n, total);
      var first: seq<Event>;
      if n == 0 {
        first := PlainCopyEvents(m, lo + 1 == total);
        CopiesFirst(h, lo, total);
      } else {
        var e := BlockCopyEvent(h, lo, total);
        first := [e];
        AppendedOne(e);
        CopiesSplit(h, lo, lo + 1 + n, |h|, total);
      }
      events := first + rest;
      AppendedConcat(first, rest);
    }
  }

  lemma {:induction false} NothingAppended()
    ensures Appended([]) == []
  {
  }

  // ---------------------------------------------------------------- calls and results

  lemma {:induction false} TalkKeepsPaired(h: seq<Message>, events: seq<Event>)
    requires Paired(h) && AllTalk(events)
    ensures Paired(h + Appended(events))
    decreases |events|
  {
    hide Paired, LegalBatch;
    if events == [] {
      assert h + [] == h;
    } else {
      var e := events[0];
      OneTalkKeepsPaired(h, e);
      assert AllTalk(events[1..]);
      TalkKeepsPaired(h + Appends(e), events[1..]);
      assert h + Appends(e) + Appended(events[1..]) == h + (Appends(e) + Appended(events[1..]));
    }
  }

  lemma {:induction false} OneTalkKeepsPaired(h: seq<Message>, e: Event)
    requires Paired(h) && IsTalk(e)
    ensures Paired(h + Appends(e))
  {
    hide Paired, LegalBatch;
    match e
    case AddUser(text) => AppendOnePaired(h, UserMessage(text));
    case AddAssistant(text) => AppendOnePaired(h, AssistantMessage(text));
    case AddInternal(text) => AppendOnePaired(h, InternalMessage(text));
    case AddBatch(text, calls, results) => BatchPaired(h, text, calls, results);
  }

  /** A result right behind complete blocks and messages without calls has no call. */
  lemma {:induction false} OrphanedResult(target: seq<Message>, x: seq<Message>, y: Message, rest: seq<Message>)
    requires Paired(target) && y.role.Tool?
    requires forall k :: 0 <= k < |x| ==> x[k].toolCalls == []
    ensures !Paired(target + (x + ([y] + rest)))
  {
    hide Paired;
    var r := target + (x + ([y] + rest));
    var j := |target| + |x|;
    assert r[j] == y;
    if Paired(r) {
      assert forall k :: |target| <= k < j ==> r[k] == x[k - |target|];
      var i := AnsweredBy(r, j);
      assert r[i] == target[i];
      BlockEnds(target, i);
    }
  }

  /** The copies from a call message on that is stripped: its results come without it. */
  lemma {:induction false} StrippedCopies(h: seq<Message>, lo: nat, total: nat)
      returns (x: seq<Message>, y: Message, rest: seq<Message>)
    requires Paired(h) && lo < |h| && Strips(h[lo])
    ensures Copies(h, lo, |h|, total) == x + ([y] + rest) && y.role.Tool?
    ensures forall k :: 0 <= k < |x| ==> x[k].toolCalls == []
  {
    hide Paired, IsInternalText;
    BlockIsLegal(h, lo);
    NextBoundary(h, lo);
    x := CopyOf(h[lo], lo + 1 == total);
    var c := CopyOf(h[lo + 1], lo + 2 == total);
    y, rest := c[0], Copies(h, lo + 2, |h|, total);
    CopiesFirst(h, lo, total);
    CopiesFirst(h, lo + 1, total);
    assert c == [y];
  }

  /** For a paired history mirrored from a boundary on, the stored session stays paired exactly if no copied call
      message is internal, by its flag or by its text. */
  lemma {:induction false} MirrorKeepsPairedIff(target: seq<Message>, h: seq<Message>, lo: nat, total: nat)
    requires Paired(target) && Paired(h) && Boundary(h, lo)
    ensures Paired(target + Copies(h, lo, |h|, total)) <==> NoneStripped(h, lo)
    decreases |h| - lo
  {
    hide Paired, Copies, CopyOf, Strips, IsTalk, Appends, Appended;
    if lo == |h| {
      NoCopies(h, lo, lo, total);
      assert target + [] == target;
    } else if Strips(h[lo]) {
      var x, y, rest := StrippedCopies(h, lo, total);
      OrphanedResult(target, x, y, rest);
    } else {
      var n := |h[lo].toolCalls|;
      NextBoundary(h, lo);
      var first := FirstBlock(h, lo, total);
      TalkKeepsPaired(target, first);
      MirrorKeepsPairedIff(target + Appended(first), h, lo + 1 + n, total);
      CopiesSplit(h, lo, lo + 1 + n, |h|, total);
      assert target + Appended(first) + Copies(h, lo + 1 + n, |h|, total) == target + Copies(h, lo, |h|, total);
      ResultsStripNothing(h, lo);
    }
  }

  /** The events of the first message and its results. */
  lemma {:induction false} FirstBlock(h: seq<Message>, lo: nat, total: nat) returns (events: seq<Event>)
    requires Paired(h) && lo < |h| && !h[lo].role.Tool? && !Strips(h[lo])
    ensures lo + 1 + |h[lo].toolCalls| <= |h|
    ensures AllTalk(events) && Appended(events) == Copies(h, lo, lo + 1 + |h[lo].toolCalls|, total)
  {
    hide Paired, Copies, CopyOf, IsTalk, Appends, Appended;
    if h[lo].toolCalls == [] {
      events := PlainCopyEvents(h[lo], lo + 1 == total);
      OneCopy(h, lo, total);
    } else {
      var e := BlockCopyEvent(h, lo, total);
      events := [e];
      AppendedOne(e);
    }
  }

  lemma {:induction false} OneCopy(h: seq<Message>, lo: nat, total: nat)
    requires lo < |h|
    ensures Copies(h, lo, lo + 1, total) == CopyOf(h[lo], lo + 1 == total)
  {
    hide CopyOf;
    NoCopies(h, lo, lo, total);
  }

  lemma {:induction false} ResultsStripNothing(h: seq<Message>, lo: nat)
    requires Paired(h) && lo < |h| && !h[lo].role.Tool? && !Strips(h[lo])
    ensures NoneStripped(h, lo) <==> NoneStripped(h, lo + 1 + |h[lo].toolCalls|)
  {
    hide IsInternalText;
    NextBoundary(h, lo);
  }

  /** A call message that begins like internal text, and its result, are paired; what is stored of them is not. */
  lemma {:induction false} InternalCallIsStripped(call: ToolCall, output: string)
    ensures var h := [CallMessage(INTERNAL_LABEL, [call]), ToolMessage(call.id, call.name, output)];
      Paired(h) && !Paired(Copies(h, 0, 2, 2))
  {
    hide Paired, Copies, LegalBatch, CallIDs, ResultIDs, Text.Trim, ResultMessages;
    var m, r := CallMessage(INTERNAL_LABEL, [call]), ToolResult(call.id, call.name, output);
    var h := [m, ToolMessage(call.id, call.name, output)];
    Text.TrimIdentity(INTERNAL_LABEL);
    OneResult(call, r);
    NothingPaired();
    BatchPaired([], m.content, [call], [r]);
    assert [] + ([m] + [h[1]]) == h;
    assert Strips(h[0]);
    MirrorKeepsPairedIff([], h, 0, 2);
    assert [] + Copies(h, 0, 2, 2) == Copies(h, 0, 2, 2);
  }

  // ---------------------------------------------------------------- a turn with its checkpoints

  /** What the mirror copies at the checkpoints of a turn and at its end is a run of complete events, if no call
      message of the turn is internal. */
  lemma {:induction false} SyncsAreEvents(start: seq<Message>, hs: seq<seq<Message>>, last: seq<Message>)
    returns (events: seq<Event>)
    requires Paired(start) && Chained(start, hs, last) && Paired(last)
    requires forall k :: 0 <= k < |hs| ==> Paired(hs[k])
    requires NoneStripped(last, |start|)
    ensures AllTalk(events) && Appended(events) == SyncedOver(|start|, hs + [last])
    ensures CursorOver(|start|, hs + [last]) == |last|
  {
    hide Paired, Copies, CopyOf, IsTalk, Appends, Appended, Grows, Strips, MirroredTexts;
    var before: seq<Event>;
    var source := if hs == [] then start else hs[|hs| - 1];
    OneMoreSync(|start|, hs, last);
    ChainedGrows(start, hs, last);
    if hs == [] {
      before := [];
      NothingAppended();
    } else {
      StripsAlike(hs[|hs| - 1], last, |start|);
      before := SyncsAreEvents(start, hs[..|hs| - 1], hs[|hs| - 1]);
      assert hs[..|hs| - 1] + [hs[|hs| - 1]] == hs;
      ChainedGrows(start, hs[..|hs| - 1], hs[|hs| - 1]);
    }
    GrowsLength(source, last);
    GrowsLength(start, source);
    GrownBoundary(source, last);
    var more := MirrorEvents(last, |source|, |last|);
    events := before + more;
    AppendedConcat(before, more);
  }

  lemma {:induction false} GrowsLength(a: seq<Message>, b: seq<Message>)
    requires Grows(a, b) || a == b
    ensures |a| <= |b|
  {
  }

  lemma {:induction false} StripsAlike(a: seq<Message>, b: seq<Message>, lo: nat)
    requires Grows(a, b) && NoneStripped(b, lo) && Paired(a)
    ensures NoneStripped(a, lo)
  {
    hide IsInternalText;
    forall i | lo <= i < |a|
      ensures !Strips(a[i])
    {
      assert KeptAs(a[i], b[i]) && !Strips(b[i]);
      assert a[i].toolCalls != [] ==> a[i].role.Assistant?;
    }
  }

  /** Where one paired history has grown out of another, the new messages begin at a boundary. */
  lemma {:induction false} GrownBoundary(a: seq<Message>, b: seq<Message>)
    requires Paired(a) && Paired(b) && Grows(a, b)
    ensures Boundary(b, |a|)
  {
    hide Paired;
    if |a| < |b| && b[|a|].role.Tool? {
      var i := AnsweredBy(b, |a|);
      assert KeptAs(a[i], b[i]);
      BlockEnds(a, i);
    }
  }

  /** The same messages in the same order, but that the output of tools may differ. */
  predicate AlikeButOutput(a: seq<Message>, b: seq<Message>) {
    |a| == |b| && forall i :: 0 <= i < |a| ==> KeptAs(a[i], b[i])
  }

  lemma {:induction false} CopyAlike(a: Message, b: Message, last: bool)
    requires KeptAs(a, b)
    ensures AlikeButOutput(CopyOf(a, last), CopyOf(b, last))
  {
    hide IsInternalText, IsScaffolding;
  }

  lemma {:induction false} CopiesAlike(a: seq<Message>, b: seq<Message>, lo: nat, hi: nat, total: nat)
    requires Grows(a, b) && hi <= |a|
    ensures AlikeButOutput(Copies(a, lo, hi, total), Copies(b, lo, hi, total))
    decreases hi
  {
    hide CopyOf, KeptAs;
    if lo < hi {
      CopiesAlike(a, b, lo, hi - 1, total);
      CopyAlike(a[hi - 1], b[hi - 1], hi == total);
    }
  }

  lemma {:induction false} AlikeConcat(a: seq<Message>, b: seq<Message>, c: seq<Message>, d: seq<Message>)
    requires AlikeButOutput(a, b) && AlikeButOutput(c, d)
    ensures AlikeButOutput(a + c, b + d)
  {
    hide KeptAs;
  }

  /** A sync behind a tool result copies what a sync of the final history copies of that stretch. */
  lemma {:induction false} CheckpointCopies(h: seq<Message>, last: seq<Message>, c: nat)
    requires Grows(h, last) && c <= |h| && (h != [] ==> h[|h| - 1].role.Tool? || |h| == |last|)
    ensures AlikeButOutput(Copies(h, c, |h|, |h|), Copies(last, c, |h|, |last|))
  {
    hide CopyOf, KeptAs, IsEmptyPlain;
    CopiesAlike(h, last, c, |h|, |h|);
    if c < |h| && |h| < |last| {
      LastIsResult(h, last);
      SyncAgainstFinal(last, c, |h|);
    } else if c >= |h| {
      NoCopies(last, c, |h|, |h|);
      NoCopies(last, c, |h|, |last|);
    }
  }

  lemma {:induction false} LastIsResult(h: seq<Message>, last: seq<Message>)
    requires Grows(h, last) && h != [] && h[|h| - 1].role.Tool?
    ensures !IsEmptyPlain(last[|h| - 1])
  {
    assert KeptAs(h[|h| - 1], last[|h| - 1]);
  }

  /** The checkpoints of a turn change nothing but that output cleared after a checkpoint is stored in full: with
      any checkpoints the stored session gets the messages, in the order, that a single final sync would copy. */
  lemma {:induction false} CheckpointsKeepStructure(start: seq<Message>, hs: seq<seq<Message>>, last: seq<Message>)
    requires Chained(start, hs, last) && forall k :: 0 <= k < |hs| ==> IsCheckpoint(hs[k])
    ensures AlikeButOutput(SyncedOver(|start|, hs + [last]), Copies(last, |start|, |last|, |last|))
  {
    hide Copies, Grows, Paired, AlikeButOutput, MirroredTexts;
    ChainedGrows(start, hs, last);
    GrowsLength(start, last);
    SyncedUpTo(start, hs, last);
    OneMoreSync(|start|, hs, last);
    var c := CursorOver(|start|, hs);
    CopiesSplit(last, |start|, c, |last|, |last|);
    AlikeSame(Copies(last, c, |last|, |last|));
    AlikeConcat(SyncedOver(|start|, hs), Copies(last, |start|, c, |last|), Copies(last, c, |last|, |last|),
      Copies(last, c, |last|, |last|));
  }

  lemma {:induction false} MirroredAlike(a: seq<Message>, b: seq<Message>, lo: nat, hi: nat)
    requires Grows(a, b) && hi <= |a|
    ensures MirroredTexts(a, lo, hi) == MirroredTexts(b, lo, hi)
  {
    hide IsScaffolding;
    if lo < hi {
      MirroredAlike(a, b, lo, hi - 1);
    }
  }

  /** Whatever the checkpoints, the texts mirrored are those of the turn's user messages. */
  lemma {:induction false} MirroredOverIs(start: seq<Message>, hs: seq<seq<Message>>, last: seq<Message>)
    requires Chained(start, hs, last)
    ensures |start| <= |last| && CursorOver(|start|, hs + [last]) == |last|
    ensures MirroredOver(|start|, hs + [last]) == MirroredTexts(last, |start|, |last|)
  {
    hide MirroredTexts, Grows, SyncedOver;
    ChainedGrows(start, hs, last);
    GrowsLength(start, last);
    OneMoreSync(|start|, hs, last);
    if hs != [] {
      var h := hs[|hs| - 1];
      MirroredOverIs(start, hs[..|hs| - 1], h);
      assert hs[..|hs| - 1] + [h] == hs;
      GrowsLength(h, last);
      MirroredAlike(h, last, |start|, |h|);
      MirroredSplit(last, |start|, |h|, |last|);
    }
  }

  lemma {:induction false} AlikeSame(a: seq<Message>)
    ensures AlikeButOutput(a, a)
  {
  }

  /** What the checkpoints have copied, against the final history. */
  lemma {:induction false} SyncedUpTo(start: seq<Message>, hs: seq<seq<Message>>, last: seq<Message>)
    requires Chained(start, hs, last) && forall k :: 0 <= k < |hs| ==> IsCheckpoint(hs[k])
    ensures var c := CursorOver(|start|, hs);
      && c == (if hs == [] then |start| else |hs[|hs| - 1]|) && |start| <= c <= |last|
      && AlikeButOutput(SyncedOver(|start|, hs), Copies(last, |start|, c, |last|))
    decreases |hs|
  {
    hide Copies, Grows, Paired, AlikeButOutput, MirroredTexts;
    ChainedGrows(start, hs, last);
    GrowsLength(start, last);
    if hs == [] {
      NoCopies(last, |start|, |start|, |last|);
      AlikeSame([]);
    } else {
      var before, h := hs[..|hs| - 1], hs[|hs| - 1];
      var c := CursorOver(|start|, before);
      GrowsLength(h, last);
      ChainedOn(start, before, h, last);
      SyncedUpTo(start, before, last);
      ChainedGrows(start, before, h);
      SyncedUpTo(start, before, h);
      assert IsCheckpoint(h);
      CheckpointCopies(h, last, c);
      CopiesSplit(last, |start|, c, |h|, |last|);
      AlikeConcat(SyncedOver(|start|, before), Copies(last, |start|, c, |last|),
        Copies(h, c, |h|, |h|), Copies(last, c, |h|, |last|));
    }
  }
}
