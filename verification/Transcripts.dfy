/** Whole runs of a session transcript: messages are appended, tool output is pruned and heads
    are compacted, in any order. The state also records which messages were in a head handed to the
    summariser, with the content they had. */
module Transcripts {
  import opened Messages
  import opened Sessions
  import opened Pruning
  import opened Compaction
  import Filter
  import Text

  const PRUNE_PROTECTED_TOOLS := ["skill"]

  datatype ToolResult = ToolResult(id: string, name: string, content: string)

  datatype Event =
    | AddUser(text: string)
    | AddAssistant(text: string)
    | AddInternal(text: string)
    | AddBatch(text: string, calls: seq<ToolCall>, results: seq<ToolResult>)
    | SetSystemPrompt(text: string)
    | Prune
    | Compress(keep: int, summary: string)

  /** A transcript, and for every position that was in a head handed to the summariser what stood there. */
  datatype State = State(history: seq<Message>, told: map<nat, RawMessage>)

  function Init(systemPrompt: string): State { State([SystemMessage(systemPrompt)], map[]) }

  function ResultMessages(results: seq<ToolResult>): (r: seq<Message>)
    ensures |r| == |results|
    ensures forall k :: 0 <= k < |r| ==> r[k] == ToolMessage(results[k].id, results[k].name, results[k].content)
  {
    seq(|results|, k requires 0 <= k < |results| => ToolMessage(results[k].id, results[k].name, results[k].content))
  }

  function SystemUpdated(h: seq<Message>, prompt: string): seq<Message> {
    if h != [] && h[0].role.System? then h[0 := h[0].(content := prompt)] else [SystemMessage(prompt)] + h
  }

  function ClearPruned(m: Message, pruned: RawMessage): Message {
    if pruned.compacted && !m.compacted then m.(content := PRUNED_OUTPUT_PLACEHOLDER, compacted := true) else m
  }

  function PrunedHistory(h: seq<Message>): (r: seq<Message>)
    ensures |r| == |h|
    ensures forall i :: 0 <= i < |h| ==> r[i] == ClearPruned(h[i], Pruned(Raw(h), PRUNE_PROTECTED_TOOLS)[i])
  {
    var p := Pruned(Raw(h), PRUNE_PROTECTED_TOOLS);
    seq(|h|, i requires 0 <= i < |h| => ClearPruned(h[i], p[i]))
  }

  function Told(h: seq<Message>, head: seq<nat>): (m: map<nat, RawMessage>)
    requires forall k :: 0 <= k < |head| ==> head[k] < |h|
  {
    map i | i in head :: RawOf(h[i])
  }

  function PlanHeadBounded(h: seq<Message>, keep: int): (p: Plan)
    ensures p == PlanOf(Raw(h), keep)
    ensures p.Plan? ==> p.firstKept < |h| && forall k :: 0 <= k < |p.head| ==> p.head[k] < |h|
  {
    if PlanOf(Raw(h), keep).Plan? then PlanProgress(Raw(h), keep); PlanOf(Raw(h), keep) else NoPlan
  }

  function Compacted(t: State, keep: int, summary: string): State {
    var p := PlanHeadBounded(t.history, keep);
    if p.NoPlan? || Text.Trim(summary) == "" then t else
    State(Marked(t.history, p.firstKept, summary), t.told + Told(t.history, p.head))
  }

  function Step(t: State, e: Event): State {
    match e
    case AddUser(text) => t.(history := t.history + [UserMessage(text)])
    case AddAssistant(text) => t.(history := t.history + [AssistantMessage(text)])
    case AddInternal(text) => t.(history := t.history + [InternalMessage(text)])
    case AddBatch(text, calls, results) =>
      t.(history := t.history + ([CallMessage(text, calls)] + ResultMessages(results)))
    case SetSystemPrompt(text) => t.(history := SystemUpdated(t.history, text))
    case Prune => t.(history := PrunedHistory(t.history))
    case Compress(keep, summary) => Compacted(t, keep, summary)
  }

  function Run(t: State, events: seq<Event>): State {
    if events == [] then t else Step(Run(t, events[..|events| - 1]), events[|events| - 1])
  }

  // ---- Invariants of a run ----

  /** Tail start of the latest summary, or 0. */
  function Tail(h: seq<Message>): int {
    if LastMarker(h) < 0 then 0 else h[LastMarker(h)].tailStartID
  }

  /** A summary directly follows its prompt and its tail starts strictly inside what precedes the
      prompt, at a message where a cut may fall. */
  ghost predicate MarkedAt(h: seq<Message>, i: nat)
    requires i < |h|
  {
    && IsMarker(h[i]) && h[i].toolCalls == [] && i >= 1 && IsPrompt(h[i - 1])
    && 0 < h[i].tailStartID < i - 1
    && IsValidCutPoint(RawOf(h[h[i].tailStartID])) && !h[h[i].tailStartID].summary
  }

  ghost predicate WellMarked(h: seq<Message>) {
    && (forall i :: 0 <= i < |h| && h[i].summary ==> MarkedAt(h, i))
    && (forall i, j :: 0 <= i < j < |h| && h[i].summary && h[j].summary ==> h[i].tailStartID < h[j].tailStartID)
  }

  /** Only messages before the tail, and cleared tool output, carry the compacted flag. */
  ghost predicate FlagsBeforeTail(h: seq<Message>) {
    forall i :: 0 <= i < |h| && h[i].compacted ==> i < Tail(h) || IsPlaceholder(h[i])
  }

  ghost predicate SystemFirst(h: seq<Message>) {
    h != [] && h[0].role.System? && forall i :: 1 <= i < |h| ==> !h[i].role.System?
  }

  ghost predicate CallsByAssistant(h: seq<Message>) {
    forall i :: 0 <= i < |h| && h[i].toolCalls != [] ==> h[i].role.Assistant?
  }

  /** The message was in a head handed to the summariser, with its content, or there is nothing to lose. */
  ghost predicate Accounted(t: State, i: nat)
    requires i < |t.history|
  {
    var m := t.history[i];
    || m.role.System? || IsPrompt(m) || m.summary || IsPlaceholder(m)
    || (i in t.told && t.told[i].role == m.role && t.told[i].content == RawOf(m).content)
  }

  ghost predicate Inv(t: State) {
    && WellMarked(t.history) && FlagsBeforeTail(t.history) && SystemFirst(t.history) && CallsByAssistant(t.history)
    && forall i :: 0 <= i < |t.history| && i < Tail(t.history) ==> Accounted(t, i)
  }

  // ---- Preservation ----

  lemma {:induction false} LastMarkerAppend(h: seq<Message>, ms: seq<Message>)
    requires forall k :: 0 <= k < |ms| ==> !IsMarker(ms[k])
    ensures LastMarker(h + ms) == LastMarker(h)
  {
    if ms == [] {
      assert h + ms == h;
    } else {
      assert (h + ms)[..|h + ms| - 1] == h + ms[..|ms| - 1];
      LastMarkerAppend(h, ms[..|ms| - 1]);
    }
  }

  lemma {:induction false} LastMarkerUnique(h: seq<Message>, m: int)
    requires -1 <= m < |h| && (m >= 0 ==> IsMarker(h[m])) && forall i :: m < i < |h| ==> !IsMarker(h[i])
    ensures LastMarker(h) == m
  {
  }

  predicate IsPlainMessage(m: Message) {
    !m.summary && !m.compacted && !m.role.System? && (m.toolCalls != [] ==> m.role.Assistant?)
  }

  lemma {:induction false} AppendKeepsInv(t: State, ms: seq<Message>)
    requires Inv(t) && forall k :: 0 <= k < |ms| ==> IsPlainMessage(ms[k])
    ensures Inv(t.(history := t.history + ms))
  {
    var h := t.history + ms;
    LastMarkerAppend(t.history, ms);
    forall i | 0 <= i < |h| && h[i].summary
      ensures i < |t.history| && MarkedAt(h, i)
    {
      assert MarkedAt(t.history, i);
    }
    forall i | 0 <= i < |h| && i < Tail(h)
      ensures Accounted(t.(history := h), i)
    {
      assert MarkedAt(t.history, LastMarker(t.history));
      assert Accounted(t, i);
    }
  }

  /** `h2` is `h1` up to cleared tool output and the text of the system message. */
  ghost predicate SameButCleared(h1: seq<Message>, h2: seq<Message>) {
    && |h1| == |h2|
    && forall i :: 0 <= i < |h1| ==>
      || h2[i] == h1[i]
      || (h1[i].role.System? && h2[i] == h1[i].(content := h2[i].content))
      || (h1[i].role.Tool? && h2[i] == h1[i].(content := PRUNED_OUTPUT_PLACEHOLDER, compacted := true))
  }

  lemma {:induction false} ClearingKeepsMarks(h: seq<Message>, r: seq<Message>)
    requires WellMarked(h) && SameButCleared(h, r)
    ensures WellMarked(r) && Tail(r) == Tail(h)
    ensures forall i :: 0 <= i < |r| ==> (r[i].summary <==> h[i].summary)
  {
    hide LastMarker, RawOf;
    forall i | 0 <= i < |r| && r[i].summary
      ensures MarkedAt(r, i)
    {
      assert MarkedAt(h, i);
      RawRole(r, h, h[i].tailStartID);
    }
    LastMarkerUnique(r, LastMarker(h));
    assert LastMarker(r) >= 0 ==> MarkedAt(h, LastMarker(r));
  }

  lemma {:induction false} ClearingKeepsInv(t: State, h: seq<Message>)
    requires Inv(t) && SameButCleared(t.history, h)
    ensures Inv(t.(history := h)) && Tail(h) == Tail(t.history)
  {
    hide LastMarker, RawOf, WellMarked;
    assert WellMarked(t.history);
    ClearingKeepsMarks(t.history, h);
    forall i | 0 <= i < |h| && i < Tail(h)
      ensures Accounted(t.(history := h), i)
    {
      assert Accounted(t, i);
    }
  }

  lemma {:induction false} RawRole(a: seq<Message>, b: seq<Message>, i: nat)
    requires i < |a| && i < |b| && a[i].role == b[i].role
    ensures RawOf(a[i]).role == RawOf(b[i]).role
  {
  }

  lemma {:induction false} PruningClears(h: seq<Message>)
    ensures SameButCleared(h, PrunedHistory(h))
  {
    hide Pruned;
    PrunedShape(Raw(h), PRUNE_PROTECTED_TOOLS);
    forall i | 0 <= i < |h|
      ensures PrunedHistory(h)[i] != h[i] ==> h[i].role.Tool?
    {
      assert Raw(h)[i] == RawOf(h[i]);
    }
  }

  lemma {:induction false} WorkStartsAtTail(h: seq<Message>, n: nat)
    requires n <= |h| && WellMarked(h)
    ensures WorkStart(Raw(h), n) == Tail(h[..n])
  {
    if n > 0 {
      assert h[..n][..n - 1] == h[..n - 1];
      assert Raw(h)[n - 1].summary == h[n - 1].summary && Raw(h)[n - 1].tailStartID == h[n - 1].tailStartID;
      if h[n - 1].summary {
        assert MarkedAt(h, n - 1);
      } else {
        hide WellMarked;
        WorkStartsAtTail(h, n - 1);
      }
    }
  }

  /** In a reachable transcript the summariser starts exactly at the latest tail. */
  lemma {:induction false} PlanFromTail(h: seq<Message>, keep: int)
    requires WellMarked(h) && PlanOf(Raw(h), keep).Plan?
    ensures var p := PlanOf(Raw(h), keep);
      && Tail(h) < p.firstKept < |h|
      && IsValidCutPoint(RawOf(h[p.firstKept])) && !h[p.firstKept].summary
      && WorkStart(Raw(h), |h|) == Tail(h)
  {
    hide PlanOf;
    assert h[..|h|] == h;
    WorkStartsAtTail(h, |h|);
    PlanProgress(Raw(h), keep);
  }

  lemma {:induction false} TailBounds(h: seq<Message>)
    requires WellMarked(h)
    ensures 0 <= Tail(h) <= |h|
    ensures forall i :: 0 <= i < |h| && h[i].summary ==> h[i].tailStartID <= Tail(h)
  {
    hide LastMarker;
    if LastMarker(h) >= 0 {
      assert MarkedAt(h, LastMarker(h));
    }
    forall i | 0 <= i < |h| && h[i].summary
      ensures h[i].tailStartID <= Tail(h)
    {
      assert MarkedAt(h, i);
    }
  }

  /** Marking a compaction whose tail start is past the latest one, at a valid cut. */
  lemma {:induction false} MarkingKeepsMarks(h: seq<Message>, f: nat, summary: string)
    requires WellMarked(h) && Tail(h) < f < |h|
    requires IsValidCutPoint(RawOf(h[f])) && !h[f].summary
    ensures WellMarked(Marked(h, f, summary)) && Tail(Marked(h, f, summary)) == f
  {
    hide LastMarker;
    var r := Marked(h, f, summary);
    TailBounds(h);
    forall i | 0 <= i < |r| && r[i].summary
      ensures MarkedAt(r, i)
      ensures i < |h| ==> h[i].summary && h[i].tailStartID == r[i].tailStartID
    {
      if i < |h| {
        assert MarkedAt(h, i);
        RawRole(h, r, h[i].tailStartID);
      } else {
        assert i == |h| + 1;
        RawRole(h, r, f);
      }
    }
    LastMarkerUnique(r, |h| + 1);
  }

  /** The record keeps what was told about the messages before the tail. */
  ghost predicate KeepsTold(t: State, told: map<nat, RawMessage>) {
    forall i :: i in t.told && i < Tail(t.history) ==> i in told && told[i] == t.told[i]
  }

  /** The record accounts for all messages between the tail and `f`. */
  ghost predicate Covers(t: State, told: map<nat, RawMessage>, f: nat) {
    f <= |t.history| && forall i :: Tail(t.history) <= i < f && 0 <= i ==> Accounted(State(t.history, told), i)
  }

  lemma {:induction false} MarkingKeepsInv(t: State, told: map<nat, RawMessage>, f: nat, summary: string)
    requires Inv(t) && Tail(t.history) < f < |t.history|
    requires IsValidCutPoint(RawOf(t.history[f])) && !t.history[f].summary
    requires KeepsTold(t, told) && Covers(t, told, f)
    ensures Inv(State(Marked(t.history, f, summary), told))
  {
    hide LastMarker, WellMarked;
    var h := t.history;
    var r := Marked(h, f, summary);
    assert 0 <= Tail(h) by { TailBounds(h); }
    MarkingKeepsMarks(h, f, summary);
    forall i | 0 <= i < f
      ensures Accounted(State(r, told), i)
    {
      assert i < Tail(h) ==> Accounted(t, i);
      assert Accounted(State(h, told), i);
      RawContent(h[i], r[i]);
    }
  }

  lemma {:induction false} RawContent(a: Message, b: Message)
    requires b == a || b == a.(compacted := true)
    ensures RawOf(a).content == RawOf(b).content
  {
  }

  /** Every message between the latest tail and the planned one is accounted for by the plan. */
  lemma {:induction false} PlanAccounts(t: State, keep: int, i: nat)
    requires Inv(t) && PlanOf(Raw(t.history), keep).Plan?
    requires Tail(t.history) <= i < PlanOf(Raw(t.history), keep).firstKept
    ensures var p := PlanHeadBounded(t.history, keep);
      p.firstKept < |t.history| && Accounted(State(t.history, t.told + Told(t.history, p.head)), i)
  {
    hide LastMarker, PlanOf;
    PlanFromTail(t.history, keep);
    PlanHead(Raw(t.history), keep, i);
    assert Raw(t.history)[i] == RawOf(t.history[i]);
    assert t.history[i].role.User? ==> RawOf(t.history[i]).content == t.history[i].content;
  }

  lemma {:induction false} CompactionKeepsInv(t: State, keep: int, summary: string)
    requires Inv(t)
    ensures Inv(Compacted(t, keep, summary))
  {
    hide Tail, PlanOf, Marked, Inv, Covers, KeepsTold, WellMarked, Told;
    var p := PlanHeadBounded(t.history, keep);
    if p.Plan? && Text.Trim(summary) != "" {
      InvMarks(t);
      PlanFromTail(t.history, keep);
      PlanCovers(t, keep);
      PlanKeepsTold(t, keep);
      MarkingKeepsInv(t, t.told + Told(t.history, p.head), p.firstKept, summary);
    }
  }

  lemma {:induction false} PlanCovers(t: State, keep: int)
    requires Inv(t) && PlanOf(Raw(t.history), keep).Plan?
    ensures var p := PlanHeadBounded(t.history, keep);
      Covers(t, t.told + Told(t.history, p.head), p.firstKept)
  {
    hide Inv, PlanOf, Accounted, Told, Tail;
    var p := PlanHeadBounded(t.history, keep);
    forall i: nat | Tail(t.history) <= i < p.firstKept
      ensures Accounted(State(t.history, t.told + Told(t.history, p.head)), i)
    {
      PlanAccounts(t, keep, i);
    }
  }

  lemma {:induction false} PlanKeepsTold(t: State, keep: int)
    requires Inv(t) && PlanOf(Raw(t.history), keep).Plan?
    ensures KeepsTold(t, t.told + Told(t.history, PlanHeadBounded(t.history, keep).head))
  {
    hide Inv, PlanOf, Told, Tail;
    forall i: nat | i in t.told && i < Tail(t.history)
      ensures i !in Told(t.history, PlanHeadBounded(t.history, keep).head)
    {
      OldHeads(t, keep, i);
    }
  }

  lemma {:induction false} InvMarks(t: State)
    requires Inv(t)
    ensures WellMarked(t.history)
  {
  }

  /** A plan never takes up again what lies before the latest tail. */
  lemma {:induction false} OldHeads(t: State, keep: int, i: nat)
    requires Inv(t) && PlanOf(Raw(t.history), keep).Plan? && i < Tail(t.history)
    ensures i !in Told(t.history, PlanHeadBounded(t.history, keep).head)
  {
    hide PlanOf, LastMarker;
    PlanFromTail(t.history, keep);
    PlanHead(Raw(t.history), keep, i);
    assert i !in PlanHeadBounded(t.history, keep).head;
  }

  lemma {:induction false} StepKeepsInv(t: State, e: Event)
    requires Inv(t)
    ensures Inv(Step(t, e))
  {
    hide Inv, Compacted, PrunedHistory, SystemUpdated;
    match e
    case AddUser(text) => AppendKeepsInv(t, [UserMessage(text)]);
    case AddAssistant(text) => AppendKeepsInv(t, [AssistantMessage(text)]);
    case AddInternal(text) => AppendKeepsInv(t, [InternalMessage(text)]);
    case AddBatch(text, calls, results) =>
      BatchIsPlain(text, calls, results);
      AppendKeepsInv(t, [CallMessage(text, calls)] + ResultMessages(results));
    case SetSystemPrompt(text) =>
      SystemUpdateClears(t, text);
      ClearingKeepsInv(t, SystemUpdated(t.history, text));
    case Prune =>
      PruningClears(t.history);
      ClearingKeepsInv(t, PrunedHistory(t.history));
    case Compress(keep, summary) => CompactionKeepsInv(t, keep, summary);
  }

  lemma {:induction false} BatchIsPlain(text: string, calls: seq<ToolCall>, results: seq<ToolResult>)
    ensures var ms := [CallMessage(text, calls)] + ResultMessages(results);
      forall k :: 0 <= k < |ms| ==> IsPlainMessage(ms[k])
  {
  }

  lemma {:induction false} SystemUpdateClears(t: State, text: string)
    requires Inv(t)
    ensures SameButCleared(t.history, SystemUpdated(t.history, text))
  {
  }

  /** Whatever is appended, pruned and compacted in whatever order: the invariant holds. */
  lemma {:induction false} RunKeepsInv(systemPrompt: string, events: seq<Event>)
    ensures Inv(Run(Init(systemPrompt), events))
  {
    hide Step, Inv;
    if events == [] {
      assert Inv(Init(systemPrompt)) by { InitInv(systemPrompt); }
    } else {
      RunKeepsInv(systemPrompt, events[..|events| - 1]);
      StepKeepsInv(Run(Init(systemPrompt), events[..|events| - 1]), events[|events| - 1]);
    }
  }

  lemma {:induction false} InitInv(systemPrompt: string)
    ensures Inv(Init(systemPrompt))
  {
    LastMarkerUnique(Init(systemPrompt).history, -1);
  }

  // ---- What it means for a reader of the transcript ----

  /** In every run the recorded tail starts strictly increase, and each lies strictly between the
      first message and the summary that records it, on a message of the user or the assistant. */
  lemma {:induction false} TailStartsIncrease(systemPrompt: string, events: seq<Event>)
    ensures var h := Run(Init(systemPrompt), events).history;
      && (forall i :: 0 <= i < |h| && h[i].summary ==>
        0 < h[i].tailStartID < i && (h[h[i].tailStartID].role.User? || h[h[i].tailStartID].role.Assistant?))
      && (forall i, j :: 0 <= i < j < |h| && h[i].summary && h[j].summary ==> h[i].tailStartID < h[j].tailStartID)
  {
    hide Run;
    RunKeepsInv(systemPrompt, events);
    var h := Run(Init(systemPrompt), events).history;
    forall i | 0 <= i < |h| && h[i].summary
      ensures 0 < h[i].tailStartID < i && (h[h[i].tailStartID].role.User? || h[h[i].tailStartID].role.Assistant?)
    {
      assert MarkedAt(h, i);
    }
  }

  /** What the model sees after a compaction: the system message, the latest prompt and summary,
      and then everything from the latest tail start on, in order and without gaps. */
  lemma {:induction false} VisibleShape(h: seq<Message>)
    requires WellMarked(h) && SystemFirst(h) && LastMarker(h) >= 0
    ensures var m := LastMarker(h);
      && 0 < Tail(h) < m - 1
      && Visible(h) == [h[0]] + ([h[m - 1], h[m]] + (h[Tail(h)..m - 1] + h[m + 1..]))
  {
    hide LastMarker, LastUserBefore, Except;
    var m := LastMarker(h);
    assert MarkedAt(h, m);
    PromptBefore(h, m);
    ExceptPair(h, Tail(h), m - 1);
  }

  lemma {:induction false} PromptBefore(h: seq<Message>, m: nat)
    requires 1 <= m <= |h| && h[m - 1].role.User?
    ensures LastUserBefore(h, m) == m - 1
  {
  }

  /** Nothing is lost of a transcript for which the invariant holds. A message from the latest tail start on is
      visible; any other was in a head handed to the summariser, or is the system message, a compaction prompt, an
      earlier summary or tool output that was cleared. */
  lemma {:induction false} InvLosesNothing(t: State, i: nat)
    requires Inv(t) && i < |t.history|
    ensures if Tail(t.history) <= i then t.history[i] in Visible(t.history) else Accounted(t, i)
  {
    hide Visible, LastMarker, Accounted;
    var h := t.history;
    if Tail(h) <= i {
      if LastMarker(h) >= 0 {
        VisibleShape(h);
        var m := LastMarker(h);
        if i < m - 1 {
          assert h[i] == h[Tail(h)..m - 1][i - Tail(h)];
        } else if i > m {
          assert h[i] == h[m + 1..][i - m - 1];
        }
      } else {
        assert Visible(h) == h by { NoMarkerNoChange(h); }
      }
    }
  }

  /** The compaction adds a marker. */
  predicate TakesEffect(h: seq<Message>, e: Event) {
    e.Compress? && PlanOf(Raw(h), e.keep).Plan? && Text.Trim(e.summary) != ""
  }

  /** Some compaction of the run found this as the latest summary, to go on from. */
  ghost predicate WentOn(systemPrompt: string, events: seq<Event>, content: string) {
    exists k :: 0 <= k < |events| && GoesOn(Run(Init(systemPrompt), events[..k]).history, events[k], content)
  }

  ghost predicate GoesOn(h: seq<Message>, e: Event, content: string) {
    TakesEffect(h, e) && LatestSays(Raw(h), content)
  }

  /** The same messages are summaries, and say the same. */
  ghost predicate SameSummaries(h: seq<Message>, h': seq<Message>) {
    && |h| <= |h'|
    && forall i :: 0 <= i < |h| ==> h'[i].summary == h[i].summary && (h[i].summary ==> h'[i].content == h[i].content)
  }

  /** No summary came behind. */
  ghost predicate NoNewSummary(h: seq<Message>, h': seq<Message>) {
    SameSummaries(h, h') && LastMarker(h') == LastMarker(h) && forall i :: |h| <= i < |h'| ==> !h'[i].summary
  }

  /** One summary came behind, and no other. */
  ghost predicate OneNewSummary(h: seq<Message>, h': seq<Message>) {
    SameSummaries(h, h') && LastMarker(h') == |h| + 1 && forall i :: |h| <= i < |h'| && h'[i].summary ==> i == |h| + 1
  }

  lemma {:induction false} AppendAddsNoSummary(h: seq<Message>, ms: seq<Message>)
    requires forall k :: 0 <= k < |ms| ==> !ms[k].summary
    ensures NoNewSummary(h, h + ms)
  {
    LastMarkerAppend(h, ms);
  }

  lemma {:induction false} ClearingAddsNoSummary(h: seq<Message>, r: seq<Message>)
    requires WellMarked(h) && SameButCleared(h, r)
    ensures NoNewSummary(h, r)
  {
    hide LastMarker;
    ClearingKeepsMarks(h, r);
    forall i | 0 <= i < |h| && h[i].summary
      ensures r[i].content == h[i].content
    {
      assert MarkedAt(h, i);
    }
    assert forall i :: 0 <= i < |h| && h[i].summary ==> MarkedAt(h, i);
    LastMarkerUnique(r, LastMarker(h));
  }

  lemma {:induction false} MarkingAddsSummary(h: seq<Message>, f: int, summary: string)
    ensures OneNewSummary(h, Marked(h, f, summary)) && |Marked(h, f, summary)| == |h| + 2
  {
    LastMarkerUnique(Marked(h, f, summary), |h| + 1);
  }

  /** Only a compaction adds a summary, and nothing changes what a summary says. */
  lemma {:induction false} StepKeepsSummaries(t: State, e: Event)
    requires Inv(t)
    ensures if TakesEffect(t.history, e) then OneNewSummary(t.history, Step(t, e).history)
      else NoNewSummary(t.history, Step(t, e).history)
  {
    hide PrunedHistory, SystemUpdated, OneNewSummary, NoNewSummary, PlanOf, Marked, WellMarked, Told, Text.Trim;
    match e
    case AddUser(text) => AppendAddsNoSummary(t.history, [UserMessage(text)]);
    case AddAssistant(text) => AppendAddsNoSummary(t.history, [AssistantMessage(text)]);
    case AddInternal(text) => AppendAddsNoSummary(t.history, [InternalMessage(text)]);
    case AddBatch(text, calls, results) =>
      BatchIsPlain(text, calls, results);
      AppendAddsNoSummary(t.history, [CallMessage(text, calls)] + ResultMessages(results));
    case SetSystemPrompt(text) =>
      SystemUpdateClears(t, text);
      ClearingAddsNoSummary(t.history, SystemUpdated(t.history, text));
    case Prune =>
      PruningClears(t.history);
      ClearingAddsNoSummary(t.history, PrunedHistory(t.history));
    case Compress(keep, summary) =>
      if TakesEffect(t.history, e) {
        MarkingAddsSummary(t.history, PlanHeadBounded(t.history, keep).firstKept, summary);
      } else {
        AppendAddsNoSummary(t.history, []);
        assert t.history + [] == t.history;
      }
  }

  lemma {:induction false} SummariesAreMarkers(h: seq<Message>)
    requires WellMarked(h)
    ensures forall i :: 0 <= i < |h| && h[i].summary ==> IsMarker(h[i])
  {
    forall i | 0 <= i < |h| && h[i].summary
      ensures IsMarker(h[i])
    {
      assert MarkedAt(h, i);
    }
  }

  /** The last marker is the latest summary of the converted transcript. */
  lemma {:induction false} MarkerIsLatest(h: seq<Message>)
    requires WellMarked(h) && LastMarker(h) >= 0
    ensures LatestSays(Raw(h), h[LastMarker(h)].content)
  {
    hide LastMarker;
    var m := LastMarker(h);
    assert forall i :: 0 <= i < |h| && h[i].summary ==> MarkedAt(h, i);
    assert MarkedAt(h, m);
    assert IsLatestSummary(Raw(h), m) && Raw(h)[m].content == h[m].content;
  }

  lemma {:induction false} WentOnLonger(systemPrompt: string, events: seq<Event>, n: nat, content: string)
    requires n <= |events| && WentOn(systemPrompt, events[..n], content)
    ensures WentOn(systemPrompt, events, content)
  {
    hide GoesOn, Run;
    var k :| 0 <= k < n && GoesOn(Run(Init(systemPrompt), events[..n][..k]).history, events[..n][k], content);
    assert events[..n][..k] == events[..k];
  }

  /** A summary that is not the last any more was what the compaction that replaced it went on from. */
  lemma {:induction false} OldSummaryWentOn(systemPrompt: string, events: seq<Event>, i: nat)
    requires var h := Run(Init(systemPrompt), events).history; i < |h| && h[i].summary && i != LastMarker(h)
    ensures WentOn(systemPrompt, events, Run(Init(systemPrompt), events).history[i].content)
  {
    hide Step, Inv, TakesEffect, LastMarker, LatestSays, Raw;
    if events != [] {
      var n := |events| - 1;
      var before, e := events[..n], events[n];
      var t := Run(Init(systemPrompt), before);
      RunKeepsInv(systemPrompt, before);
      StepKeepsSummaries(t, e);
      if i != LastMarker(t.history) {
        OldSummaryWentOn(systemPrompt, before, i);
        WentOnLonger(systemPrompt, events, n, t.history[i].content);
      } else {
        MarkerIsLatest(t.history) by { InvMarks(t); }
        assert GoesOn(t.history, e, t.history[i].content);
      }
    }
  }

  /** Nothing is lost in any run: and an earlier summary was what a later compaction went on from. */
  lemma {:induction false} NothingLost(systemPrompt: string, events: seq<Event>, i: nat)
    requires i < |Run(Init(systemPrompt), events).history|
    ensures var t := Run(Init(systemPrompt), events);
      if Tail(t.history) <= i then t.history[i] in Visible(t.history) else Accounted(t, i)
    ensures var h := Run(Init(systemPrompt), events).history;
      i < Tail(h) && h[i].summary ==> WentOn(systemPrompt, events, h[i].content)
  {
    hide Run, Visible, Accounted, Inv, WentOn;
    RunKeepsInv(systemPrompt, events);
    var t := Run(Init(systemPrompt), events);
    InvLosesNothing(t, i);
    if i < Tail(t.history) && t.history[i].summary {
      TailBeforeMarker(t.history) by { InvMarks(t); }
      OldSummaryWentOn(systemPrompt, events, i);
    }
  }

  lemma {:induction false} TailBeforeMarker(h: seq<Message>)
    requires WellMarked(h) && Tail(h) > 0
    ensures Tail(h) < LastMarker(h)
  {
    hide LastMarker;
    assert MarkedAt(h, LastMarker(h));
  }

  lemma {:induction false} NoMarkerNoChange(h: seq<Message>)
    requires LastMarker(h) < 0
    ensures Visible(h) == h
  {
  }

  /** Of every transcript for which the invariant holds the estimator counts exactly what the model is shown, except
      for the leading system message once something was compacted. */
  lemma {:induction false} InvViewsAgree(t: State)
    requires Inv(t)
    ensures var h := t.history;
      Filter.Filtered(Raw(h)) == Raw(if LastMarker(h) >= 0 then Visible(h)[1..] else Visible(h))
  {
    hide Filter.Filtered;
    var h := t.history;
    if LastMarker(h) >= 0 {
      assert MarkedAt(h, LastMarker(h));
      PromptBefore(h, LastMarker(h));
    }
    Filter.ViewsAgreeIff(h);
  }

  /** So in every run. */
  lemma {:induction false} ViewsAgreeInEveryRun(systemPrompt: string, events: seq<Event>)
    ensures var h := Run(Init(systemPrompt), events).history;
      Filter.Filtered(Raw(h)) == Raw(if LastMarker(h) >= 0 then Visible(h)[1..] else Visible(h))
  {
    hide Run, Filter.Filtered, Inv, Visible, LastMarker;
    RunKeepsInv(systemPrompt, events);
    InvViewsAgree(Run(Init(systemPrompt), events));
  }

  // ---- Pruning the session object ----

  /** Clears in the session what the pruner picked, and tells how many messages that were. */
  method RunPruning(s: Session) returns (prunedCount: nat)
    modifies s`messages
    ensures s.messages == PrunedHistory(old(s.messages))
    ensures prunedCount == 0 <==> s.messages == old(s.messages)
  {
    hide Pruned;
    var history := s.messages;
    var raw := ConvertHistory(history);
    var pruned := PruneMessages(raw, PRUNE_PROTECTED_TOOLS);
    prunedCount := 0;
    for i := 0 to |pruned|
      invariant |s.messages| == |history|
      invariant forall k :: 0 <= k < i ==> s.messages[k] == ClearPruned(history[k], pruned[k])
      invariant forall k :: i <= k < |history| ==> s.messages[k] == history[k]
      invariant prunedCount == 0 <==> forall k :: 0 <= k < i ==> s.messages[k] == history[k]
    {
      if pruned[i].compacted && !raw[i].compacted {
        s.MarkMessageCompacted(i, PRUNED_OUTPUT_PLACEHOLDER);
        prunedCount := prunedCount + 1;
        assert s.messages[i].compacted && !history[i].compacted;
      }
    }
  }
}
