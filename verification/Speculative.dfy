/** Background compaction of a peer's session: a result computed on a snapshot is applied later,
    or discarded when the session moved on too far. */
module Speculative {
  import opened Messages
  import opened Sessions
  import opened Budgets
  import opened Summaries
  import opened Compaction
  import opened Transcripts
  import opened Pruning
  import Filter
  import Text

  datatype Status = Running | Ready(plan: Plan, summary: string) | Broken

  /** A task, with a number that stands for its identity. */
  datatype Task = Task(id: nat, snapshot: seq<RawMessage>, msgCountAt: nat, status: Status)

  datatype Slot = Idle | Busy(task: Task)

  datatype Peer = Peer(t: State, slot: Slot, nextID: nat)

  /** What a run of the compactor produced: nothing, or a summary. */
  datatype Attempt = NoSummary | Summary(text: string)

  datatype PeerEvent =
    | Talk(e: Event)
    | StartSpeculative
    | FinishSpeculative(id: nat, keep: int, attempt: Attempt)
    | CheckAndCompress(keep: int, attempt: Attempt)
    | ResetPeer(systemPrompt: string)

  function InitPeer(systemPrompt: string): Peer { Peer(Init(systemPrompt), Idle, 0) }

  function ToldFrom(snapshot: seq<RawMessage>, head: seq<nat>): map<nat, RawMessage> {
    map i | i in head && i < |snapshot| :: snapshot[i]
  }

  /** A compaction marker followed by the request to go on. */
  function MarkedAndContinued(h: seq<Message>, firstKept: nat, summary: string): seq<Message> {
    Marked(h, firstKept, summary) + [UserMessage(COMPACTION_AUTO_CONTINUE_TEXT)]
  }

  predicate Usable(attempt: Attempt) { attempt.Summary? && Text.Trim(attempt.text) != "" }

  predicate CanApply(p: Peer) {
    p.slot.Busy? && p.slot.task.status.Ready? && |p.t.history| <= p.slot.task.msgCountAt + 2
  }

  function ApplyReady(p: Peer): Peer
    requires CanApply(p) && p.slot.task.status.plan.Plan?
  {
    var task := p.slot.task;
    var plan := task.status.plan;
    Peer(State(MarkedAndContinued(p.t.history, plan.firstKept, task.status.summary),
        p.t.told + ToldFrom(task.snapshot, plan.head)), Idle, p.nextID)
  }

  function CompressNow(t: State, keep: int, attempt: Attempt): State {
    var p := PlanHeadBounded(t.history, keep);
    if p.NoPlan? || !Usable(attempt) then t else
    State(MarkedAndContinued(t.history, p.firstKept, attempt.text), t.told + Told(t.history, p.head))
  }

  function CheckStep(p: Peer, keep: int, attempt: Attempt): Peer {
    if CanApply(p) && p.slot.task.status.plan.Plan? then ApplyReady(p)
    else
      var slot := if p.slot.Busy? && p.slot.task.status.Ready? then Idle else p.slot;
      Peer(CompressNow(p.t, keep, attempt), slot, p.nextID)
  }

  function StartStep(p: Peer): Peer {
    if p.slot.Busy? && !p.slot.task.status.Ready? then p
    else Peer(p.t, Busy(Task(p.nextID, Raw(p.t.history), |p.t.history|, Running)), p.nextID + 1)
  }

  function FinishStep(p: Peer, id: nat, keep: int, attempt: Attempt): Peer {
    if p.slot.Idle? || p.slot.task.id != id || !p.slot.task.status.Running? then p else
    var plan := PlanOf(p.slot.task.snapshot, keep);
    var status := if plan.Plan? && Usable(attempt) then Ready(plan, attempt.text) else Broken;
    p.(slot := Busy(p.slot.task.(status := status)))
  }

  /** The job that an event ran to its end, if any: on what, and with which summary. */
  datatype JobRun = NoJob | Ran(raw: seq<RawMessage>, keep: int, summary: string)

  function JobAt(p: Peer, e: PeerEvent): (j: JobRun)
    ensures j.Ran? ==> PlanOf(j.raw, j.keep).Plan?
  {
    match e
    case CheckAndCompress(keep, attempt) =>
      if CanApply(p) && p.slot.task.status.plan.Plan? then NoJob
      else if PlanOf(Raw(p.t.history), keep).Plan? && Usable(attempt) then Ran(Raw(p.t.history), keep, attempt.text)
      else NoJob
    case FinishSpeculative(id, keep, attempt) =>
      if p.slot.Idle? || p.slot.task.id != id || !p.slot.task.status.Running? then NoJob
      else if PlanOf(p.slot.task.snapshot, keep).Plan? && Usable(attempt) then
        Ran(p.slot.task.snapshot, keep, attempt.text)
      else NoJob
    case _ => NoJob
  }

  /** These are the calls of the job that the event ran. */
  ghost predicate CallsOfEvent(p: Peer, e: PeerEvent, made: seq<Call>, config: Config) {
    match JobAt(p, e)
    case NoJob => true
    case Ran(raw, keep, summary) => Summarizes(JobOn(raw, keep, config), made, summary)
  }

  /** The attempt is what the job on the planned head came to: its summary, or nothing because nothing is planned or
      the job failed. */
  ghost predicate IsAttempt(attempt: Attempt, raw: seq<RawMessage>, keep: int, config: Config, llm: LanguageModel,
      made: seq<Call>)
  {
    && AnsweredBy(llm, made)
    && (attempt.NoSummary? && PlanOf(raw, keep).Plan? ==> JobFails(JobOn(raw, keep, config), made))
    && (attempt.Summary? ==> PlanOf(raw, keep).Plan? && Text.Trim(attempt.text) != "")
    && (attempt.Summary? ==> Summarizes(JobOn(raw, keep, config), made, attempt.text))
  }

  /** A summary is marked at the planned tail start, with the request to go on; without one nothing changed. */
  ghost predicate Compressed(h: seq<Message>, keep: int, attempt: Attempt, h': seq<Message>) {
    if attempt.NoSummary? then h' == h
    else (PlanOf(Raw(h), keep).Plan? && h' == MarkedAndContinued(h, PlanOf(Raw(h), keep).firstKept, attempt.text))
  }

  lemma {:induction false} AttemptCompresses(h: seq<Message>, told: map<nat, RawMessage>, keep: int, attempt: Attempt,
      config: Config, llm: LanguageModel, made: seq<Call>)
    requires IsAttempt(attempt, Raw(h), keep, config, llm, made)
    ensures Compressed(h, keep, attempt, CompressNow(State(h, told), keep, attempt).history)
    ensures CallsOfJob(h, keep, attempt, config, made)
  {
    hide PlanOf, Summarizes, JobOn, AnsweredBy, MarkedAndContinued, Told, Text.Trim, Raw;
  }

  /** A usable attempt came out of these calls. */
  ghost predicate CallsOfJob(h: seq<Message>, keep: int, attempt: Attempt, config: Config, made: seq<Call>) {
    PlanOf(Raw(h), keep).Plan? && Usable(attempt) ==> Summarizes(JobOn(Raw(h), keep, config), made, attempt.text)
  }

  lemma {:induction false} OutcomeIsAttempt(outcome: CompactOutcome, raw: seq<RawMessage>, keep: int, config: Config,
      llm: LanguageModel, made: seq<Call>)
    requires AnsweredBy(llm, made)
    requires outcome.Compacted? ==> PlanOf(raw, keep).Plan? && Text.Trim(outcome.result.summary) != ""
    requires outcome.Compacted? ==> Summarizes(JobOn(raw, keep, config), made, outcome.result.summary)
    requires outcome.NotCompacted? && PlanOf(raw, keep).Plan? ==>
      var job := JobOn(raw, keep, config); FailsAt(job, made, outcome.reason) || EndsBlank(job, made)
    ensures IsAttempt(if outcome.Compacted? then Summary(outcome.result.summary) else NoSummary, raw, keep, config, llm,
      made)
  {
    hide AnsweredBy, PlanOf, JobOn, Summarizes, FailsAt, EndsBlank, Text.Trim;
  }

  function PeerStep(p: Peer, e: PeerEvent): Peer {
    match e
    case Talk(talk) => if talk.Compress? then p else p.(t := Step(p.t, talk))
    case StartSpeculative => StartStep(p)
    case FinishSpeculative(id, keep, attempt) => FinishStep(p, id, keep, attempt)
    case CheckAndCompress(keep, attempt) => CheckStep(p, keep, attempt)
    case ResetPeer(systemPrompt) => Peer(Init(systemPrompt), Idle, p.nextID)
  }

  function PeerRun(p: Peer, events: seq<PeerEvent>): Peer {
    if events == [] then p else PeerStep(PeerRun(p, events[..|events| - 1]), events[|events| - 1])
  }

  // ---- The invariant ----

  /** The message is what the snapshot saw, up to flags, cleared output and the system text. */
  ghost predicate Matches(seen: RawMessage, m: Message) {
    && seen.role == m.role && seen.summary == m.summary && seen.tailStartID == m.tailStartID
    && (seen.compacted ==> m.compacted)
    && (seen.content == RawOf(m).content || m.role.System? || IsPlaceholder(m))
  }

  ghost predicate SnapshotOf(snapshot: seq<RawMessage>, h: seq<Message>) {
    |snapshot| <= |h| && forall i :: 0 <= i < |snapshot| ==> Matches(snapshot[i], h[i])
  }

  ghost predicate NoMarkerSince(h: seq<Message>, n: nat) {
    forall i :: n <= i < |h| ==> !h[i].summary
  }

  ghost predicate TaskInv(task: Task, h: seq<Message>) {
    && |task.snapshot| == task.msgCountAt
    && SnapshotOf(task.snapshot, h)
    && (NoMarkerSince(h, task.msgCountAt) || |h| >= task.msgCountAt + 3)
    && (task.status.Ready? ==>
        && Text.Trim(task.status.summary) != ""
        && exists keep :: task.status.plan == PlanOf(task.snapshot, keep) && task.status.plan.Plan?)
  }

  ghost predicate PeerInv(p: Peer) {
    && Inv(p.t)
    && (p.slot.Busy? ==> p.slot.task.id < p.nextID && TaskInv(p.slot.task, p.t.history))
  }

  lemma {:induction false} FreshSnapshot(h: seq<Message>)
    requires CallsByAssistant(h)
    ensures SnapshotOf(Raw(h), h) && NoMarkerSince(h, |h|)
  {
  }

  lemma {:induction false} AppendKeepsTask(task: Task, h: seq<Message>, ms: seq<Message>)
    requires TaskInv(task, h) && forall k :: 0 <= k < |ms| ==> !ms[k].summary
    ensures TaskInv(task, h + ms)
  {
    forall i | 0 <= i < |task.snapshot|
      ensures Matches(task.snapshot[i], (h + ms)[i])
    {
      assert (h + ms)[i] == h[i];
    }
  }

  lemma {:induction false} ClearingKeepsTask(task: Task, h: seq<Message>, r: seq<Message>)
    requires TaskInv(task, h) && SameButCleared(h, r)
    ensures TaskInv(task, r)
  {
    hide RawOf;
    forall i | 0 <= i < |task.snapshot|
      ensures Matches(task.snapshot[i], r[i])
    {
      assert Matches(task.snapshot[i], h[i]);
    }
  }

  lemma {:induction false} MarkingKeepsTask(task: Task, h: seq<Message>, firstKept: nat, summary: string)
    requires TaskInv(task, h)
    ensures TaskInv(task, MarkedAndContinued(h, firstKept, summary))
  {
    var r := MarkedAndContinued(h, firstKept, summary);
    assert |r| == |h| + 3;
    forall i | 0 <= i < |task.snapshot|
      ensures Matches(task.snapshot[i], r[i])
    {
      assert Matches(task.snapshot[i], h[i]);
      RawContent(h[i], r[i]);
    }
  }

  // ---- Applying a result that was computed on a snapshot ----

  lemma {:induction false} SameWorkStart(snapshot: seq<RawMessage>, h: seq<Message>, n: nat)
    requires SnapshotOf(snapshot, h) && n <= |snapshot|
    ensures WorkStart(snapshot, n) == WorkStart(Raw(h), n)
  {
    if n > 0 {
      assert Matches(snapshot[n - 1], h[n - 1]);
      SameWorkStart(snapshot, h, n - 1);
    }
  }

  /** With no marker since the snapshot, the snapshot's tail is still the latest one. */
  lemma {:induction false} SnapshotTail(snapshot: seq<RawMessage>, h: seq<Message>)
    requires WellMarked(h) && SnapshotOf(snapshot, h) && NoMarkerSince(h, |snapshot|)
    ensures WorkStart(snapshot, |snapshot|) == Tail(h)
  {
    var n := |snapshot|;
    SameWorkStart(snapshot, h, n);
    WorkStartsAtTail(h, n);
    assert h == h[..n] + h[n..];
    LastMarkerAppend(h[..n], h[n..]);
  }

  lemma {:induction false} MatchAccounts(p: State, told: map<nat, RawMessage>, seen: RawMessage, i: nat)
    requires Inv(p) && Tail(p.history) <= i < |p.history| && Matches(seen, p.history[i])
    requires InWork(seen) ==> i in told && told[i] == seen
    ensures Accounted(State(p.history, told), i)
  {
    hide LastMarker;
    var m := p.history[i];
    assert m.role.User? ==> RawOf(m).content == m.content;
  }

  /** The plan of a snapshot that is still current fits the transcript as it is now. */
  lemma {:induction false} SnapshotPlanFits(p: State, snapshot: seq<RawMessage>, keep: int)
    requires Inv(p) && SnapshotOf(snapshot, p.history) && NoMarkerSince(p.history, |snapshot|)
    requires PlanOf(snapshot, keep).Plan?
    ensures var plan := PlanOf(snapshot, keep);
      && Tail(p.history) < plan.firstKept < |snapshot| <= |p.history|
      && IsValidCutPoint(RawOf(p.history[plan.firstKept])) && !p.history[plan.firstKept].summary
      && p.history[plan.firstKept].role == snapshot[plan.firstKept].role
      && RawOf(p.history[plan.firstKept]).content == snapshot[plan.firstKept].content
  {
    hide PlanOf, Tail;
    SnapshotTail(snapshot, p.history);
    PlanProgress(snapshot, keep);
    var f := PlanOf(snapshot, keep).firstKept;
    assert Matches(snapshot[f], p.history[f]);
  }

  lemma {:induction false} SnapshotCovers(p: State, snapshot: seq<RawMessage>, keep: int)
    requires Inv(p) && SnapshotOf(snapshot, p.history) && NoMarkerSince(p.history, |snapshot|)
    requires PlanOf(snapshot, keep).Plan?
    ensures var plan := PlanOf(snapshot, keep);
      Covers(p, p.told + ToldFrom(snapshot, plan.head), plan.firstKept)
  {
    hide PlanOf, Tail, Inv, Accounted, Matches, InWork;
    SnapshotPlanFits(p, snapshot, keep);
    var plan := PlanOf(snapshot, keep);
    var told := p.told + ToldFrom(snapshot, plan.head);
    SnapshotTail(snapshot, p.history) by { InvMarks(p); }
    forall i: nat | Tail(p.history) <= i < plan.firstKept
      ensures Accounted(State(p.history, told), i)
    {
      PlanHead(snapshot, keep, i);
      MatchAccounts(p, told, snapshot[i], i);
    }
  }

  lemma {:induction false} SnapshotKeepsTold(p: State, snapshot: seq<RawMessage>, keep: int)
    requires Inv(p) && SnapshotOf(snapshot, p.history) && NoMarkerSince(p.history, |snapshot|)
    requires PlanOf(snapshot, keep).Plan?
    ensures KeepsTold(p, p.told + ToldFrom(snapshot, PlanOf(snapshot, keep).head))
  {
    hide PlanOf, Tail, Matches;
    SnapshotTail(snapshot, p.history);
    forall i: nat | i in p.told && i < Tail(p.history)
      ensures i !in ToldFrom(snapshot, PlanOf(snapshot, keep).head)
    {
      if i < |snapshot| {
        PlanHead(snapshot, keep, i);
      }
    }
  }

  /** Marking and then asking the model to go on, from a plan that fits. */
  lemma {:induction false} MarkAndContinueKeepsInv(t: State, told: map<nat, RawMessage>, f: nat, summary: string)
    requires Inv(t) && Tail(t.history) < f < |t.history|
    requires IsValidCutPoint(RawOf(t.history[f])) && !t.history[f].summary
    requires KeepsTold(t, told) && Covers(t, told, f)
    ensures Inv(State(MarkedAndContinued(t.history, f, summary), told))
  {
    hide Inv, Marked, KeepsTold, Covers, Tail, RawOf;
    MarkingKeepsInv(t, told, f, summary);
    AppendKeepsInv(State(Marked(t.history, f, summary), told), [UserMessage(COMPACTION_AUTO_CONTINUE_TEXT)]);
  }

  lemma {:induction false} CompressNowKeepsInv(t: State, keep: int, attempt: Attempt)
    requires Inv(t)
    ensures Inv(CompressNow(t, keep, attempt))
  {
    hide Inv, PlanOf, Tail, WellMarked, MarkedAndContinued, KeepsTold, Covers, Told;
    var p := PlanHeadBounded(t.history, keep);
    if p.Plan? && Usable(attempt) {
      InvMarks(t);
      PlanFromTail(t.history, keep);
      PlanCovers(t, keep);
      PlanKeepsTold(t, keep);
      MarkAndContinueKeepsInv(t, t.told + Told(t.history, p.head), p.firstKept, attempt.text);
    }
  }

  /** The guard of the code: at most two messages more than at the snapshot. Then there was no
      compaction in between, because a compaction adds three. */
  lemma {:induction false} FreshEnough(p: Peer)
    requires PeerInv(p) && CanApply(p)
    ensures NoMarkerSince(p.t.history, |p.slot.task.snapshot|)
  {
  }

  /** When a waiting result is applied, and what that does: it must be ready,
    and at most two messages may have been added
      since its snapshot; then the session is marked with it and the model asked to go on. */
  lemma {:induction false} AppliedIs(p: Peer)
    ensures CanApply(p) <==>
      p.slot.Busy? && p.slot.task.status.Ready? && |p.t.history| <= p.slot.task.msgCountAt + 2
    ensures CanApply(p) && p.slot.task.status.plan.Plan? ==>
      && ApplyReady(p).slot == Idle && ApplyReady(p).nextID == p.nextID
      && ApplyReady(p).t.history ==
        Marked(p.t.history, p.slot.task.status.plan.firstKept, p.slot.task.status.summary) +
        [Message(User, COMPACTION_AUTO_CONTINUE_TEXT, [], "", "", false, false, false, 0)]
  {
    hide Marked;
  }

  lemma {:induction false} ApplyKeepsInv(p: Peer)
    requires PeerInv(p) && CanApply(p) && p.slot.task.status.plan.Plan?
    ensures Inv(ApplyReady(p).t)
  {
    hide Inv, PlanOf, Tail, MarkedAndContinued, KeepsTold, Covers, ToldFrom, SnapshotOf, NoMarkerSince;
    FreshEnough(p);
    var snapshot := p.slot.task.snapshot;
    var keep :| p.slot.task.status.plan == PlanOf(snapshot, keep);
    SnapshotPlanFits(p.t, snapshot, keep);
    SnapshotCovers(p.t, snapshot, keep);
    SnapshotKeepsTold(p.t, snapshot, keep);
    MarkAndContinueKeepsInv(p.t, p.t.told + ToldFrom(snapshot, PlanOf(snapshot, keep).head),
      PlanOf(snapshot, keep).firstKept, p.slot.task.status.summary);
  }

  lemma {:induction false} CompressNowKeepsTask(task: Task, t: State, keep: int, attempt: Attempt)
    requires TaskInv(task, t.history)
    ensures TaskInv(task, CompressNow(t, keep, attempt).history)
  {
    hide PlanHeadBounded, TaskInv, MarkedAndContinued, Told, Text.Trim;
    var p := PlanHeadBounded(t.history, keep);
    if p.Plan? && Usable(attempt) {
      MarkingKeepsTask(task, t.history, p.firstKept, attempt.text);
    }
  }

  lemma {:induction false} TalkKeepsTask(task: Task, t: State, e: Event)
    requires Inv(t) && TaskInv(task, t.history) && !e.Compress?
    ensures TaskInv(task, Step(t, e).history)
  {
    hide Inv, TaskInv, PrunedHistory, SystemUpdated;
    match e
    case AddUser(text) => AppendKeepsTask(task, t.history, [UserMessage(text)]);
    case AddAssistant(text) => AppendKeepsTask(task, t.history, [AssistantMessage(text)]);
    case AddInternal(text) => AppendKeepsTask(task, t.history, [InternalMessage(text)]);
    case AddBatch(text, calls, results) =>
      BatchIsPlain(text, calls, results);
      AppendKeepsTask(task, t.history, [CallMessage(text, calls)] + ResultMessages(results));
    case SetSystemPrompt(text) =>
      SystemUpdateClears(t, text);
      ClearingKeepsTask(task, t.history, SystemUpdated(t.history, text));
    case Prune =>
      PruningClears(t.history);
      ClearingKeepsTask(task, t.history, PrunedHistory(t.history));
  }

  lemma {:induction false} CheckKeepsPeerInv(p: Peer, keep: int, attempt: Attempt)
    requires PeerInv(p)
    ensures PeerInv(CheckStep(p, keep, attempt))
  {
    hide Inv, TaskInv, ApplyReady, CompressNow;
    if CanApply(p) && p.slot.task.status.plan.Plan? {
      ApplyKeepsInv(p);
      assert ApplyReady(p).slot.Idle? by { ApplyEmptiesSlot(p); }
    } else {
      CompressNowKeepsInv(p.t, keep, attempt);
      if p.slot.Busy? {
        CompressNowKeepsTask(p.slot.task, p.t, keep, attempt);
      }
    }
  }

  lemma {:induction false} ApplyEmptiesSlot(p: Peer)
    requires CanApply(p) && p.slot.task.status.plan.Plan?
    ensures ApplyReady(p).slot.Idle?
  {
  }

  lemma {:induction false} StartKeepsPeerInv(p: Peer)
    requires PeerInv(p)
    ensures PeerInv(StartStep(p))
  {
    FreshSnapshot(p.t.history);
  }

  lemma {:induction false} FinishKeepsPeerInv(p: Peer, id: nat, keep: int, attempt: Attempt)
    requires PeerInv(p)
    ensures PeerInv(FinishStep(p, id, keep, attempt))
  {
    hide Inv, PlanOf, SnapshotOf, NoMarkerSince;
  }

  lemma {:induction false} PeerStepKeepsInv(p: Peer, e: PeerEvent)
    requires PeerInv(p)
    ensures PeerInv(PeerStep(p, e))
  {
    hide Inv, TaskInv, Step, StartStep, FinishStep, CheckStep;
    match e
    case Talk(talk) =>
      StepKeepsInv(p.t, talk);
      if p.slot.Busy? && !talk.Compress? {
        TalkKeepsTask(p.slot.task, p.t, talk);
      }
    case StartSpeculative => StartKeepsPeerInv(p);
    case FinishSpeculative(id, keep, attempt) => FinishKeepsPeerInv(p, id, keep, attempt);
    case CheckAndCompress(keep, attempt) => CheckKeepsPeerInv(p, keep, attempt);
    case ResetPeer(systemPrompt) => InitInv(systemPrompt);
  }

  /** Under any interleaving of messages, pruning, resets, synchronous compactions and
      background ones that start, finish, fail, go stale or are applied. */
  lemma {:induction false} PeerRunKeepsInv(systemPrompt: string, events: seq<PeerEvent>)
    ensures PeerInv(PeerRun(InitPeer(systemPrompt), events))
  {
    hide PeerStep, PeerInv;
    if events == [] {
      InitPeerInv(systemPrompt);
    } else {
      var p := PeerRun(InitPeer(systemPrompt), events[..|events| - 1]);
      PeerRunKeepsInv(systemPrompt, events[..|events| - 1]);
      PeerStepKeepsInv(p, events[|events| - 1]);
    }
  }

  lemma {:induction false} InitPeerInv(systemPrompt: string)
    ensures PeerInv(InitPeer(systemPrompt))
  {
    InitInv(systemPrompt);
  }

  // ---- Main results ----

  /** A background result that passes the guard was computed on what is still a prefix of the
      session, up to cleared output, with no compaction since; so the tail start it carries
      moves forward and names the message the summariser's plan meant. */
  lemma {:induction false} AppliedResultIsCurrent(systemPrompt: string, events: seq<PeerEvent>)
    requires CanApply(PeerRun(InitPeer(systemPrompt), events))
    ensures var p := PeerRun(InitPeer(systemPrompt), events);
      var task := p.slot.task;
      var plan := task.status.plan;
      && SnapshotOf(task.snapshot, p.t.history)
      && NoMarkerSince(p.t.history, |task.snapshot|)
      && plan.Plan? && Tail(p.t.history) < plan.firstKept < |task.snapshot|
      && p.t.history[plan.firstKept].role == task.snapshot[plan.firstKept].role
      && RawOf(p.t.history[plan.firstKept]).content == task.snapshot[plan.firstKept].content
  {
    hide PeerRun, Inv, PlanOf, Tail, SnapshotOf, NoMarkerSince, RawOf;
    PeerRunKeepsInv(systemPrompt, events);
    var p := PeerRun(InitPeer(systemPrompt), events);
    FreshEnough(p);
    var keep :| p.slot.task.status.plan == PlanOf(p.slot.task.snapshot, keep);
    SnapshotPlanFits(p.t, p.slot.task.snapshot, keep);
  }

  predicate IsStuck(p: Peer) { p.slot.Busy? && p.slot.task.status.Broken? }

  /** A background compaction that failed is never cleared: until the peer is reset the slot stays
      taken by it, so no later background compaction is ever started. */
  lemma {:induction false} FailedTaskBlocksForGood(p: Peer, events: seq<PeerEvent>)
    requires IsStuck(p) && forall k :: 0 <= k < |events| ==> !events[k].ResetPeer?
    ensures PeerRun(p, events).slot == p.slot && PeerRun(p, events).nextID == p.nextID
  {
    if events != [] {
      FailedTaskBlocksForGood(p, events[..|events| - 1]);
    }
  }

  /** One failure is enough to get there, in any session and with any plan. */
  lemma {:induction false} FailedTaskIsReachable(systemPrompt: string, keep: int)
    ensures IsStuck(PeerRun(InitPeer(systemPrompt), [StartSpeculative, FinishSpeculative(0, keep, NoSummary)]))
  {
    hide PlanOf;
    var start, finish := StartSpeculative, FinishSpeculative(0, keep, NoSummary);
    assert [start, finish][..1] == [start] && [start][..0] == [];
    assert PeerRun(InitPeer(systemPrompt), []) == InitPeer(systemPrompt);
    assert PeerRun(InitPeer(systemPrompt), [start]) == StartStep(InitPeer(systemPrompt));
  }

  ghost predicate HasReset(events: seq<PeerEvent>) {
    exists k :: 0 <= k < |events| && events[k].ResetPeer?
  }

  lemma {:induction false} HasResetStep(events: seq<PeerEvent>)
    requires events != []
    ensures HasReset(events) <==> HasReset(events[..|events| - 1]) || events[|events| - 1].ResetPeer?
  {
    if HasReset(events[..|events| - 1]) {
      var k :| 0 <= k < |events| - 1 && events[..|events| - 1][k].ResetPeer?;
      assert events[k].ResetPeer?;
    }
    if k :| 0 <= k < |events| && events[k].ResetPeer? && k < |events| - 1 {
      assert events[..|events| - 1][k].ResetPeer?;
    }
  }

  /** After a reset the slot is free until the next background compaction takes it. */
  lemma {:induction false} ResetFreesSlot(p: Peer, events: seq<PeerEvent>)
    requires IsStuck(p) && HasReset(events)
    ensures var q := PeerRun(p, events);
      q.nextID > p.nextID || (q.slot.Idle? && q.nextID == p.nextID)
  {
    hide PlanOf, CompressNow, Step;
    var n := |events| - 1;
    HasResetStep(events);
    if HasReset(events[..n]) {
      ResetFreesSlot(p, events[..n]);
    } else {
      forall k | 0 <= k < n ensures !events[..n][k].ResetPeer? {}
      FailedTaskBlocksForGood(p, events[..n]);
    }
  }

  /** From a failed background compaction on: a request for another one has had an effect, now or
      before, exactly if the peer was reset. */
  lemma {:induction false} BlockedUntilResetIff(p: Peer, events: seq<PeerEvent>)
    requires IsStuck(p)
    ensures PeerRun(p, events + [StartSpeculative]).nextID > p.nextID <==> HasReset(events)
  {
    hide PlanOf, PeerRun;
    var more := events + [StartSpeculative];
    assert more[..|more| - 1] == events;
    assert PeerRun(p, more) == StartStep(PeerRun(p, events)) by { LastPeerStep(p, events, StartSpeculative); }
    if HasReset(events) {
      ResetFreesSlot(p, events);
    } else {
      FailedTaskBlocksForGood(p, events);
    }
  }

  lemma {:induction false} LastPeerStep(p: Peer, events: seq<PeerEvent>, e: PeerEvent)
    ensures PeerRun(p, events + [e]) == PeerStep(PeerRun(p, events), e)
  {
    hide PeerStep;
    assert (events + [e])[..|events + [e]| - 1] == events;
  }

  // ---- The object that owns the compaction slot of a peer ----

  /** The larger of what the provider reported and what the estimator counts. */
  function CompactionTokens(reported: int, estimate: int): (r: int)
    ensures r >= 0 && r >= reported && r >= estimate && (r == 0 || r == reported || r == estimate)
  {
    var r := if reported < 0 then 0 else reported;
    var e := if estimate < 0 then 0 else estimate;
    if r > e then r else e
  }

  class SpeculativeCompactor {
    const session: Session
    ghost var told: map<nat, RawMessage>
    var slot: Slot
    var nextID: nat

    /** `told` is what was given to summarisers before. */
    constructor (session: Session, ghost told: map<nat, RawMessage>)
      requires Inv(State(session.messages, told))
      ensures this.session == session && Now() == Peer(State(session.messages, told), Idle, 0)
      ensures PeerInv(Now())
    {
      this.session := session;
      this.told, slot, nextID := told, Idle, 0;
    }

    ghost function Now(): Peer
      reads this, session
    {
      Peer(State(session.messages, told), slot, nextID)
    }

    method TokensNow(reported: int) returns (tokens: int)
      ensures tokens == CompactionTokens(reported, MessagesTokens(Filter.Filtered(Raw(session.messages))))
    {
      var raw := ConvertHistory(session.messages);
      var visible := Filter.FilterCompacted(raw);
      var estimate := EstimateMessagesTokens(visible);
      tokens := CompactionTokens(reported, estimate);
    }

    /** Starts a background compaction unless one is in flight. */
    method MaybeStart(enabled: bool, minimumTokens: int, reported: int)
      requires PeerInv(Now())
      modifies this`slot, this`nextID
      ensures var tokens := CompactionTokens(reported, MessagesTokens(Filter.Filtered(Raw(session.messages))));
        && Now() == (if enabled && tokens >= minimumTokens then StartStep(old(Now())) else old(Now()))
        && slot == if enabled && tokens >= minimumTokens && (old(slot).Idle? || old(slot).task.status.Ready?)
             then Busy(Task(old(nextID), Raw(session.messages), |session.messages|, Running)) else old(slot)
      ensures PeerInv(Now())
    {
      hide Inv, TaskInv, Filter.Filtered, MessagesTokens;
      if !enabled {
        return;
      }
      var tokens := TokensNow(reported);
      if tokens < minimumTokens {
        return;
      }
      StartKeepsPeerInv(Now());
      if slot.Busy? && !slot.task.status.Ready? {
        return;
      }
      var raw := ConvertHistory(session.messages);
      slot := Busy(Task(nextID, raw, |session.messages|, Running));
      nextID := nextID + 1;
    }

    /** The background part: computes on the snapshot and publishes the result only if
        this compaction is still the peer's current one. */
    method RunTask(task: Task, limits: WindowLimits, s: Settings, estimator: Estimator, llm: LanguageModel)
      returns (ghost attempt: Attempt, ghost made: seq<Call>)
      requires PeerInv(Now()) && task.status.Running?
      requires slot.Busy? && slot.task.id == task.id ==> slot.task == task
      modifies this`slot
      ensures Now() == FinishStep(old(Now()), task.id, ResolveKeepRecent(s), attempt)
      ensures IsAttempt(attempt, task.snapshot, ResolveKeepRecent(s), Config(limits, s, estimator), llm, made)
      ensures if old(slot).Busy? && old(slot).task.id == task.id then
          slot == Busy(task.(status :=
            if attempt.Summary? then Ready(PlanOf(task.snapshot, ResolveKeepRecent(s)), attempt.text) else Broken))
        else slot == old(slot)
      ensures CallsOfEvent(old(Now()), FinishSpeculative(task.id, ResolveKeepRecent(s), attempt), made,
        Config(limits, s, estimator))
      ensures PeerInv(Now())
    {
      hide PeerInv, Summarizes, FailsAt, EndsBlank, PlanOf, JobOn, IsLatestSummary, HasNoSummary, Work, EstimateTokens;
      hide Text.Trim, AnsweredBy, IsAttempt;
      var outcome, calls := Compact(task.snapshot, limits, s, estimator, llm);
      made := calls;
      attempt := if outcome.Compacted? then Summary(outcome.result.summary) else NoSummary;
      OutcomeIsAttempt(outcome, task.snapshot, ResolveKeepRecent(s), Config(limits, s, estimator), llm, made);
      FinishKeepsPeerInv(Now(), task.id, ResolveKeepRecent(s), attempt);
      if slot.Busy? && slot.task.id == task.id {
        if outcome.Compacted? {
          slot := Busy(task.(status := Ready(PlanOf(task.snapshot, ResolveKeepRecent(s)), outcome.result.summary)));
        } else {
          slot := Busy(task.(status := Broken));
        }
      }
    }

    /** Applies a finished result, or drops it when the session grew by more than two messages. */
    method TryApply() returns (applied: bool)
      requires PeerInv(Now())
      modifies this`slot, this`told, session`messages
      ensures applied == (old(slot).Busy? && old(slot).task.status.Ready? &&
        |old(session.messages)| <= old(slot).task.msgCountAt + 2)
      ensures applied == CanApply(old(Now()))
      ensures applied ==>
        CanApply(old(Now())) && old(Now()).slot.task.status.plan.Plan? && Now() == ApplyReady(old(Now())) && slot.Idle?
      ensures !applied ==> Now() == old(Now()).(slot :=
        if old(slot).Busy? && old(slot).task.status.Ready? then Idle else old(slot))
    {
      hide Inv, PlanOf, SnapshotOf, NoMarkerSince, Marked;
      if slot.Idle? || !slot.task.status.Ready? {
        return false;
      }
      if |session.messages| > slot.task.msgCountAt + 2 {
        slot := Idle;
        return false;
      }
      var plan := slot.task.status.plan;
      told := told + ToldFrom(slot.task.snapshot, plan.head);
      session.MarkCompaction(plan.firstKept, slot.task.status.summary);
      session.AddUserMessage(COMPACTION_AUTO_CONTINUE_TEXT);
      slot := Idle;
      return true;
    }

    /** The check before every prompt: over the threshold, apply what is ready or compact now. */
    method CheckAndCompressNow(reported: int, limits: WindowLimits, s: Settings, estimator: Estimator,
        llm: LanguageModel)
      returns (ghost attempt: Attempt, ghost made: seq<Call>)
      requires PeerInv(Now())
      modifies this`slot, this`told, session`messages
      ensures CallsOfEvent(old(Now()), CheckAndCompress(ResolveKeepRecent(s), attempt), made,
        Config(limits, s, estimator))
      ensures var tokens := CompactionTokens(reported, MessagesTokens(Filter.Filtered(Raw(old(session.messages)))));
        if !ShouldCompact(tokens, limits, s) then session.messages == old(session.messages) && slot == old(slot)
        else if CanApply(old(Now())) then slot.Idle?
        else
          && IsAttempt(attempt, Raw(old(session.messages)), ResolveKeepRecent(s), Config(limits, s, estimator), llm,
            made)
          && Compressed(old(session.messages), ResolveKeepRecent(s), attempt, session.messages)
      ensures var tokens := CompactionTokens(reported, MessagesTokens(Filter.Filtered(Raw(old(session.messages)))));
        Now() == if ShouldCompact(tokens, limits, s)
                 then CheckStep(old(Now()), ResolveKeepRecent(s), attempt) else old(Now())
      ensures PeerInv(Now())
    {
      hide PeerInv, PlanOf, Filter.Filtered, Marked, ApplyReady, CanApply, Told, Summarizes, FailsAt;
      hide EndsBlank, JobOn, ShouldCompact, MessagesTokens, IsLatestSummary, HasNoSummary, Work, EstimateTokens;
      hide AnsweredBy, IsAttempt, Raw;
      attempt, made := NoSummary, [];
      var tokens := TokensNow(reported);
      if !ShouldCompact(tokens, limits, s) {
        return;
      }
      CheckKeepsPeerInv(Now(), ResolveKeepRecent(s), attempt);
      var applied := TryApply();
      if applied {
        return;
      }
      attempt, made := CompactNow(limits, s, estimator, llm);
      AttemptCompresses(old(session.messages), old(told), ResolveKeepRecent(s), attempt, Config(limits, s, estimator),
        llm, made);
      CheckKeepsPeerInv(old(Now()), ResolveKeepRecent(s), attempt);
    }

    /** Compacts the session as it is now, and asks the model to go on. */
    method CompactNow(limits: WindowLimits, s: Settings, estimator: Estimator, llm: LanguageModel)
      returns (ghost attempt: Attempt, ghost made: seq<Call>)
      modifies this`told, session`messages
      ensures IsAttempt(attempt, Raw(old(session.messages)), ResolveKeepRecent(s), Config(limits, s, estimator), llm,
        made)
      ensures State(session.messages, told) ==
        CompressNow(State(old(session.messages), old(told)), ResolveKeepRecent(s), attempt)
    {
      hide PlanOf, Marked, Told, Summarizes, FailsAt, EndsBlank, JobOn, IsLatestSummary, HasNoSummary, Work;
      hide EstimateTokens, AnsweredBy, IsAttempt, Raw, Text.Trim;
      var history := session.messages;
      var raw := ConvertHistory(history);
      var outcome, calls := Compact(raw, limits, s, estimator, llm);
      made := calls;
      OutcomeIsAttempt(outcome, raw, ResolveKeepRecent(s), Config(limits, s, estimator), llm, made);
      if outcome.NotCompacted? {
        return NoSummary, made;
      }
      attempt := Summary(outcome.result.summary);
      told := told + Told(history, PlanHeadBounded(history, ResolveKeepRecent(s)).head);
      session.MarkCompaction(outcome.result.firstKept, outcome.result.summary);
      session.AddUserMessage(COMPACTION_AUTO_CONTINUE_TEXT);
    }
  }
}
