/** What becomes of every message that a compaction takes out of sight: it is handed to the model once, in a chunk
    that was answered (pkg/compress/compaction.go:211-298, 357-367). */
module Deliveries {
  import opened Messages
  import opened Sessions
  import opened Budgets
  import opened Summaries
  import opened Compaction
  import opened Transcripts
  import opened Speculative
  import opened Text
  import Prompts

  // ---------------------------------------------------------------- within one job

  /** How many messages of the head the answered calls have taken. */
  function TakenBy(calls: seq<Call>): nat {
    if calls == [] then 0 else
    var c := calls[|calls| - 1];
    TakenBy(calls[..|calls| - 1]) + if c.reply.Answer? then |c.chunk| else 0
  }

  /** The window of the moment of a call. */
  function WindowOf(job: Job, c: Call): int {
    var w := c.budget - job.estimator.text(c.previous);
    if w < MIN_SUMMARY_CHUNK_BUDGET then MIN_SUMMARY_CHUNK_BUDGET else w
  }

  /** The message as a call can carry it: whole if it fits the window, else its beginning. */
  function Fitted(m: RawMessage, window: int): RawMessage {
    if Size(m) <= window then m else TruncateToBudget(m, window)
  }

  /** The message at `i` of the head lies in the answered call `n`. */
  predicate LiesIn(calls: seq<Call>, n: nat, i: nat) {
    n < |calls| && calls[n].reply.Answer? && TakenBy(calls[..n]) <= i < TakenBy(calls[..n]) + |calls[n].chunk|
  }

  /** The call `n` was answered and carried the message at `i` of the head. */
  predicate Carries(job: Job, calls: seq<Call>, n: nat, i: nat) {
    && LiesIn(calls, n, i) && i < |job.head|
    && calls[n].chunk[i - TakenBy(calls[..n])] == Fitted(job.head[i], WindowOf(job, calls[n]))
  }

  lemma {:induction false} TakenMonotone(calls: seq<Call>, a: nat, b: nat)
    requires a <= b <= |calls|
    ensures TakenBy(calls[..a]) <= TakenBy(calls[..b])
  {
    if a < b {
      assert calls[..b][..b - 1] == calls[..b - 1];
      TakenMonotone(calls, a, b - 1);
    }
  }

  lemma {:induction false} TakenStep(calls: seq<Call>, n: nat)
    requires n < |calls|
    ensures TakenBy(calls[..n + 1]) == TakenBy(calls[..n]) + if calls[n].reply.Answer? then |calls[n].chunk| else 0
  {
    assert calls[..n + 1][..n] == calls[..n];
  }

  lemma {:induction false} SizeWithin(ms: seq<RawMessage>, k: nat)
    requires k < |ms|
    ensures Size(ms[k]) <= MessagesTokens(ms)
  {
    hide EstimateTokens;
    if k < |ms| - 1 { SizeWithin(ms[..|ms| - 1], k); }
  }

  /** Each message of a chunk is the message it stands for, as far as that fits the window. */
  lemma {:induction false} ChunkFits(chunk: seq<RawMessage>, remaining: seq<RawMessage>, window: int, k: nat)
    requires Represents(chunk, remaining, window) && k < |chunk|
    ensures chunk[k] == Fitted(remaining[k], window)
  {
    if chunk == remaining[..|chunk|] { SizeWithin(chunk, k); }
  }

  lemma {:induction false} TakenIsConsumed(job: Job, calls: seq<Call>, p: Progress)
    requires RunsTo(job, calls, p)
    ensures p.consumed == TakenBy(calls)
  {
    hide CallAt, Fatal;
    if calls != [] {
      var n := |calls| - 1;
      var q :| RunsTo(job, calls[..n], q) && CallAt(job, q, calls[n]) && p == After(job, q, calls[n]);
      TakenIsConsumed(job, calls[..n], q);
    }
  }

  lemma {:induction false} LastCallCarries(job: Job, calls: seq<Call>, q: Progress, i: nat)
    requires calls != []
    requires var c := calls[|calls| - 1]; CallAt(job, q, c) && c.reply.Answer?
    requires q.consumed == TakenBy(calls[..|calls| - 1]) && q.consumed <= i < q.consumed + |calls[|calls| - 1].chunk|
    ensures Carries(job, calls, |calls| - 1, i)
  {
    hide TakenBy, Represents, Fitted;
    var c := calls[|calls| - 1];
    assert Window(job, q) == WindowOf(job, c);
    var remaining := job.head[q.consumed..];
    RepresentsLength(c.chunk, remaining, Window(job, q));
    ChunkFits(c.chunk, remaining, Window(job, q), i - q.consumed);
  }

  lemma {:induction false} RepresentsLength(chunk: seq<RawMessage>, remaining: seq<RawMessage>, window: int)
    requires Represents(chunk, remaining, window)
    ensures 0 < |chunk| <= |remaining|
  {
  }

  lemma {:induction false} CarriesLonger(job: Job, calls: seq<Call>, m: nat, n: nat, i: nat)
    requires m <= |calls| && Carries(job, calls[..m], n, i)
    ensures Carries(job, calls, n, i)
  {
    assert calls[..m][..n] == calls[..n];
  }

  /** Every message that was taken was carried by an answered call. */
  lemma {:induction false} SomeCallCarries(job: Job, calls: seq<Call>, p: Progress, i: nat) returns (n: nat)
    requires RunsTo(job, calls, p) && i < p.consumed
    ensures Carries(job, calls, n, i)
  {
    hide Represents, Carries, CallAt, Fatal, TakenBy;
    var k := |calls| - 1;
    var q :| RunsTo(job, calls[..k], q) && CallAt(job, q, calls[k]) && p == After(job, q, calls[k]);
    if i < q.consumed {
      n := SomeCallCarries(job, calls[..k], q, i);
      CarriesLonger(job, calls, k, n, i);
    } else {
      TakenIsConsumed(job, calls[..k], q);
      LastCallCarries(job, calls, q, i);
      n := k;
    }
  }

  /** And by one only. */
  lemma {:induction false} OneCallOnly(calls: seq<Call>, m: nat, n: nat, i: nat)
    requires LiesIn(calls, m, i) && LiesIn(calls, n, i)
    ensures m == n
  {
    hide TakenBy;
    if m < n {
      TakenStep(calls, m);
      TakenMonotone(calls, m + 1, n);
    } else if n < m {
      TakenStep(calls, n);
      TakenMonotone(calls, n + 1, m);
    }
  }

  /** A call of the list carried the message, and no other answered call reached it. */
  ghost predicate CarriedOnce(job: Job, calls: seq<Call>, i: nat) {
    exists n: nat :: Carries(job, calls, n, i) && forall m: nat :: LiesIn(calls, m, i) ==> m == n
  }

  /** In a job that ended with a summary, every message of the head lies in exactly one answered call: whole if it
      fits the window of that call, else its beginning. */
  lemma {:induction false} EachMessageOnce(job: Job, calls: seq<Call>, summary: string, i: nat)
    requires Summarizes(job, calls, summary) && i < |job.head|
    ensures CarriedOnce(job, calls, i)
  {
    hide Carries, LiesIn, RunsTo;
    var p :| RunsTo(job, calls, p) && p.consumed == |job.head| && p.summary == summary;
    var n := SomeCallCarries(job, calls, p, i);
    assert LiesIn(calls, n, i) by { CarriesLies(job, calls, n, i); }
    forall m: nat | LiesIn(calls, m, i)
      ensures m == n
    {
      OneCallOnly(calls, m, n, i);
    }
  }

  lemma {:induction false} CarriesLies(job: Job, calls: seq<Call>, n: nat, i: nat)
    requires Carries(job, calls, n, i)
    ensures LiesIn(calls, n, i)
  {
  }

  // ---------------------------------------------------------------- one compaction

  /** The compaction of these messages handed over the one at `i`: it was in the head of the plan, at `at`, and exactly
      one answered call of those that were made carried it. */
  ghost predicate HandedOver(raw: seq<RawMessage>, keep: int, summary: string, config: Config, made: seq<Call>,
      i: nat) {
    && PlanOf(raw, keep).Plan? && i < |raw| && Summarizes(JobOn(raw, keep, config), made, summary)
    && exists at: nat :: at < |JobOn(raw, keep, config).head| && PlanOf(raw, keep).head[at] == i
        && JobOn(raw, keep, config).head[at] == raw[i] && CarriedOnce(JobOn(raw, keep, config), made, at)
  }

  /** Everything in the head of the plan is handed over by the calls that were made. */
  lemma {:induction false} HeadIsHandedOver(raw: seq<RawMessage>, keep: int, summary: string, config: Config,
      made: seq<Call>, i: nat)
    requires PlanOf(raw, keep).Plan? && i in PlanOf(raw, keep).head
    requires Summarizes(JobOn(raw, keep, config), made, summary)
    ensures HandedOver(raw, keep, summary, config, made, i)
  {
    hide PlanOf, Summarizes, CarriedOnce, JobOn;
    var head := PlanOf(raw, keep).head;
    var at :| 0 <= at < |head| && head[at] == i;
    EachMessageOnce(JobOn(raw, keep, config), made, summary, at);
  }

  // ---------------------------------------------------------------- runs of a transcript

  /** The events with the calls that each compaction made: every compaction that takes effect took its summary from a
      run of its job, and these are the calls of that run. */
  ghost predicate Logged(systemPrompt: string, events: seq<Event>, made: seq<seq<Call>>, config: Config) {
    && |made| == |events|
    && forall k :: 0 <= k < |events| ==>
         LoggedAt(Run(Init(systemPrompt), events[..k]).history, events[k], made[k], config)
  }

  ghost predicate LoggedAt(h: seq<Message>, e: Event, calls: seq<Call>, config: Config) {
    TakesEffect(h, e) ==> Summarizes(JobOn(Raw(h), e.keep, config), calls, e.summary)
  }

  /** Some compaction of the run handed over what the record says of `i`, by the calls it made. */
  ghost predicate HandedOverIn(systemPrompt: string, events: seq<Event>, made: seq<seq<Call>>, config: Config, i: nat,
      seen: RawMessage)
  {
    && |made| == |events|
    && exists k :: 0 <= k < |events| &&
         HandedOverAt(Run(Init(systemPrompt), events[..k]).history, events[k], made[k], config, i, seen)
  }

  ghost predicate HandedOverAt(h: seq<Message>, e: Event, calls: seq<Call>, config: Config, i: nat, seen: RawMessage) {
    && TakesEffect(h, e) && HandedOver(Raw(h), e.keep, e.summary, config, calls, i)
    && i < |h| && RawOf(h[i]) == seen
  }

  lemma {:induction false} HandedOverLonger(systemPrompt: string, events: seq<Event>, made: seq<seq<Call>>,
      config: Config, n: nat, i: nat, seen: RawMessage)
    requires n <= |events| == |made| && HandedOverIn(systemPrompt, events[..n], made[..n], config, i, seen)
    ensures HandedOverIn(systemPrompt, events, made, config, i, seen)
  {
    hide HandedOverAt, Run;
    var k :| 0 <= k < n &&
      HandedOverAt(Run(Init(systemPrompt), events[..n][..k]).history, events[..n][k], made[..n][k], config, i, seen);
    assert events[..n][..k] == events[..k];
  }

  lemma {:induction false} LoggedPrefix(systemPrompt: string, events: seq<Event>, made: seq<seq<Call>>, config: Config,
      n: nat)
    requires n <= |events| && Logged(systemPrompt, events, made, config)
    ensures Logged(systemPrompt, events[..n], made[..n], config)
  {
    hide LoggedAt, Run;
    forall k | 0 <= k < n
      ensures LoggedAt(Run(Init(systemPrompt), events[..n][..k]).history, events[..n][k], made[..n][k], config)
    {
      assert events[..n][..k] == events[..k];
    }
  }

  /** A step adds to the record only what a compaction has in the head of its plan. */
  lemma {:induction false} StepTells(t: State, e: Event, i: nat)
    requires i in Step(t, e).told && (i !in t.told || Step(t, e).told[i] != t.told[i])
    ensures TakesEffect(t.history, e) && e.Compress? && PlanOf(Raw(t.history), e.keep).Plan?
    ensures i in PlanOf(Raw(t.history), e.keep).head
    ensures i < |t.history| && Step(t, e).told[i] == RawOf(t.history[i])
  {
    hide PlanOf, RawOf, PrunedHistory, SystemUpdated, Marked, Trim;
  }

  /** The record says what was handed over, by the calls that were made. */
  lemma {:induction false} RecordIsHandedOver(systemPrompt: string, events: seq<Event>, made: seq<seq<Call>>,
      config: Config, i: nat)
    requires Logged(systemPrompt, events, made, config) && i in Run(Init(systemPrompt), events).told
    ensures HandedOverIn(systemPrompt, events, made, config, i, Run(Init(systemPrompt), events).told[i])
  {
    hide HandedOver, Step, PlanOf, RawOf, Trim, TakesEffect, JobOn;
    if events != [] {
      var n := |events| - 1;
      var before, e := events[..n], events[n];
      var t := Run(Init(systemPrompt), before);
      if i in t.told && Step(t, e).told[i] == t.told[i] {
        LoggedPrefix(systemPrompt, events, made, config, n);
        RecordIsHandedOver(systemPrompt, before, made[..n], config, i);
        HandedOverLonger(systemPrompt, events, made, config, n, i, t.told[i]);
      } else {
        StepTells(t, e, i);
        assert LoggedAt(t.history, e, made[n], config);
        HeadIsHandedOver(Raw(t.history), e.keep, e.summary, config, made[n], i);
        assert HandedOverAt(t.history, e, made[n], config, i, RawOf(t.history[i]));
      }
    }
  }

  /** A message that nothing has to be told of: the system message, a compaction prompt or cleared output. */
  predicate NeedsNoTelling(m: Message) {
    m.role.System? || IsPrompt(m) || IsPlaceholder(m)
  }

  /** Some compaction of the run made its first call with this as the summary so far. */
  ghost predicate PassedOn(systemPrompt: string, events: seq<Event>, made: seq<seq<Call>>, content: string) {
    && |made| == |events|
    && exists k :: 0 <= k < |events| &&
         PassedOnAt(Run(Init(systemPrompt), events[..k]).history, events[k], made[k], content)
  }

  ghost predicate PassedOnAt(h: seq<Message>, e: Event, calls: seq<Call>, content: string) {
    TakesEffect(h, e) && calls != [] && calls[0].previous == content
  }

  lemma {:induction false} WentOnIsPassedOn(systemPrompt: string, events: seq<Event>, made: seq<seq<Call>>,
      config: Config, content: string)
    requires Logged(systemPrompt, events, made, config) && WentOn(systemPrompt, events, content)
    ensures PassedOn(systemPrompt, events, made, content)
  {
    hide PlanOf, Summarizes, JobOn, Trim, Run, Raw;
    var k :| 0 <= k < |events| && GoesOn(Run(Init(systemPrompt), events[..k]).history, events[k], content);
    var h, e := Run(Init(systemPrompt), events[..k]).history, events[k];
    assert LoggedAt(h, e, made[k], config);
    FirstCallStarts(Raw(h), e.keep, config, made[k], e.summary);
    assert PassedOnAt(h, e, made[k], content);
  }

  /** The same message for a summariser. */
  predicate SaysTheSame(seen: RawMessage, m: Message) {
    seen.role == m.role && seen.content == RawOf(m).content
  }

  /** Nothing is lost on the way to the model. In every run, with the calls that its compactions made: a message is
      visible, or needs no telling, or is a summary with which a later compaction made its first call,
        or some compaction
      handed it over with its content: exactly one answered call of those made carried it, whole if it fits that call's
      window and else cut to its beginning. */
  lemma {:induction false} NothingLostToTheModel(systemPrompt: string, events: seq<Event>, made: seq<seq<Call>>,
      config: Config, i: nat)
    requires Logged(systemPrompt, events, made, config) && i < |Run(Init(systemPrompt), events).history|
    ensures var h := Run(Init(systemPrompt), events).history;
      || (Tail(h) <= i && h[i] in Visible(h))
      || NeedsNoTelling(h[i])
      || (h[i].summary && PassedOn(systemPrompt, events, made, h[i].content))
      || exists seen :: SaysTheSame(seen, h[i]) && HandedOverIn(systemPrompt, events, made, config, i, seen)
  {
    hide Run, Visible, Tail, HandedOverIn, Logged, RawOf, WentOn, PassedOn;
    NothingLost(systemPrompt, events, i);
    if WentOn(systemPrompt, events, Run(Init(systemPrompt), events).history[i].content) {
      WentOnIsPassedOn(systemPrompt, events, made, config, Run(Init(systemPrompt), events).history[i].content);
    }
    var t := Run(Init(systemPrompt), events);
    if i in t.told {
      RecordIsHandedOver(systemPrompt, events, made, config, i);
    }
  }

  // ---------------------------------------------------------------- runs with background compactions

  /** The events of a peer with the calls of the job that each event ran to its end, if it ran one. */
  ghost predicate PeerLogged(p: Peer, events: seq<PeerEvent>, made: seq<seq<Call>>, config: Config) {
    && |made| == |events|
    && forall k :: 0 <= k < |events| ==> CallsOfEvent(PeerRun(p, events[..k]), events[k], made[k], config)
  }

  /** Event `k` ran this job. */
  predicate RanAt(p: Peer, events: seq<PeerEvent>, k: nat, raw: seq<RawMessage>, keep: int, summary: string) {
    k < |events| && JobAt(PeerRun(p, events[..k]), events[k]) == Ran(raw, keep, summary)
  }

  /** Some event of the run ran a job, on the session or on a snapshot, and the calls it made handed over what the
      record says of `i`. */
  ghost predicate PeerHandedOver(p: Peer, events: seq<PeerEvent>, made: seq<seq<Call>>, config: Config, i: nat,
      seen: RawMessage)
  {
    exists k: nat, raw, keep, summary :: RanAt(p, events, k, raw, keep, summary)
      && k < |made| && HandedOver(raw, keep, summary, config, made[k], i) && i < |raw| && raw[i] == seen
  }

  /** A result that waits came out of a job on its snapshot. */
  ghost predicate WaitsFromJob(p: Peer, events: seq<PeerEvent>) {
    var q := PeerRun(p, events);
    q.slot.Busy? && q.slot.task.status.Ready? ==>
      exists k: nat, keep ::
        && RanAt(p, events, k, q.slot.task.snapshot, keep, q.slot.task.status.summary)
        && q.slot.task.status.plan == PlanOf(q.slot.task.snapshot, keep)
  }

  lemma {:induction false} RanLonger(p: Peer, events: seq<PeerEvent>, n: nat, k: nat, raw: seq<RawMessage>, keep: int,
      summary: string)
    requires n <= |events| && RanAt(p, events[..n], k, raw, keep, summary)
    ensures RanAt(p, events, k, raw, keep, summary)
  {
    hide PeerRun, JobAt;
    assert events[..n][..k] == events[..k];
  }

  lemma {:induction false} RanLast(p: Peer, events: seq<PeerEvent>, raw: seq<RawMessage>, keep: int, summary: string)
    requires events != [] && JobAt(PeerRun(p, events[..|events| - 1]), events[|events| - 1]) == Ran(raw, keep, summary)
    ensures RanAt(p, events, |events| - 1, raw, keep, summary)
  {
    hide PeerRun, JobAt;
  }

  /** A result starts to wait only by a job on the snapshot it belongs to, and waits unchanged. */
  lemma {:induction false} StepWaits(p: Peer, e: PeerEvent)
    requires var q := PeerStep(p, e); q.slot.Busy? && q.slot.task.status.Ready?
    ensures var task := PeerStep(p, e).slot.task;
      || (p.slot.Busy? && p.slot.task == task)
      || exists keep :: JobAt(p, e) == Ran(task.snapshot, keep, task.status.summary)
          && task.status.plan == PlanOf(task.snapshot, keep)
  {
    hide PlanOf, Step, CompressNow, ApplyReady, Trim;
    match e
    case Talk(_) =>
    case StartSpeculative =>
    case FinishSpeculative(id, keep, attempt) =>
      if p.slot.Busy? && p.slot.task.id == id && p.slot.task.status.Running? {
        assert JobAt(p, e) == Ran(p.slot.task.snapshot, keep, PeerStep(p, e).slot.task.status.summary);
      }
    case CheckAndCompress(keep, attempt) =>
      if CanApply(p) && p.slot.task.status.plan.Plan? { ApplyEmptiesSlot(p); }
    case ResetPeer(_) =>
  }

  lemma {:induction false} WaitingFromJob(p: Peer, events: seq<PeerEvent>)
    requires p.slot.Idle?
    ensures WaitsFromJob(p, events)
  {
    hide PlanOf, PeerStep, JobAt, RanAt;
    if events != [] {
      var n := |events| - 1;
      var before, e := events[..n], events[n];
      WaitingFromJob(p, before);
      var q, q' := PeerRun(p, before), PeerRun(p, events);
      if q'.slot.Busy? && q'.slot.task.status.Ready? {
        StepWaits(q, e);
        var task := q'.slot.task;
        if q.slot.Busy? && q.slot.task == task {
          var k: nat, keep :| RanAt(p, before, k, task.snapshot, keep, task.status.summary)
            && task.status.plan == PlanOf(task.snapshot, keep);
          RanLonger(p, events, n, k, task.snapshot, keep, task.status.summary);
        } else {
          var keep :| JobAt(q, e) == Ran(task.snapshot, keep, task.status.summary)
            && task.status.plan == PlanOf(task.snapshot, keep);
          RanLast(p, events, task.snapshot, keep, task.status.summary);
        }
      }
    }
  }

  /** What a step adds to the record: the head of a job that it runs itself, or of the result that it applies. */
  lemma {:induction false} PeerStepTells(p: Peer, e: PeerEvent, i: nat)
    requires i in PeerStep(p, e).t.told && (i !in p.t.told || PeerStep(p, e).t.told[i] != p.t.told[i])
    ensures var seen := PeerStep(p, e).t.told[i];
      || (JobAt(p, e).Ran? && i in PlanOf(JobAt(p, e).raw, JobAt(p, e).keep).head
          && i < |JobAt(p, e).raw| && JobAt(p, e).raw[i] == seen)
      || (p.slot.Busy? && p.slot.task.status.Ready? && p.slot.task.status.plan.Plan?
          && i in p.slot.task.status.plan.head && i < |p.slot.task.snapshot| && p.slot.task.snapshot[i] == seen)
  {
    hide PlanOf, RawOf, PrunedHistory, SystemUpdated, MarkedAndContinued, Trim;
    match e
    case Talk(talk) => TalkTellsNothing(p.t, talk);
    case StartSpeculative =>
    case FinishSpeculative(id, keep, attempt) =>
    case CheckAndCompress(keep, attempt) =>
      assert forall k :: 0 <= k < |p.t.history| ==> Raw(p.t.history)[k] == RawOf(p.t.history[k]);
    case ResetPeer(_) =>
  }

  lemma {:induction false} TalkTellsNothing(t: State, e: Event)
    ensures !e.Compress? ==> Step(t, e).told == t.told
  {
    hide PrunedHistory, SystemUpdated;
  }

  lemma {:induction false} PeerHandedOverLonger(p: Peer, events: seq<PeerEvent>, made: seq<seq<Call>>, config: Config,
      n: nat, i: nat, seen: RawMessage)
    requires n <= |events| && n <= |made| && PeerHandedOver(p, events[..n], made[..n], config, i, seen)
    ensures PeerHandedOver(p, events, made, config, i, seen)
  {
    hide HandedOver, RanAt, PeerRun;
    var k: nat, raw, keep, summary :| RanAt(p, events[..n], k, raw, keep, summary)
      && k < n && HandedOver(raw, keep, summary, config, made[..n][k], i) && i < |raw| && raw[i] == seen;
    RanLonger(p, events, n, k, raw, keep, summary);
  }

  /** The calls of a job that was run hand over its head. */
  lemma {:induction false} JobHandsOver(p: Peer, events: seq<PeerEvent>, made: seq<seq<Call>>, config: Config, k: nat,
      raw: seq<RawMessage>, keep: int, summary: string, i: nat)
    requires PeerLogged(p, events, made, config) && RanAt(p, events, k, raw, keep, summary)
    requires PlanOf(raw, keep).Plan? && i in PlanOf(raw, keep).head && i < |raw|
    ensures PeerHandedOver(p, events, made, config, i, raw[i])
  {
    hide PeerRun, PlanOf, JobOn, JobAt, Summarizes, HandedOver;
    assert CallsOfEvent(PeerRun(p, events[..k]), events[k], made[k], config);
    HeadIsHandedOver(raw, keep, summary, config, made[k], i);
  }

  lemma {:induction false} PeerLoggedPrefix(p: Peer, events: seq<PeerEvent>, made: seq<seq<Call>>, config: Config,
      n: nat)
    requires n <= |events| && PeerLogged(p, events, made, config)
    ensures PeerLogged(p, events[..n], made[..n], config)
  {
    hide CallsOfEvent, PeerRun;
    assert |made| == |events|;
    forall k | 0 <= k < n
      ensures CallsOfEvent(PeerRun(p, events[..n][..k]), events[..n][k], made[..n][k], config)
    {
      assert events[..n][..k] == events[..k];
    }
  }

  /** The record of a peer says what was handed over, by the calls that were made. */
  lemma {:induction false} PeerRecordIsHandedOver(p: Peer, events: seq<PeerEvent>, made: seq<seq<Call>>, config: Config,
      i: nat)
    requires PeerLogged(p, events, made, config) && p.slot.Idle? && p.t.told == map[]
    requires i in PeerRun(p, events).t.told
    ensures PeerHandedOver(p, events, made, config, i, PeerRun(p, events).t.told[i])
  {
    hide HandedOver, PeerStep, PlanOf, JobAt, RanAt, PeerLogged;
    if events != [] {
      var n := |events| - 1;
      var before, e := events[..n], events[n];
      var q := PeerRun(p, before);
      if i in q.t.told && PeerStep(q, e).t.told[i] == q.t.told[i] {
        PeerLoggedPrefix(p, events, made, config, n);
        PeerLoggedLength(p, events, made, config);
        PeerRecordIsHandedOver(p, before, made[..n], config, i);
        PeerHandedOverLonger(p, events, made, config, n, i, q.t.told[i]);
      } else {
        PeerStepTells(q, e, i);
        var j := JobAt(q, e);
        if j.Ran? && i in PlanOf(j.raw, j.keep).head && i < |j.raw| && j.raw[i] == PeerStep(q, e).t.told[i] {
          RanLast(p, events, j.raw, j.keep, j.summary);
          JobHandsOver(p, events, made, config, n, j.raw, j.keep, j.summary, i);
        } else {
          WaitingFromJob(p, before);
          var task := q.slot.task;
          var k: nat, keep :| RanAt(p, before, k, task.snapshot, keep, task.status.summary)
            && task.status.plan == PlanOf(task.snapshot, keep);
          RanLonger(p, events, n, k, task.snapshot, keep, task.status.summary);
          JobHandsOver(p, events, made, config, k, task.snapshot, keep, task.status.summary, i);
        }
      }
    }
  }

  lemma {:induction false} PeerLoggedLength(p: Peer, events: seq<PeerEvent>, made: seq<seq<Call>>, config: Config)
    requires PeerLogged(p, events, made, config)
    ensures |made| == |events|
  {
  }

  // ---------------------------------------------------------------- summaries of a peer

  /** A step that adds a summary ran a job that went on from the latest one, or applies such a job's result. */
  ghost predicate AddsSummary(p: Peer, e: PeerEvent) {
    var h := p.t.history;
    && OneNewSummary(h, PeerStep(p, e).t.history)
    && (LastMarker(h) >= 0 ==>
      || (JobAt(p, e).Ran? && LatestSays(JobAt(p, e).raw, h[LastMarker(h)].content))
      || (p.slot.Busy? && p.slot.task.status.Ready? && LatestSays(p.slot.task.snapshot, h[LastMarker(h)].content)))
  }

  lemma {:induction false} PeerStepKeepsSummaries(p: Peer, e: PeerEvent)
    requires PeerInv(p) && !e.ResetPeer?
    ensures NoNewSummary(p.t.history, PeerStep(p, e).t.history) || AddsSummary(p, e)
  {
    hide Inv, TaskInv, Step, PlanOf, NoNewSummary, OneNewSummary, MarkedAndContinued, LatestSays, Raw, Trim;
    var h := p.t.history;
    InvMarks(p.t);
    if LastMarker(h) >= 0 { MarkerIsLatest(h); }
    match e
    case Talk(talk) =>
      if talk.Compress? { SummariesSame(h); } else {
        StepKeepsSummaries(p.t, talk);
        assert !TakesEffect(h, talk);
      }
    case StartSpeculative => SummariesSame(h);
    case FinishSpeculative(id, keep, attempt) => SummariesSame(h);
    case CheckAndCompress(keep, attempt) =>
      if CanApply(p) && p.slot.task.status.plan.Plan? {
        MarkAndContinueAdds(h, p.slot.task.status.plan.firstKept, p.slot.task.status.summary);
        if LastMarker(h) >= 0 { WaitingWentOn(p); }
      } else if PlanHeadBounded(h, keep).Plan? && Usable(attempt) {
        MarkAndContinueAdds(h, PlanHeadBounded(h, keep).firstKept, attempt.text);
      } else {
        SummariesSame(h);
      }
  }

  lemma {:induction false} SummariesSame(h: seq<Message>)
    ensures NoNewSummary(h, h)
  {
  }

  lemma {:induction false} MarkAndContinueAdds(h: seq<Message>, f: nat, summary: string)
    ensures OneNewSummary(h, MarkedAndContinued(h, f, summary))
  {
    MarkingAddsSummary(h, f, summary);
    LastMarkerAppend(Marked(h, f, summary), [UserMessage(COMPACTION_AUTO_CONTINUE_TEXT)]);
  }

  lemma {:induction false} SameLatest(snapshot: seq<RawMessage>, h: seq<Message>)
    requires WellMarked(h) && LastMarker(h) >= 0 && SnapshotOf(snapshot, h) && NoMarkerSince(h, |snapshot|)
    ensures LatestSays(snapshot, h[LastMarker(h)].content)
  {
    hide LastMarker, RawOf;
    var m := LastMarker(h);
    SummariesAreMarkers(h);
    assert MarkedAt(h, m);
    hide WellMarked;
    assert m < |snapshot| && Matches(snapshot[m], h[m]);
    assert RawOf(h[m]).content == h[m].content by { SummarySays(h[m]); }
    forall j | m < j < |snapshot|
      ensures !snapshot[j].summary
    {
      assert Matches(snapshot[j], h[j]);
    }
    assert IsLatestSummary(snapshot, m) && snapshot[m].content == h[m].content;
  }

  lemma {:induction false} SummarySays(m: Message)
    requires m.toolCalls == []
    ensures RawOf(m).content == m.content
  {
  }

  /** The snapshot of a result that may be applied has the same latest summary as the session now. */
  lemma {:induction false} WaitingWentOn(p: Peer)
    requires PeerInv(p) && CanApply(p) && LastMarker(p.t.history) >= 0
    ensures LatestSays(p.slot.task.snapshot, p.t.history[LastMarker(p.t.history)].content)
  {
    FreshEnough(p);
    InvMarks(p.t);
    hide Inv, LastMarker, PlanOf, SnapshotOf, NoMarkerSince, LatestSays;
    SameLatest(p.slot.task.snapshot, p.t.history);
  }

  /** Some job of the peer went on from this as the latest summary. */
  ghost predicate PeerWentOn(p: Peer, events: seq<PeerEvent>, content: string) {
    exists k: nat, raw, keep, summary :: RanAt(p, events, k, raw, keep, summary) && LatestSays(raw, content)
  }

  /** Some job of the peer made its first call with this as the summary so far. */
  ghost predicate PeerPassedOn(p: Peer, events: seq<PeerEvent>, made: seq<seq<Call>>, content: string) {
    exists k: nat, raw, keep, summary :: RanAt(p, events, k, raw, keep, summary)
      && k < |made| && made[k] != [] && made[k][0].previous == content
  }

  lemma {:induction false} PeerWentOnIsPassedOn(p: Peer, events: seq<PeerEvent>, made: seq<seq<Call>>, config: Config,
      content: string)
    requires PeerLogged(p, events, made, config) && PeerWentOn(p, events, content)
    ensures PeerPassedOn(p, events, made, content)
  {
    hide PlanOf, Summarizes, JobOn, PeerRun, JobAt;
    var k: nat, raw, keep, summary :| RanAt(p, events, k, raw, keep, summary) && LatestSays(raw, content);
    assert CallsOfEvent(PeerRun(p, events[..k]), events[k], made[k], config);
    FirstCallStarts(raw, keep, config, made[k], summary);
  }

  lemma {:induction false} PeerWentOnLonger(p: Peer, events: seq<PeerEvent>, n: nat, content: string)
    requires n <= |events| && PeerWentOn(p, events[..n], content)
    ensures PeerWentOn(p, events, content)
  {
    hide RanAt, LatestSays;
    var k: nat, raw, keep, summary :| RanAt(p, events[..n], k, raw, keep, summary) && LatestSays(raw, content);
    RanLonger(p, events, n, k, raw, keep, summary);
  }

  /** The last step of a run adds a summary: what was the latest one went on. */
  lemma {:induction false} ReplacedWentOn(p: Peer, events: seq<PeerEvent>)
    requires events != [] && p.slot.Idle?
    requires var q := PeerRun(p, events[..|events| - 1]);
      AddsSummary(q, events[|events| - 1]) && LastMarker(q.t.history) >= 0
    ensures var h := PeerRun(p, events[..|events| - 1]).t.history;
      PeerWentOn(p, events, h[LastMarker(h)].content)
  {
    hide PeerRun, JobAt, LatestSays, RanAt, PlanOf, OneNewSummary, PeerStep;
    var n := |events| - 1;
    var q := PeerRun(p, events[..n]);
    var content := q.t.history[LastMarker(q.t.history)].content;
    var j := JobAt(q, events[n]);
    if j.Ran? && LatestSays(j.raw, content) {
      RanLast(p, events, j.raw, j.keep, j.summary);
    } else {
      WaitingFromJob(p, events[..n]);
      var k: nat, keep :| RanAt(p, events[..n], k, q.slot.task.snapshot, keep, q.slot.task.status.summary);
      RanLonger(p, events, n, k, q.slot.task.snapshot, keep, q.slot.task.status.summary);
    }
  }

  lemma {:induction false} PeerOldSummaryWentOn(systemPrompt: string, events: seq<PeerEvent>, i: nat)
    requires var h := PeerRun(InitPeer(systemPrompt), events).t.history;
      i < |h| && h[i].summary && i != LastMarker(h)
    ensures PeerWentOn(InitPeer(systemPrompt), events, PeerRun(InitPeer(systemPrompt), events).t.history[i].content)
  {
    hide PeerStep, PeerInv, AddsSummary, LastMarker, PeerWentOn;
    if events != [] {
      var n := |events| - 1;
      var before, e := events[..n], events[n];
      var q := PeerRun(InitPeer(systemPrompt), before);
      if e.ResetPeer? {
        ResetHasNoSummary(q, e);
      } else {
        PeerRunKeepsInv(systemPrompt, before);
        PeerStepKeepsSummaries(q, e);
        assert AddsSummary(q, e) ==> OneNewSummary(q.t.history, PeerStep(q, e).t.history) by {
          AddsOne(q, e);
        }
        if i != LastMarker(q.t.history) {
          PeerOldSummaryWentOn(systemPrompt, before, i);
          PeerWentOnLonger(InitPeer(systemPrompt), events, n, q.t.history[i].content);
        } else {
          ReplacedWentOn(InitPeer(systemPrompt), events);
        }
      }
    }
  }

  lemma {:induction false} AddsOne(p: Peer, e: PeerEvent)
    ensures AddsSummary(p, e) ==> OneNewSummary(p.t.history, PeerStep(p, e).t.history)
  {
  }

  lemma {:induction false} ResetHasNoSummary(p: Peer, e: PeerEvent)
    requires e.ResetPeer?
    ensures forall i :: 0 <= i < |PeerStep(p, e).t.history| ==> !PeerStep(p, e).t.history[i].summary
  {
  }

  /** The same for a peer, with compactions in the background that are applied later, and with resets. */
  lemma {:induction false} NothingLostToThePeersModel(systemPrompt: string, events: seq<PeerEvent>,
      made: seq<seq<Call>>, config: Config, i: nat)
    requires PeerLogged(InitPeer(systemPrompt), events, made, config)
    requires i < |PeerRun(InitPeer(systemPrompt), events).t.history|
    ensures var h := PeerRun(InitPeer(systemPrompt), events).t.history;
      || (Tail(h) <= i && h[i] in Visible(h))
      || NeedsNoTelling(h[i])
      || (h[i].summary && PeerPassedOn(InitPeer(systemPrompt), events, made, h[i].content))
      || exists seen :: SaysTheSame(seen, h[i]) && PeerHandedOver(InitPeer(systemPrompt), events, made, config, i, seen)
  {
    hide PeerRun, Visible, Tail, PeerHandedOver, PeerPassedOn, PeerLogged, RawOf, Inv, TaskInv;
    PeerRunKeepsInv(systemPrompt, events);
    var t := PeerRun(InitPeer(systemPrompt), events).t;
    InvLosesNothing(t, i);
    if i < Tail(t.history) && t.history[i].summary {
      TailBeforeMarker(t.history) by { InvMarks(t); }
      PeerOldSummaryWentOn(systemPrompt, events, i);
      PeerWentOnIsPassedOn(InitPeer(systemPrompt), events, made, config, t.history[i].content);
    }
    if i in t.told {
      PeerRecordIsHandedOver(InitPeer(systemPrompt), events, made, config, i);
    }
  }

  // ---------------------------------------------------------------- into the text

  /** Of a message that a call carries, its trimmed content stands in the text the model is asked about, before the
      tags are removed; of tool output at least the first 2000 bytes. */
  lemma {:induction false} CarriedEntersPrompt(job: Job, calls: seq<Call>, n: nat, i: nat)
    requires Carries(job, calls, n, i)
    ensures var m := Fitted(job.head[i], WindowOf(job, calls[n]));
      var content := Trim(m.content);
      var kept := if m.role.Tool? && |content| > Prompts.TOOL_OUTPUT_MAX_CHARS
        then content[..Prompts.TOOL_OUTPUT_MAX_CHARS] else content;
      content != [] ==> exists part: string ::
        Contains(part, kept) && Contains(Prompts.Joined(Prompts.PartsOf(calls[n].chunk)), part)
  {
    hide Fitted, WindowOf, TakenBy, Trim, Prompts.Joined, Prompts.PartsOf, Prompts.PartOf, Contains;
    var chunk, k := calls[n].chunk, i - TakenBy(calls[..n]);
    if Trim(chunk[k].content) != [] { Prompts.EveryMessageEnters(chunk, k); }
  }
}
