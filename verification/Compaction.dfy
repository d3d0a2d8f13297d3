/** Planning a compaction: which messages are still to be summarised, where the kept tail
    starts, and the summary that replaces the rest. */
module Compaction {
  import opened Messages
  import opened Budgets
  import opened Summaries
  import Text

  datatype CutPoint = CutPoint(firstKept: nat, found: bool)

  datatype CompactResult = CompactResult(summary: string, firstKept: int, tokensBefore: int, tokensAfter: int)

  datatype CompactOutcome = Compacted(result: CompactResult) | NotCompacted(reason: string)

  predicate IsValidCutPoint(m: RawMessage) { m.role.User? || m.role.Assistant? }

  // ---- Cut point ----

  /** Positions below `n` where the kept tail may start, in order. */
  function CutPoints(ms: seq<RawMessage>, n: nat): (c: seq<nat>)
    requires n <= |ms|
    ensures forall k :: 0 <= k < |c| ==> c[k] < n && IsValidCutPoint(ms[c[k]])
    ensures forall k, l :: 0 <= k < l < |c| ==> c[k] < c[l]
    ensures forall i :: 0 <= i < n && IsValidCutPoint(ms[i]) ==> i in c
  {
    if n == 0 then [] else
    CutPoints(ms, n - 1) + if IsValidCutPoint(ms[n - 1]) then [n - 1] else []
  }

  /** Content tokens from position `i` on. */
  function TailTokens(ms: seq<RawMessage>, i: nat): nat
    requires i <= |ms|
    decreases |ms| - i
  {
    if i == |ms| then 0 else EstimateTokens(ms[i].content) + TailTokens(ms, i + 1)
  }

  /** The last position before `n` from which the tail holds at least `keep` tokens, or -1. */
  function KeepFrom(ms: seq<RawMessage>, keep: int, n: nat): (i: int)
    requires n <= |ms|
    ensures -1 <= i < n
    ensures i >= 0 ==> TailTokens(ms, i) >= keep
    ensures forall j :: i < j < n ==> TailTokens(ms, j) < keep
  {
    if n == 0 then -1
    else if TailTokens(ms, n - 1) >= keep then n - 1
    else KeepFrom(ms, keep, n - 1)
  }

  /** The first of the positions that is at least `i`, or else the default. */
  function FirstFrom(cuts: seq<nat>, i: int, default: nat): nat {
    if cuts == [] then default else if cuts[0] >= i then cuts[0] else FirstFrom(cuts[1..], i, default)
  }

  function Cut(ms: seq<RawMessage>, keep: int): CutPoint {
    var cuts := CutPoints(ms, |ms|);
    if cuts == [] then CutPoint(0, false) else
    var i := KeepFrom(ms, keep, |ms|);
    if i < 0 then CutPoint(cuts[0], false) else
    var first := FirstFrom(cuts, i, cuts[0]);
    CutPoint(first, first > 0)
  }

  method FindCutPoint(ms: seq<RawMessage>, keep: int) returns (cut: CutPoint)
    ensures cut == Cut(ms, keep)
  {
    var cutPoints := [];
    for i := 0 to |ms|
      invariant cutPoints == CutPoints(ms, i)
    {
      if IsValidCutPoint(ms[i]) {
        cutPoints := cutPoints + [i];
      }
    }
    if |cutPoints| == 0 {
      return CutPoint(0, false);
    }
    var accumulated := 0;
    var firstKept := cutPoints[0];
    var i := |ms| - 1;
    while i >= 0
      invariant -1 <= i < |ms|
      invariant accumulated == TailTokens(ms, i + 1)
      invariant KeepFrom(ms, keep, |ms|) == KeepFrom(ms, keep, i + 1)
    {
      accumulated := accumulated + EstimateTokens(ms[i].content);
      if accumulated >= keep {
        firstKept := FindFrom(cutPoints, i, firstKept);
        return CutPoint(firstKept, firstKept > 0);
      }
      i := i - 1;
    }
    return CutPoint(firstKept, false);
  }

  /** The search among the places where the tail may start. */
  method FindFrom(cutPoints: seq<nat>, i: int, default: nat) returns (first: nat)
    ensures first == FirstFrom(cutPoints, i, default)
  {
    assert cutPoints[0..] == cutPoints;
    for k := 0 to |cutPoints|
      invariant FirstFrom(cutPoints, i, default) == FirstFrom(cutPoints[k..], i, default)
    {
      assert cutPoints[k..][1..] == cutPoints[k + 1..];
      if cutPoints[k] >= i {
        return cutPoints[k];
      }
    }
    return default;
  }

  lemma {:induction false} FirstFromLeast(cuts: seq<nat>, i: int, default: nat)
    requires forall k, l :: 0 <= k < l < |cuts| ==> cuts[k] < cuts[l]
    ensures var f := FirstFrom(cuts, i, default);
      || (f in cuts && f >= i && forall k :: 0 <= k < |cuts| && cuts[k] >= i ==> f <= cuts[k])
      || (f == default && forall k :: 0 <= k < |cuts| ==> cuts[k] < i)
  {
    if cuts != [] && cuts[0] < i {
      FirstFromLeast(cuts[1..], i, default);
      assert forall k :: 1 <= k < |cuts| ==> cuts[k] == cuts[1..][k - 1];
    }
  }

  /** The tokens of a tail are those of its contents alone. */
  lemma {:induction false} TailTokensAre(ms: seq<RawMessage>, i: nat)
    requires i <= |ms|
    ensures TailTokens(ms, i) == MessagesTokens(ms[i..]) - 4 * |ms[i..]|
    decreases |ms| - i
  {
    hide EstimateTokens;
    if i < |ms| {
      TailTokensAre(ms, i + 1);
      assert ms[i..] == [ms[i]] + ms[i + 1..];
      EstimateConcat([ms[i]], ms[i + 1..]);
      OneMessage(ms[i]);
    }
  }

  /** Here the kept tail may start. */
  predicate MayStart(ms: seq<RawMessage>, f: int) {
    0 <= f < |ms| && ms[f].role in {User, Assistant}
  }

  /** The cut in full. Let the tail from `i` on be the shortest that holds the tokens to keep. The cut is at the first
      place from `i` on where the tail may start, or without one at the first of all; but it is none if that is the very
      first message. Without such a tail, or without such a place, there is none. */
  lemma {:induction false} CutIs(ms: seq<RawMessage>, keep: int, i: nat, f: nat)
    requires i < |ms| && MayStart(ms, f)
    requires TailTokens(ms, i) >= keep && forall j :: i < j < |ms| ==> TailTokens(ms, j) < keep
    requires if i <= f then forall j :: i <= j < f ==> !MayStart(ms, j)
      else forall j :: MayStart(ms, j) ==> f <= j < i
    ensures Cut(ms, keep) == CutPoint(f, f > 0)
  {
    hide CutPoints, KeepFrom, FirstFrom, TailTokens;
    var cuts := CutPoints(ms, |ms|);
    assert f in cuts;
    assert KeepFrom(ms, keep, |ms|) == i;
    FirstFromLeast(cuts, i, cuts[0]);
    var first := FirstFrom(cuts, i, cuts[0]);
    assert MayStart(ms, cuts[0]) && MayStart(ms, first);
    var k :| 0 <= k < |cuts| && cuts[k] == f;
  }

  lemma {:induction false} NoCut(ms: seq<RawMessage>, keep: int)
    requires (forall j :: !MayStart(ms, j)) || (forall j :: 0 <= j < |ms| ==> TailTokens(ms, j) < keep)
    ensures !Cut(ms, keep).found
  {
    hide CutPoints, KeepFrom, FirstFrom, TailTokens;
    var cuts := CutPoints(ms, |ms|);
    var i := KeepFrom(ms, keep, |ms|);
    assert i >= 0 ==> TailTokens(ms, i) >= keep;
    if cuts != [] { assert MayStart(ms, cuts[0]); }
  }

  /** The kept tail starts at a user or assistant message, never at the first message; it is the
      first such place at or after the point where the tail reaches the tokens to keep, or
      the very first such place when that point lies past them all. */
  lemma {:induction false} CutMeaning(ms: seq<RawMessage>, keep: int)
    requires Cut(ms, keep).found
    ensures var f, i := Cut(ms, keep).firstKept, KeepFrom(ms, keep, |ms|);
      && 0 < f < |ms| && IsValidCutPoint(ms[f]) && i >= 0
      && (|| (i <= f && forall j :: i <= j < f ==> !IsValidCutPoint(ms[j]))
          || (forall j :: 0 <= j < |ms| && IsValidCutPoint(ms[j]) ==> f <= j < i))
  {
    hide CutPoints, KeepFrom, FirstFrom;
    var cuts := CutPoints(ms, |ms|);
    var i := KeepFrom(ms, keep, |ms|);
    var f := Cut(ms, keep).firstKept;
    FirstFromLeast(cuts, i, cuts[0]);
    assert f in cuts;
    forall j | 0 <= j < |ms| && IsValidCutPoint(ms[j])
      ensures f <= j || j < i
    {
      var k :| 0 <= k < |cuts| && cuts[k] == j;
    }
  }

  // ---- Work list ----

  /** Tail start recorded by the last summary before `n` that carries a usable one, or 0. */
  function WorkStart(ms: seq<RawMessage>, n: nat): (s: nat)
    requires n <= |ms|
    ensures s == 0 || s < n
  {
    if n == 0 then 0
    else if ms[n - 1].summary && 0 < ms[n - 1].tailStartID < n - 1 then ms[n - 1].tailStartID
    else WorkStart(ms, n - 1)
  }

  /** Messages that still have to be summarised or kept. */
  predicate InWork(m: RawMessage) {
    !m.compacted && !m.summary && !(m.role.User? && m.content == COMPACTION_USER_MESSAGE)
  }

  function WorkIndexes(ms: seq<RawMessage>, lo: nat, n: nat): (w: seq<nat>)
    requires n <= |ms|
    ensures forall k :: 0 <= k < |w| ==> lo <= w[k] < n && InWork(ms[w[k]])
    ensures forall k, l :: 0 <= k < l < |w| ==> w[k] < w[l]
    ensures forall i :: lo <= i < n && InWork(ms[i]) ==> i in w
  {
    if n <= lo then [] else
    WorkIndexes(ms, lo, n - 1) + if InWork(ms[n - 1]) then [n - 1] else []
  }

  function Select(ms: seq<RawMessage>, at: seq<nat>): (r: seq<RawMessage>)
    requires forall k :: 0 <= k < |at| ==> at[k] < |ms|
    ensures |r| == |at| && forall k :: 0 <= k < |at| ==> r[k] == ms[at[k]]
  {
    seq(|at|, k requires 0 <= k < |at| => ms[at[k]])
  }

  function Work(ms: seq<RawMessage>): (w: seq<nat>)
    ensures forall k :: 0 <= k < |w| ==> w[k] < |ms|
  {
    WorkIndexes(ms, WorkStart(ms, |ms|), |ms|)
  }

  method CompactionWorkList(messages: seq<RawMessage>) returns (msgs: seq<RawMessage>, indexes: seq<nat>)
    ensures indexes == Work(messages) && msgs == Select(messages, indexes)
  {
    var start := 0;
    var i := |messages| - 1;
    while i >= 0
      invariant -1 <= i < |messages| && start == 0
      invariant WorkStart(messages, |messages|) == WorkStart(messages, i + 1)
    {
      if messages[i].summary && messages[i].tailStartID > 0 && messages[i].tailStartID < i {
        start := messages[i].tailStartID;
        break;
      }
      i := i - 1;
    }
    msgs, indexes := CollectWork(messages, start);
  }

  /** The second loop of the work list. */
  method CollectWork(messages: seq<RawMessage>, start: nat) returns (msgs: seq<RawMessage>, indexes: seq<nat>)
    requires start <= |messages|
    ensures indexes == WorkIndexes(messages, start, |messages|) && msgs == Select(messages, indexes)
  {
    msgs, indexes := [], [];
    for j := start to |messages|
      invariant indexes == WorkIndexes(messages, start, j) && msgs == Select(messages, indexes)
    {
      var msg := messages[j];
      if msg.compacted || msg.summary {
        continue;
      }
      if msg.role.User? && msg.content == COMPACTION_USER_MESSAGE {
        continue;
      }
      msgs := msgs + [msg];
      indexes := indexes + [j];
    }
  }

  function LatestSummary(ms: seq<RawMessage>): string {
    if ms == [] then ""
    else if ms[|ms| - 1].summary then ms[|ms| - 1].content
    else LatestSummary(ms[..|ms| - 1])
  }

  /** Here stands the latest summary. */
  predicate IsLatestSummary(ms: seq<RawMessage>, k: int) {
    0 <= k < |ms| && ms[k].summary && forall j :: k < j < |ms| ==> !ms[j].summary
  }

  /** The latest summary says this. */
  ghost predicate LatestSays(ms: seq<RawMessage>, content: string) {
    exists k :: IsLatestSummary(ms, k) && ms[k].content == content
  }

  predicate HasNoSummary(ms: seq<RawMessage>) {
    forall j :: 0 <= j < |ms| ==> !ms[j].summary
  }

  lemma {:induction false} LatestSummaryIs(ms: seq<RawMessage>)
    ensures forall k :: IsLatestSummary(ms, k) ==> LatestSummary(ms) == ms[k].content
    ensures HasNoSummary(ms) ==> LatestSummary(ms) == ""
  {
    if ms != [] && !ms[|ms| - 1].summary {
      var rest := ms[..|ms| - 1];
      LatestSummaryIs(rest);
      forall k | IsLatestSummary(ms, k)
        ensures LatestSummary(ms) == ms[k].content
      {
        assert IsLatestSummary(rest, k);
      }
    }
  }

  /** The work starts at the tail start of the last summary that has one between the first message and itself, and
      without such a summary at the beginning. It is all messages from there on that are neither flagged nor summaries
      nor compaction prompts. */
  lemma {:induction false} WorkIs(ms: seq<RawMessage>, i: nat)
    requires i < |ms|
    ensures forall k :: IsLastTail(ms, |ms|, k) ==> WorkStart(ms, |ms|) == ms[k].tailStartID
    ensures (forall k :: 0 <= k < |ms| ==> !HasTail(ms, k)) ==> WorkStart(ms, |ms|) == 0
    ensures i in Work(ms) <==>
      && WorkStart(ms, |ms|) <= i && !ms[i].compacted && !ms[i].summary
      && !(ms[i].role.User? && ms[i].content == COMPACTION_USER_MESSAGE)
  {
    hide WorkStart, WorkIndexes;
    WorkStartIs(ms, |ms|);
    WorkMember(ms, WorkStart(ms, |ms|), |ms|, i);
  }

  predicate HasTail(ms: seq<RawMessage>, k: nat)
    requires k < |ms|
  {
    ms[k].summary && 0 < ms[k].tailStartID < k
  }

  lemma {:induction false} WorkStartIs(ms: seq<RawMessage>, n: nat)
    requires n <= |ms|
    ensures forall k :: IsLastTail(ms, n, k) ==> WorkStart(ms, n) == ms[k].tailStartID
    ensures (forall k :: 0 <= k < n ==> !HasTail(ms, k)) ==> WorkStart(ms, n) == 0
  {
    if n > 0 && HasTail(ms, n - 1) {
      forall k | IsLastTail(ms, n, k) ensures k == n - 1 {}
    } else if n > 0 {
      WorkStartIs(ms, n - 1);
      assert WorkStart(ms, n) == WorkStart(ms, n - 1);
      hide WorkStart;
      forall k | IsLastTail(ms, n, k) ensures IsLastTail(ms, n - 1, k) {}
    }
  }

  /** The last summary below `n` that has a tail. */
  predicate IsLastTail(ms: seq<RawMessage>, n: nat, k: int)
    requires n <= |ms|
  {
    0 <= k < n && HasTail(ms, k) && forall j :: k < j < n ==> !HasTail(ms, j)
  }

  // ---- The plan of a compaction ----

  /** The positions to summarise and the first position to keep. */
  datatype Plan = NoPlan | Plan(head: seq<nat>, firstKept: nat)

  function PlanOf(ms: seq<RawMessage>, keep: int): Plan {
    var work := Work(ms);
    var cut := Cut(Select(ms, work), keep);
    if |work| < 2 || !cut.found || cut.firstKept >= |work| then NoPlan
    else Plan(work[..cut.firstKept], work[cut.firstKept])
  }

  /** A plan always moves the tail start forward, to a message a cut may fall on. */
  lemma {:induction false} PlanProgress(ms: seq<RawMessage>, keep: int)
    requires PlanOf(ms, keep).Plan?
    ensures var p := PlanOf(ms, keep);
      && WorkStart(ms, |ms|) < p.firstKept < |ms|
      && IsValidCutPoint(ms[p.firstKept]) && InWork(ms[p.firstKept])
      && 0 < |p.head| < |Work(ms)| && p.head == Work(ms)[..|p.head|] && p.firstKept == Work(ms)[|p.head|]
  {
    hide WorkIndexes, Cut, WorkStart;
    var work := Work(ms);
    CutMeaning(Select(ms, work), keep);
    var c := Cut(Select(ms, work), keep).firstKept;
    assert work[0] < work[c];
    assert Select(ms, work)[c] == ms[work[c]];
  }

  /** The head of a plan is everything before the kept tail that was not summarised yet. */
  lemma {:induction false} PlanHead(ms: seq<RawMessage>, keep: int, i: nat)
    requires PlanOf(ms, keep).Plan? && i < |ms|
    ensures var p := PlanOf(ms, keep);
      i in p.head <==> WorkStart(ms, |ms|) <= i < p.firstKept && InWork(ms[i])
  {
    hide PlanOf, WorkStart, WorkIndexes, InWork;
    PlanProgress(ms, keep);
    WorkMember(ms, WorkStart(ms, |ms|), |ms|, i);
    SortedPrefix(Work(ms), |PlanOf(ms, keep).head|);
  }

  lemma {:induction false} WorkMember(ms: seq<RawMessage>, lo: nat, n: nat, i: nat)
    requires i < n <= |ms|
    ensures i in WorkIndexes(ms, lo, n) <==> lo <= i && InWork(ms[i])
  {
  }

  lemma {:induction false} SortedPrefix(w: seq<nat>, c: nat)
    requires c < |w| && forall k, l :: 0 <= k < l < |w| ==> w[k] < w[l]
    ensures forall i :: i in w[..c] <==> i in w && i < w[c]
  {
    forall i | i in w && i < w[c]
      ensures i in w[..c]
    {
      var k :| 0 <= k < |w| && w[k] == i;
      assert w[..c][k] == i;
    }
  }

  /** The guard on the cut index in the plan never fires: a found cut is inside the work list. */
  lemma {:induction false} PlanFound(ms: seq<RawMessage>, keep: int)
    ensures PlanOf(ms, keep).Plan? <==> |Work(ms)| >= 2 && Cut(Select(ms, Work(ms)), keep).found
    ensures PlanOf(ms, keep).Plan? ==> |PlanOf(ms, keep).head| == Cut(Select(ms, Work(ms)), keep).firstKept
  {
    if Cut(Select(ms, Work(ms)), keep).found {
      CutMeaning(Select(ms, Work(ms)), keep);
    }
  }

  /** The summariser's job for a plan: the head messages, starting from the latest summary. */
  function CompactJob(ms: seq<RawMessage>, head: seq<nat>, limits: WindowLimits, s: Settings, estimator: Estimator): Job
    requires forall k :: 0 <= k < |head| ==> head[k] < |ms|
  {
    var reserve := EffectiveReserve(limits.context, s.reserveTokens, OutputCapForWindow(BaseWindow(limits)));
    NewJob(Select(ms, head), LatestSummary(ms), TargetTokens(reserve), BaseWindow(limits), estimator)
  }

  /** What the summariser is configured with. */
  datatype Config = Config(limits: WindowLimits, settings: Settings, estimator: Estimator)

  lemma {:induction false} PlanInRange(ms: seq<RawMessage>, keep: int)
    requires PlanOf(ms, keep).Plan?
    ensures forall k :: 0 <= k < |PlanOf(ms, keep).head| ==> PlanOf(ms, keep).head[k] < |ms|
  {
    hide PlanOf;
    PlanProgress(ms, keep);
  }

  /** The job on the head that is planned. It starts from the latest summary, or from nothing. */
  function JobOn(ms: seq<RawMessage>, keep: int, config: Config): (job: Job)
    requires PlanOf(ms, keep).Plan?
    ensures forall k :: IsLatestSummary(ms, k) ==> job.previous == ms[k].content
    ensures HasNoSummary(ms) ==> job.previous == ""
    ensures |job.head| == |PlanOf(ms, keep).head|
    ensures forall k :: 0 <= k < |job.head| ==>
      PlanOf(ms, keep).head[k] < |ms| && job.head[k] == ms[PlanOf(ms, keep).head[k]]
  {
    PlanInRange(ms, keep);
    LatestSummaryIs(ms);
    CompactJob(ms, PlanOf(ms, keep).head, config.limits, config.settings, config.estimator)
  }

  lemma {:induction false} JobIs(ms: seq<RawMessage>, keep: int, config: Config, head: seq<nat>)
    requires PlanOf(ms, keep).Plan? && PlanOf(ms, keep).head == head
    ensures forall k :: 0 <= k < |head| ==> head[k] < |ms|
    ensures JobOn(ms, keep, config) == CompactJob(ms, head, config.limits, config.settings, config.estimator)
  {
    hide PlanOf;
    PlanInRange(ms, keep);
  }

  /** The budget of the job: for the base window, and a summary of eight tenths of the reserve. */
  lemma {:induction false} JobBudgetIs(ms: seq<RawMessage>, keep: int, config: Config, base: int, wanted: int)
    requires PlanOf(ms, keep).Plan? && config.limits.context >= 2 && IsBase(config.limits, base)
    requires IsWanted(config.limits, config.settings, base, wanted)
    ensures var context := config.limits.context;
      var share := context * 15 / 100;
      var reserve := if wanted < context then wanted else if share < 1 then 1 else share;
      JobOn(ms, keep, config).budget == ChunkBudget(base, TargetTokens(reserve))
    ensures JobOn(ms, keep, config).estimator == config.estimator
  {
    hide PlanOf, IsWanted, EffectiveReserve;
    ReserveIs(config.limits, config.settings, base, wanted);
    assert BaseWindow(config.limits) == base;
  }

  /** The first call of a compaction starts from the latest summary. */
  lemma {:induction false} FirstCallStarts(ms: seq<RawMessage>, keep: int, config: Config, calls: seq<Call>,
      summary: string)
    requires PlanOf(ms, keep).Plan? && Summarizes(JobOn(ms, keep, config), calls, summary)
    ensures calls != []
    ensures forall k :: IsLatestSummary(ms, k) ==> calls[0].previous == ms[k].content
    ensures HasNoSummary(ms) ==> calls[0].previous == ""
  {
    hide PlanOf, JobOn, Summarizes;
    PlanProgress(ms, keep);
    SummaryIsLastAnswer(JobOn(ms, keep, config), calls, summary);
  }

  lemma {:induction false} NothingAnswered(llm: LanguageModel)
    ensures AnsweredBy(llm, [])
  {
  }

  method Compact(messages: seq<RawMessage>, limits: WindowLimits, s: Settings,
      estimator: Estimator, llm: LanguageModel) returns (r: CompactOutcome, ghost calls: seq<Call>)
    ensures PlanOf(messages, ResolveKeepRecent(s)).NoPlan? ==> r == NotCompacted("nothing to compact")
    ensures r.Compacted? ==>
      && PlanOf(messages, ResolveKeepRecent(s)).Plan?
      && r.result.firstKept == PlanOf(messages, ResolveKeepRecent(s)).firstKept
      && Text.Trim(r.result.summary) != ""
      && Summarizes(JobOn(messages, ResolveKeepRecent(s), Config(limits, s, estimator)), calls, r.result.summary)
      && (forall k :: IsLatestSummary(messages, k) ==> calls != [] && calls[0].previous == messages[k].content)
      && (HasNoSummary(messages) ==> calls != [] && calls[0].previous == "")
      && r.result.tokensBefore == estimator.messages(Select(messages, Work(messages)))
      && |PlanOf(messages, ResolveKeepRecent(s)).head| <= |Work(messages)|
      && r.result.tokensAfter == EstimateTokens(r.result.summary) +
           estimator.messages(Select(messages, Work(messages))[|PlanOf(messages, ResolveKeepRecent(s)).head|..])
    ensures r.NotCompacted? && PlanOf(messages, ResolveKeepRecent(s)).Plan? ==>
      var job := JobOn(messages, ResolveKeepRecent(s), Config(limits, s, estimator));
      FailsAt(job, calls, r.reason) || EndsBlank(job, calls)
    ensures AnsweredBy(llm, calls)
  {
    hide Text.Trim, Summarizes, FailsAt, EndsBlank, AnsweredBy, Work, Cut, IsLatestSummary, HasNoSummary, JobOn;
    var work, rawIndexes := CompactionWorkList(messages);
    PlanFound(messages, ResolveKeepRecent(s));
    calls := [];
    NothingAnswered(llm);
    if |work| < 2 {
      return NotCompacted("nothing to compact"), [];
    }
    var cut := FindCutPoint(work, ResolveKeepRecent(s));
    if !cut.found {
      return NotCompacted("nothing to compact"), [];
    }
    CutMeaning(work, ResolveKeepRecent(s));
    var head, tail := work[..cut.firstKept], work[cut.firstKept..];
    assert head == Select(messages, rawIndexes[..cut.firstKept]);
    assert PlanOf(messages, ResolveKeepRecent(s)) == Plan(rawIndexes[..cut.firstKept], rawIndexes[cut.firstKept]);
    var target := TargetTokens(EffectiveReserve(limits.context, s.reserveTokens,
      OutputCapForWindow(BaseWindow(limits))));
    var latest := LatestSummaryContent(messages);
    JobIs(messages, ResolveKeepRecent(s), Config(limits, s, estimator), rawIndexes[..cut.firstKept]);
    var outcome, made := SummarizeHead(head, latest, target, BaseWindow(limits), estimator, llm);
    calls := made;
    match outcome
    case Err(reason) => return NotCompacted(reason), calls;
    case Ok(summary) =>
      FirstCallStarts(messages, ResolveKeepRecent(s), Config(limits, s, estimator), calls, summary);
      return Compacted(CompactResult(summary, rawIndexes[cut.firstKept], estimator.messages(work),
        estimator.messages(tail) + EstimateTokens(summary))), calls;
  }

  method LatestSummaryContent(messages: seq<RawMessage>) returns (content: string)
    ensures content == LatestSummary(messages)
    ensures forall k :: IsLatestSummary(messages, k) ==> content == messages[k].content
    ensures HasNoSummary(messages) ==> content == ""
  {
    LatestSummaryIs(messages);
    hide IsLatestSummary, HasNoSummary;
    var i := |messages| - 1;
    assert messages[..|messages|] == messages;
    while i >= 0
      invariant -1 <= i < |messages|
      invariant LatestSummary(messages) == LatestSummary(messages[..i + 1])
    {
      if messages[i].summary {
        return messages[i].content;
      }
      assert messages[..i + 1][..i] == messages[..i];
      i := i - 1;
    }
    return "";
  }
}
