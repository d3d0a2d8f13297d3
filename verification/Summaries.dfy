/** Summarising the head of a transcript in chunks that fit the summariser's window.
    The language model is an oracle: any reply to any call. */
module Summaries {
  import opened Messages
  import opened Budgets
  import Text

  const SUMMARY_CHUNK_OVERHEAD := 8192
  const MIN_SUMMARY_CHUNK_BUDGET := 1024
  const TRUNCATION_MARK := "\n[truncated for summarization]"

  datatype Reply = Answer(text: string) | Overflow(reason: string) | Failed(reason: string)

  datatype Result = Ok(summary: string) | Err(reason: string)

  /** The configurable token estimator. */
  datatype Estimator = Estimator(text: string -> int, messages: seq<RawMessage> -> int)

  /** Reply to the n-th call with a chunk and the previous summary. */
  type LanguageModel = (nat, seq<RawMessage>, string) -> Reply

  /** One call that was made, with the token budget of that moment. */
  datatype Call = Call(chunk: seq<RawMessage>, previous: string, budget: int, reply: Reply)

  /** What has to be summarised, and from what. */
  datatype Job = Job(head: seq<RawMessage>, previous: string, budget: int, estimator: Estimator)

  /** How far a job has come. */
  datatype Progress = Progress(consumed: nat, summary: string, budget: int)

  /** What the window leaves besides the summary and 8192 tokens, or half the window, or 1024: whichever is most. */
  function ChunkBudget(inputWindow: int, targetTokens: int): (b: int)
    ensures b >= 1024 && b >= inputWindow - targetTokens - 8192 && 2 * b >= inputWindow - 1
    ensures b == 1024 || b == inputWindow - targetTokens - 8192 || 2 * b == inputWindow || 2 * b == inputWindow - 1
  {
    var budget := inputWindow - targetTokens - SUMMARY_CHUNK_OVERHEAD;
    var half := Quot(inputWindow, 2);
    var raised := if budget < half then half else budget;
    if raised < MIN_SUMMARY_CHUNK_BUDGET then MIN_SUMMARY_CHUNK_BUDGET else raised
  }

  /** The budget for a retry: half of what was sent, or of the budget if that is less. There is none if this
      would be below 1024. */
  function HalvedBudget(budget: int, sentTokens: int): (h: int)
    ensures h == 0 <==> budget < 2048 || sentTokens < 2048
    ensures h != 0 ==> h >= 1024 && 2 * h <= budget && 2 * h <= sentTokens
    ensures h != 0 ==> budget <= 2 * h + 1 || sentTokens <= 2 * h + 1
  {
    var smaller := if sentTokens < budget then sentTokens else budget;
    var halved := Quot(smaller, 2);
    if halved < MIN_SUMMARY_CHUNK_BUDGET then 0 else halved
  }

  /** How often a budget can be halved before it drops below the minimum. */
  function Halvings(budget: int): nat {
    if budget < 2 * MIN_SUMMARY_CHUNK_BUDGET then 0 else 1 + Halvings(budget / 2)
  }

  function Pow2(n: nat): nat { if n == 0 then 1 else 2 * Pow2(n - 1) }

  function Size(m: RawMessage): nat { EstimateTokens(m.content) + 4 }

  function TruncateToBudget(m: RawMessage, budget: int): RawMessage {
    var maxChars := if (budget - 64) * 4 < 0 then 0 else (budget - 64) * 4;
    if |m.content| <= maxChars then m
    else m.(content := m.content[..maxChars] + TRUNCATION_MARK)
  }

  /** The longest prefix that fits the budget. */
  method TakeOldestFit(messages: seq<RawMessage>, budget: int)
    returns (chunk: seq<RawMessage>, rest: seq<RawMessage>)
    ensures chunk + rest == messages
    ensures budget > 0 ==> MessagesTokens(chunk) <= budget
    ensures budget <= 0 ==> chunk == []
    ensures rest != [] && budget > 0 ==> MessagesTokens(chunk) + Size(rest[0]) > budget
  {
    if budget <= 0 || |messages| == 0 {
      return [], messages;
    }
    var total := 0;
    for i := 0 to |messages|
      invariant total == MessagesTokens(messages[..i]) <= budget
    {
      var size := EstimateMessagesTokens(messages[i..i + 1]);
      OneMessage(messages[i]);
      assert messages[i..i + 1] == [messages[i]];
      if total + size > budget {
        return messages[..i], messages[i..];
      }
      assert messages[..i + 1][..i] == messages[..i];
      total := total + size;
    }
    assert messages[..|messages|] == messages;
    return messages, [];
  }

  lemma {:induction false} OneMessage(m: RawMessage)
    ensures MessagesTokens([m]) == Size(m)
  {
    assert [m][..0] == [];
    assert MessagesTokens([]) == 0;
  }

  /** A message that is too large for the window is cut, and the cut message fits. */
  lemma {:induction false} TruncationFits(m: RawMessage, window: int)
    requires window >= MIN_SUMMARY_CHUNK_BUDGET && Size(m) > window
    ensures MessagesTokens([TruncateToBudget(m, window)]) <= window
    ensures TruncateToBudget(m, window).content[..(window - 64) * 4] == m.content[..(window - 64) * 4]
    ensures TruncateToBudget(m, window) == m.(content := m.content[..(window - 64) * 4] + TRUNCATION_MARK)
  {
    OneMessage(TruncateToBudget(m, window));
  }

  /** What a chunk may be: the longest fitting segment, or one oversize message cut to the window. */
  ghost predicate Represents(chunk: seq<RawMessage>, remaining: seq<RawMessage>, window: int) {
    && 0 < |chunk| <= |remaining|
    && MessagesTokens(chunk) <= window
    && (|| (&& chunk == remaining[..|chunk|]
            && (|chunk| < |remaining| ==> MessagesTokens(chunk) + Size(remaining[|chunk|]) > window))
        || (&& Size(remaining[0]) > window
            && chunk == [TruncateToBudget(remaining[0], window)]))
  }

  function Window(job: Job, p: Progress): (w: int)
    ensures w >= 1024 && w >= p.budget - job.estimator.text(p.summary)
    ensures w == 1024 || w == p.budget - job.estimator.text(p.summary)
  {
    var w := p.budget - job.estimator.text(p.summary);
    if w < MIN_SUMMARY_CHUNK_BUDGET then MIN_SUMMARY_CHUNK_BUDGET else w
  }

  function SentTokens(job: Job, c: Call): int {
    job.estimator.messages(c.chunk) + job.estimator.text(c.previous)
  }

  /** A call made at `p`: with the summary so far and a chunk of what is left. */
  ghost predicate CallAt(job: Job, p: Progress, c: Call) {
    && c.previous == p.summary && c.budget == p.budget
    && p.consumed < |job.head|
    && Represents(c.chunk, job.head[p.consumed..], Window(job, p))
  }

  /** A rejected call ends the job unless it was an overflow and half the budget is worth a try. */
  predicate Fatal(job: Job, c: Call) {
    c.reply.Failed? || (c.reply.Overflow? && HalvedBudget(c.budget, SentTokens(job, c)) == 0)
  }

  function After(job: Job, p: Progress, c: Call): Progress {
    if c.reply.Answer? then Progress(p.consumed + |c.chunk|, c.reply.text, p.budget)
    else p.(budget := HalvedBudget(c.budget, SentTokens(job, c)))
  }

  /** The calls form a run of the job that ends at `p`: the summary is the left fold of the
      answered calls, and every rejected call changed nothing but the budget. */
  ghost predicate RunsTo(job: Job, calls: seq<Call>, p: Progress) {
    if calls == [] then p == Progress(0, job.previous, job.budget) else
    exists q {:trigger RunsTo(job, calls[..|calls| - 1], q)} ::
      && RunsTo(job, calls[..|calls| - 1], q)
      && CallAt(job, q, calls[|calls| - 1])
      && !Fatal(job, calls[|calls| - 1])
      && p == After(job, q, calls[|calls| - 1])
  }

  /** The run failed at a last call that was fatal. */
  ghost predicate FailsAt(job: Job, calls: seq<Call>, reason: string) {
    && calls != []
    && Fatal(job, calls[|calls| - 1]) && calls[|calls| - 1].reply.reason == reason
    && exists q {:trigger RunsTo(job, calls[..|calls| - 1], q)} ::
      RunsTo(job, calls[..|calls| - 1], q) && CallAt(job, q, calls[|calls| - 1])
  }

  /** All chunks were answered, but the last answer was blank. */
  ghost predicate EndsBlank(job: Job, calls: seq<Call>) {
    exists p :: RunsTo(job, calls, p) && p.consumed == |job.head| && Text.Trim(p.summary) == ""
  }

  /** The replies are those of the model. */
  ghost predicate AnsweredBy(llm: LanguageModel, calls: seq<Call>) {
    forall k :: 0 <= k < |calls| ==> calls[k].reply == llm(k, calls[k].chunk, calls[k].previous)
  }

  /** The job ended without a summary. */
  ghost predicate JobFails(job: Job, calls: seq<Call>) {
    EndsBlank(job, calls) || exists reason :: FailsAt(job, calls, reason)
  }

  lemma {:induction false} MakeCall(job: Job, calls: seq<Call>, p: Progress, c: Call)
    requires RunsTo(job, calls, p) && p.consumed < |job.head|
    requires c.previous == p.summary && c.budget == p.budget
    requires Represents(c.chunk, job.head[p.consumed..], Window(job, p))
    ensures 0 < |c.chunk| <= |job.head| - p.consumed
    ensures Fatal(job, c) ==> FailsAt(job, calls + [c], c.reply.reason)
    ensures !Fatal(job, c) ==> RunsTo(job, calls + [c], After(job, p, c))
  {
    assert CallAt(job, p, c);
    assert (calls + [c])[..|calls + [c]| - 1] == calls;
  }

  /** What the first call of a job is made with. */
  ghost predicate StartsWith(job: Job, c: Call) {
    c.previous == job.previous && c.budget == job.budget
  }

  /** How one call follows another: an answer becomes the summary to go on from; after an overflow the budget is half of
      what was sent or of the budget before, whichever is less, and at least 1024; after any other failure no call
      follows. */
  ghost predicate Follows(job: Job, c: Call, d: Call) {
    match c.reply
    case Answer(text) => d.previous == text && d.budget == c.budget
    case Overflow(_) =>
      var sent := job.estimator.messages(c.chunk) + job.estimator.text(c.previous);
      var least := if sent < c.budget then sent else c.budget;
      d.previous == c.previous && least >= 2048 && d.budget == least / 2
    case Failed(_) => false
  }

  ghost predicate InSequence(job: Job, calls: seq<Call>) {
    && (calls != [] ==> StartsWith(job, calls[0]))
    && forall n :: 0 < n < |calls| ==> Follows(job, calls[n - 1], calls[n])
  }

  /** What has to hold of the next call, when the calls so far led to `p`. */
  ghost predicate LeadsTo(job: Job, calls: seq<Call>, p: Progress) {
    forall d: Call :: d.previous == p.summary && d.budget == p.budget ==>
      if calls == [] then StartsWith(job, d) else Follows(job, calls[|calls| - 1], d)
  }

  lemma {:induction false} RunIsInSequence(job: Job, calls: seq<Call>, p: Progress)
    requires RunsTo(job, calls, p)
    ensures InSequence(job, calls) && LeadsTo(job, calls, p)
  {
    hide Represents, HalvedBudget;
    if calls != [] {
      var n := |calls| - 1;
      var q :| RunsTo(job, calls[..n], q) && CallAt(job, q, calls[n]) && !Fatal(job, calls[n])
        && p == After(job, q, calls[n]);
      RunIsInSequence(job, calls[..n], q);
      OneMoreInSequence(job, calls, q);
    }
  }

  lemma {:induction false} OneMoreInSequence(job: Job, calls: seq<Call>, q: Progress)
    requires calls != [] && InSequence(job, calls[..|calls| - 1]) && LeadsTo(job, calls[..|calls| - 1], q)
    requires CallAt(job, q, calls[|calls| - 1])
    ensures InSequence(job, calls)
  {
    hide Represents, Follows;
    var n := |calls| - 1;
    forall k | 0 < k < |calls|
      ensures Follows(job, calls[k - 1], calls[k])
    {
      if k < n { assert Follows(job, calls[..n][k - 1], calls[..n][k]); }
    }
  }

  /** The calls of a job that failed, too; the last one failed for good: it was no overflow,
    or less than 2048 tokens were
      sent or allowed. */
  lemma {:induction false} FailureMeans(job: Job, calls: seq<Call>, reason: string)
    requires FailsAt(job, calls, reason)
    ensures calls != [] && InSequence(job, calls)
    ensures var c := calls[|calls| - 1];
      match c.reply
      case Answer(_) => false
      case Failed(why) => reason == why
      case Overflow(why) =>
        var sent := job.estimator.messages(c.chunk) + job.estimator.text(c.previous);
        reason == why && (c.budget < 2048 || sent < 2048)
  {
    hide Represents, InSequence, LeadsTo, RunsTo;
    var q :| RunsTo(job, calls[..|calls| - 1], q) && CallAt(job, q, calls[|calls| - 1]);
    RunIsInSequence(job, calls[..|calls| - 1], q);
    OneMoreInSequence(job, calls, q);
  }

  /** The first call of a job starts from the summary before, each further one from the last answer, and the last
      answer is the summary. */
  lemma {:induction false} SummaryIsLastAnswer(job: Job, calls: seq<Call>, summary: string)
    requires Summarizes(job, calls, summary)
    ensures InSequence(job, calls)
    ensures if job.head == [] then calls == [] && summary == job.previous
      else calls != [] && calls[|calls| - 1].reply == Answer(summary)
  {
    hide Represents, InSequence;
    var p :| RunsTo(job, calls, p) && p.consumed == |job.head| && p.summary == summary;
    RunIsInSequence(job, calls, p);
    if calls != [] {
      var n := |calls| - 1;
      var q :| RunsTo(job, calls[..n], q) && CallAt(job, q, calls[n]) && p == After(job, q, calls[n]);
    }
  }

  /** The job ran to its end, with this summary as the result of the fold. */
  ghost predicate Summarizes(job: Job, calls: seq<Call>, summary: string) {
    exists p :: RunsTo(job, calls, p) && p.consumed == |job.head| && p.summary == summary
  }

  function NewJob(head: seq<RawMessage>, previous: string, targetTokens: int, inputWindow: int,
      estimator: Estimator): Job {
    Job(head, previous, ChunkBudget(inputWindow, targetTokens), estimator)
  }

  method SummarizeHead(head: seq<RawMessage>, previous: string, targetTokens: int, inputWindow: int,
      estimator: Estimator, llm: LanguageModel) returns (r: Result, calls: seq<Call>)
    ensures r.Ok? ==> Text.Trim(r.summary) != ""
    ensures r.Ok? ==> Summarizes(NewJob(head, previous, targetTokens, inputWindow, estimator), calls, r.summary)
    ensures var job := NewJob(head, previous, targetTokens, inputWindow, estimator);
      r.Err? ==> FailsAt(job, calls, r.reason) || EndsBlank(job, calls)
    ensures |calls| <= |head| + Halvings(ChunkBudget(inputWindow, targetTokens))
    ensures AnsweredBy(llm, calls)
  {
    hide Represents, RunsTo, FailsAt, Text.Trim, Halvings, ChunkBudget, HalvedBudget;
    ghost var job := NewJob(head, previous, targetTokens, inputWindow, estimator);
    var summary := previous;
    var remaining := head;
    var budget := ChunkBudget(inputWindow, targetTokens);
    calls := [];
    ghost var p := Progress(0, summary, budget);
    ghost var failures: nat := 0;
    Start(job);
    while |remaining| > 0
      invariant p == Progress(|head| - |remaining|, summary, budget)
      invariant remaining == head[p.consumed..]
      invariant RunsTo(job, calls, p)
      invariant budget >= MIN_SUMMARY_CHUNK_BUDGET
      invariant |calls| <= p.consumed + failures
      invariant failures + Halvings(budget) <= Halvings(job.budget)
      invariant AnsweredBy(llm, calls)
      decreases |remaining|, budget
    {
      var window := budget - estimator.text(summary);
      if window < MIN_SUMMARY_CHUNK_BUDGET {
        window := MIN_SUMMARY_CHUNK_BUDGET;
      }
      var chunk, rest := NextChunk(remaining, window);
      var call := Call(chunk, summary, budget, llm(|calls|, chunk, summary));
      MakeCall(job, calls, p, call);
      calls := calls + [call];
      if call.reply.Answer? {
        p := After(job, p, call);
        summary := call.reply.text;
        remaining := rest;
        continue;
      }
      var halved := HalvedBudget(budget, estimator.messages(chunk) + estimator.text(summary));
      if halved == 0 || !call.reply.Overflow? {
        return Err(call.reply.reason), calls;
      }
      p := After(job, p, call);
      HalvingStep(halved, budget);
      failures := failures + 1;
      budget := halved;
    }
    if Text.Trim(summary) == "" {
      return Err("empty summary generated"), calls;
    }
    return Ok(summary), calls;
  }

  lemma {:induction false} Start(job: Job)
    ensures RunsTo(job, [], Progress(0, job.previous, job.budget))
  {
  }

  /** The oldest messages that fit, or the oldest one cut to fit. */
  method NextChunk(remaining: seq<RawMessage>, window: int) returns (chunk: seq<RawMessage>, rest: seq<RawMessage>)
    requires remaining != [] && window >= MIN_SUMMARY_CHUNK_BUDGET
    ensures Represents(chunk, remaining, window) && rest == remaining[|chunk|..]
  {
    chunk, rest := TakeOldestFit(remaining, window);
    if |chunk| == 0 {
      TruncationFits(remaining[0], window);
      chunk := [TruncateToBudget(remaining[0], window)];
      rest := remaining[1..];
    }
  }

  lemma {:induction false} HalvingsMonotone(a: int, b: int)
    requires a <= b
    ensures Halvings(a) <= Halvings(b)
    decreases b
  {
    if a >= 2 * MIN_SUMMARY_CHUNK_BUDGET {
      HalvingsMonotone(a / 2, b / 2);
    }
  }

  /** A retry uses up one halving. */
  lemma {:induction false} HalvingStep(halved: int, budget: int)
    requires MIN_SUMMARY_CHUNK_BUDGET <= halved && 2 * halved <= budget
    ensures 1 + Halvings(halved) <= Halvings(budget)
  {
    HalvingsMonotone(halved, budget / 2);
  }

  /** The number of retries is logarithmic in the initial budget. */
  lemma {:induction false} HalvingsAreLogarithmic(budget: int)
    requires budget >= MIN_SUMMARY_CHUNK_BUDGET
    ensures MIN_SUMMARY_CHUNK_BUDGET * Pow2(Halvings(budget)) <= budget
    ensures budget < 2 * MIN_SUMMARY_CHUNK_BUDGET * Pow2(Halvings(budget))
  {
    if budget >= 2 * MIN_SUMMARY_CHUNK_BUDGET {
      HalvingsAreLogarithmic(budget / 2);
    }
  }

  /** The segments of the head that the answered calls summarised, in order. */
  function Segments(head: seq<RawMessage>, calls: seq<Call>, consumed: nat): seq<seq<RawMessage>> {
    if calls == [] then [] else
    var n := |calls| - 1;
    if calls[n].reply.Answer? && |calls[n].chunk| <= consumed <= |head| then
      Segments(head, calls[..n], consumed - |calls[n].chunk|) + [head[consumed - |calls[n].chunk|..consumed]]
    else Segments(head, calls[..n], consumed)
  }

  function Joined(parts: seq<seq<RawMessage>>): seq<RawMessage> {
    if parts == [] then [] else Joined(parts[..|parts| - 1]) + parts[|parts| - 1]
  }

  lemma {:induction false} JoinedAppend(parts: seq<seq<RawMessage>>, head: seq<RawMessage>, a: nat, b: nat)
    requires a <= b <= |head| && Joined(parts) == head[..a]
    ensures Joined(parts + [head[a..b]]) == head[..b]
  {
    assert (parts + [head[a..b]])[..|parts|] == parts;
    assert head[..a] + head[a..b] == head[..b];
  }

  /** Nothing of the head is skipped, repeated or reordered: the summarised segments are
      non-empty and partition it. */
  lemma {:induction false} SegmentsPartition(job: Job, calls: seq<Call>, p: Progress)
    requires RunsTo(job, calls, p)
    ensures p.consumed <= |job.head|
    ensures Joined(Segments(job.head, calls, p.consumed)) == job.head[..p.consumed]
    ensures forall k :: 0 <= k < |Segments(job.head, calls, p.consumed)| ==>
      Segments(job.head, calls, p.consumed)[k] != []
  {
    if calls != [] {
      var n := |calls| - 1;
      var q :| RunsTo(job, calls[..n], q) && CallAt(job, q, calls[n]) && p == After(job, q, calls[n]);
      SegmentsPartition(job, calls[..n], q);
      if calls[n].reply.Answer? {
        assert p.consumed - |calls[n].chunk| == q.consumed;
        JoinedAppend(Segments(job.head, calls[..n], q.consumed), job.head, q.consumed, p.consumed);
      }
    }
  }
}
