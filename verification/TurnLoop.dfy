/** One turn of the agent: rounds of streaming, tool batches, corrections, continuations,
    steering messages and overflow recovery, with everything outside as an oracle. */
module TurnLoop {
  import opened Messages
  import opened Sessions
  import opened Budgets
  import opened Summaries
  import Compaction
  import opened Transcripts
  import opened Pairing
  import opened Repair
  import opened Traces
  import opened Batches
  import PeerInputs
  import opened TurnMirrors
  import Text

  const MAX_EMPTY_RETRIES := 3
  const MAX_MALFORMED_CALL_RETRIES := 3
  const MAX_LENGTH_CONTINUATIONS := 8
  const FORMAT_CORRECTION: string :=
    "FORMAT ERROR: You tried to use XML tool call tags (<tool_call>, <function=...>) but the format was malformed"
    + " or incomplete. Use native function calling provided by the API. Re-send your message with the correct format"
    + " or answer in plain text."
  const TRUNCATED_CALL_CORRECTION: string :=
    "[SYSTEM] Your previous tool call was cut off before its arguments were complete, so the JSON was invalid and"
    + " could not run. Re-send the tool call with complete, valid JSON. Keep large arguments (a prompt, file contents)"
    + " concise enough that the entire tool call fits within the output limit."
  const LENGTH_CONTINUATION: string :=
    "Your previous response was truncated by the output token limit. Continue exactly where you stopped."

  function Decimal(n: nat): string {
    (if n < 10 then "" else Decimal(n / 10)) + [('0' as int + n % 10) as char]
  }

  function LimitNotice(limit: nat): string {
    "[TOOL] Tool call iteration limit reached (" + Decimal(limit) +
    " rounds in one turn), stopping to avoid an unbounded loop."
  }

  /** The notice holds the number of rounds in decimal digits. */
  lemma {:induction false} NoticeIs(limit: nat)
    ensures LimitNotice(limit) == "[TOOL] Tool call iteration limit reached (" + Decimal(limit) +
      " rounds in one turn), stopping to avoid an unbounded loop."
    ensures limit < 10 ==> Decimal(limit) == [('0' as int + limit) as char]
    ensures limit >= 10 ==> Decimal(limit) == Decimal(limit / 10) + [('0' as int + limit % 10) as char]
    ensures Decimal(20) == "20"
  {
    assert Decimal(2) == "2" && Decimal(20) == Decimal(2) + "0";
  }

  datatype Round = Round(text: string, hasReasoning: bool, finishReason: string, toolCalls: seq<ToolCall>)

  datatype StreamReply = Streamed(round: Round) | ContextOverflow(reason: string) | StreamFailed(reason: string)

  datatype TurnCalls = TurnCalls(assistantContent: string, toolCalls: seq<ToolCall>, retryRequested: bool)

  /** What a round asks for, and the correction that is sent back instead, if any. */
  datatype Resolution = Calls(calls: TurnCalls) | Correct(text: string)

  datatype TurnResult = Finished(text: string) | Aborted(reason: string)

  datatype InnerResult = Done(text: string) | Idle(text: string) | Failure(reason: string)

  /** Everything a turn does not decide itself. An oracle that takes a number is asked at
      different times with different numbers, so it may answer differently every time. */
  datatype World = World(
    stream: nat -> StreamReply,
    steering: nat -> seq<string>,
    subagents: nat -> seq<string>,
    cancelled: nat -> bool,
    decide: nat -> bool,
    execute: Tools,
    unparseable: seq<ToolCall> -> bool,
    nonStreaming: nat -> seq<ToolCall>,
    embedded: Round -> (seq<ToolCall>, string),
    malformed: Round -> bool,
    clean: string -> string,
    publishable: string -> bool,
    hasCompactor: bool,
    correction: string,
    summariser: nat -> LanguageModel,
    signature: Signing,
    limits: WindowLimits,
    settings: Settings,
    estimator: Estimator)

  predicate IsTerminal(r: Round) {
    Text.Trim(r.text) != "" || r.toolCalls != [] || r.hasReasoning
  }

  /** A reply that says nothing: its text is blank, and it holds neither calls nor reasoning. */
  predicate IsEmptyReply(r: StreamReply) {
    r.Streamed? && Text.Blank(r.round.text) && r.round.toolCalls == [] && !r.round.hasReasoning
  }

  lemma {:induction false} EmptyIffNotTerminal()
    ensures forall r: StreamReply :: IsEmptyReply(r) <==> r.Streamed? && !IsTerminal(r.round)
  {
    forall r: StreamReply | r.Streamed?
      ensures IsEmptyReply(r) <==> !IsTerminal(r.round)
    {
      Text.TrimEmpty(r.round.text);
    }
  }

  /** Native calls of the round, or those a second, non-streaming request brings. */
  function NativeCalls(world: World, round: Round, now: nat): seq<ToolCall> {
    if round.toolCalls != [] then round.toolCalls
    else if round.finishReason == "tool_calls" then world.nonStreaming(now)
    else []
  }

  /** What a round asks for: broken calls first, then native ones, then those written into the text, then a
      malformed attempt; corrections only as long as there are any left. */
  function Resolved(world: World, round: Round, now: nat, corrections: nat): Resolution {
    var noCalls := Calls(TurnCalls("", [], false));
    var native := NativeCalls(world, round, now);
    var (embedded, content) := world.embedded(round);
    if world.unparseable(round.toolCalls) then
      if corrections < MAX_MALFORMED_CALL_RETRIES then Correct(TRUNCATED_CALL_CORRECTION) else noCalls
    else if native != [] then Calls(TurnCalls("", native, false))
    else if embedded != [] then Calls(TurnCalls(content, embedded, false))
    else if world.malformed(round) && corrections < MAX_MALFORMED_CALL_RETRIES then Correct(FORMAT_CORRECTION)
    else noCalls
  }

  /** What the last assistant message says that may be shown; nothing if there is none. */
  function LastSaid(h: seq<Message>, publishable: string -> bool): string {
    if h == [] then "" else
    var m := h[|h| - 1];
    if m.role.Assistant? && !m.internalOnly && publishable(m.content) then m.content
    else LastSaid(h[..|h| - 1], publishable)
  }

  /** The message may be shown as an answer. */
  predicate MayBeShown(m: Message, publishable: string -> bool) {
    m.role == Assistant && !m.internalOnly && publishable(m.content)
  }

  /** What was said last is the content of the last message that may be shown. */
  lemma {:induction false} LastSaidIs(h: seq<Message>, publishable: string -> bool)
    ensures forall k :: IsLastShown(h, k, publishable) ==> LastSaid(h, publishable) == h[k].content
    ensures (forall k :: 0 <= k < |h| ==> !MayBeShown(h[k], publishable)) ==> LastSaid(h, publishable) == ""
  {
    if h != [] && !MayBeShown(h[|h| - 1], publishable) {
      var rest := h[..|h| - 1];
      LastSaidIs(rest, publishable);
      forall k | IsLastShown(h, k, publishable)
        ensures LastSaid(h, publishable) == h[k].content
      {
        assert IsLastShown(rest, k, publishable);
      }
    }
  }

  predicate IsLastShown(h: seq<Message>, k: int, publishable: string -> bool) {
    0 <= k < |h| && MayBeShown(h[k], publishable) && forall j :: k < j < |h| ==> !MayBeShown(h[j], publishable)
  }

  /** The answer to a text of the model: what is left of it after cleaning, stored as the last message, or, if that
      is nothing, what was said last. */
  predicate AnswersWith(world: World, text: string, h: seq<Message>, answer: string) {
    if world.clean(text) != "" then answer == world.clean(text) && EndsWith(h, AssistantMessage(answer))
    else answer == LastSaid(h, world.publishable)
  }

  /** The round asks for nothing, if there were so many corrections before: it carries no call, brings none when asked
      again at this time, holds none in its text and no malformed attempt while corrections are left; or its calls are
      broken and none are left. */
  predicate IsPlainReply(world: World, round: Round, now: nat, corrections: nat) {
    if world.unparseable(round.toolCalls) then corrections >= 3
    else
      && round.toolCalls == []
      && (round.finishReason == "tool_calls" ==> world.nonStreaming(now) == [])
      && world.embedded(round).0 == []
      && (world.malformed(round) ==> corrections >= 3)
  }

  /** Asked at some time, with some corrections made before, the round asks for nothing. */
  ghost predicate AsksNothing(world: World, round: Round) {
    exists now: nat, corrections: nat :: IsPlainReply(world, round, now, corrections)
  }

  /** The calls were answered as one batch, at this time. */
  ghost predicate RanBatch(world: World, now: nat, executed: set<string>, h: seq<Message>, content: string,
      calls: seq<ToolCall>, h': seq<Message>)
  {
    h' == h + ([CallMessage(content, calls)] +
      ResultMessages(BatchResults(world.execute, now, calls, executed, world.signature)))
  }

  /** A round that asks for nothing: what is left of its text after cleaning is stored. If it was cut off,
    the model is asked
      to continue, up to eight times in a turn; otherwise this was the answer. */
  ghost predicate Concluded(world: World, round: Round, continuations: nat, h: seq<Message>, h': seq<Message>,
      hasMore: bool)
  {
    var text := world.clean(round.text);
    && (hasMore <==> round.finishReason == "length" && continuations < 8)
    && h' == h + (if text != "" then [AssistantMessage(text)] else []) +
         (if hasMore then [UserMessage(LENGTH_CONTINUATION)] else [])
  }

  /** How a round is handled, what the model asked for in it being taken in this order: native calls whose arguments are
      broken are sent back, as long as there are fewer than three corrections; native calls are run; without any, those
      that a second request brings; without these, those in the text; a malformed attempt is sent back in the same way;
      and a round that asks for nothing is concluded. */
  ghost predicate Handled(world: World, round: Round, now: nat, corrections: nat, continuations: nat,
      executed: set<string>, h: seq<Message>, h': seq<Message>, hasMore: bool, retry: bool)
  {
    var again := round.finishReason == "tool_calls" && round.toolCalls == [];
    var later := if again then now + 1 else now;
    var (embedded, content) := world.embedded(round);
    if world.unparseable(round.toolCalls) then
      if corrections < 3 then hasMore && retry && h' == h + [UserMessage(TRUNCATED_CALL_CORRECTION)]
      else !retry && Concluded(world, round, continuations, h, h', hasMore)
    else if round.toolCalls != [] then
      hasMore && !retry && RanBatch(world, now, executed, h, "", round.toolCalls, h')
    else if again && world.nonStreaming(now) != [] then
      hasMore && !retry && RanBatch(world, later, executed, h, "", world.nonStreaming(now), h')
    else if embedded != [] then
      hasMore && !retry && RanBatch(world, later, executed, h, content, embedded, h')
    else if world.malformed(round) && corrections < 3 then
      hasMore && retry && h' == h + [UserMessage(FORMAT_CORRECTION)]
    else !retry && Concluded(world, round, continuations, h, h', hasMore)
  }

  predicate NoCalls(r: Resolution) { r.Calls? && r.calls.toolCalls == [] }

  lemma {:induction false} PlainReplyIff(world: World, round: Round, now: nat, corrections: nat)
    ensures NoCalls(Resolved(world, round, now, corrections)) <==> IsPlainReply(world, round, now, corrections)
  {
  }

  /** The transcript once repeated calls were warned of, from the second round on; and the time then. */
  function Warned(world: World, iterations: nat, now: nat, h: seq<Message>): seq<Message> {
    if iterations > 1 && world.decide(now) then h + [UserMessage(world.correction)] else h
  }

  lemma {:induction false} WarnedGrows(world: World, iterations: nat, now: nat, h: seq<Message>)
    ensures Grows(h, Warned(world, iterations, now, h))
  {
    hide Grows;
    GrowsSame(h);
    GrowsAppend(h, [UserMessage(world.correction)]);
  }

  function WarnedAt(iterations: nat, now: nat): nat {
    if iterations > 1 then now + 1 else now
  }

  /** A round of a turn: the reply, the transcript before and after it was handled, and what was known then. */
  datatype Handling = Handling(reply: Round, now: nat, corrections: nat, continuations: nat, executed: set<string>,
    before: seq<Message>, after: seq<Message>, hasMore: bool, retry: bool)

  ghost predicate IsHandled(world: World, x: Handling) {
    && (exists k: nat :: world.stream(k) == Streamed(x.reply))
    && Handled(world, x.reply, x.now, x.corrections, x.continuations, x.executed, x.before,
      x.after, x.hasMore, x.retry)
  }

  /** Every round was handled as its reply asks, and goes on from where the one before ended. */
  ghost predicate AllHandled(world: World, start: seq<Message>, rounds: seq<Handling>) {
    && (forall k :: 0 <= k < |rounds| ==> IsHandled(world, rounds[k]))
    && forall k :: 0 <= k < |rounds| ==> Grows(EndOf(start, rounds[..k]), rounds[k].before)
  }

  /** The transcript behind these rounds. */
  function EndOf(start: seq<Message>, rounds: seq<Handling>): seq<Message> {
    if rounds == [] then start else rounds[|rounds| - 1].after
  }

  /** One round came behind the others: that of this reply, which left the transcript so. */
  predicate RoundAdded(rounds: seq<Handling>, rounds': seq<Handling>, reply: Round, h: seq<Message>, hasMore: bool) {
    && |rounds'| == |rounds| + 1 && rounds <= rounds'
    && rounds'[|rounds|].reply == reply && rounds'[|rounds|].after == h && rounds'[|rounds|].hasMore == hasMore
  }

  lemma {:induction false} OneMoreHandled(world: World, start: seq<Message>, rounds: seq<Handling>, x: Handling,
      lo: nat, hi: nat)
    requires AllHandled(world, start, rounds) && Grows(EndOf(start, rounds), x.before)
    requires CameBetween(world, lo, hi, Streamed(x.reply))
    requires Handled(world, x.reply, x.now, x.corrections, x.continuations, x.executed, x.before,
      x.after, x.hasMore, x.retry)
    ensures AllHandled(world, start, rounds + [x]) && EndOf(start, rounds + [x]) == x.after
  {
    hide Handled, Grows;
    var k: nat :| lo <= k < hi && world.stream(k) == Streamed(x.reply);
    var more := rounds + [x];
    assert IsHandled(world, x);
    forall k | 0 <= k < |more|
      ensures Grows(EndOf(start, more[..k]), more[k].before)
    {
      if k < |rounds| { assert more[..k] == rounds[..k]; } else { assert more[..k] == rounds; }
    }
  }

  lemma {:induction false} NoneHandled(world: World, start: seq<Message>)
    ensures AllHandled(world, start, []) && EndOf(start, []) == start
  {
  }

  /** When the batch of a round is run, if what it asks for is found out at this time. */
  function BatchTime(world: World, round: Round, now: nat): (t: nat)
    ensures t >= now
  {
    if !world.unparseable(round.toolCalls) && round.finishReason == "tool_calls" && round.toolCalls == [] then now + 1
    else now
  }

  lemma {:induction false} BatchHandled(world: World, round: Round, now: nat, corrections: nat, continuations: nat,
      executed: set<string>, h: seq<Message>, h': seq<Message>)
    requires var r := Resolved(world, round, now, corrections);
      && r.Calls? && r.calls.toolCalls != []
      && h' == WithBatch(h, r.calls.assistantContent, r.calls.toolCalls, BatchResults(world.execute,
           BatchTime(world, round, now), r.calls.toolCalls, executed, world.signature))
    ensures Handled(world, round, now, corrections, continuations, executed, h, h', true, false)
  {
    hide BatchResults;
  }

  lemma {:induction false} CorrectionHandled(world: World, round: Round, now: nat, corrections: nat,
      continuations: nat, executed: set<string>, h: seq<Message>, h': seq<Message>)
    requires var r := Resolved(world, round, now, corrections); r.Correct? && h' == h + [UserMessage(r.text)]
    ensures Handled(world, round, now, corrections, continuations, executed, h, h', true, true)
  {
    hide BatchResults;
  }

  lemma {:induction false} PlainHandled(world: World, round: Round, now: nat, corrections: nat, continuations: nat,
      executed: set<string>, h: seq<Message>, h': seq<Message>, hasMore: bool)
    requires NoCalls(Resolved(world, round, now, corrections))
    requires Concluded(world, round, continuations, h, h', hasMore)
    ensures Handled(world, round, now, corrections, continuations, executed, h, h', hasMore, false)
    ensures AsksNothing(world, round)
  {
    hide BatchResults, Concluded;
    PlainReplyIff(world, round, now, corrections);
  }

  /** The answer of a turn: that to a reply which came from a stream between these times and asked for nothing. */
  ghost predicate IsAnswer(world: World, lo: nat, hi: nat, h: seq<Message>, answer: string) {
    exists k: nat :: lo <= k < hi && RepliesWith(world, world.stream(k), h, answer)
  }

  ghost predicate RepliesWith(world: World, reply: StreamReply, h: seq<Message>, answer: string) {
    reply.Streamed? && AsksNothing(world, reply.round) && AnswersWith(world, reply.round.text, h, answer)
  }

  lemma {:induction false} AnswerCame(world: World, lo: nat, hi: nat, lo': nat, hi': nat, round: Round,
      h: seq<Message>, answer: string)
    requires lo' <= lo && hi <= hi' && CameBetween(world, lo, hi, Streamed(round))
    requires AsksNothing(world, round) && AnswersWith(world, round.text, h, answer)
    ensures IsAnswer(world, lo', hi', h, answer)
  {
    hide AsksNothing, AnswersWith;
    var k: nat :| lo <= k < hi && world.stream(k) == Streamed(round);
    assert RepliesWith(world, world.stream(k), h, answer);
  }

  lemma {:induction false} AnswerWithin(world: World, lo: nat, hi: nat, lo': nat, hi': nat, h: seq<Message>,
      answer: string)
    requires lo' <= lo && hi <= hi' && IsAnswer(world, lo, hi, h, answer)
    ensures IsAnswer(world, lo', hi', h, answer)
  {
    hide RepliesWith;
  }

  predicate EndsWith(h: seq<Message>, m: Message) { h != [] && h[|h| - 1] == m }

  /** What is done before a request: with a compactor, a compaction if one is due. `n'` is the time afterwards. */
  ghost predicate Triggered(world: World, h: seq<Message>, n: nat, h': seq<Message>, n': nat) {
    if !world.hasCompactor then h' == h && n' == n
    else if !world.decide(n) then h' == h && n' == n + 1
    else n' == n + 2 && CompactedAt(world, h, n + 1, h')
  }

  ghost predicate CompactedAt(world: World, h: seq<Message>, n: nat, h': seq<Message>) {
    exists made, compacted :: CompactionTried(world, h, n, made, compacted, true, h')
  }

  /** Room is made for a request that does not fit: with a compactor by a compaction, and if that did not help, or there
      is none, by pruning. */
  ghost predicate MadeToFit(world: World, h: seq<Message>, n: nat, h': seq<Message>, n': nat) {
    if world.decide(n) then h' == h && n' == n + 1
    else if !world.hasCompactor then h' == PrunedHistory(h) && n' == n + 1
    else exists made, compacted, mid :: CompactedOrPruned(world, h, n, made, compacted, mid, h', n')
  }

  /** What is done before every request. */
  ghost predicate Prepared(world: World, h: seq<Message>, n: nat, h': seq<Message>, n': nat) {
    exists mid, at: nat :: Triggered(world, h, n, mid, at) && MadeToFit(world, mid, at, h', n')
  }

  /** The first request since then was prepared from `h`, from time `n` to `n'`. */
  ghost predicate FirstPrepared(world: World, h: seq<Message>, n: nat, sent: seq<seq<Message>>,
      sent': seq<seq<Message>>, n': nat)
  {
    sent < sent' && Prepared(world, h, n, sent'[|sent|], n')
  }

  ghost predicate CompactedOrPruned(world: World, h: seq<Message>, n: nat, made: seq<Call>, compacted: bool,
      mid: seq<Message>, h': seq<Message>, n': nat)
  {
    && CompactionTried(world, h, n + 1, made, compacted, false, mid)
    && n' == (if compacted then n + 3 else n + 2)
    && h' == if compacted && world.decide(n + 2) then mid else PrunedHistory(mid)
  }

  /** What is done after an overflow: a compaction,
    with a request to go on that speaks of the overflow if all earlier ones
      are answered, and pruning if the request still does not fit. */
  ghost predicate MadeSmaller(world: World, h: seq<Message>, n: nat, h': seq<Message>) {
    exists made, compacted, mid ::
      CompactionTried(world, h, n, made, compacted, false, mid) && AskedAndPruned(world, n, compacted, mid, h')
  }

  predicate AskedAndPruned(world: World, n: nat, compacted: bool, mid: seq<Message>, h': seq<Message>) {
    var asked := mid + if compacted && AllAnswered(mid) then [UserMessage(COMPACTION_OVERFLOW_CONTINUE_TEXT)] else [];
    h' == if world.decide(n + 1) then asked else PrunedHistory(asked)
  }

  /** The transcript after a batch. */
  function WithBatch(h: seq<Message>, content: string, calls: seq<ToolCall>, results: seq<ToolResult>): seq<Message> {
    h + ([CallMessage(content, calls)] + ResultMessages(results))
  }

  /** Each request to go on, if there are any, has a real answer behind it. */
  predicate AllAnswered(h: seq<Message>) {
    forall i :: 0 <= i < |h| && AsksToGoOn(h[i]) ==> exists j :: i < j < |h| && h[j].role == Assistant && !h[j].summary
  }

  predicate AsksToGoOn(m: Message) {
    m.role == User && (m.content == COMPACTION_AUTO_CONTINUE_TEXT || m.content == COMPACTION_OVERFLOW_CONTINUE_TEXT)
  }

  /** A compaction of `h` was tried at this time, with these calls,
    and left `h'`: marked with the summary of the planned
      head, and with a request to go on if that is wanted and all earlier ones are answered; or unchanged, because
      nothing is planned or the summariser failed. */
  ghost predicate CompactionTried(world: World, h: seq<Message>, now: nat, made: seq<Call>, compacted: bool,
      ask: bool, h': seq<Message>)
  {
    var plan := Compaction.PlanOf(Raw(h), ResolveKeepRecent(world.settings));
    && AnsweredBy(world.summariser(now), made)
    && if compacted then exists summary :: MarkedAndAsked(world, h, made, ask, h', summary)
       else h' == h && (plan.Plan? ==> JobFails(JobOf(world, h), made))
  }

  /** The job of a compaction, with the settings of the world. */
  function JobOf(world: World, h: seq<Message>): Job
    requires Compaction.PlanOf(Raw(h), ResolveKeepRecent(world.settings)).Plan?
  {
    Compaction.JobOn(Raw(h), ResolveKeepRecent(world.settings),
      Compaction.Config(world.limits, world.settings, world.estimator))
  }

  ghost predicate MarkedAndAsked(world: World, h: seq<Message>, made: seq<Call>, ask: bool, h': seq<Message>,
      summary: string)
  {
    var plan := Compaction.PlanOf(Raw(h), ResolveKeepRecent(world.settings));
    && plan.Plan? && Text.Trim(summary) != "" && Summarizes(JobOf(world, h), made, summary)
    && var marked := Marked(h, plan.firstKept, summary);
      h' == marked + if ask && AllAnswered(marked) then [UserMessage(COMPACTION_AUTO_CONTINUE_TEXT)] else []
  }

  /** What holds of the transcript throughout a turn. */
  ghost predicate Kept(h: seq<Message>, told: map<nat, RawMessage>, trace: Trace) {
    Inv(State(h, told)) && Paired(h) && TraceInv(trace, h)
  }

  /** The stored session and the mirror are as the checkpoints left them. */
  ghost predicate Synced(stored: seq<Message>, cursor: nat, mirrored: set<string>, base: seq<Message>, trace: Trace) {
    && stored == base + SyncedOver(|trace.start|, trace.checkpoints)
    && cursor == CursorOver(|trace.start|, trace.checkpoints)
    && mirrored == MirroredOver(|trace.start|, trace.checkpoints)
  }

  lemma {:induction false} SteeringKeepsSynced(stored: seq<Message>, cursor: nat, mirrored: set<string>,
      base: seq<Message>, before: Trace, after: Trace)
    requires Synced(stored, cursor, mirrored, base, before)
    requires after.start == before.start && after.checkpoints == before.checkpoints
    ensures Synced(stored, cursor, mirrored, base, after)
  {
  }

  lemma {:induction false} SyncKeepsSynced(stored: seq<Message>, cursor: nat, mirrored: set<string>,
      base: seq<Message>, trace: Trace, h: seq<Message>)
    requires Synced(stored, cursor, mirrored, base, trace)
    ensures Synced(stored + Copies(h, cursor, |h|, |h|), if cursor < |h| then |h| else cursor,
      mirrored + MirroredTexts(h, cursor, |h|), base, trace.(checkpoints := trace.checkpoints + [h]))
  {
    hide Copies, MirroredTexts, SyncedOver, CursorOver, MirroredOver;
    OneMoreSync(|trace.start|, trace.checkpoints, h);
    assert base + SyncedOver(|trace.start|, trace.checkpoints) + Copies(h, cursor, |h|, |h|) ==
      base + (SyncedOver(|trace.start|, trace.checkpoints) + Copies(h, cursor, |h|, |h|));
  }

  /** An event keeps this if the transcript only grows by it. */
  lemma {:induction false} EventKeeps(h: seq<Message>, told: map<nat, RawMessage>, trace: Trace, e: Event)
    requires Kept(h, told, trace) && IsLegal(e) && Grows(h, Step(State(h, told), e).history)
    ensures Kept(Step(State(h, told), e).history, Step(State(h, told), e).told, trace)
  {
    hide Inv, Paired, TraceInv, Grows, Step;
    StepKeepsInv(State(h, told), e);
    StepPaired(State(h, told), e);
    TraceGrows(trace, h, Step(State(h, told), e).history);
  }

  lemma {:induction false} KeptSteering(h: seq<Message>, told: map<nat, RawMessage>, trace: Trace, text: string)
    requires Kept(h, told, trace)
    ensures Kept(h + [UserMessage(text)], told, trace.(steered := trace.steered + [text], at := trace.at + [|h|]))
  {
    hide Inv, Paired, TraceInv, Grows;
    StepKeepsInv(State(h, told), Event.AddUser(text));
    StepPaired(State(h, told), Event.AddUser(text));
    TraceSteers(trace, h, text);
  }

  /** The transcript ends in a batch of at least one call, whose signatures are now remembered. */
  ghost predicate EndsInBatch(world: World, executed: set<string>, executed': set<string>, h: seq<Message>) {
    exists before, now: nat, content, calls: seq<ToolCall> ::
      && calls != [] && executed' == executed + Signatures(calls, world.signature)
      && h == WithBatch(before, content, calls, BatchResults(world.execute, now, calls, executed, world.signature))
  }

  lemma {:induction false} BatchEnds(world: World, before: seq<Message>, calls: TurnCalls, now: nat,
      executed: set<string>)
    requires calls.toolCalls != []
    ensures EndsInBatch(world, executed, executed + Signatures(calls.toolCalls, world.signature),
      WithBatch(before, calls.assistantContent, calls.toolCalls,
        BatchResults(world.execute, now, calls.toolCalls, executed, world.signature)))
  {
    hide Signatures, WithBatch, BatchResults;
  }

  /** All these transcripts could be sent to the model as they were. */
  ghost predicate AllSendable(sent: seq<seq<Message>>) {
    forall k :: 0 <= k < |sent| ==> Sendable(sent[k])
  }

  lemma {:induction false} OneMoreSent(h: seq<Message>, told: map<nat, RawMessage>, trace: Trace,
      sent: seq<seq<Message>>)
    requires Kept(h, told, trace) && AllSendable(sent)
    ensures AllSendable(sent + [h])
  {
    hide Inv, Paired, TraceInv, Sendable;
    KeptIsSendable(State(h, told));
  }

  /** The reply came from a stream that was opened between these times. */
  ghost predicate CameBetween(world: World, lo: nat, hi: nat, reply: StreamReply) {
    exists k: nat :: lo <= k < hi && world.stream(k) == reply
  }

  /** A turn is aborted because it was cancelled, or for the reason of a stream that failed. */
  ghost predicate AbortedBetween(world: World, lo: nat, hi: nat, reason: string) {
    || (reason == "context canceled" && exists k: nat :: lo <= k < hi && world.cancelled(k))
    || CameBetween(world, lo, hi, ContextOverflow(reason))
    || CameBetween(world, lo, hi, StreamFailed(reason))
  }

  lemma {:induction false} CameWithin(world: World, lo: nat, hi: nat, lo': nat, hi': nat, reply: StreamReply)
    requires lo' <= lo && hi <= hi' && CameBetween(world, lo, hi, reply)
    ensures CameBetween(world, lo', hi', reply)
  {
  }

  lemma {:induction false} AbortedWithin(world: World, lo: nat, hi: nat, lo': nat, hi': nat, reason: string)
    requires lo' <= lo && hi <= hi' && AbortedBetween(world, lo, hi, reason)
    ensures AbortedBetween(world, lo', hi', reason)
  {
    if k: nat :| lo <= k < hi && world.cancelled(k) && reason == "context canceled" {
      assert lo' <= k < hi' && world.cancelled(k);
    }
  }

  lemma {:induction false} StreamAborts(world: World, lo: nat, hi: nat, lo': nat, reply: StreamReply)
    requires lo' <= lo && CameBetween(world, lo, hi, reply) && !reply.Streamed?
    ensures AbortedBetween(world, lo', hi, reply.reason)
  {
    hide CameBetween;
    CameWithin(world, lo, hi, lo', hi, reply);
    assert reply == ContextOverflow(reply.reason) || reply == StreamFailed(reply.reason);
  }

  lemma {:induction false} CancelAborts(world: World, lo: nat, k: nat)
    requires lo <= k && world.cancelled(k)
    ensures AbortedBetween(world, lo, k + 1, "context canceled")
  {
    assert lo <= k < k + 1 && world.cancelled(k);
  }

  class TurnContext {
    const session: Session
    const world: World
    const limit: nat
    const mirror: TurnMirror
    const input: PeerInputs.PeerInput
    ghost const base: seq<Message>      // the stored session before the turn
    ghost const promoted: seq<string>   // the promoted texts before the turn
    ghost const prompted: seq<Message>  // the transcript before the first round
    ghost var told: map<nat, RawMessage>
    ghost var trace: Trace
    ghost var sent: seq<seq<Message>> // the transcript at every request
    ghost var handled: seq<Handling>  // the rounds, as they were handled
    ghost var drained: seq<string>    // the steering texts that were drained, in order
    ghost var skipped: set<string>    // the signatures of the calls that were skipped
    var executed: set<string>
    var iterations: nat
    var lengthContinuations: nat
    var malformedRetries: nat
    var finalText: string
    var now: nat              // how often an oracle was asked
    var streamCalls: nat      // how often a stream was opened
    var log: seq<ToolCall>    // the calls that were really run

    /** `told` is what was given to summarisers before; `start` is the session as the mirror found it. */
    constructor (session: Session, mirror: TurnMirror, input: PeerInputs.PeerInput, world: World, limit: nat,
        ghost told: map<nat, RawMessage>, ghost start: seq<Message>)
      requires Inv(State(session.messages, told)) && Paired(session.messages) && Grows(start, session.messages)
      requires mirror.source == session != mirror.target && mirror.cursor == |start| && mirror.mirrored == {}
      ensures this.session == session && this.world == world && this.limit == limit
      ensures this.mirror == mirror && this.input == input
      ensures base == mirror.target.messages && promoted == input.promoted
      ensures TurnInv() && iterations == streamCalls == 0
      ensures drained == [] && skipped == {} && log == [] && sent == [] && now == 0
      ensures handled == [] && prompted == session.messages && trace == Trace(start, session.messages, [], [], [])
    {
      this.session, this.world, this.limit, this.mirror, this.input := session, world, limit, mirror, input;
      base, promoted := mirror.target.messages, input.promoted;
      this.told, trace, drained, skipped, sent := told, Trace(start, session.messages, [], [], []), [], {}, [];
      prompted, handled := session.messages, [];
      executed, iterations, lengthContinuations, malformedRetries := {}, 0, 0, 0;
      finalText, now, streamCalls, log := "", 0, 0, [];
      new;
      hide Inv, Paired, TraceInv, Grows;
      NewTraceInv(start, session.messages);
      NoneHandled(world, prompted);
      assert base + [] == base && promoted + [] == promoted;
    }

    /** The stored session has got what the checkpoints copied. */
    ghost predicate MirrorInv()
      reads this, mirror, mirror.target
    {
      && mirror.source == session != mirror.target
      && Synced(mirror.target.messages, mirror.cursor, mirror.mirrored, base, trace)
    }

    ghost predicate HistoryInv()
      reads this, session
    {
      Kept(session.messages, told, trace) && trace.prompted == prompted && AllSendable(sent) && |sent| == streamCalls
    }

    ghost predicate TurnInv()
      reads this, session, mirror, mirror.target, input
    {
      && HistoryInv() && MirrorInv() && AllHandled(world, prompted, handled)
      && input.promoted == promoted + drained
      && trace.steered <= drained
      && Ledger(log, executed, skipped, world.signature)
      && iterations <= limit + 1
      && lengthContinuations <= MAX_LENGTH_CONTINUATIONS
      && malformedRetries <= MAX_MALFORMED_CALL_RETRIES
      && streamCalls <= 8 * (if iterations <= limit then iterations else limit)
    }

    // ---- Appending to the session ----

    method AddUser(text: string)
      requires HistoryInv()
      modifies session`messages
      ensures HistoryInv() && session.messages == old(session.messages) + [UserMessage(text)]
    {
      hide Kept, AllSendable, Grows;
      GrowsAppend(session.messages, [UserMessage(text)]);
      EventKeeps(session.messages, told, trace, Event.AddUser(text));
      session.AddUserMessage(text);
    }

    method AddAssistant(text: string)
      requires HistoryInv()
      modifies session`messages
      ensures HistoryInv() && session.messages == old(session.messages) + [AssistantMessage(text)]
    {
      hide Kept, AllSendable, Grows;
      GrowsAppend(session.messages, [AssistantMessage(text)]);
      EventKeeps(session.messages, told, trace, Event.AddAssistant(text));
      session.AddAssistantMessage(text);
    }

    method AppendAssistantText(text: string)
      requires HistoryInv()
      modifies session`messages
      ensures HistoryInv()
      ensures session.messages == old(session.messages) +
        if world.clean(text) != "" then [AssistantMessage(world.clean(text))] else []
    {
      hide Kept, AllSendable;
      var cleaned := world.clean(text);
      if cleaned != "" {
        AddAssistant(cleaned);
      }
    }

    /** The texts enter the transcript as user messages, and this is remembered. */
    method AppendSteeringMessages(pending: seq<string>)
      requires HistoryInv()
      modifies session`messages, this`trace
      ensures HistoryInv()
      ensures session.messages == old(session.messages) + UserMessages(pending)
      ensures trace.steered == old(trace).steered + pending && trace.start == old(trace).start
      ensures trace.checkpoints == old(trace).checkpoints
    {
      hide Kept, AllSendable;
      for i := 0 to |pending|
        invariant HistoryInv()
        invariant session.messages == old(session.messages) + UserMessages(pending[..i])
        invariant trace.steered == old(trace).steered + pending[..i]
        invariant trace.start == old(trace).start && trace.checkpoints == old(trace).checkpoints
      {
        KeptSteering(session.messages, told, trace, pending[i]);
        trace := trace.(steered := trace.steered + [pending[i]], at := trace.at + [|session.messages|]);
        session.AddUserMessage(pending[i]);
        assert UserMessages(pending[..i + 1]) == UserMessages(pending[..i]) + [UserMessage(pending[i])];
      }
      assert pending[..|pending|] == pending;
    }

    // ---- Compaction and pruning inside a turn ----

    /** Tells whether a marker was added; if not, nothing changed. */
    method ForceCompact(addAutoContinue: bool) returns (compacted: bool, ghost made: seq<Call>)
      requires HistoryInv()
      modifies session`messages, this`told, this`now
      ensures HistoryInv() && now == old(now) + 1 && Grows(old(session.messages), session.messages)
      ensures CompactionTried(world, old(session.messages), old(now), made, compacted, addAutoContinue,
        session.messages)
    {
      hide Kept, AllSendable, Marked, Summarizes, FailsAt, EndsBlank, Compaction.JobOn, Grows, Compaction.PlanOf;
      hide Step, Text.Trim, Raw, AllAnswered, AnsweredBy, Compaction.IsLatestSummary, Compaction.HasNoSummary;
      hide Compaction.Work;
      var history := session.messages;
      var raw := ConvertHistory(history);
      var outcome, calls := Compaction.Compact(raw, world.limits, world.settings, world.estimator,
        world.summariser(now));
      now := now + 1;
      made := calls;
      if outcome.NotCompacted? {
        GrowsSame(history);
        return false, made;
      }
      ghost var e := Event.Compress(ResolveKeepRecent(world.settings), outcome.result.summary);
      CompressMarks(State(history, told), e.keep, e.summary);
      GrowsMarked(history, outcome.result.firstKept, outcome.result.summary);
      EventKeeps(history, told, trace, e);
      told := Step(State(history, told), e).told;
      session.MarkCompaction(outcome.result.firstKept, outcome.result.summary);
      ghost var marked := session.messages;
      assert marked + [] == marked;
      if addAutoContinue {
        var add := ShouldAddAutoContinue();
        if add {
          AddUser(COMPACTION_AUTO_CONTINUE_TEXT);
          GrowsAppend(marked, [UserMessage(COMPACTION_AUTO_CONTINUE_TEXT)]);
          GrowsOn(history, marked, session.messages);
        }
      }
      assert MarkedAndAsked(world, history, made, addAutoContinue, session.messages, outcome.result.summary);
      return true, made;
    }

    method ShouldAddAutoContinue() returns (add: bool)
      ensures add == AllAnswered(session.messages)
    {
      var history := session.messages;
      var last := -1;
      var i := |history| - 1;
      while i >= 0
        invariant -1 <= i < |history| && last == -1
        invariant forall k :: i < k < |history| ==> !AsksToGoOn(history[k])
      {
        var msg := history[i];
        if msg.role.User? &&
          (msg.content == COMPACTION_AUTO_CONTINUE_TEXT || msg.content == COMPACTION_OVERFLOW_CONTINUE_TEXT)
        {
          last := i;
          break;
        }
        i := i - 1;
      }
      if last < 0 {
        return true;
      }
      for j := last + 1 to |history|
        invariant forall k :: last < k < j ==> !(history[k].role.Assistant? && !history[k].summary)
      {
        if history[j].role.Assistant? && !history[j].summary {
          return true;
        }
      }
      return false;
    }

    method AggressivePruning() returns (count: nat)
      requires HistoryInv()
      modifies session`messages
      ensures HistoryInv() && session.messages == PrunedHistory(old(session.messages))
      ensures Grows(old(session.messages), session.messages)
      ensures count == 0 <==> session.messages == old(session.messages)
    {
      hide Kept, AllSendable, PrunedHistory, Grows;
      GrowsPruned(session.messages);
      EventKeeps(session.messages, told, trace, Prune);
      count := RunPruning(session);
    }

    method Ask() returns (answer: bool)
      modifies this`now
      ensures answer == world.decide(old(now)) && now == old(now) + 1
    {
      answer := world.decide(now);
      now := now + 1;
    }

    // ---- Streaming ----

    /** Sends what is shown of the transcript, which can be sent. */
    method StreamOnce() returns (reply: StreamReply)
      requires HistoryInv()
      modifies this`now, this`streamCalls, this`sent
      ensures HistoryInv() && sent == old(sent) + [session.messages]
      ensures streamCalls == old(streamCalls) + 1
      ensures reply == world.stream(old(now)) && now == old(now) + 1
    {
      hide Kept, AllSendable;
      OneMoreSent(session.messages, told, trace, sent);
      sent := sent + [session.messages];
      reply := world.stream(now);
      now := now + 1;
      streamCalls := streamCalls + 1;
    }

    /** One request, retried while the answer is empty. */
    method StreamRound() returns (reply: StreamReply)
      requires HistoryInv()
      modifies this`now, this`streamCalls, this`sent
      ensures HistoryInv()
      ensures old(streamCalls) < streamCalls <= old(streamCalls) + 1 + MAX_EMPTY_RETRIES
      ensures IsEmptyReply(reply) ==> streamCalls == old(streamCalls) + 4
      ensures now - old(now) == streamCalls - old(streamCalls) && reply == world.stream(now - 1)
      ensures forall k :: old(now) <= k < now - 1 ==> IsEmptyReply(world.stream(k))
      ensures old(sent) <= sent && forall k :: |old(sent)| <= k < |sent| ==> sent[k] == session.messages
    {
      hide IsTerminal, Kept, AllSendable;
      assert forall r: StreamReply :: IsEmptyReply(r) <==> r.Streamed? && !IsTerminal(r.round) by {
        EmptyIffNotTerminal();
      }
      reply := StreamOnce();
      if !reply.Streamed? || IsTerminal(reply.round) {
        return;
      }
      for attempt := 1 to MAX_EMPTY_RETRIES + 1
        invariant HistoryInv() && streamCalls == old(streamCalls) + attempt && now == old(now) + attempt
        invariant reply == world.stream(now - 1)
        invariant forall k :: old(now) <= k < now ==> IsEmptyReply(world.stream(k))
        invariant old(sent) <= sent && forall k :: |old(sent)| <= k < |sent| ==> sent[k] == session.messages
      {
        reply := StreamOnce();
        if !reply.Streamed? || IsTerminal(reply.round) {
          return;
        }
      }
    }

    /** Makes room before a request that does not fit: by a compaction if there can be one, and by pruning if
        that was not enough. A request that fits is left alone. */
    method EnsureContextFits()
      requires HistoryInv()
      modifies session`messages, this`told, this`now
      ensures HistoryInv() && now > old(now) && Grows(old(session.messages), session.messages)
      ensures MadeToFit(world, old(session.messages), old(now), session.messages, now)
    {
      hide Kept, AllSendable, PrunedHistory, CompactionTried, Grows;
      ghost var h, n := session.messages, now;
      GrowsSame(h);
      var fits := Ask();
      if fits {
        return;
      }
      ghost var made, compacted := [], false;
      if world.hasCompactor {
        var done;
        done, made := ForceCompact(false);
        compacted := done;
        if done {
          fits := Ask();
          if fits {
            assert CompactedOrPruned(world, h, n, made, true, session.messages, session.messages, now);
            return;
          }
        }
      }
      ghost var mid := session.messages;
      var _ := AggressivePruning();
      GrowsOn(h, mid, session.messages);
      if world.hasCompactor {
        assert CompactedOrPruned(world, h, n, made, compacted, mid, session.messages, now);
      }
    }

    /** Makes the request ready: a compaction if one is due, and room if it does not fit. */
    method PrepareRequest()
      requires HistoryInv()
      modifies session`messages, this`told, this`now
      ensures HistoryInv() && now > old(now) && Grows(old(session.messages), session.messages)
      ensures Prepared(world, old(session.messages), old(now), session.messages, now)
    {
      hide Kept, AllSendable, CompactionTried, MadeToFit, Grows;
      ghost var h, n := session.messages, now;
      GrowsSame(h);
      ghost var compacted, made := false, [];
      if world.hasCompactor {
        var triggered := Ask();
        if triggered {
          var done;
          done, made := ForceCompact(true);
          compacted := done;
        }
      }
      ghost var mid, at := session.messages, now;
      assert world.hasCompactor && world.decide(n) ==> CompactedAt(world, h, n + 1, mid);
      assert Triggered(world, h, n, mid, at);
      EnsureContextFits();
      GrowsOn(h, mid, session.messages);
    }

    /** Streams a round. A rejected request is sent once more, exactly if it overflowed, there is a compactor, and
        what was done then made the request smaller; otherwise the first reply stands. */
    method StreamWithOverflowRecovery() returns (reply: StreamReply, ghost first: StreamReply, ghost resent: bool,
        ghost at: nat)
      requires HistoryInv()
      modifies session`messages, this`told, this`now, this`streamCalls, this`sent
      ensures HistoryInv() && FirstPrepared(world, old(session.messages), old(now), old(sent), sent, at)
      ensures old(streamCalls) < streamCalls <= old(streamCalls) + 2 * (1 + MAX_EMPTY_RETRIES)
      ensures !resent ==> reply == first && streamCalls <= old(streamCalls) + 1 + MAX_EMPTY_RETRIES
      ensures resent ==> first.ContextOverflow? && world.hasCompactor
      ensures !resent && first.ContextOverflow? && world.hasCompactor ==> now > old(now) && !world.decide(now - 1)
      ensures |old(sent)| < |sent| && if first.ContextOverflow? && world.hasCompactor then
          exists n: nat :: MadeSmaller(world, sent[|old(sent)|], n, session.messages)
        else session.messages == sent[|old(sent)|]
      ensures now > old(now) && CameBetween(world, old(now), now, reply)
      ensures Grows(old(session.messages), session.messages)
    {
      hide Kept, AllSendable, Prepared, IsEmptyReply, MadeSmaller, Grows;
      ghost var h, n0 := session.messages, |sent|;
      PrepareRequest();
      at := now;
      ghost var ready := session.messages;
      reply := StreamRound();
      assert sent[n0] == ready;
      first, resent := reply, false;
      ghost var asked, before := now, sent;
      assert CameBetween(world, old(now), asked, reply);
      if !reply.ContextOverflow? || !world.hasCompactor {
        return;
      }
      reply, resent := RecoverFromOverflow(reply);
      GrowsOn(h, ready, session.messages);
      assert sent[n0] == before[n0];
      CameWithin(world, if resent then asked else old(now), if resent then now else asked, old(now), now, reply);
    }

    /** Compacts and, if that is not enough, prunes; then sends the request again if it became smaller. */
    method RecoverFromOverflow(cause: StreamReply) returns (reply: StreamReply, ghost resent: bool)
      requires HistoryInv()
      modifies session`messages, this`told, this`now, this`streamCalls, this`sent
      ensures HistoryInv() && now > old(now) && old(sent) <= sent
      ensures MadeSmaller(world, old(session.messages), old(now), session.messages)
      ensures Grows(old(session.messages), session.messages)
      ensures streamCalls <= old(streamCalls) + if resent then 1 + MAX_EMPTY_RETRIES else 0
      ensures streamCalls >= old(streamCalls)
      ensures !resent ==> reply == cause && !world.decide(now - 1)
      ensures resent ==> CameBetween(world, old(now), now, reply)
    {
      hide Kept, AllSendable, MadeSmaller, IsEmptyReply, Grows;
      ShrinkRequest();
      var shrank := Ask();
      if !shrank {
        return cause, false;
      }
      resent := true;
      reply := StreamRound();
    }

    method ShrinkRequest()
      requires HistoryInv()
      modifies session`messages, this`told, this`now
      ensures HistoryInv() && now > old(now)
      ensures MadeSmaller(world, old(session.messages), old(now), session.messages)
      ensures Grows(old(session.messages), session.messages)
    {
      hide Kept, AllSendable, PrunedHistory, CompactionTried, AllAnswered, Grows;
      ghost var h, n := session.messages, now;
      var compacted, made := ForceCompact(false);
      ghost var mid := session.messages;
      assert mid + [] == mid;
      if compacted {
        var add := ShouldAddAutoContinue();
        if add {
          AddUser(COMPACTION_OVERFLOW_CONTINUE_TEXT);
        }
      }
      ghost var asked := session.messages;
      GrowsSame(mid);
      GrowsAppend(mid, [UserMessage(COMPACTION_OVERFLOW_CONTINUE_TEXT)]);
      GrowsOn(h, mid, asked);
      var fits := Ask();
      if !fits {
        var _ := AggressivePruning();
        GrowsOn(h, asked, session.messages);
      }
      assert AskedAndPruned(world, n, compacted, mid, session.messages);
    }

    // ---- Tool calls ----

    /** Which calls a round asks for, or a request to the model to send the round again. */
    method ResolveToolCalls(round: Round) returns (calls: TurnCalls)
      requires HistoryInv() && malformedRetries <= MAX_MALFORMED_CALL_RETRIES
      modifies session`messages, this`now, this`malformedRetries
      ensures HistoryInv()
      ensures malformedRetries == old(malformedRetries) + if calls.retryRequested then 1 else 0
      ensures malformedRetries <= MAX_MALFORMED_CALL_RETRIES
      ensures (calls.retryRequested ==> calls.toolCalls == []) && now == BatchTime(world, round, old(now))
      ensures match Resolved(world, round, old(now), old(malformedRetries))
        case Calls(c) => calls == c && !calls.retryRequested && session.messages == old(session.messages)
        case Correct(text) => calls.retryRequested && session.messages == old(session.messages) + [UserMessage(text)]
    {
      hide Kept, AllSendable;
      if world.unparseable(round.toolCalls) {
        if malformedRetries >= MAX_MALFORMED_CALL_RETRIES {
          return TurnCalls("", [], false);
        }
        malformedRetries := malformedRetries + 1;
        AddUser(TRUNCATED_CALL_CORRECTION);
        return TurnCalls("", [], true);
      }
      if round.finishReason == "tool_calls" || |round.toolCalls| > 0 {
        if |round.toolCalls| > 0 {
          return TurnCalls("", round.toolCalls, false);
        }
        var collected := world.nonStreaming(now);
        now := now + 1;
        if |collected| > 0 {
          return TurnCalls("", collected, false);
        }
      }
      var (embedded, content) := world.embedded(round);
      if |embedded| > 0 {
        return TurnCalls(content, embedded, false);
      }
      if world.malformed(round) && malformedRetries < MAX_MALFORMED_CALL_RETRIES {
        malformedRetries := malformedRetries + 1;
        AddUser(FORMAT_CORRECTION);
        return TurnCalls("", [], true);
      }
      return TurnCalls("", [], false);
    }

    /** Separates the calls that were not made before in this turn, nor earlier in the batch. */
    method PartitionToolCalls(calls: seq<ToolCall>) returns (unique: seq<ToolCall>, duplicates: seq<ToolCall>)
      modifies this`executed
      ensures unique == Uniques(calls, old(executed), world.signature)
      ensures duplicates == Duplicates(calls, old(executed), world.signature)
      ensures executed == old(executed) + Signatures(calls, world.signature)
    {
      hide Signatures, Uniques, Duplicates;
      unique, duplicates := [], [];
      NoSignatures(world.signature);
      NoneIsNew(executed, world.signature);
      for i := 0 to |calls|
        invariant unique == Uniques(calls[..i], old(executed), world.signature)
        invariant duplicates == Duplicates(calls[..i], old(executed), world.signature)
        invariant executed == old(executed) + Signatures(calls[..i], world.signature)
      {
        var call := calls[i];
        assert calls[..i + 1] == calls[..i] + [call];
        SignaturesAppend(calls[..i], call, world.signature);
        NextIsNew(calls[..i], call, old(executed), world.signature);
        var sig := world.signature(call);
        if sig in executed {
          duplicates := duplicates + [call];
          continue;
        }
        executed := executed + {sig};
        unique := unique + [call];
      }
      assert calls[..|calls|] == calls;
    }

    /** Runs the calls in order up to the first whose reply ends the batch, and skips the others. */
    method ExecuteAll(calls: seq<ToolCall>) returns (results: seq<ToolResult>)
      modifies this`now, this`log
      ensures var ran := Ran(world.execute, old(now), calls);
        log == old(log) + calls[..ran] && now == old(now) + ran
      ensures results == Results(world.execute, old(now), calls)
    {
      hide Ran, Results, ResultOf, SkippedResult, Ends;
      results := [];
      for i := 0 to |calls|
        invariant |results| == i && now == old(now) + i && log == old(log) + calls[..i]
        invariant Ran(world.execute, old(now), calls) == i + Ran(world.execute, now, calls[i..])
        invariant forall k :: 0 <= k < i ==> results[k] == ResultOf(calls[k], world.execute(old(now) + k, calls[k]))
      {
        var tc := calls[i];
        RanStep(world.execute, now, calls[i..]);
        assert calls[i..][1..] == calls[i + 1..];
        var reply := world.execute(now, tc);
        now := now + 1;
        log := log + [tc];
        assert calls[..i + 1] == calls[..i] + [tc];
        results := results + [ResultOf(tc, reply)];
        if Ends(reply) {
          results := SkipRest(calls, i + 1, results);
          ResultsAre(world.execute, old(now), calls, i + 1, results);
          return;
        }
      }
      RanNone(world.execute, now, calls[|calls|..]);
      assert calls[..|calls|] == calls;
      ResultsAre(world.execute, old(now), calls, |calls|, results);
    }

    /** The calls behind a reply that ends the batch are answered with a notice. */
    method SkipRest(calls: seq<ToolCall>, from: nat, results: seq<ToolResult>) returns (all: seq<ToolResult>)
      requires from <= |calls| && |results| == from
      ensures |all| == |calls| && all[..from] == results
      ensures forall k :: from <= k < |calls| ==> all[k] == SkippedResult(calls[k])
    {
      all := results;
      for j := from to |calls|
        invariant |all| == j && all[..from] == results
        invariant forall k :: from <= k < j ==> all[k] == SkippedResult(calls[k])
      {
        all := all + [ToolResult(calls[j].id, calls[j].name, SKIPPED_NOTICE)];
      }
    }

    /** Appends the assistant message, then one result for every call of the batch, and fires a checkpoint if
        anything was new. */
    method ExecuteAndAppendBatch(content: string, calls: seq<ToolCall>)
      requires HistoryInv() && MirrorInv() && Ledger(log, executed, skipped, world.signature)
      modifies session`messages, this`now, this`log, this`executed, this`skipped, this`trace
      modifies mirror`cursor, mirror`mirrored, mirror.target`messages
      ensures HistoryInv() && MirrorInv() && Ledger(log, executed, skipped, world.signature)
      ensures executed == old(executed) + Signatures(calls, world.signature)
      ensures var unique := Uniques(calls, old(executed), world.signature);
        var ran := Ran(world.execute, old(now), unique);
        && log == old(log) + unique[..ran]
        && skipped == old(skipped) + Signatures(unique[ran..], world.signature)
        && now == old(now) + ran
        && trace == old(trace).(checkpoints :=
          if unique == [] then old(trace).checkpoints else old(trace).checkpoints + [session.messages])
      ensures session.messages == WithBatch(old(session.messages), content, calls,
        BatchResults(world.execute, old(now), calls, old(executed), world.signature))
    {
      hide Kept, AllSendable, CallIDs, Ledger, Uniques, Duplicates, Signatures, LegalBatch, ResultMessages, Ran;
      hide Results, Notices, Grows, IsCheckpoint, Copies, MirroredTexts, Synced;
      var unique, duplicates := PartitionToolCalls(calls);
      session.AddAssistantMessageWithToolCalls(content, calls);
      AppendNotices(duplicates);
      ghost var withNotices := session.messages;
      var results: seq<ToolResult> := [];
      if |unique| > 0 {
        results := ExecuteAll(unique);
        AppendResults(results);
      } else {
        NothingRun(world.execute, now, session.messages);
        assert unique[..0] == [] && log + [] == log;
      }
      ghost var ran := Ran(world.execute, old(now), unique);
      BatchKeepsLedger(old(log), old(executed), skipped, world.signature, calls, ran);
      skipped := skipped + Signatures(unique[ran..], world.signature);
      BatchAnswersAll(world.execute, old(now), calls, old(executed), world.signature);
      BatchShape(old(session.messages), content, calls, Notices(duplicates), results);
      ghost var e := Event.AddBatch(content, calls, Notices(duplicates) + results);
      KeptByBatch(old(session.messages), told, trace, e);
      if |unique| > 0 {
        KeptCheckpoint(withNotices, results, session.messages, told, trace);
        SyncKeepsSynced(mirror.target.messages, mirror.cursor, mirror.mirrored, base, trace, session.messages);
        mirror.Sync();
        trace := trace.(checkpoints := trace.checkpoints + [session.messages]);
      }
    }

    method AppendNotices(duplicates: seq<ToolCall>)
      modifies session`messages
      ensures session.messages == old(session.messages) + ResultMessages(Notices(duplicates))
    {
      for i := 0 to |duplicates|
        invariant session.messages == old(session.messages) + ResultMessages(Notices(duplicates[..i]))
      {
        session.AddToolMessage(duplicates[i].id, duplicates[i].name, DUPLICATE_NOTICE);
      }
      assert duplicates[..|duplicates|] == duplicates;
    }

    method AppendResults(results: seq<ToolResult>)
      modifies session`messages
      ensures session.messages == old(session.messages) + ResultMessages(results)
    {
      for i := 0 to |results|
        invariant session.messages == old(session.messages) + ResultMessages(results[..i])
      {
        session.AddToolMessage(results[i].id, results[i].name, results[i].content);
      }
      assert results[..|results|] == results;
    }

    // ---- The turn ----

    /** Stores the cleaned answer, or falls back to the last answer that may be shown. */
    method FinishWithTextResponse(text: string) returns (answer: string)
      requires HistoryInv()
      modifies session`messages
      ensures HistoryInv()
      ensures if world.clean(text) != "" then
          answer == world.clean(text) && session.messages == old(session.messages) + [AssistantMessage(answer)]
        else
          answer == LastSaid(session.messages, world.publishable) && session.messages == old(session.messages)
      ensures AnswersWith(world, text, session.messages, answer)
    {
      hide Kept, AllSendable;
      var cleaned := world.clean(text);
      if cleaned == "" {
        var h := session.messages;
        var i := |h| - 1;
        assert h[..|h|] == h;
        while i >= 0
          invariant -1 <= i < |h|
          invariant LastSaid(h, world.publishable) == LastSaid(h[..i + 1], world.publishable)
        {
          var msg := h[i];
          assert h[..i + 1][..i] == h[..i];
          if msg.role.Assistant? && !msg.internalOnly && world.publishable(msg.content) {
            return msg.content;
          }
          i := i - 1;
        }
        return "";
      }
      AddAssistant(cleaned);
      return cleaned;
    }

    /** The notice is the answer, and enters the transcript as far as cleaning leaves something of it. */
    method FinishAtIterationLimit() returns (answer: string)
      requires HistoryInv()
      modifies session`messages, this`finalText
      ensures HistoryInv() && answer == finalText == LimitNotice(limit) && NoticeEntered(session.messages)
      ensures session.messages == old(session.messages) +
        if world.clean(answer) != "" then [AssistantMessage(world.clean(answer))] else []
    {
      hide Kept, AllSendable, LimitNotice;
      var limitMessage := LimitNotice(limit);
      AppendAssistantText(limitMessage);
      finalText := limitMessage;
      return limitMessage;
    }

    /** Whatever was pending, and was admitted to the inbox since, is drained into the turn. */
    method Drain(admitted: seq<string>) returns (pending: seq<string>)
      modifies this`now, this`drained, input`pending, input`promoted
      ensures pending == old(input.pending) + admitted && drained == old(drained) + pending && now == old(now) + 1
      ensures input.promoted == old(input.promoted) + pending && input.pending == []
    {
      input.pending := input.pending + admitted;
      pending := input.Drain();
      now := now + 1;
      drained := drained + pending;
    }

    /** A round without calls: an answer that was cut off is continued, as long as there are continuations left;
        any other ends the turn. */
    method ContinueOrFinish(round: Round) returns (hasMore: bool)
      requires HistoryInv() && lengthContinuations <= MAX_LENGTH_CONTINUATIONS
      modifies session`messages, this`lengthContinuations, this`finalText
      ensures HistoryInv() && lengthContinuations <= MAX_LENGTH_CONTINUATIONS
      ensures Concluded(world, round, old(lengthContinuations), old(session.messages), session.messages, hasMore)
      ensures lengthContinuations == old(lengthContinuations) + if hasMore then 1 else 0
      ensures hasMore ==> round.finishReason == "length"
      ensures if hasMore then
          finalText == old(finalText) && EndsWith(session.messages, UserMessage(LENGTH_CONTINUATION))
        else AnswersWith(world, round.text, session.messages, finalText)
    {
      hide Kept, AllSendable, Synced, AnswersWith;
      if round.finishReason == "length" && lengthContinuations < MAX_LENGTH_CONTINUATIONS {
        lengthContinuations := lengthContinuations + 1;
        AppendAssistantText(round.text);
        AddUser(LENGTH_CONTINUATION);
        return true;
      }
      finalText := FinishWithTextResponse(round.text);
      return false;
    }

    /** Handles what a round produced, from the second round on with a warning if it repeats others. */
    method HandleRound(round: Round) returns (hasMore: bool, retry: bool)
      requires TurnInv()
      modifies session`messages, this`now, this`malformedRetries, this`lengthContinuations
      modifies this`log, this`executed, this`skipped, this`trace, this`finalText
      modifies mirror`cursor, mirror`mirrored, mirror.target`messages
      ensures TurnInv() && (retry ==> hasMore) && old(skipped) <= skipped && now >= old(now)
      ensures trace.start == old(trace).start && trace.steered == old(trace).steered
      ensures malformedRetries == old(malformedRetries) + if retry then 1 else 0
      ensures old(lengthContinuations) <= lengthContinuations <= old(lengthContinuations) + 1
      ensures retry || !hasMore || lengthContinuations > old(lengthContinuations) ==>
        log == old(log) && executed == old(executed) && skipped == old(skipped) && trace == old(trace)
      ensures lengthContinuations > old(lengthContinuations) ==>
        round.finishReason == "length" && EndsWith(session.messages, UserMessage(LENGTH_CONTINUATION))
      ensures hasMore && !retry && lengthContinuations == old(lengthContinuations) ==>
        EndsInBatch(world, old(executed), executed, session.messages)
      ensures Handled(world, round, WarnedAt(iterations, old(now)), old(malformedRetries), old(lengthContinuations),
        old(executed), Warned(world, iterations, old(now), old(session.messages)), session.messages, hasMore, retry)
      ensures hasMore ==> finalText == old(finalText)
      ensures !hasMore ==>
        AsksNothing(world, round) && AnswersWith(world, round.text, session.messages, finalText)
    {
      hide Kept, AllSendable, Synced, Ledger, AnswersWith, AllHandled, AsksNothing, EndsInBatch, Handled;
      if iterations > 1 {
        var repeats := Ask();
        if repeats {
          AddUser(world.correction);
        }
      }
      hasMore, retry := ActOnRound(round);
    }

    /** A correction, a batch of calls, a continuation or the answer. */
    method ActOnRound(round: Round) returns (hasMore: bool, retry: bool)
      requires TurnInv()
      modifies session`messages, this`now, this`malformedRetries, this`lengthContinuations
      modifies this`log, this`executed, this`skipped, this`trace, this`finalText
      modifies mirror`cursor, mirror`mirrored, mirror.target`messages
      ensures TurnInv() && (retry ==> hasMore) && old(skipped) <= skipped && now >= old(now)
      ensures trace.start == old(trace).start && trace.steered == old(trace).steered
      ensures malformedRetries == old(malformedRetries) + if retry then 1 else 0
      ensures old(lengthContinuations) <= lengthContinuations <= old(lengthContinuations) + 1
      ensures retry || !hasMore || lengthContinuations > old(lengthContinuations) ==>
        log == old(log) && executed == old(executed) && skipped == old(skipped) && trace == old(trace)
      ensures lengthContinuations > old(lengthContinuations) ==>
        round.finishReason == "length" && EndsWith(session.messages, UserMessage(LENGTH_CONTINUATION))
      ensures hasMore && !retry && lengthContinuations == old(lengthContinuations) ==>
        EndsInBatch(world, old(executed), executed, session.messages)
      ensures Handled(world, round, old(now), old(malformedRetries), old(lengthContinuations), old(executed),
        old(session.messages), session.messages, hasMore, retry)
      ensures hasMore ==> finalText == old(finalText)
      ensures !hasMore ==>
        AsksNothing(world, round) && AnswersWith(world, round.text, session.messages, finalText)
    {
      hide Kept, AllSendable, Synced, Ledger, Uniques, Signatures, WithBatch, BatchResults, Ran, Resolved, AnswersWith;
      hide AllHandled, AsksNothing, EndsInBatch, Handled, BatchTime, Concluded;
      ghost var h, n, corrections, continued, known :=
        session.messages, now, malformedRetries, lengthContinuations, executed;
      var calls := ResolveToolCalls(round);
      if calls.retryRequested {
        CorrectionHandled(world, round, n, corrections, continued, known, h, session.messages);
        return true, true;
      }
      if |calls.toolCalls| == 0 {
        hasMore := ContinueOrFinish(round);
        PlainHandled(world, round, n, corrections, continued, known, h, session.messages, hasMore);
        return hasMore, false;
      }
      BatchEnds(world, session.messages, calls, now, executed);
      ExecuteAndAppendBatch(calls.assistantContent, calls.toolCalls);
      BatchHandled(world, round, n, corrections, continued, known, h, session.messages);
      return true, false;
    }

    /** The steering messages enter, and a request is prepared and sent. */
    method Request(pending: seq<string>) returns (reply: StreamReply, ghost at: nat)
      requires TurnInv() && 0 < iterations <= limit && drained == trace.steered + pending
      requires streamCalls <= 8 * (iterations - 1)
      modifies session`messages, this`trace, this`told, this`now, this`streamCalls, this`sent
      ensures TurnInv() && drained == trace.steered && trace.start == old(trace).start
      ensures streamCalls > old(streamCalls) && now > old(now) && CameBetween(world, old(now), now, reply)
      ensures Grows(old(session.messages), session.messages)
      ensures FirstPrepared(world, old(session.messages) + UserMessages(pending), old(now), old(sent), sent, at)
    {
      hide Kept, AllSendable, Synced, Ledger, AllHandled, UserMessages, FirstPrepared, CameBetween, Grows, MadeSmaller;
      ghost var before, h := trace, session.messages;
      AppendSteeringMessages(pending);
      GrowsAppend(h, UserMessages(pending));
      SteeringKeepsSynced(mirror.target.messages, mirror.cursor, mirror.mirrored, base, before, trace);
      ghost var steered := session.messages;
      ghost var first, resent;
      reply, first, resent, at := StreamWithOverflowRecovery();
      GrowsOn(h, steered, session.messages);
    }

    /** Handles a round, and records it. `h` is the transcript behind the rounds before. */
    method HandleAndRecord(round: Round, ghost h: seq<Message>, ghost lo: nat, ghost hi: nat)
      returns (hasMore: bool, retry: bool)
      requires TurnInv() && CameBetween(world, lo, hi, Streamed(round))
      requires h == EndOf(prompted, handled) && Grows(h, session.messages)
      modifies session`messages, this`now, this`malformedRetries, this`lengthContinuations, this`handled
      modifies this`log, this`executed, this`skipped, this`trace, this`finalText
      modifies mirror`cursor, mirror`mirrored, mirror.target`messages
      ensures TurnInv() && old(skipped) <= skipped && now >= old(now)
      ensures (retry ==> hasMore) && trace.start == old(trace).start && trace.steered == old(trace).steered
      ensures RoundAdded(old(handled), handled, round, session.messages, hasMore)
      ensures |handled| == |old(handled)| + 1 && session.messages == EndOf(prompted, handled)
      ensures !hasMore ==>
        AsksNothing(world, round) && AnswersWith(world, round.text, session.messages, finalText)
    {
      hide Kept, AllSendable, Synced, Ledger, AnswersWith, AllHandled, AsksNothing, EndsInBatch, Handled, Grows;
      hide CameBetween, Warned;
      ghost var x := Handling(round, WarnedAt(iterations, now), malformedRetries, lengthContinuations, executed,
        Warned(world, iterations, now, session.messages), [], true, false);
      WarnedGrows(world, iterations, now, session.messages);
      GrowsOn(h, session.messages, x.before);
      hasMore, retry := HandleRound(round);
      x := x.(after := session.messages, hasMore := hasMore, retry := retry);
      OneMoreHandled(world, prompted, handled, x, lo, hi);
      handled := handled + [x];
    }

    /** One round: the steering messages, a request, what its reply asks for, and what was drained meanwhile. */
    method RunRound(pending: seq<string>) returns (failure: StreamReply, hasMore: bool, next: seq<string>,
        ghost at: nat)
      requires TurnInv() && 0 < iterations <= limit && drained == trace.steered + pending
      requires streamCalls <= 8 * (iterations - 1) && session.messages == EndOf(prompted, handled)
      modifies this, session`messages, mirror`cursor, mirror`mirrored, mirror.target`messages
      modifies input`pending, input`promoted
      ensures TurnInv() && iterations == old(iterations) && old(skipped) <= skipped && trace.start == old(trace).start
      ensures streamCalls > old(streamCalls) && old(drained) <= drained
      ensures FirstPrepared(world, old(session.messages) + UserMessages(pending), old(now), old(sent), sent, at)
      ensures now > old(now) && (!failure.Streamed? ==> AbortedBetween(world, old(now), now, failure.reason))
      ensures failure.Streamed? ==> drained == trace.steered + next
      ensures failure.Streamed? && !hasMore ==> IsAnswer(world, old(now), now, session.messages, finalText)
      ensures if failure.Streamed? then RoundAdded(old(handled), handled, failure.round, session.messages, hasMore)
        else handled == old(handled)
      ensures failure.Streamed? ==> |handled| == |old(handled)| + 1 && session.messages == EndOf(prompted, handled)
    {
      hide Kept, AllSendable, Synced, Ledger, Signatures, IsAnswer, EndsInBatch, UserMessages, FirstPrepared;
      hide AbortedBetween, CameBetween, EndsWith, AsksNothing, AnswersWith, AllHandled, Grows, RoundAdded, EndOf;
      ghost var h := session.messages;
      failure, at := Request(pending);
      ghost var replied := now;
      if !failure.Streamed? {
        StreamAborts(world, old(now), now, old(now), failure);
        return failure, false, [], at;
      }
      var retry;
      hasMore, retry := HandleAndRecord(failure.round, h, old(now), replied);
      if retry {
        return failure, hasMore, [], at;
      }
      if !hasMore {
        AnswerCame(world, old(now), replied, old(now), now + 1, failure.round, session.messages, finalText);
      }
      next := Drain(world.steering(now));
    }

    /** Counts the next round, unless the turn was cancelled. */
    method StartRound() returns (cancelled: bool)
      requires TurnInv() && iterations <= limit
      modifies this`now, this`iterations
      ensures TurnInv() && now == old(now) + 1 && cancelled == world.cancelled(old(now))
      ensures iterations == old(iterations) + if cancelled then 0 else 1
      ensures streamCalls <= 8 * old(iterations)
    {
      hide Kept, AllSendable, Synced, Ledger, AllHandled;
      cancelled := world.cancelled(now);
      now := now + 1;
      if !cancelled {
        iterations := iterations + 1;
      }
    }

    /** Rounds until there is nothing more to do, the limit is reached or something fails. Going idle, everything
        drained so far has entered the transcript. */
    method RunInnerLoop(steering: seq<string>) returns (r: InnerResult)
      requires TurnInv() && iterations <= limit && drained == trace.steered + steering
      requires |handled| == iterations && session.messages == EndOf(prompted, handled)
      modifies this, session`messages, mirror`cursor, mirror`mirrored, mirror.target`messages
      modifies input`pending, input`promoted
      ensures TurnInv() && old(skipped) <= skipped && trace.start == old(trace).start && old(drained) <= drained
      ensures iterations > limit || r.Failure? || streamCalls > old(streamCalls)
      ensures streamCalls >= old(streamCalls) && (old(iterations) < limit && r.Done? ==> streamCalls > old(streamCalls))
      ensures r.Idle? ==> old(iterations) < iterations <= limit && r.text == finalText && drained == trace.steered
      ensures r.Idle? ==> IsAnswer(world, old(now), now, session.messages, finalText)
      ensures r.Done? ==> iterations == limit + 1 && r.text == LimitNotice(limit) && NoticeEntered(session.messages)
      ensures now > old(now) && (r.Failure? ==> AbortedBetween(world, old(now), now, r.reason))
      ensures r.Idle? ==> |handled| == iterations && session.messages == EndOf(prompted, handled)
      ensures r.Done? ==> |handled| == limit
    {
      hide Kept, AllSendable, Synced, Ledger, IsAnswer, AbortedBetween, LimitNotice, EndsWith, NoticeEntered;
      hide AllHandled, FirstPrepared, UserMessages, RoundAdded, EndOf;
      var pending := steering;
      var hasMore := true;
      while hasMore || |pending| > 0
        invariant TurnInv() && old(iterations) <= iterations <= limit
        invariant drained == trace.steered + pending && old(skipped) <= skipped && old(drained) <= drained
        invariant trace.start == old(trace).start && now >= old(now)
        invariant |handled| == iterations && session.messages == EndOf(prompted, handled)
        invariant if iterations == old(iterations) then hasMore && streamCalls == old(streamCalls)
          else streamCalls > old(streamCalls) && now > old(now)
        invariant !hasMore ==> IsAnswer(world, old(now), now, session.messages, finalText)
        decreases limit + 1 - iterations
      {
        var cancelled := StartRound();
        if cancelled {
          CancelAborts(world, old(now), now - 1);
          return Failure("context canceled");
        }
        if iterations > limit {
          var notice := FinishAtIterationLimit();
          return Done(notice);
        }
        var reply;
        ghost var asked := now;
        ghost var at;
        reply, hasMore, pending, at := RunRound(pending);
        if !reply.Streamed? {
          AbortedWithin(world, asked, now, old(now), now, reply.reason);
          return Failure(reply.reason);
        }
        if !hasMore {
          AnswerWithin(world, asked, now, old(now), now, session.messages, finalText);
        }
      }
      return Idle(finalText);
    }

    /** A whole turn. It ends for every world: each restart of the inner loop uses up at least
        one of the rounds that remain. */
    method RunTurn() returns (r: TurnResult)
      requires TurnInv() && iterations == 0 && drained == trace.steered == []
      requires handled == [] && session.messages == prompted
      modifies this, session`messages, mirror`cursor, mirror`mirrored, mirror.target`messages
      modifies input`pending, input`promoted
      ensures TurnInv() && Bounded() && trace.start == old(trace).start && old(skipped) <= skipped
      ensures Kept(session.messages, told, trace) && MirrorInv() && input.promoted == promoted + drained
      ensures old(input.pending) + world.steering(old(now)) <= drained
      ensures limit > 0 && r.Finished? ==> streamCalls > old(streamCalls)
      ensures EndedWith(old(now), r, session.messages)
      ensures r.Finished? ==> |handled| == if iterations <= limit then iterations else limit
    {
      hide Kept, AllSendable, Synced, Ledger, Signatures, IsAnswer, DistinctSignatures, WellMarked, IsCheckpoint;
      hide EnteredAt, AbortedBetween, LimitNotice, EndsWith, NoticeEntered, Grows, AllHandled, EndOf, Bounded;
      NoneHandled(world, prompted);
      var pending := Drain(world.steering(now));
      while true
        invariant TurnInv() && iterations <= limit && drained == trace.steered + pending
        invariant trace.start == old(trace).start && old(skipped) <= skipped
        invariant |handled| == iterations && session.messages == EndOf(prompted, handled)
        invariant old(input.pending) + world.steering(old(now)) <= drained && now > old(now)
        invariant if iterations == 0 then streamCalls == old(streamCalls) else streamCalls > old(streamCalls)
        decreases limit + 1 - iterations
      {
        ghost var asked := now;
        var inner := RunInnerLoop(pending);
        if inner.Failure? {
          AbortedWithin(world, asked, now, old(now), now, inner.reason);
          TurnBounds();
          return Aborted(inner.reason);
        }
        if inner.Done? {
          TurnBounds();
          return Finished(inner.text);
        }
        ghost var idle := now;
        pending := DrainWhenIdle();
        if |pending| == 0 {
          AnswerWithin(world, asked, idle, old(now), now, session.messages, finalText);
          TurnBounds();
          return Finished(finalText);
        }
      }
    }

    /** Steering messages that came in meanwhile, or else those that running sub-agents bring. */
    method DrainWhenIdle() returns (pending: seq<string>)
      requires TurnInv()
      modifies this`now, this`drained, input`pending, input`promoted
      ensures TurnInv() && drained == old(drained) + pending && now > old(now)
      ensures var came := old(input.pending) + world.steering(old(now));
        pending == (if came != [] then came else world.subagents(old(now) + 1)) && input.pending == []
      ensures pending == [] ==> now > 1 && world.steering(now - 2) == [] && world.subagents(now - 1) == []
    {
      hide Kept, AllSendable, Synced, Ledger, AllHandled;
      pending := Drain(world.steering(now));
      if |pending| == 0 {
        pending := Drain(world.subagents(now));
      }
    }

    /** What is left of the notice stands at the end of the transcript. */
    predicate NoticeEntered(h: seq<Message>) {
      var text := world.clean(LimitNotice(limit));
      text == "" || EndsWith(h, AssistantMessage(text))
    }

    /** A turn is aborted for a reason that arose since `since`; at its limit it gives the notice; and otherwise the
        answer to a reply, with all that was drained entered and nothing more coming in. */
    ghost predicate EndedWith(since: nat, r: TurnResult, h: seq<Message>)
      reads this
    {
      match r
      case Aborted(reason) => AbortedBetween(world, since, now, reason)
      case Finished(text) =>
        if iterations > limit then text == LimitNotice(limit) && NoticeEntered(h)
        else
          && drained == trace.steered && IsAnswer(world, since, now, h, text)
          && now > 1 && world.steering(now - 2) == [] && world.subagents(now - 1) == []
    }

    /** What holds of a turn at any time: its rounds, streams, continuations and corrections are bounded;
      no signature is
        run twice, and none that was skipped; calls and results are paired and the summaries well marked;
          each checkpoint
        lies behind a result; the steering texts entered in order, as the first that were drained;
          every request could be
        sent as it was; and every round was handled as its reply asked, from where the one before ended. */
    ghost predicate Bounded()
      reads this, session
    {
      && iterations <= limit + 1 && streamCalls <= 8 * limit && lengthContinuations <= 8 && malformedRetries <= 3
      && DistinctSignatures(log, world.signature)
      && skipped <= executed && Signatures(log, world.signature) !! skipped
      && Paired(session.messages) && WellMarked(session.messages) && Grows(prompted, session.messages)
      && (forall k :: 0 <= k < |trace.checkpoints| ==> IsCheckpoint(trace.checkpoints[k]))
      && EnteredAt(session.messages, |trace.start|, trace.steered, trace.at) && trace.steered <= drained
      && AllSendable(sent) && |sent| == streamCalls
      && AllHandled(world, prompted, handled)
    }

    /** What the invariant says of a whole turn. */
    lemma {:induction false} TurnBounds()
      requires TurnInv()
      ensures Bounded()
    {
      hide Paired, WellMarked, DistinctSignatures, Signatures, EnteredAt, IsCheckpoint, Chained, Synced;
      hide Grows, AllHandled;
    }
  }

  lemma {:induction false} NoSignatures(signature: Signing)
    ensures Signatures([], signature) == {}
  {
  }

  lemma {:induction false} RanStep(tools: Tools, now: nat, calls: seq<ToolCall>)
    requires calls != []
    ensures Ran(tools, now, calls) == if Ends(tools(now, calls[0])) then 1 else 1 + Ran(tools, now + 1, calls[1..])
  {
  }

  lemma {:induction false} RanNone(tools: Tools, now: nat, calls: seq<ToolCall>)
    requires calls == []
    ensures Ran(tools, now, calls) == 0
  {
  }

  lemma {:induction false} ResultsAre(tools: Tools, now: nat, calls: seq<ToolCall>, ran: nat, results: seq<ToolResult>)
    requires ran == Ran(tools, now, calls) && |results| == |calls|
    requires forall k :: 0 <= k < ran && k < |calls| ==> results[k] == ResultOf(calls[k], tools(now + k, calls[k]))
    requires forall k :: ran <= k < |calls| ==> results[k] == SkippedResult(calls[k])
    ensures results == Results(tools, now, calls)
  {
    hide Ran;
  }

  lemma {:induction false} NothingRun(tools: Tools, now: nat, h: seq<Message>)
    ensures Ran(tools, now, []) == 0 && Results(tools, now, []) == [] && h == h + ResultMessages([])
  {
  }

  lemma {:induction false} BatchShape(h: seq<Message>, content: string, calls: seq<ToolCall>,
      notices: seq<ToolResult>, results: seq<ToolResult>)
    ensures h + [CallMessage(content, calls)] + ResultMessages(notices) + ResultMessages(results) ==
      WithBatch(h, content, calls, notices + results)
  {
    assert ResultMessages(notices + results) == ResultMessages(notices) + ResultMessages(results);
  }

  /** A batch is an event of the transcript. */
  lemma {:induction false} KeptByBatch(h: seq<Message>, told: map<nat, RawMessage>, trace: Trace, e: Event)
    requires Kept(h, told, trace) && e.AddBatch? && LegalBatch(e.calls, e.results)
    ensures Kept(WithBatch(h, e.text, e.calls, e.results), told, trace)
  {
    hide Kept, AllSendable, Grows, LegalBatch;
    GrowsAppend(h, [CallMessage(e.text, e.calls)] + ResultMessages(e.results));
    EventKeeps(h, told, trace, e);
  }

  /** Behind a result the transcript is a checkpoint. */
  lemma {:induction false} KeptCheckpoint(h: seq<Message>, results: seq<ToolResult>, h': seq<Message>,
      told: map<nat, RawMessage>, trace: Trace)
    requires results != [] && h' == h + ResultMessages(results) && Kept(h', told, trace)
    ensures Kept(h', told, trace.(checkpoints := trace.checkpoints + [h']))
  {
    hide Inv, Paired, TraceInv;
    assert h'[|h'| - 1] == ResultMessages(results)[|results| - 1];
    TraceCheckpoints(trace, h');
  }

  lemma {:induction false} CompressMarks(t: State, keep: int, summary: string)
    requires Compaction.PlanOf(Raw(t.history), keep).Plan? && Text.Trim(summary) != ""
    ensures Step(t, Event.Compress(keep, summary)).history ==
      Marked(t.history, Compaction.PlanOf(Raw(t.history), keep).firstKept, summary)
  {
    hide Compaction.PlanOf, Marked, Told, Raw, Text.Trim;
  }
}
