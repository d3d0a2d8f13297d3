# Agent gateway: transcripts, turns, lanes and text machines

A model in Dafny of the parts of the agent gateway that hold its logic, and proofs about them. Oracles stand for
everything that comes from outside: the language model, tool execution, the token estimator of the summariser,
the regular expressions that recognise overflow errors and malformed calls. An oracle that is asked several times
is given a counter, so that it may answer differently every time.

The project has four parts.

**Transcripts.** `Messages`, `Sessions`, `Budgets`, `Pruning`, `PruningLaws`, `Summaries`, `Prompts`, `Compaction`,
`Filter`, `Transcripts`, `Deliveries`, `PromptChanges`, `Speculative`, `Replay`, `Seeding`. A session is an append-only list
of messages. A compaction appends a prompt and a summary that carries the raw index of the first message that stays
visible. The central state machine is `Transcripts.Run`: any sequence of added messages, tool batches, system prompt
changes, prunings and compactions. Its state also records which messages were in a head handed to the summariser;
`Deliveries` follows them from there into the calls of the model. `Speculative` adds compactions that are computed on a
snapshot in the background and applied later, with resets in between.

**The turn loop.** `Pairing`, `Repair`, `Traces`, `Batches`, `TurnLoop`, `Mirroring`, `Turns`. Calls and results stay together
through any compaction, the repair that runs before every request, and the nested loop of one turn with its retry
counters, its duplicate suppression and its overflow recovery. `Turns.SendToModel` is a whole turn: the stored session is
seeded into the agent's, the turn runs, its checkpoints and its end are mirrored back, and the stored session keeps
what the next turn needs.

**Small shared objects.** `PeerInputs`, `TurnMirrors`, `SlotManagers`, `TargetQueues`. Each method of the class is one step
under the object's lock; the laws are about every interleaving of the steps.

**Text machines.** `Shells`, `ShellLaws`, `ShellLexemes`, `ShellHeredocs`, `ShellScans`, `XmlToolCalls`, `XmlLaws`,
`Patches`, `Calculators`. Strings are sequences of bytes with ASCII blanks (`Text`).

Code that changes state is a class or a method with loops, proved against a function; the laws are lemmas about that
function.

Findings, each with its exact condition and, where it needs one, a concrete input:

- The promise that a prompt below the compaction threshold leaves room for a full answer holds exactly for base windows
  above 3072 tokens whose reserve fits the context, or whose 15 percent reserve already covers the answer
  (`ThresholdLeavesRoomIff`).
- Output of a tool that is to be spared by pruning (`skill`) is cleared like any other, because the conversion drops tool
  names: `SessionOutputClearedIff` says exactly when, `SkillOutputCleared` gives a session.
- A change of the system prompt of a session that was begun without one makes the tail start at the message before the
  one that was meant. The model is then sent a result without its call exactly if that message is a result
  (`PromptChangeKeepsCallsIff`, `PromptOrphansResult`).
- A background compaction that failed occupies the slot of its peer: another one can start exactly if the peer is reset
  (`BlockedUntilResetIff`, `FailedTaskIsReachable`).
- A call that is skipped after a review verdict counts as made: asked for again in the same turn it is answered as a
  duplicate and not run (`RunsInBatchIff`, `SkippedThenRefused`).
- A call message whose text begins like an internal summary is stored without its calls, but its results are stored
  (`MirrorKeepsPairedIff`, `InternalCallIsStripped`).
- A steering text that was drained but did not enter the turn any more, at its limit or after an error, is lost exactly if
  a user message of the turn says the same (`RestIsLostIff`, `DrainedTwiceStoredOnce`).
- A hunk whose old side also stands a little earlier changes the earlier place (`DrawnBack`). A hunk without context goes
  in front of the line it names, where the "Diff -u or -U Output Format" of POSIX.1-2017 puts it behind: they agree
  exactly at line 0 and where all added lines repeat the named one (`InsertionAgreesIff`, `InsertionInFront`). An empty file,
  or one without a final newline, gains a newline even from an empty patch (`NoHunksIdentityIff`).
- `x % y` faults for every `y` strictly between -1 and 1 other than 0: the guard tests `y` before truncation
  (`RemainderPanicsIff`).
- Joining two command lines with `&&`, `||`, `|` or `;` keeps their commands exactly when the first ends outside quotes
  and parentheses (`JoinedSplitsIff`); a newline does so in two more cases (`LinesDistributeIff`); an open heredoc
  hides the separator (`HeredocHidesSeparator`).

## Model

| member | source | states |
|---|---|---|
| `Messages.ConvertHistory` | pkg/agentloop/agentloop.go:1159-1176 | the estimator's records: contents with all call arguments appended, call ids and tool names dropped |
| `Messages.RawIs` | pkg/agentloop/agentloop.go:1159-1176 | every field of the converted record |
| `Messages.ArgumentsAre` | pkg/agentloop/agentloop.go:1159-1176 | the appended text is the arguments of all calls, in order |
| `Sessions.Session.constructor` | session/session.go:107-142 | a new session holds the system message alone, or nothing without a system prompt |
| `Sessions.Session.UpdateSystemPrompt` | session/session.go:155-174 | replaces the text of a leading system message, else puts a new one in front of everything |
| `Sessions.Session.AddUserMessage` | session/session.go:185-198 | appends exactly that message, all others unchanged |
| `Sessions.Session.AddAssistantMessage` | session/session.go:200-215 | appends exactly that message, all others unchanged |
| `Sessions.Session.AddAssistantMessageInternal` | session/session.go:220-234 | appends an answer marked internal |
| `Sessions.Session.AddAssistantMessageWithToolCalls` | session/session.go:236-250 | appends an answer with its calls |
| `Sessions.Session.AddToolMessage` | session/session.go:311-326 | appends a result with its call id |
| `Sessions.Session.MarkCompaction` | session/session.go:268-295 | flags all but system messages before the tail start, then appends prompt and summary; nothing moves |
| `Sessions.MarkedIs` | session/session.go:268-295 | which messages a compaction flags, and every field of the two it appends |
| `Sessions.Session.MarkMessageCompacted` | session/session.go:297-309 | replaces one content and flags it; an index out of range changes nothing |
| `Sessions.Session.AddPinned` | session/session.go:361-374 | appends the trimmed pin unless it is blank |
| `Sessions.Session.GetContextMessages` | session/session.go:395-466 | what the model sees: the visible part of the transcript with the missing pins |
| `Sessions.Session.VisibleMessages` | session/session.go:395-433 | all messages before the first compaction; afterwards system message, latest prompt and summary, and the tail without that pair |
| `Sessions.VisibleIs` | session/session.go:395-433 | the view for any list of messages, by the last summary and the last user message before it: what a recorded tail start outside the transcript does, too |
| `Sessions.Session.InsertPins` | session/session.go:435-466 | pins stand once, behind the first system message or at the end |
| `Sessions.MissingPinsAre` | session/session.go:435-466 | the pins put in are those that no visible user message says, in order |
| `Sessions.Session.FindLastCompactionMarker` | session/session.go:468-475 | the last assistant summary and its tail start, or none |
| `Sessions.ContextShape` | session/session.go:395-466 | taking one contiguous stretch of pins out of the context gives the visible transcript back |
| `Sessions.PinsSurviveCompaction` | session/session.go:361-466 | every pin is in the context, whatever was compacted |
| `Budgets.EstimateTokens` | pkg/compress/token_estimator.go:14-20 | the length in bytes divided by four, rounded up |
| `Budgets.EstimateMessagesTokens` | pkg/compress/token_estimator.go:22-29 | the sum over all messages, four more for each |
| `Budgets.EstimateOfParts` | pkg/compress/token_estimator.go:14-29 | the estimate of a list is that of its parts; of one message a quarter of its bytes, rounded up, and four |
| `Budgets.OutputCapForWindow` | pkg/compress/request_budget.go:29-42 | the cap lies between 1024 and 32768 for every window |
| `Budgets.ClampOutputTokens` | pkg/compress/request_budget.go:44-58 | the most that fits behind the prompt with a margin of 2048, up to the cap, at least 1024 |
| `Budgets.BaseWindow` | pkg/compress/compaction.go:93-99 | the smaller of the limits that are set |
| `Budgets.ReserveIs` | pkg/compress/compaction.go:74-88 | the largest of the setting, 15 percent of the context and the cap with its margin; the 15 percent alone where that does not fit |
| `Budgets.ThresholdIs` | pkg/compress/compaction.go:101-118 | the threshold is the smaller limit less that reserve, kept inside the window; more tokens than it trigger a compaction |
| `Budgets.ThresholdInWindow` | pkg/compress/compaction.go:74-111 | for a context of at least two the threshold lies in [1, context-1] |
| `Budgets.ThresholdLeavesRoomIff` | pkg/compress/compaction.go:74-118 | every prompt at or below the threshold fits the smaller limit with the full output cap and the margin, exactly for the stated configurations |
| `Budgets.NoClampBelowThreshold` | pkg/compress/request_budget.go:44-58 | for those configurations the limit sent with such a prompt is the full cap |
| `Budgets.TargetTokens` | pkg/compress/compaction.go:133-142 | the summary's size lies in [1, 16384] |
| `Pruning.PruneMessages` | pkg/compress/pruning.go:16-77 | the method clears exactly the positions of the scan, and none if these hold at most 20000 tokens |
| `Pruning.ScanForPruning` | pkg/compress/pruning.go:16-57 | the backward scan's positions and their tokens |
| `Pruning.PicksAreOldToolOutput` | pkg/compress/pruning.go:16-57 | only tool output is cleared, never twice, never behind the second-last user message, never across a summary |
| `Pruning.PruningBound` | pkg/compress/pruning.go:10-77 | at most 60000 tokens of uncleared unprotected output remain in the scanned range |
| `Pruning.PruningIsIdempotent` | pkg/compress/pruning.go:16-77 | pruning again changes nothing |
| `Pruning.KeptToolsHaveNoEffect` | pkg/agentloop/agentloop.go:1125-1176 | on a converted session the list of spared tools makes no difference to the result |
| `Pruning.PrunedShape` | pkg/compress/pruning.go:16-77 | each message stays or is an uncleared tool result that became the placeholder |
| `PruningLaws.PicksAreOldOutput` | pkg/compress/pruning.go:16-57 | the scan picks exactly the output with two user messages behind it, no summary or cleared output in between and more than 40000 tokens from it on |
| `PruningLaws.ClearedIff` | pkg/compress/pruning.go:16-77 | a message is cleared exactly if it is such output and all such output holds more than 20000 tokens |
| `PruningLaws.SessionOutputClearedIff` | pkg/agentloop/agentloop.go:1125-1176 | in a session the tool name plays no part in this |
| `PruningLaws.SkillOutputClearedIff` | pkg/compress/pruning.go:14-77 | in a small session the output of the spared tool is cleared exactly if it is longer than 160000 bytes |
| `PruningLaws.SkillOutputCleared` | pkg/compress/pruning.go:14-77 | a concrete session in which it is |
| `Summaries.TakeOldestFit` | pkg/compress/compaction.go:339-355 | splits the list into the longest prefix that fits the budget and the rest |
| `Summaries.TruncationFits` | pkg/compress/compaction.go:357-367 | an oversize message that is cut fits the window and keeps its beginning |
| `Summaries.ChunkBudget` | pkg/compress/compaction.go:316-326 | the budget is at least 1024 for every window and target |
| `Summaries.HalvedBudget` | pkg/compress/compaction.go:304-314 | there is a retry exactly if at least 2048 tokens were sent and allowed; its budget is half the lesser of the two |
| `Summaries.NextChunk` | pkg/compress/compaction.go:264-298 | the next chunk is never empty and fits: the longest segment, or one message cut to the window |
| `Summaries.SummarizeHead` | pkg/compress/compaction.go:264-298 | ends for every oracle; a success is the left fold over the answered chunks, an error a fatal last call or a blank end; at most head length plus halvings calls |
| `Summaries.RunIsInSequence` | pkg/compress/compaction.go:264-298 | each call goes on from the last answer, with the same budget after an answer and half the lesser of budget and tokens sent after an overflow; nothing follows any other failure |
| `Summaries.SummaryIsLastAnswer` | pkg/compress/compaction.go:264-298 | the first call starts from the summary before, and the last answer is the summary |
| `Summaries.FailureMeans` | pkg/compress/compaction.go:286-293 | a job fails for a reason other than an overflow, or for an overflow with less than 2048 tokens sent or allowed |
| `Summaries.HalvingsAreLogarithmic` | pkg/compress/compaction.go:304-314 | the number of halvings is the binary logarithm of the budget over 1024, rounded down |
| `Summaries.SegmentsPartition` | pkg/compress/compaction.go:264-298 | the summarised segments are non-empty and partition the consumed head in order |
| `Prompts.SerializeConversation` | pkg/compress/compaction.go:183-200 | the text handed over: the labelled parts of the messages, joined, with the boundary tags removed |
| `Prompts.PartsAre` | pkg/compress/compaction.go:183-200 | the parts of a list are those of its messages, each the trimmed content behind its label, joined by an empty line |
| `Prompts.TruncateToolOutput` | pkg/compress/compaction.go:25-34 | output up to 2000 bytes stays; of longer output the first 2000, a mark, and all from the last note of where the whole was saved |
| `Prompts.EveryMessageEnters` | pkg/compress/compaction.go:183-200 | the trimmed content of every message that is not blank stands in the joined text; of tool output at least the first 2000 bytes |
| `Deliveries.EachMessageOnce` | pkg/compress/compaction.go:264-298 | after a success each message of the head lies in exactly one answered call: whole if it fits that window, else its stated beginning |
| `Deliveries.CarriedEntersPrompt` | pkg/compress/compaction.go:183-200 | of a message so carried the content stands in the text of its call |
| `Compaction.FindCutPoint` | pkg/compress/compaction.go:148-177 | the loops compute the cut of the specification |
| `Compaction.TailTokensAre` | pkg/compress/compaction.go:158-163 | the tokens of a tail are the estimate of its contents alone |
| `Compaction.CutMeaning` | pkg/compress/compaction.go:144-177 | the tail starts at a user or assistant message, never at the first, at the first such place from where the kept tokens are reached |
| `Compaction.CutIs` | pkg/compress/compaction.go:144-177 | the cut in full: the first user or assistant message from where the shortest sufficient tail begins, or else the first of all, and none at the very first message |
| `Compaction.NoCut` | pkg/compress/compaction.go:144-177 | without such a message or such a tail nothing is cut |
| `Compaction.CompactionWorkList` | pkg/compress/compaction.go:211-234 | the messages from the last usable tail start on that are neither flagged, summaries nor prompts, with their raw indices |
| `Compaction.WorkIs` | pkg/compress/compaction.go:211-234 | where the work starts for any list, and which messages belong to it |
| `Compaction.PlanProgress` | pkg/compress/compaction.go:211-262 | a plan moves the tail start strictly forward, to a message where a cut may fall |
| `Compaction.PlanHead` | pkg/compress/compaction.go:211-262 | the head is exactly the unsummarised messages between the old and the new tail start |
| `Compaction.PlanFound` | pkg/compress/compaction.go:236-262 | there is a plan exactly if a cut is found in at least two messages |
| `Compaction.LatestSummaryContent` | pkg/compress/compaction.go:202-209 | the content at the last position that holds a summary; nothing if none does |
| `Compaction.Compact` | pkg/compress/compaction.go:236-262 | a result carries the plan's raw index, a non-blank summary of its head and both token counts; its first call started from the content of the latest summary; without one nothing was planned or the summariser failed |
| `Compaction.FirstCallStarts` | pkg/compress/compaction.go:250-252 | the first call of a job on a head has the content of the latest summary as its previous summary, or nothing if there is none |
| `Compaction.JobBudgetIs` | pkg/compress/compaction.go:247-251 | the budget of that job, from the smaller limit and eight tenths of the reserve |
| `Filter.FindCompactionMarkers` | pkg/compress/filter.go:11-32 | all summaries with a user message before them, latest first |
| `Filter.MarkersAre` | pkg/compress/filter.go:11-32 | a marker is found exactly for every assistant summary with a user message before it |
| `Filter.FilterCompacted` | pkg/compress/filter.go:34-71 | the estimator's view: latest prompt, summary and tail |
| `Filter.FilteredShape` | pkg/compress/filter.go:34-71 | that view of a converted transcript, in terms of the transcript |
| `Filter.ViewsAgreeIff` | pkg/compress/filter.go:11-71 | for every list of messages the estimator's view is the model's view without the leading system message, exactly if the tail does not overrun |
| `Transcripts.RunKeepsInv` | session/session.go:268-295 | in every run: marks well formed, flags only before the tail or on placeholders, system message first, all before the tail accounted for |
| `Transcripts.CompactionKeepsInv` | pkg/agentloop/agentloop.go:1118-1123 | a compaction keeps this invariant and extends the record to the new tail |
| `Transcripts.TailStartsIncrease` | pkg/compress/compaction.go:211-262 | successive tail starts strictly increase, strictly between 0 and their summary, on user or assistant messages |
| `Transcripts.VisibleShape` | session/session.go:395-466 | after a compaction the model sees system message, latest pair and the whole tail without gaps |
| `Transcripts.NothingLost` | pkg/compress/compaction.go:211-262 | each message is visible, or was in a head handed to the summariser with its content, or is a system message, prompt, cleared output or an old summary; what an old summary says was the latest one for the compaction that replaced it |
| `Transcripts.OldSummaryWentOn` | pkg/compress/compaction.go:202-251 | a summary that is not the last any more was the latest one in the transcript that a later compaction took up |
| `Transcripts.InvLosesNothing` | pkg/compress/compaction.go:211-262 | the same of every transcript with the invariant, so of a seeded one too |
| `Deliveries.NothingLostToTheModel` | pkg/compress/compaction.go:211-298 | in every run, with the calls its compactions made: each message is visible or of these kinds; or it is a summary with which a later compaction made its first call; or exactly one answered call of those made by some compaction carried its content |
| `Deliveries.NothingLostToThePeersModel` | pkg/agentloop/speculative.go:24-131 | the same under every interleaving with background compactions: the calls may be those of a job on a snapshot whose result was applied later |
| `Transcripts.ViewsAgreeInEveryRun` | pkg/compress/filter.go:34-71 | in every run the estimator counts what the model is shown |
| `Transcripts.InvViewsAgree` | pkg/compress/filter.go:34-71 | so it does in every transcript with the invariant, so in a seeded one too |
| `Transcripts.PlanFromTail` | pkg/compress/compaction.go:211-234 | in a reachable transcript the work list starts at the latest tail |
| `Transcripts.RunPruning` | pkg/agentloop/agentloop.go:1125-1153 | the session changes exactly as the pruner decided, and the count is zero exactly if nothing changed |
| `PromptChanges.PrependShowsOneMore` | session/session.go:155-174 | prepending the prompt makes the tail start one message earlier: one that was already summarised is shown again, all else as before |
| `PromptChanges.PromptChangeKeepsCallsIff` | session/session.go:155-174 | calls and results stay matched exactly if a system message leads, nothing was compacted, or the message before the tail is no result |
| `PromptChanges.PromptOrphansResult` | session/session.go:155-174 | a concrete session in which a compaction and then a prompt leave a result without its call |
| `Speculative.PeerRunKeepsInv` | pkg/agentloop/speculative.go:24-131 | under every interleaving of talk, resets, synchronous and background compactions the transcript invariant holds, and whatever waits was computed on a prefix of the history |
| `Speculative.AppliedResultIsCurrent` | pkg/agentloop/speculative.go:95-125 | a result that passes the guard was computed on a prefix of the history with no compaction since; its tail start moves forward and names the message meant |
| `Speculative.AppliedIs` | pkg/agentloop/speculative.go:95-125 | a result is applied exactly if it is ready and at most two messages were added since its snapshot; then the session is marked with it and the model asked to go on |
| `Speculative.FailedTaskBlocksForGood` | pkg/agentloop/speculative.go:24-93 | after a failure, without a reset the slot stays as it is |
| `Speculative.FailedTaskIsReachable` | pkg/agentloop/speculative.go:24-93 | in every session one start that produces no summary gets there |
| `Speculative.BlockedUntilResetIff` | pkg/agentloop/speculative.go:24-131 | from then on a request for a background compaction has had an effect exactly if the peer was reset |
| `Speculative.SpeculativeCompactor.MaybeStart` | pkg/agentloop/speculative.go:24-69 | starts a background compaction on a snapshot if enabled, over the limit and none is in flight |
| `Speculative.SpeculativeCompactor.RunTask` | pkg/agentloop/speculative.go:71-93 | publishes the summary of the snapshot's head with its plan, or a failure only if nothing is planned or the job failed, and only into the slot that still holds this compaction; the calls it made are those of that job |
| `Speculative.SpeculativeCompactor.TryApply` | pkg/agentloop/speculative.go:95-125 | applies exactly if ready and at most two messages were added, else drops what is ready |
| `Speculative.SpeculativeCompactor.CheckAndCompressNow` | pkg/agentloop/agentloop.go:1038-1090 | over the threshold, applies what is ready, or else compacts now by the calls of a job on the session and leaves it alone only if nothing is planned or that job failed; below it changes nothing |
| `Replay.SeedAgentSession` | pkg/agentloop/agentloop.go:716-739 | the loop replays the source message by message |
| `Replay.SeedingKeepsIndexesIff` | pkg/agentloop/agentloop.go:716-739 | each message keeps its index exactly if prompts and summaries are paired |
| `Replay.RunReplayable` | session/session.go:268-295 | every run in which nobody types the prompt text is of that form |
| `Replay.SeedingKeepsEverything` | pkg/agentloop/agentloop.go:716-739 | so in every such run the seeded session holds the same messages at the same indices and shows the same context, pins aside |
| `Seeding.ReplayFollowsMarks` | pkg/agentloop/agentloop.go:716-739 | in a seeded session exactly the messages below some recorded tail start are flagged |
| `Seeding.SeedingKeepsInv` | pkg/agentloop/agentloop.go:716-739 | seeding keeps the transcript invariant, with the same record, the pairing and the form that can be seeded again, whatever was compacted |
| `Pairing.RunPaired` | pkg/agent/loop.go:463-492 | in every run with complete batches each call message is followed at once by one result per call, through pruning and compaction |
| `Pairing.BlocksShownWhole` | pkg/compress/compaction.go:144-177 | a cut never separates a call from its result |
| `Pairing.VisibleCallsMatch` | session/session.go:395-466 | in every run with complete batches each result of the visible context has its call before it and each call a result behind it |
| `Pairing.KeptCallsMatch` | session/session.go:395-466 | so they do in every transcript with the invariant in which calls and results are paired, so in a seeded one too |
| `Pairing.ContextCallsMatch` | session/session.go:395-466 | so they do with any pins put in |
| `Repair.RepairToolCallPairing` | pkg/agent/loop.go:294-321 | the loops insert the stand-in results of the specification |
| `Repair.StandInsFollow` | pkg/agent/loop.go:294-321 | the stand-ins of a message come right behind it, one for each of its calls without a result, in order |
| `Repair.RepairIsComplete` | pkg/agent/loop.go:294-321 | afterwards every call has a result, for any list |
| `Repair.RepairChangesNothingIff` | pkg/agent/loop.go:294-321 | it changes nothing exactly if every call had a result |
| `Repair.RepairIsIdempotent` | pkg/agent/loop.go:294-321 | repairing twice is repairing once |
| `Repair.RepairKeepsOrder` | pkg/agent/loop.go:294-321 | the original is a subsequence of the repaired list |
| `Repair.RepairAddsOnlyNotices` | pkg/agent/loop.go:294-321 | whatever is added is the notice of a call without result |
| `Repair.ConvertHistoryToAPI` | pkg/agent/agent_impl.go:451-485 | drops prompts, shows summaries as user messages, keeps the rest |
| `Repair.ConvertedAre` | pkg/agent/agent_impl.go:451-485 | what becomes of each message, field by field |
| `Repair.RunsNeedNoRepair` | pkg/agent/loop.go:282-321 | in every run with complete batches, and with any pins, the request needs no repair |
| `Repair.RequestNeedsNoRepair` | pkg/agent/loop.go:282-321 | nor does any request from a transcript with the invariant in which calls and results are paired, so none of a seeded one |
| `TurnLoop.TurnContext.RunTurn` | pkg/agent/loop.go:62-84 | a turn ends for every world; bounds on rounds, streams, continuations and corrections; every round was handled as its reply asks, from where the one before ended, and there are as many as were counted; the transcript could be sent as it was at every request; no signature run twice, no skipped one run; calls paired; every checkpoint behind a result; all that was pending is drained; at the limit the notice is the answer, an abort has a cancellation or a failed stream of this turn behind it, and otherwise all drained texts entered in order and the answer is that to a reply of this turn which carried no call, brought none and was no attempt at one |
| `TurnLoop.TurnContext.RunInnerLoop` | pkg/agent/loop.go:116-169 | keeps the invariant; going idle it has used up a round, everything drained has entered and there is the answer to a reply; at the limit the notice is the answer; a failure is a cancellation or a failed stream |
| `TurnLoop.TurnContext.RunRound` | pkg/agent/loop.go:129-165 | one round: steering enters, a request is prepared and sent, its reply is handled as it asks, and what was drained meanwhile comes next |
| `TurnLoop.TurnContext.Request` | pkg/agent/loop.go:123-133 | the steering texts enter, and the first request is the transcript with them, prepared |
| `TurnLoop.TurnContext.DrainWhenIdle` | pkg/agent/loop.go:75-82 | all that is pending and steering brought, or else what sub-agents brought |
| `TurnLoop.TurnContext.StreamWithOverflowRecovery` | pkg/agent/loop.go:196-209 | the first request is prepared; at most eight streams; a second request only after an overflow with a compactor, when compacting or pruning made it smaller, and otherwise the first reply stands |
| `TurnLoop.TurnContext.PrepareRequest` | pkg/agent/loop.go:196-281 | a compaction if one is due, and then room for a request that does not fit |
| `TurnLoop.TurnContext.RecoverFromOverflow` | pkg/agent/loop.go:229-250 | a compaction is tried, with a request to go on if all earlier ones are answered, and the rest pruned if it does not fit; the request is sent again, or the overflow returned because it did not become smaller |
| `TurnLoop.TurnContext.StreamRound` | pkg/agent/loop.go:323-348 | one to four streams; the reply is that of the last, and all before it had a blank text, no calls and no reasoning |
| `TurnLoop.TurnContext.EnsureContextFits` | pkg/agent/loop.go:211-227 | a request that fits changes nothing; otherwise a compaction is tried, if there is a compactor, and all is pruned unless it then fits |
| `TurnLoop.TurnContext.ForceCompact` | pkg/agent/agent_impl.go:287-305 | the planned marker with the summary of a job on the head, and a request to go on if wanted and all earlier ones are answered; no change exactly if nothing is planned or the job failed |
| `TurnLoop.TurnContext.AggressivePruning` | pkg/agent/loop.go:634-663 | the session changes as the pruner decided; zero exactly if it did not change |
| `TurnLoop.TurnContext.ShouldAddAutoContinue` | pkg/agent/loop.go:607-632 | yes exactly if each request to continue has a real answer behind it |
| `TurnLoop.TurnContext.ResolveToolCalls` | pkg/agent/loop.go:369-461 | broken calls first, then native, then embedded ones, then a malformed attempt; a correction is appended and costs one retry |
| `TurnLoop.PlainReplyIff` | pkg/agent/loop.go:369-461 | a round asks for nothing exactly if it carries no call, brings none, holds none in its text and no malformed attempt while corrections are left, or its calls are broken and none are left |
| `TurnLoop.TurnContext.PartitionToolCalls` | pkg/agent/loop.go:494-506 | separates new signatures from known ones and remembers those of the whole batch |
| `Batches.PartitionIsComplete` | pkg/agent/loop.go:494-506 | unique and duplicate calls together are the batch, with repetitions |
| `Batches.NextIsNewIff` | pkg/agent/loop.go:494-506 | a call is unique exactly if its signature is neither known nor that of an earlier call of the batch |
| `Batches.UniquesAreNew` | pkg/agent/loop.go:494-506 | the unique calls have, once each, exactly the signatures that are new |
| `Batches.RunsInBatchIff` | pkg/agent/loop.go:463-506 | a signature is run in a batch exactly if it is asked for, was neither run nor skipped before, and no reply to an earlier new call ends the batch |
| `Batches.RanIff` | pkg/agent/tool_executor.go:38-63 | a call is run exactly if no earlier reply ends the batch |
| `Batches.ResultSays` | pkg/agent/tool_executor.go:31-64 | the result of a call says what its tool replied, the error with its reason, or that it was skipped |
| `Batches.SkippedThenRefused` | pkg/agent/tool_executor.go:31-64 | two calls of which the first ends the batch: the second is skipped, and refused as a duplicate when asked for again |
| `Batches.BatchKeepsLedger` | pkg/agent/loop.go:463-506 | the signatures remembered are those run and those skipped, apart from each other, and none is run twice |
| `TurnLoop.TurnContext.ExecuteAll` | pkg/agent/tool_executor.go:31-64 | runs the calls up to the first whose reply ends the batch; each result is the tool reply, the error, or the notice of a skipped call |
| `TurnLoop.TurnContext.ExecuteAndAppendBatch` | pkg/agent/loop.go:463-492 | the transcript grows by the call message, notices and results; exactly the calls run are logged, the others remembered as skipped; a checkpoint is mirrored if anything was new |
| `Batches.BatchAnswersAll` | pkg/agent/loop.go:463-492 | duplicate notices and results answer the batch exactly |
| `TurnLoop.TurnContext.HandleRound` | pkg/agent/loop.go:137-166 | what a reply asks for is done: native calls are run as one batch, else those a second request brings, else those in the text with its content; broken calls and malformed attempts are sent back with their correction, three times at most; a reply that asks for nothing is continued if it was cut off, eight times at most, and otherwise is the answer |
| `TurnLoop.TurnContext.HandleAndRecord` | pkg/agent/loop.go:137-166 | each handled round goes on from the one before |
| `TurnLoop.TurnContext.FinishWithTextResponse` | pkg/agent/loop.go:537-576 | stores the cleaned answer, or repeats the last message that may be shown; nothing only if there is none |
| `TurnLoop.LastSaidIs` | pkg/agent/loop.go:562-592 | what was said last is the content of the last assistant message that is not internal and may be shown |
| `TurnLoop.TurnContext.ContinueOrFinish` | pkg/agent/loop.go:149-159 | an answer cut off by the output limit is continued while continuations are left, any other ends the turn |
| `TurnLoop.TurnContext.AppendSteeringMessages` | pkg/agent/loop.go:516-521 | steering texts become user messages in order, and it is remembered where |
| `TurnLoop.TurnContext.Drain` | pkg/agent/loop.go:508-514 | whatever was pending before and what was admitted since is drained, in order |
| `TurnLoop.TurnContext.FinishAtIterationLimit` | pkg/agent/loop.go:171-179 | the notice with the number of rounds is the answer, and what cleaning leaves of it enters the transcript |
| `TurnLoop.NoticeIs` | pkg/agent/loop.go:171-172 | the text of the notice, with the number of rounds in decimal |
| `PeerInputs.PeerInput.Admit` | session/peer_input.go:11-18 | appends to the pending texts |
| `PeerInputs.PeerInput.Claim` | session/peer_input.go:20-33 | takes back the first equal pending text, if there is one |
| `PeerInputs.RemoveFirstIs` | session/peer_input.go:20-33 | the text taken back is the first such one, all others stay |
| `PeerInputs.PeerInput.Drain` | session/peer_input.go:35-48 | hands all pending texts to the turn and records them as promoted |
| `PeerInputs.PeerInput.TakePromoted` | session/peer_input.go:50-59 | hands over the promoted texts once |
| `PeerInputs.PeerInput.HasPending` | session/peer_input.go:61-68 | whether a text is pending |
| `PeerInputs.PeerInput.Clear` | session/peer_input.go:70-78 | forgets both lists |
| `PeerInputs.NothingLostNorDoubled` | session/peer_input.go:11-78 | over any interleaving admitted equals pending, claimed, drained and cleared, with repetitions |
| `PeerInputs.NeverClaimedAndDrained` | session/peer_input.go:20-48 | a text admitted once is never both claimed and drained |
| `TurnMirrors.TurnMirror.Sync` | pkg/agentloop/turn_mirror.go:31-43 | copies everything behind the cursor, in order, once |
| `TurnMirrors.TurnMirror.CopyMessage` | pkg/agentloop/turn_mirror.go:45-81 | what is copied of one message, and what is remembered of it |
| `TurnMirrors.CopyIs` | pkg/agentloop/turn_mirror.go:45-81 | the copy of each message, field by field: the message itself without its flags, or its text alone if it is internal, or nothing |
| `TurnMirrors.MirroredIff` | pkg/agentloop/turn_mirror.go:45-60 | the texts remembered are those of the copied user messages |
| `TurnMirrors.TurnMirror.FinishTurn` | pkg/agentloop/agentloop.go:783-818 | a last sync, and the drained texts the turn did not record unless it was cancelled |
| `TurnMirrors.LeftoversAre` | pkg/agentloop/agentloop.go:808-818 | the drained texts that were not copied, in order and with repetitions |
| `TurnMirrors.CheckpointsDoNotMatterIff` | pkg/agentloop/turn_mirror.go:31-81 | any syncs before the final one give the same target, exactly if none caught an empty plain answer |
| `TurnMirrors.TurnCheckpointsDoNotMatter` | pkg/agent/loop.go:483-489 | syncs behind tool results, as the checkpoints of a turn are, catch none and never matter |
| `Mirroring.CheckpointsKeepStructure` | pkg/agentloop/turn_mirror.go:31-81 | with any checkpoints of a turn the same messages are stored in the same order, and output cleared later is stored as it was |
| `Mirroring.MirrorKeepsPairedIff` | pkg/agentloop/turn_mirror.go:31-81 | mirroring a paired history from a block boundary keeps the stored session paired exactly if no copied call message is internal by flag or text |
| `Mirroring.InternalCallIsStripped` | pkg/agentloop/turn_mirror.go:70-77 | a concrete paired history whose copies are not |
| `Mirroring.MirrorEvents` | pkg/agentloop/turn_mirror.go:31-81 | otherwise the copies are a run of complete events |
| `Mirroring.SyncsAreEvents` | pkg/agentloop/turn_mirror.go:31-81 | so are all copies of a turn together, at its checkpoints and at its end |
| `TurnMirrors.DrainedReachesSession` | pkg/agentloop/agentloop.go:783-818 | every drained text is in the stored session after a turn that was not cancelled |
| `TurnMirrors.DrainedTwiceStoredOnce` | pkg/agentloop/agentloop.go:808-818 | a text drained twice and recorded once is stored once |
| `Turns.SendToModel` | pkg/agentloop/agentloop.go:741-829 | seeds, adds the prompt, runs the turn and mirrors it: the result is the answer, notice or abort of that turn, with its rounds and bounds; all that was pending is drained into it; exactly the synced messages and leftovers are stored; unless it was cancelled every drained text is stored; without internal calls and typed prompts the stored session is ready for the next turn |
| `Turns.SeededBegins` | pkg/agentloop/agentloop.go:741-772 | the agent's session begins with the stored system text unless that is blank |
| `Turns.TurnKeepsStored` | pkg/agentloop/agentloop.go:774-818 | what a turn stores is a run of complete events, and keeps invariant, pairing and replayability |
| `Turns.TurnsArePeerEvents` | pkg/agentloop/agentloop.go:774-818 | such a turn is a sequence of events of the peer |
| `Turns.PeerKeepsStored` | pkg/agentloop/speculative.go:24-131 | under every interleaving of such events with compactions of either kind and resets the stored session is ready for a turn |
| `Turns.DrainedIsStored` | pkg/agentloop/agentloop.go:808-818 | with any checkpoints every drained text is stored, unless the turn was cancelled |
| `Turns.StoredCount` | pkg/agentloop/agentloop.go:783-818 | with any checkpoints a text is stored as often as the turn's own messages say it, if they do, and otherwise as often as it was drained |
| `Turns.RestIsLostIff` | pkg/agentloop/agentloop.go:783-818 | of texts drained but not entered, an occurrence is stored for each, except exactly for a text that a user message of the turn says too: of it none is |
| `Turns.AddPrompt` | pkg/agent/agent_impl.go:221-231 | the session is that with the prompt as its last message, added unless it is that already |
| `Turns.CancelledIff` | pkg/agentloop/agentloop.go:807-809 | an answer is never read as cancelled; an abort is exactly if its reason holds the words `context canceled` |
| `SlotManagers.SlotManager.GetOrAssign` | pkg/agentloop/slot_manager.go:159-189 | the map of stamped entries behaves as a list in order of use: known, free or evicting |
| `SlotManagers.AssignedIs` | pkg/agentloop/slot_manager.go:159-207 | a request in full: a known session keeps its slot, a new one gets the lowest free slot or that of the oldest use below the total |
| `SlotManagers.SlotManager.FindLRUSlot` | pkg/agentloop/slot_manager.go:196-207 | the entry with the oldest stamp below the total, whatever order the map is searched in |
| `SlotManagers.SlotManager.Release` | pkg/agentloop/slot_manager.go:209-220 | takes exactly this session out of the list |
| `SlotManagers.SlotManager.GetSlotID` | pkg/agentloop/slot_manager.go:222-233 | returns the slot and makes the session the most recent |
| `SlotManagers.SlotManager.Touch` | pkg/agentloop/slot_manager.go:235-245 | makes the session the most recent |
| `SlotManagers.ReleasedAndMoved` | pkg/agentloop/slot_manager.go:209-245 | what releasing, looking up and touching do to the list |
| `SlotManagers.RunInRange` | pkg/agentloop/slot_manager.go:159-245 | in every run with a fixed total assignments are injective and in range |
| `SlotManagers.RunByLastUse` | pkg/agentloop/slot_manager.go:159-245 | in every run the list is sorted by the last use of its sessions |
| `SlotManagers.EvictsLeastRecentlyUsed` | pkg/agentloop/slot_manager.go:159-207 | eviction only if all slots are taken, of exactly the session used longest ago, all others keep their slots |
| `TargetQueues.TargetQueue.Submit` | pkg/agentloop/target_queue.go:55-70 | queues at the end; returns the jobs ahead; a pump is started exactly if the lane was idle |
| `TargetQueues.TargetQueue.TakeNext` | pkg/agentloop/target_queue.go:138-151 | the oldest job, or the lane becomes idle |
| `TargetQueues.TargetQueue.NoteFinished` | pkg/agentloop/target_queue.go:132-136 | one running job less |
| `TargetQueues.RunKeepsInv` | pkg/agentloop/target_queue.go:55-151 | under any interleaving one pump is live exactly while the lane is busy, and submitted is delivered, in hand and queued, in order |
| `TargetQueues.PositionIsJobsAhead` | pkg/agentloop/target_queue.go:55-70 | without a busy check the position is the number of unfinished jobs |
| `TargetQueues.QueuedJobHasPump` | pkg/agentloop/target_queue.go:81-97 | a queued job is never stranded |
| `TargetQueues.PumpDeliversAll` | pkg/agentloop/target_queue.go:81-151 | a pump left alone delivers all jobs in order and then ends |
| `Shells.FindHeredocOpener` | pkg/permission/shell.go:39-72 | the delimiter behind the first `<<` outside quotes |
| `ShellHeredocs.OpenerIs` | pkg/permission/shell.go:39-113 | behind quoted texts and bytes without `<<`, the line opens a heredoc with the word behind `<<`, an optional dash and blanks, bare or quoted |
| `ShellHeredocs.NoOpenerIs` | pkg/permission/shell.go:39-113 | without such a `<<` it opens none |
| `Shells.HeredocRanges` | pkg/permission/shell.go:115-153 | the ranges from an opener line to behind its terminator line or the end |
| `ShellHeredocs.EndLineIff` | pkg/permission/shell.go:124-133 | a line ends the heredoc exactly if it is the delimiter but for indentation and carriage returns |
| `ShellHeredocs.HeredocIs` | pkg/permission/shell.go:115-153 | the range reaches from the opening line to behind the first line that ends it, and the search goes on there |
| `ShellHeredocs.UnendedHeredocIs` | pkg/permission/shell.go:115-153 | without such a line the range takes all the rest |
| `Shells.RangesFrom` | pkg/permission/shell.go:115-153 | the ranges are not empty, in order and apart |
| `Shells.NoDoubleLessNoRanges` | pkg/permission/shell.go:39-153 | without `<<` there is no heredoc |
| `Shells.Splitter.IsInHeredoc` | pkg/permission/shell.go:165-178 | the moving cursor answers whether the position lies in any range |
| `Shells.Splitter.Step` | pkg/permission/shell.go:196-269 | one step on the fields is one step of the specification |
| `Shells.SplitCommands` | pkg/permission/shell.go:271-292 | the loop computes the trimmed non-blank pieces |
| `ShellLexemes.SplitReadsCommands` | pkg/permission/shell.go:196-292 | a line put together from quoted texts, escaped bytes, parentheses, `$( )` and bare bytes splits into exactly its commands: separators in quotes, parentheses or behind a backslash separate nothing, all others do |
| `ShellLexemes.QuotedIsOneCommand` | pkg/permission/shell.go:216-226 | a quoted text is one command, whatever it holds |
| `ShellLexemes.EndsNeutralIff` | pkg/permission/shell.go:196-269 | the splitter ends neutral exactly behind a text that can be read with all quotes and parentheses closed and no backslash left over |
| `ShellLexemes.JoinedSplitsIff` | pkg/permission/shell.go:196-292 | so for every separator but the newline splitting distributes exactly if the first part can be read so |
| `ShellLaws.CutsKeepAll` | pkg/permission/shell.go:196-292 | pieces and separators in order are the text, less exactly the escaped bytes 0; only the five separators are cut out |
| `ShellLaws.SplitKeepsAllIff` | pkg/permission/shell.go:271-292 | nothing but separators and blanks is lost, exactly if no unquoted backslash precedes a byte 0 |
| `ShellLaws.HeredocCopiedWhole` | pkg/permission/shell.go:196-205 | a stretch inside heredocs is copied whole, whatever it holds |
| `ShellLaws.SplitDistributes` | pkg/permission/shell.go:196-292 | splitting distributes over each of the five separators if the first part ends neutral, no `<<` |
| `ShellLaws.SplitDistributesIff` | pkg/permission/shell.go:196-292 | and only then, for every separator but the newline |
| `ShellLaws.LinesDistributeIff` | pkg/permission/shell.go:196-292 | for the newline: exactly if the first part ends neutral, or the second is blank, or the first ends with a lone backslash outside quotes and parentheses and the second begins blank up to a separator or its end |
| `ShellLaws.PiecesAreFinal` | pkg/permission/shell.go:196-292 | a command that was split off splits into itself |
| `ShellLaws.HeredocHidesSeparator` | pkg/permission/shell.go:115-205 | a concrete line with `<<` for which the distribution fails |
| `ShellScans.Tokenize` | pkg/permission/shell.go:316-382 | the loop computes the tokens of the specification |
| `ShellScans.TokensComeBack` | pkg/permission/shell.go:316-382 | words written with any blanks between them, quoted blanks inside, are read back as exactly these tokens |
| `ShellScans.LexedWordsComeBack` | pkg/permission/shell.go:316-382 | words put together from quoted texts, escaped bytes, `$( )` and other bytes are read back as exactly these tokens |
| `ShellScans.CommandsHaveTokens` | pkg/permission/shell.go:8-24 | a command that was split off always has a token, so the empty case of the scan never occurs |
| `ShellScans.NestedOccur` | pkg/permission/shell.go:294-306 | each match is a non-empty bracketed run of the source, shorter by three |
| `ShellScans.NestedBehind` | pkg/permission/shell.go:294-306 | the matches follow each other: the first that is opened and closed, up to its next `)`, and then those behind it |
| `ShellScans.NestedFoundIff` | pkg/permission/shell.go:294-306 | there is a match exactly if some `$(` is followed by another byte than `)` and later by `)` |
| `ShellScans.ScanCommand` | pkg/permission/shell.go:8-24 | ends for every input, since nested commands are shorter; the patterns are those specified, and the patterns for good are those that belong to them |
| `ShellScans.Scan.Nested` | pkg/permission/shell.go:296-306 | adds the patterns of the nested commands, each once, and keeps the two lists in step |
| `ShellScans.AlwaysOfAll` | pkg/permission/shell.go:296-314 | merging two scans keeps each list of patterns for good the one that belongs to its patterns, each once |
| `ShellScans.ScanFindsExactly` | pkg/permission/shell.go:8-24 | the patterns are exactly the commands reachable through nesting at any depth, but for directory changes, each once |
| `XmlToolCalls.IsInCodeBlock` | pkg/agent/xml_parser.go:82-91 | whether an odd number of fences starts before the position |
| `XmlToolCalls.ParseWithWrapper` | pkg/agent/xml_parser.go:93-265 | the loop over four states computes the specified run |
| `XmlLaws.ParsingUndoesPrinting` | pkg/agent/xml_parser.go:93-265 | calls printed with any forms of their tags, parameters in tags or attributes, closed functions or not, and any texts free of `<` around and between them are read back in order, and the content is the outer texts |
| `XmlLaws.OpenMatches` | pkg/agent/xml_parser.go:385-407 | each of the four forms of an opening tag is one |
| `XmlLaws.CloseMatches` | pkg/agent/xml_parser.go:409-431 | so is each of the four forms of a closing tag |
| `XmlLaws.ArgumentsComeBack` | pkg/agent/xml_parser.go:239-253 | trimmed parameters with distinct keys come back as exactly these |
| `XmlLaws.NamedTag` | pkg/agent/xml_parser.go:470-500 | a printed tag is read as its trimmed name, whatever blanks |
| `XmlLaws.SpacedTag` | pkg/agent/xml_parser.go:470-500 | a tag with a value is read with any blanks around its name and equals sign |
| `XmlLaws.NameBehindTag` | pkg/agent/xml_parser.go:433-468 | a function name behind its tag is the trimmed text up to the next bracket |
| `XmlLaws.AttributeRead` | pkg/agent/xml_parser.go:525-566 | a parameter with its name as an attribute in either quotes is read as that name and the trimmed text up to its closing tag |
| `XmlLaws.UnfinishedStays` | pkg/agent/xml_parser.go:255-265 | a call that is never closed leaves the input as it was |
| `XmlLaws.NamelessCallStays` | pkg/agent/xml_parser.go:137-155 | of a call without a function the opening tag and its text stay and the closing tag goes |
| `XmlLaws.ValueRuns` | pkg/agent/xml_parser.go:239-253 | a value without closing tag is read to its end, also where it ends with the beginning of a tag |
| `XmlLaws.FencedTextUntouched` | pkg/agent/xml_parser.go:82-131 | an input whose opening tags all stand in code blocks is returned unchanged, without calls |
| `XmlLaws.OpenFenceStays` | pkg/agent/xml_parser.go:82-131 | behind a fence that is not closed everything stays as it is |
| `Patches.ClassifyHunkLines` | pkg/tools/patch_applier.go:113-126 | the expected lines, the added lines and the number of removed ones |
| `Patches.SidesOfLine` | pkg/tools/patch_applier.go:113-126 | which side a line belongs to by its sign, and what counts as removed |
| `Patches.SidesConcat` | pkg/tools/patch_applier.go:113-126 | the sides of a hunk are those of its lines, in order |
| `Patches.ApplyHunk` | pkg/tools/patch_applier.go:128-152 | for every position, also past the end, the edit in place is the weaving of the rest; the offset changes by the change in length |
| `Patches.HunkSplicesIff` | pkg/tools/patch_applier.go:128-152 | it replaces the block by the new side exactly if the context lines agree |
| `Patches.SwappingUndoesIff` | pkg/tools/patch_applier.go:128-152 | the swapped hunk undoes it exactly if the removed lines agree |
| `Patches.AppliedPastEnd` | pkg/tools/patch_applier.go:128-152 | past the end only the added lines are left of a hunk |
| `Patches.FindContext` | pkg/tools/patch_applier.go:154-189 | the first place where the lines stand, from as many back as are removed, but no more than they are, to three ahead; none otherwise |
| `Patches.LandsOnFirst` | pkg/tools/patch_applier.go:58-71 | a hunk lands at the first place where its old side stands from as many lines back as it removes to three ahead, and splices there; where it stands nowhere there, at its target |
| `Patches.LandsOnTargetIff` | pkg/tools/patch_applier.go:58-71 | a hunk that stands at its target lands there exactly if nothing matches earlier in the window |
| `Patches.PatchLines` | pkg/tools/patch_applier.go:55-74 | the loop over the hunks computes the specified lines |
| `Patches.OneHunkFinds` | pkg/tools/patch_applier.go:55-74 | a patch of one hunk replaces that place by the new side |
| `Patches.FoundAhead` | pkg/tools/patch_applier.go:168-178 | a concrete hunk that is found one line further on |
| `Patches.PatchSplicesAll` | pkg/tools/patch_applier.go:55-74 | ordered disjoint hunks with no earlier match give the simultaneous splice of the old file |
| `Patches.OldFileEnough` | pkg/tools/patch_applier.go:154-180 | a condition on the old file alone that excludes earlier matches |
| `Patches.DrawnBack` | pkg/tools/patch_applier.go:159-178 | a concrete patch that changes the wrong line because of an earlier match |
| `Patches.PureInsertion` | pkg/tools/patch_applier.go:58-71 | a hunk of added lines alone goes in front of the line it names |
| `Patches.InsertionAgreesIff` | pkg/tools/patch_applier.go:58-71 | this is what the standard says exactly at line 0 and where all added lines repeat the named line |
| `Patches.InsertionPastEnd` | pkg/tools/patch_applier.go:58-65 | past the end the added lines go to the end |
| `Patches.InsertionInFront` | pkg/tools/patch_applier.go:58-71 | a concrete insertion that ends up in front |
| `Patches.UpdateFile` | pkg/tools/patch_applier.go:49-86 | the new content in terms of the patched lines |
| `Patches.UpdatedLines` | pkg/tools/patch_applier.go:49-111 | a file of lines that each end with a newline is patched line by line |
| `Patches.NoHunksIdentityIff` | pkg/tools/patch_applier.go:55-76 | an empty patch keeps the file exactly if it ends with a newline |
| `Calculators.ParseExpression` | pkg/tools/helpers.go:171-180 | the method computes the specified outcome |
| `Calculators.ParseAddSub` | pkg/tools/helpers.go:182-209 | the loop over sums is the recursive parser |
| `Calculators.ParseMulDiv` | pkg/tools/helpers.go:211-247 | the loop over products is the recursive parser |
| `Calculators.ParsePower` | pkg/tools/helpers.go:249-266 | powers, to the right |
| `Calculators.ParseUnary` | pkg/tools/helpers.go:268-288 | signs |
| `Calculators.ParsePrimary` | pkg/tools/helpers.go:290-353 | numbers, brackets and function calls |
| `Calculators.SumParse` | pkg/tools/helpers.go:182-209 | every success consumes a token |
| `Calculators.ParseComplete` | pkg/tools/helpers.go:171-353 | on every derivable list the outcome, errors and faults included, is the meaning of the derivation |
| `Calculators.ParseSoundAndComplete` | pkg/tools/helpers.go:171-353 | a list is accepted with a value exactly if it has a derivation with this value |
| `Calculators.Unambiguous` | pkg/tools/helpers.go:171-353 | no list has two derivations |
| `Calculators.Precedence` | pkg/tools/helpers.go:249-281 | subtraction to the left, powers to the right, signs tighter than powers |
| `Calculators.Arithmetic` | pkg/tools/helpers.go:182-266 | what each operator computes on any two expressions in brackets: sums, differences, products and powers, the quotient that gives the dividend back, the remainder of the truncated numbers with the sign of the dividend; and when each fails |
| `Calculators.SignsAndCalls` | pkg/tools/helpers.go:268-353 | brackets, a plus and two minus signs change nothing; exactly the eight named functions are applied |
| `Calculators.Grouping` | pkg/tools/helpers.go:182-266 | for any two operators the right pair goes together exactly if its operator binds tighter or both are powers |
| `Calculators.Refusals` | pkg/tools/helpers.go:171-353 | which error a missing operand, a stray token, an open bracket and a rest give |
| `Calculators.RemainderPanicsIff` | pkg/tools/helpers.go:238-243 | the remainder faults exactly for divisors strictly between -1 and 1 other than 0 |

## Left out

- `Sessions.Session.constructor`: a session is created empty; restoring it from a store or a file, and the working directory in its prompt, are absent.
- Time stamps, token usage counters, loop detection, persistence and the resume prompt of a session; `AddAssistantMessageWithSummary`, `RestoreMessages` and loading, which can bring in transcripts of any form.
- The language model, HTTP, streaming, retries on network errors, databases, the chat client, process and file access: oracles or absent.
- Regular expressions other than the search for `$(...)`, JSON, tool signatures and the cleaning of answers: arbitrary functions of the world.
- Roles are an enumeration; an unknown role string in a stored message is not modelled.
- Bytes above 127: strings are byte sequences with ASCII blanks.
- `Sessions.Session.GetContextMessages`: its one method is split into the visible part and the pins; the lock is not modelled, each method is atomic.
- `Speculative.SpeculativeCompactor.TryApply`: one atomic step, though the source takes the lock of the background compactions and that of the session one after the other; steps of one peer are taken to be serialised by its turn lock. The map over peers is one slot.
- `Replay.SeedingKeepsEverything`: the flags of pruned output are not carried over by seeding, as in the source; alike means equal up to the compacted and internal flags.
- `Replay.RunReplayable`: requires that nobody types the text of the compaction prompt; such a message is dropped by seeding.
- `TurnLoop.TurnContext.ResolveToolCalls`: one oracle for embedded XML and JSON calls together; the parser of the first is modelled in `XmlToolCalls` and not connected.
- `TurnLoop.TurnContext.StreamWithOverflowRecovery`: whether a request fits and whether it shrank are oracles.
- `TurnLoop.TurnContext.ExecuteAll`: the execution of one tool, its permission checks and alias resolution are one oracle.
- `TurnMirrors.TurnMirror.FinishTurn`: one atomic step; an inbox or a mirror that is nil is not modelled.
- `SlotManagers.SlotManager.GetOrAssign`: the clock is a counter that grows with every use; probing of servers and their availability are absent.
- `TargetQueues.TargetQueue.Submit`: the busy check is a parameter; waiting until the agent is idle outside and running the job are the pump's step from taken to delivered. Failures and panics of a job are deliveries.
- `ShellLaws.PiecesAreFinal`: one way only; an escaped byte 0, which no shell command can hold, may change how a piece is read again.
- `ShellLaws.SplitDistributes`: without `<<`, since an opener line and the terminator's newline belong to the copied range; `&&`, `||` and `|` must not touch another `&` or `|`.
- `ShellScans.ScanCommand`: the rule that makes the pattern for good of a command, with its table of known commands, is a parameter.
- `Prompts.SerializeConversation`: removing the boundary tags is a parameter, so `Prompts.EveryMessageEnters` speaks of the text before it; labels and previous summary around it are absent.
- `Deliveries.NothingLostToTheModel`: the calls of each compaction are given with the events, as `Compaction.Compact` returns them; what the model makes of the text is not modelled.
- `TurnMirrors.TurnCheckpointsDoNotMatter`: about a source whose contents stay; `Mirroring.CheckpointsKeepStructure` covers the pruning that may come between.
- `Turns.SendToModel`: the agent's own system prompt is not empty; images, slots and callbacks are absent, and so is the last resort for an empty answer, which repeats an earlier message of the agent's session. A cancellation is told by the text of the error alone.
- `TurnLoop.TurnContext.Drain`: what others admit to the inbox between two steps, less what they claim back, comes from the world with the next drain.
- `XmlLaws.ParsingUndoesPrinting`: about the wrapper form; the fallback without wrapper runs only when the wrapper form finds no call, and is absent.
- `Patches.UpdateFile`: creating and deleting files and the parser of patches are absent; hunks come with their lines.
- `Calculators.ParseMulDiv`: numbers are reals: rounding, infinities, not-a-number and the range of 64-bit integers are absent.
- `Calculators.ParsePrimary`: powers and the named functions are arbitrary; the tokenizer is absent.
- Sub-agent job limits, engine transitions and the chain of created agents: their checks and updates are separate critical sections, so the bounds one would like do not hold.
- Permission dialogs and path access: they depend on files and users.
