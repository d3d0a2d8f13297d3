/** A whole turn of a peer: the stored session is seeded into the agent's, the turn runs, and what it said is
    mirrored back. The stored session keeps all that the next turn needs (pkg/agentloop/agentloop.go:741-829). */
module Turns {
  import opened Messages
  import opened Sessions
  import opened Transcripts
  import opened Compaction
  import opened Pairing
  import opened Replay
  import opened Seeding
  import opened Traces
  import opened TurnMirrors
  import opened Mirroring
  import opened TurnLoop
  import PeerInputs
  import Speculative
  import Batches
  import Text

  /** What every turn needs of the stored session. */
  ghost predicate StoredInv(t: State) {
    Inv(t) && Replayable(t.history) && Paired(t.history)
  }

  // ---------------------------------------------------------------- the stored session between turns

  predicate IsProper(e: Event) { IsLegal(e) && TypesNoPrompt(e) }

  lemma {:induction false} EventKeepsStored(t: State, e: Event)
    requires StoredInv(t) && IsProper(e)
    ensures StoredInv(Step(t, e))
  {
    hide Inv, Replayable, Paired, Step, IsLegal, TypesNoPrompt;
    StepKeepsInv(t, e);
    StepReplayable(t, e);
    StepPaired(t, e);
  }

  lemma {:induction false} EventsKeepStored(t: State, events: seq<Event>)
    requires StoredInv(t) && forall k :: 0 <= k < |events| ==> IsProper(events[k])
    ensures StoredInv(Run(t, events))
  {
    hide StoredInv, Step, IsProper;
    if events != [] {
      var n := |events| - 1;
      EventsKeepStored(t, events[..n]);
      EventKeepsStored(Run(t, events[..n]), events[n]);
    }
  }

  predicate IsProperPeerEvent(e: Speculative.PeerEvent) {
    e.Talk? ==> IsProper(e.e)
  }

  lemma {:induction false} MarkAndContinueKeepsStored(h: seq<Message>, f: nat, summary: string)
    requires Replayable(h) && Paired(h)
    ensures Replayable(Speculative.MarkedAndContinued(h, f, summary))
    ensures Paired(Speculative.MarkedAndContinued(h, f, summary))
  {
    hide Replayable, Paired, Marked;
    MarkedReplayable(h, f, summary);
    MarkedPaired(h, f, summary);
    AppendReplayable(Marked(h, f, summary), [UserMessage(COMPACTION_AUTO_CONTINUE_TEXT)]);
    AppendOnePaired(Marked(h, f, summary), UserMessage(COMPACTION_AUTO_CONTINUE_TEXT));
  }

  lemma {:induction false} PeerEventKeepsStored(p: Speculative.Peer, e: Speculative.PeerEvent)
    requires Speculative.PeerInv(p) && StoredInv(p.t) && IsProperPeerEvent(e)
    ensures StoredInv(Speculative.PeerStep(p, e).t)
  {
    hide Inv, Replayable, Paired, Step, IsProper, PlanOf, Speculative.MarkedAndContinued, Speculative.TaskInv;
    Speculative.PeerStepKeepsInv(p, e);
    match e
    case Talk(talk) =>
      if !talk.Compress? { EventKeepsStored(p.t, talk); }
    case StartSpeculative =>
    case FinishSpeculative(id, keep, attempt) =>
    case CheckAndCompress(keep, attempt) =>
      if Speculative.CanApply(p) && p.slot.task.status.plan.Plan? {
        MarkAndContinueKeepsStored(p.t.history, p.slot.task.status.plan.firstKept, p.slot.task.status.summary);
      } else {
        var plan := PlanHeadBounded(p.t.history, keep);
        if plan.Plan? && Speculative.Usable(attempt) {
          MarkAndContinueKeepsStored(p.t.history, plan.firstKept, attempt.text);
        }
      }
    case ResetPeer(systemPrompt) => FreshStored(systemPrompt);
  }

  lemma {:induction false} FreshStored(systemPrompt: string)
    ensures StoredInv(Init(systemPrompt))
  {
    InitInv(systemPrompt);
  }

  /** Under every interleaving of a peer's events in which batches are complete and nobody types the compaction
      prompt, the stored session is ready for the next turn. */
  lemma {:induction false} PeerKeepsStored(systemPrompt: string, events: seq<Speculative.PeerEvent>)
    requires forall k :: 0 <= k < |events| ==> IsProperPeerEvent(events[k])
    ensures StoredInv(Speculative.PeerRun(Speculative.InitPeer(systemPrompt), events).t)
  {
    hide StoredInv, Speculative.PeerStep, Speculative.PeerInv, IsProperPeerEvent;
    if events == [] {
      FreshStored(systemPrompt);
    } else {
      var n := |events| - 1;
      PeerKeepsStored(systemPrompt, events[..n]);
      Speculative.PeerRunKeepsInv(systemPrompt, events[..n]);
      PeerEventKeepsStored(Speculative.PeerRun(Speculative.InitPeer(systemPrompt), events[..n]), events[n]);
    }
  }

  // ---------------------------------------------------------------- what a turn leaves in it

  function UserEvents(texts: seq<string>): (r: seq<Event>)
    ensures |r| == |texts| && forall k :: 0 <= k < |r| ==> r[k] == AddUser(texts[k])
  {
    seq(|texts|, k requires 0 <= k < |texts| => AddUser(texts[k]))
  }

  lemma {:induction false} UserEventsAppend(texts: seq<string>)
    ensures Appended(UserEvents(texts)) == UserMessages(texts)
  {
    if texts != [] {
      assert UserEvents(texts)[1..] == UserEvents(texts[1..]);
      UserEventsAppend(texts[1..]);
      assert UserMessages(texts) == [UserMessage(texts[0])] + UserMessages(texts[1..]);
    }
  }

  lemma {:induction false} LeftoversAreDrained(promoted: seq<string>, mirrored: set<string>)
    ensures forall k :: 0 <= k < |Leftovers(promoted, mirrored)| ==> Leftovers(promoted, mirrored)[k] in promoted
  {
    if promoted != [] { LeftoversAreDrained(promoted[..|promoted| - 1], mirrored); }
  }

  /** Nobody drained the compaction prompt itself. */
  predicate NoPrompts(texts: seq<string>) {
    COMPACTION_USER_MESSAGE !in texts
  }

  /** The messages that a turn adds to the stored session. */
  function StoredByTurn(start: seq<Message>, checkpoints: seq<seq<Message>>, last: seq<Message>, drained: seq<string>,
      cancelled: bool): seq<Message>
  {
    SyncedOver(|start|, checkpoints + [last]) +
    if cancelled then [] else UserMessages(Leftovers(drained, MirroredOver(|start|, checkpoints + [last])))
  }

  /** A turn in which no call message is internal adds a run of complete events to the stored session, and leaves
      it ready for the next turn. */
  lemma {:induction false} TurnKeepsStored(t: State, start: seq<Message>, checkpoints: seq<seq<Message>>,
      last: seq<Message>, drained: seq<string>, cancelled: bool) returns (events: seq<Event>)
    requires StoredInv(t) && Paired(start) && Paired(last) && Chained(start, checkpoints, last)
    requires forall k :: 0 <= k < |checkpoints| ==> Paired(checkpoints[k])
    requires NoneStripped(last, |start|) && NoPrompts(drained)
    ensures AllTalk(events)
    ensures Run(t, events) == t.(history := t.history + StoredByTurn(start, checkpoints, last, drained, cancelled))
    ensures StoredInv(Run(t, events))
  {
    hide Inv, Replayable, Paired, SyncedOver, MirroredOver, Leftovers, Appended, Run, NoneStripped, Chained;
    hide UserMessages;
    events := SyncsAreEvents(start, checkpoints, last);
    var left := Leftovers(drained, MirroredOver(|start|, checkpoints + [last]));
    if cancelled {
      assert SyncedOver(|start|, checkpoints + [last]) + [] == SyncedOver(|start|, checkpoints + [last]);
    } else {
      LeftoversAreDrained(drained, MirroredOver(|start|, checkpoints + [last]));
      UserEventsAppend(left);
      AppendedConcat(events, UserEvents(left));
      events := events + UserEvents(left);
    }
    TalkAppends(t, events);
    assert forall k :: 0 <= k < |events| ==> IsTalk(events[k]) && IsProper(events[k]);
    EventsKeepStored(t, events);
  }

  function Talks(events: seq<Event>): (r: seq<Speculative.PeerEvent>)
    ensures |r| == |events| && forall k :: 0 <= k < |r| ==> r[k] == Speculative.Talk(events[k])
  {
    seq(|events|, k requires 0 <= k < |events| => Speculative.Talk(events[k]))
  }

  /** The events of a turn are events of the peer: what is proved of its runs covers real turns. */
  lemma {:induction false} TurnsArePeerEvents(p: Speculative.Peer, events: seq<Event>)
    requires AllTalk(events)
    ensures Speculative.PeerRun(p, Talks(events)) == p.(t := Run(p.t, events))
    ensures forall k :: 0 <= k < |events| ==> IsProperPeerEvent(Talks(events)[k])
  {
    hide Step, IsTalk;
    if events != [] {
      var n := |events| - 1;
      TurnsArePeerEvents(p, events[..n]);
      assert Talks(events)[..n] == Talks(events[..n]);
      assert IsTalk(events[n]);
      TalkIsProper(events[n]);
      assert forall k :: 0 <= k < n ==> Talks(events[..n])[k] == Talks(events)[k];
    }
  }

  lemma {:induction false} TalkIsProper(e: Event)
    requires IsTalk(e)
    ensures IsProper(e) && !e.Compress?
  {
  }

  lemma {:induction false} MirroredOverIsSynced(start: nat, hs: seq<seq<Message>>, text: string)
    requires text in MirroredOver(start, hs)
    ensures Says(SyncedOver(start, hs), text)
  {
    hide Says, Copies, MirroredTexts;
    var n := |hs| - 1;
    var h, c := hs[n], CursorOver(start, hs[..n]);
    SaysConcat(SyncedOver(start, hs[..n]), Copies(h, c, |h|, |h|), text);
    if text in MirroredOver(start, hs[..n]) {
      MirroredOverIsSynced(start, hs[..n], text);
    } else {
      MirroredIsCopied(h, c, |h|, |h|, text);
    }
  }

  /** Every text drained into a turn that is not cancelled is in the stored session afterwards, whatever
      checkpoints there were. */
  lemma {:induction false} DrainedIsStored(start: seq<Message>, checkpoints: seq<seq<Message>>, last: seq<Message>,
      drained: seq<string>, text: string)
    requires text in drained
    ensures Says(StoredByTurn(start, checkpoints, last, drained, false), text)
  {
    hide Says, SyncedOver, MirroredOver, Leftovers, UserMessages;
    var hs := checkpoints + [last];
    var mirrored := MirroredOver(|start|, hs);
    SaysConcat(SyncedOver(|start|, hs), UserMessages(Leftovers(drained, mirrored)), text);
    if text in mirrored {
      MirroredOverIsSynced(|start|, hs, text);
    } else {
      LeftoverCount(drained, mirrored, text);
      CountedIsSaid(Leftovers(drained, mirrored), text, drained);
    }
  }

  lemma {:induction false} CountedIsSaid(texts: seq<string>, text: string, drained: seq<string>)
    requires text in drained && CountOf(texts, text) == CountOf(drained, text)
    ensures Says(UserMessages(texts), text)
  {
    assert text in multiset(drained);
    assert text in multiset(texts);
    var i :| 0 <= i < |texts| && texts[i] == text;
    assert UserMessages(texts)[i] == UserMessage(text);
  }

  /** How often a text stands in what a turn stores: as often as the turn's own messages say it, if they do, and
      otherwise as often as it was drained. */
  lemma {:induction false} StoredCount(start: seq<Message>, checkpoints: seq<seq<Message>>, last: seq<Message>,
      drained: seq<string>, text: string)
    ensures var hs := checkpoints + [last];
      var mirrored := MirroredOver(|start|, hs);
      && SaidCount(StoredByTurn(start, checkpoints, last, drained, false), text) ==
        SaidCount(SyncedOver(|start|, hs), text) + (if text in mirrored then 0 else CountOf(drained, text))
      && (text !in mirrored ==> SaidCount(SyncedOver(|start|, hs), text) == 0)
  {
    hide SyncedOver, MirroredOver, Leftovers, UserMessages, SaidCount;
    var hs := checkpoints + [last];
    var left := Leftovers(drained, MirroredOver(|start|, hs));
    SaidCountConcat(SyncedOver(|start|, hs), UserMessages(left), text);
    SaidCountOfTexts(left, text);
    LeftoverCount(drained, MirroredOver(|start|, hs), text);
    if text !in MirroredOver(|start|, hs) {
      UnmirroredIsNotSynced(|start|, hs, text);
    }
  }

  lemma {:induction false} UnmirroredIsNotSynced(start: nat, hs: seq<seq<Message>>, text: string)
    requires text !in MirroredOver(start, hs)
    ensures SaidCount(SyncedOver(start, hs), text) == 0
  {
    hide Copies, MirroredTexts, SaidCount;
    if hs == [] {
      NothingSaid(text);
    } else {
      var n := |hs| - 1;
      var h, c := hs[n], CursorOver(start, hs[..n]);
      UnmirroredIsNotSynced(start, hs[..n], text);
      UnmirroredIsNotCopied(h, c, |h|, |h|, text);
      SaidCountConcat(SyncedOver(start, hs[..n]), Copies(h, c, |h|, |h|), text);
    }
  }

  /** What is drained behind the texts that entered a turn (`rest`) is stored as often as it was drained, unless the
      turn has the same text among its own user messages: then, and only then, no occurrence of it is stored. */
  lemma {:induction false} RestIsLostIff(start: seq<Message>, checkpoints: seq<seq<Message>>, last: seq<Message>,
      before: seq<string>, rest: seq<string>, text: string)
    requires Chained(start, checkpoints, last) && |start| <= |last|
    ensures var said := SaidCount(StoredByTurn(start, checkpoints, last, before, false), text);
      var repeats := !IsScaffolding(text) && Says(last[|start|..], text);
      && SaidCount(StoredByTurn(start, checkpoints, last, before + rest, false), text) ==
        said + (if repeats then 0 else CountOf(rest, text))
      && (text in rest ==>
        (SaidCount(StoredByTurn(start, checkpoints, last, before + rest, false), text) == said <==> repeats))
  {
    hide SyncedOver, MirroredOver, StoredByTurn, SaidCount, MirroredTexts, IsScaffolding, Says, Chained;
    StoredCount(start, checkpoints, last, before, text);
    StoredCount(start, checkpoints, last, before + rest, text);
    MirroredOverIs(start, checkpoints, last);
    MirroredIff(last, |start|, |last|, text);
    assert last[|start|..|last|] == last[|start|..];
  }

  // ---------------------------------------------------------------- the turn

  /** The system prompt of the agent's session: that of the stored one, unless it is blank. */
  function OwnPrompt(stored: seq<Message>, agentPrompt: string): string {
    if stored != [] && stored[0].role.System? && Text.Trim(stored[0].content) != "" then stored[0].content
    else agentPrompt
  }

  /** The agent's session as the turn finds it. */
  function SeededWith(stored: seq<Message>, agentPrompt: string): seq<Message> {
    Replayed([SystemMessage(OwnPrompt(stored, agentPrompt))], stored)
  }

  method NewAgentSession(stored: Session, agentPrompt: string) returns (agent: Session)
    requires agentPrompt != ""
    ensures fresh(agent) && agent.messages == SeededWith(stored.messages, agentPrompt)
  {
    hide Replayed;
    agent := new Session(agentPrompt);
    if |stored.messages| > 0 && stored.messages[0].role.System? && Text.Trim(stored.messages[0].content) != "" {
      agent.UpdateSystemPrompt(stored.messages[0].content);
    }
    assert agent.messages == [SystemMessage(OwnPrompt(stored.messages, agentPrompt))];
    SeedAgentSession(agent, stored);
  }

  /** The session with the prompt as its last message, which it may be already. */
  function WithPrompt(h: seq<Message>, prompt: string): seq<Message> {
    if h != [] && h[|h| - 1].role.User? && h[|h| - 1].content == prompt then h else h + [UserMessage(prompt)]
  }

  /** The prompt becomes the last message, if it is not that already. */
  method AddPrompt(agent: Session, prompt: string, ghost told: map<nat, RawMessage>)
    requires Inv(State(agent.messages, told)) && Paired(agent.messages)
    modifies agent`messages
    ensures Inv(State(agent.messages, told)) && Paired(agent.messages) && Grows(old(agent.messages), agent.messages)
    ensures agent.messages == WithPrompt(old(agent.messages), prompt)
    ensures var h := old(agent.messages);
      if h != [] && h[|h| - 1].role == User && h[|h| - 1].content == prompt then agent.messages == h
      else agent.messages == h + [Message(User, prompt, [], "", "", false, false, false, 0)]
    ensures var h := agent.messages; h != [] && h[|h| - 1].role.User? && h[|h| - 1].content == prompt
  {
    hide Inv, Paired, Grows;
    var h := agent.messages;
    GrowsSame(h);
    if |h| == 0 || !h[|h| - 1].role.User? || h[|h| - 1].content != prompt {
      StepKeepsInv(State(h, told), AddUser(prompt));
      StepPaired(State(h, told), AddUser(prompt));
      GrowsAppend(h, [UserMessage(prompt)]);
      agent.AddUserMessage(prompt);
    }
  }

  lemma {:induction false} TurnEnds(h: seq<Message>, told: map<nat, RawMessage>, trace: Trace)
    requires Kept(h, told, trace)
    ensures Paired(h) && Chained(trace.start, trace.checkpoints, h)
    ensures forall k :: 0 <= k < |trace.checkpoints| ==> IsCheckpoint(trace.checkpoints[k])
  {
    hide Inv, Paired, Chained, IsCheckpoint, EnteredAt;
  }

  lemma {:induction false} ReasoningEnds(start: seq<Message>, checkpoints: seq<seq<Message>>, h: seq<Message>,
      text: string)
    requires Paired(h) && Chained(start, checkpoints, h)
    ensures Paired(h + [InternalMessage(text)]) && Chained(start, checkpoints, h + [InternalMessage(text)])
  {
    hide Paired, Chained, Grows;
    AppendOnePaired(h, InternalMessage(text));
    GrowsAppend(h, [InternalMessage(text)]);
    ChainedOn(start, checkpoints, h, h + [InternalMessage(text)]);
  }

  lemma {:induction false} CheckpointsPaired(hs: seq<seq<Message>>)
    requires forall k :: 0 <= k < |hs| ==> IsCheckpoint(hs[k])
    ensures forall k :: 0 <= k < |hs| ==> Paired(hs[k])
  {
    hide Paired;
  }

  /** Puts together what the checkpoints, the last sync and the drained texts left. */
  lemma {:induction false} StoredIs(base: seq<Message>, stored: seq<Message>, cursor: nat, mirrored: set<string>,
      trace: Trace, last: seq<Message>, given: seq<string>, cancelled: bool)
    requires Synced(stored, cursor, mirrored, base, trace)
    ensures stored + Copies(last, cursor, |last|, |last|) +
      (if cancelled then [] else UserMessages(Leftovers(given, mirrored + MirroredTexts(last, cursor, |last|)))) ==
      base + StoredByTurn(trace.start, trace.checkpoints, last, given, cancelled)
  {
    hide SyncedOver, CursorOver, MirroredOver, Leftovers, UserMessages, Copies, MirroredTexts;
    SyncKeepsSynced(stored, cursor, mirrored, base, trace, last);
    var synced := SyncedOver(|trace.start|, trace.checkpoints + [last]);
    var more := if cancelled then [] else
      UserMessages(Leftovers(given, MirroredOver(|trace.start|, trace.checkpoints + [last])));
    assert base + synced + more == base + (synced + more);
  }

  /** The turn was cancelled: its error says so. */
  predicate IsCancelled(r: TurnResult) {
    r.Aborted? && Text.Contains(r.reason, "context canceled")
  }

  /** An answer is not cancelled, and an abort exactly if these words stand somewhere in its reason. */
  lemma {:induction false} CancelledIff(r: TurnResult)
    ensures r.Finished? ==> !IsCancelled(r)
    ensures r.Aborted? ==> (IsCancelled(r) <==> exists before, after ::
      r.reason == before + "context canceled" + after)
  {
    if IsCancelled(r) {
      var i :| 0 <= i <= |r.reason| && Text.StandsAt(r.reason, i, "context canceled");
      assert r.reason == r.reason[..i] + "context canceled" + r.reason[i + 16..];
    }
    if r.Aborted? {
      if before, after :| r.reason == before + "context canceled" + after {
        assert Text.StandsAt(r.reason, |before|, "context canceled");
      }
    }
  }

  /** Seeds the agent's session, runs the turn and mirrors it back. `reasoning` is the summary of the reasoning that
      is added behind the turn, or empty. `turn` is the turn that was run, and `said` its transcript at the end. */
  method SendToModel(stored: Session, input: PeerInputs.PeerInput, agentPrompt: string, prompt: string,
      reasoning: string, world: World, limit: nat, ghost told: map<nat, RawMessage>)
    returns (r: TurnResult, agent: Session, ghost turn: TurnContext, ghost said: seq<Message>)
    requires StoredInv(State(stored.messages, told)) && agentPrompt != ""
    modifies stored`messages, input`pending, input`promoted
    // What was run, and how it ended.
    ensures turn.session == agent && turn.world == world && turn.limit == limit
    ensures turn.trace.start == SeededWith(old(stored.messages), agentPrompt)
    ensures Grows(WithPrompt(turn.trace.start, prompt), said) && turn.EndedWith(0, r, said)
    ensures agent.messages == said + if reasoning != "" then [InternalMessage(reasoning)] else []
    ensures turn.iterations <= limit + 1 && |turn.sent| == turn.streamCalls <= 8 * limit && AllSendable(turn.sent)
    ensures limit > 0 && r.Finished? ==> turn.streamCalls > 0
    ensures AllHandled(world, WithPrompt(turn.trace.start, prompt), turn.handled)
    ensures r.Finished? ==> |turn.handled| == if turn.iterations <= limit then turn.iterations else limit
    ensures Batches.DistinctSignatures(turn.log, world.signature)
    // What was said to it meanwhile.
    ensures old(input.pending) + world.steering(0) <= turn.drained && turn.trace.steered <= turn.drained
    ensures EnteredAt(said, |turn.trace.start|, turn.trace.steered, turn.trace.at)
    // What is stored of it.
    ensures AlikeThroughout(turn.trace.start, old(stored.messages))
    ensures Chained(turn.trace.start, turn.trace.checkpoints, agent.messages)
    ensures Paired(turn.trace.start) && Paired(agent.messages)
    ensures forall k :: 0 <= k < |turn.trace.checkpoints| ==> IsCheckpoint(turn.trace.checkpoints[k])
    ensures stored.messages == old(stored.messages) + StoredByTurn(turn.trace.start, turn.trace.checkpoints,
      agent.messages, old(input.promoted) + turn.drained, IsCancelled(r))
    ensures !IsCancelled(r) ==> forall text :: text in old(input.pending) || text in turn.drained ==>
      Says(stored.messages, text)
    ensures NoPrompts(old(input.promoted) + turn.drained) && NoneStripped(agent.messages, |turn.trace.start|) ==>
      StoredInv(State(stored.messages, told))
  {
    hide Inv, Replayable, Paired, Kept, Synced, Chained, Grows, IsCheckpoint, SeededWith, StoredByTurn, WithPrompt;
    hide AlikeThroughout, Leftovers, UserMessages, Copies, MirroredTexts, NoneStripped, IsAnswer, NoPrompts, Says;
    hide EnteredAt, WellMarked, Batches.Ledger, Batches.DistinctSignatures, Batches.Signatures, AllSendable;
    hide AbortedBetween, LimitNotice, EndsWith, Text.Contains, AllHandled, StoredInv;
    ghost var base, promoted, pending := stored.messages, input.promoted, input.pending;
    agent := NewAgentSession(stored, agentPrompt);
    ghost var start := agent.messages;
    SeededKeeps(base, agentPrompt, told);
    var mirror := new TurnMirror(stored, agent, |agent.messages|);
    AddPrompt(agent, prompt, told);
    var running := new TurnContext(agent, mirror, input, world, limit, told, start);
    r := running.RunTurn();
    turn, said := running, agent.messages;
    ghost var checkpoints, drained := turn.trace.checkpoints, turn.drained;
    TurnEnds(said, turn.told, turn.trace);
    if reasoning != "" {
      ReasoningEnds(start, checkpoints, agent.messages, reasoning);
      agent.AddAssistantMessageInternal(reasoning);
    }
    var cancelled := IsCancelled(r);
    StoredIs(base, stored.messages, mirror.cursor, mirror.mirrored, turn.trace, agent.messages, promoted + drained,
      cancelled);
    mirror.FinishTurn(input, cancelled);
    if !cancelled {
      AllAreStored(base, start, checkpoints, agent.messages, promoted, pending, drained);
    }
    TurnLeavesReady(State(base, told), start, checkpoints, agent.messages, promoted + drained, cancelled);
  }

  lemma {:induction false} TurnLeavesReady(t: State, start: seq<Message>, checkpoints: seq<seq<Message>>,
      last: seq<Message>, drained: seq<string>, cancelled: bool)
    requires StoredInv(t) && Paired(start) && Paired(last) && Chained(start, checkpoints, last)
    requires forall k :: 0 <= k < |checkpoints| ==> IsCheckpoint(checkpoints[k])
    ensures NoPrompts(drained) && NoneStripped(last, |start|) ==>
      StoredInv(State(t.history + StoredByTurn(start, checkpoints, last, drained, cancelled), t.told))
  {
    hide StoredInv, Paired, Chained, IsCheckpoint, NoPrompts, NoneStripped, StoredByTurn;
    if NoneStripped(last, |start|) && NoPrompts(drained) {
      CheckpointsPaired(checkpoints);
      var events := TurnKeepsStored(t, start, checkpoints, last, drained, cancelled);
    }
  }

  lemma {:induction false} AllAreStored(base: seq<Message>, start: seq<Message>, checkpoints: seq<seq<Message>>,
      last: seq<Message>, promoted: seq<string>, pending: seq<string>, drained: seq<string>)
    requires pending <= drained
    ensures forall text :: text in pending || text in drained ==>
      Says(base + StoredByTurn(start, checkpoints, last, promoted + drained, false), text)
  {
    hide Says, StoredByTurn;
    forall text | text in pending || text in drained
      ensures Says(base + StoredByTurn(start, checkpoints, last, promoted + drained, false), text)
    {
      assert text in drained;
      DrainedIsStored(start, checkpoints, last, promoted + drained, text);
      SaysConcat(base, StoredByTurn(start, checkpoints, last, promoted + drained, false), text);
    }
  }

  /** The agent's session begins with the system text of the stored one; with its own, if the stored one has none or a
      blank one. */
  lemma {:induction false} SeededBegins(stored: seq<Message>, agentPrompt: string)
    ensures var start := SeededWith(stored, agentPrompt);
      var own := stored == [] || stored[0].role != System || Text.Blank(stored[0].content);
      start != [] && start[0] == Message(System, if own then agentPrompt
        else stored[0].content, [], "", "", false, false,
        false, 0)
  {
    hide Replayed;
    if stored != [] { Text.TrimEmpty(stored[0].content); }
    ReplayedBegins([SystemMessage(OwnPrompt(stored, agentPrompt))], stored);
  }

  lemma {:induction false} ReplayedBegins(target: seq<Message>, source: seq<Message>)
    requires target != [] && target[0].role == System
    ensures Replayed(target, source) != [] && Replayed(target, source)[0] == target[0]
  {
    if source != [] {
      var before := Replayed(target, source[..|source| - 1]);
      ReplayedBegins(target, source[..|source| - 1]);
      hide Replayed;
      OneMoreReplayed(before, source[|source| - 1]);
      assert Replayed(target, source) == ReplayMessage(before,
        source[|source| - 1]) by { ReplayedUnfold(target, source); }
    }
  }

  lemma {:induction false} ReplayedUnfold(target: seq<Message>, source: seq<Message>)
    requires source != []
    ensures Replayed(target, source) == ReplayMessage(Replayed(target, source[..|source| - 1]), source[|source| - 1])
  {
    hide ReplayMessage;
  }

  lemma {:induction false} OneMoreReplayed(before: seq<Message>, m: Message)
    requires before != [] && before[0].role == System
    ensures ReplayMessage(before, m) != [] && ReplayMessage(before, m)[0] == before[0]
  {
  }

  lemma {:induction false} SeededKeeps(base: seq<Message>, agentPrompt: string, told: map<nat, RawMessage>)
    requires StoredInv(State(base, told))
    ensures var start := SeededWith(base, agentPrompt);
      Inv(State(start, told)) && Paired(start) && AlikeThroughout(start, base)
  {
    hide Inv, Replayable, Paired, AlikeThroughout, Replayed;
    SeedingKeepsInv(OwnPrompt(base, agentPrompt), base, told);
  }
}
