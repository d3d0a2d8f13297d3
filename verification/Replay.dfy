/** Seeding a fresh agent session from a stored one by replaying its messages. */
module Replay {
  import opened Messages
  import opened Sessions
  import opened Transcripts
  import opened Compaction

  /** What replaying one stored message appends to the target. */
  function ReplayMessage(target: seq<Message>, m: Message): seq<Message> {
    if m.role.System? then target
    else if IsPrompt(m) then target
    else if m.summary then Marked(target, m.tailStartID, m.content)
    else if m.role.User? then target + [UserMessage(m.content)]
    else if m.role.Assistant? && m.toolCalls != [] then target + [CallMessage(m.content, m.toolCalls)]
    else if m.role.Assistant? && (m.internalOnly || IsInternalText(m.content)) then
      target + [InternalMessage(m.content)]
    else if m.role.Assistant? then target + [AssistantMessage(m.content)]
    else target + [ToolMessage(m.toolCallID, m.name, m.content)]
  }

  function Replayed(target: seq<Message>, source: seq<Message>): seq<Message> {
    if source == [] then target
    else ReplayMessage(Replayed(target, source[..|source| - 1]), source[|source| - 1])
  }

  method SeedAgentSession(target: Session, source: Session)
    requires target != source
    modifies target`messages
    ensures target.messages == Replayed(old(target.messages), source.messages)
  {
    var history := source.messages;
    for i := 0 to |history|
      invariant target.messages == Replayed(old(target.messages), history[..i])
    {
      var msg := history[i];
      assert history[..i + 1][..i] == history[..i];
      if msg.role.System? {
        continue;
      }
      if msg.role.User? && msg.content == COMPACTION_USER_MESSAGE {
        continue;
      }
      if msg.summary {
        target.MarkCompaction(msg.tailStartID, msg.content);
      } else if msg.role.User? {
        target.AddUserMessage(msg.content);
      } else if msg.role.Assistant? && |msg.toolCalls| > 0 {
        target.AddAssistantMessageWithToolCalls(msg.content, msg.toolCalls);
      } else if msg.role.Assistant? && (msg.internalOnly || IsInternalText(msg.content)) {
        target.AddAssistantMessageInternal(msg.content);
      } else if msg.role.Assistant? {
        target.AddAssistantMessage(msg.content);
      } else {
        target.AddToolMessage(msg.toolCallID, msg.name, msg.content);
      }
    }
    assert history[..|history|] == history;
  }

  // ---- Which transcripts replay to themselves ----

  /** The fields that the session's own methods fill for each role. */
  predicate IsStored(m: Message) {
    && (m.toolCalls != [] ==> m.role.Assistant? && !m.summary)
    && (m.toolCallID != "" || m.name != "" ==> m.role.Tool?)
    && (m.summary ==> m.role.Assistant?)
    && (!m.summary ==> m.tailStartID == 0)
  }

  ghost predicate AllStored(h: seq<Message>) { forall i :: 0 <= i < |h| ==> IsStored(h[i]) }

  /** Each compaction prompt is directly followed by a summary, and each summary preceded by one. */
  ghost predicate PromptsPaired(h: seq<Message>) {
    && (forall i :: 0 <= i < |h| && IsPrompt(h[i]) ==> i + 1 < |h| && h[i + 1].summary)
    && (forall i :: 0 <= i < |h| && h[i].summary ==> i >= 1 && IsPrompt(h[i - 1]))
  }

  /** The same message, but for the flags that say what became of it. */
  predicate Alike(a: Message, b: Message) {
    a == b.(internalOnly := a.internalOnly, compacted := a.compacted)
  }

  /** The system message may differ; every other position holds the same message. */
  ghost predicate AlikeThroughout(a: seq<Message>, b: seq<Message>) {
    && |a| == |b|
    && forall i :: 0 <= i < |a| ==> (a[i].role.System? && b[i].role.System?) || Alike(a[i], b[i])
  }

  lemma {:induction false} ConcatAlike(a1: seq<Message>, b1: seq<Message>, a2: seq<Message>, b2: seq<Message>)
    requires AlikeThroughout(a1, b1) && AlikeThroughout(a2, b2)
    ensures AlikeThroughout(a1 + a2, b1 + b2)
  {
  }

  lemma {:induction false} FlaggedIsAlike(a: seq<Message>, b: seq<Message>, tail: int)
    requires AlikeThroughout(a, b)
    ensures AlikeThroughout(FlagBefore(a, tail), b)
  {
  }

  /** Replaying a prompt and its summary appends that pair. */
  lemma {:induction false} ReplayPair(before: seq<Message>, h: seq<Message>, n: nat)
    requires 2 <= n <= |h| && AlikeThroughout(before, h[..n - 2])
    requires IsPrompt(h[n - 2]) && h[n - 1].summary && IsStored(h[n - 2]) && IsStored(h[n - 1])
    ensures AlikeThroughout(ReplayMessage(before, h[n - 1]), h[..n])
  {
    hide AlikeThroughout, FlagBefore;
    var m := h[n - 1];
    FlaggedIsAlike(before, h[..n - 2], m.tailStartID);
    PairAlike(h[n - 2], m);
    ConcatAlike(FlagBefore(before, m.tailStartID), h[..n - 2],
      [PromptMessage(), SummaryMessage(m.content, m.tailStartID)], [h[n - 2], m]);
    assert h[..n] == h[..n - 2] + [h[n - 2], m];
  }

  lemma {:induction false} PairAlike(p: Message, m: Message)
    requires IsPrompt(p) && m.summary && IsStored(p) && IsStored(m)
    ensures AlikeThroughout([PromptMessage(), SummaryMessage(m.content, m.tailStartID)], [p, m])
  {
  }

  /** Replaying any other message appends that message. */
  lemma {:induction false} ReplayPlain(before: seq<Message>, h: seq<Message>, n: nat)
    requires 1 <= n <= |h| && AlikeThroughout(before, h[..n - 1])
    requires IsStored(h[n - 1]) && !h[n - 1].summary && !IsPrompt(h[n - 1]) && !h[n - 1].role.System?
    ensures AlikeThroughout(ReplayMessage(before, h[n - 1]), h[..n])
  {
    var m := h[n - 1];
    var after := ReplayMessage(before, m);
    assert Alike(after[|before|], m) && |after| == |before| + 1;
    hide AlikeThroughout;
    assert AlikeThroughout([after[|before|]], [m]) by { OneAlike(after[|before|], m); }
    ConcatAlike(before, h[..n - 1], [after[|before|]], [m]);
    assert h[..n] == h[..n - 1] + [m];
  }

  lemma {:induction false} OneAlike(a: Message, b: Message)
    requires Alike(a, b)
    ensures AlikeThroughout([a], [b])
  {
  }

  /** Replaying a prefix gives the prefix, except that a prompt waits for its summary. */
  lemma {:induction false} ReplayPrefix(systemPrompt: string, h: seq<Message>, n: nat)
    requires 1 <= n <= |h| && SystemFirst(h) && AllStored(h) && PromptsPaired(h)
    ensures var k := if IsPrompt(h[n - 1]) then n - 1 else n;
      AlikeThroughout(Replayed([SystemMessage(systemPrompt)], h[..n]), h[..k])
  {
    assert h[..n][..n - 1] == h[..n - 1];
    assert IsStored(h[n - 1]);
    var before := Replayed([SystemMessage(systemPrompt)], h[..n - 1]);
    if n == 1 {
      assert before == [SystemMessage(systemPrompt)];
    } else {
      ReplayPrefix(systemPrompt, h, n - 1);
      hide AlikeThroughout;
      assert IsStored(h[n - 2]);
      assert IsPrompt(h[n - 2]) <==> h[n - 1].summary;
      if h[n - 1].summary {
        ReplayPair(before, h, n);
      } else if !IsPrompt(h[n - 1]) {
        ReplayPlain(before, h, n);
      }
    }
  }

  /** A replay never leaves a prompt without its summary, whatever it was fed. */
  lemma {:induction false} ReplayIsPaired(systemPrompt: string, source: seq<Message>)
    ensures PromptsPaired(Replayed([SystemMessage(systemPrompt)], source))
  {
    if source != [] {
      var n := |source| - 1;
      ReplayIsPaired(systemPrompt, source[..n]);
      PairedStep(Replayed([SystemMessage(systemPrompt)], source[..n]), source[n]);
    }
  }

  lemma {:induction false} PairedStep(before: seq<Message>, m: Message)
    requires PromptsPaired(before)
    ensures PromptsPaired(ReplayMessage(before, m))
  {
    if !m.role.System? && !IsPrompt(m) {
      if m.summary {
        PairedMark(before, m.tailStartID, m.content);
      } else {
        var after := ReplayMessage(before, m);
        PairedPlain(before, after[|before|]);
      }
    }
  }

  lemma {:induction false} PairedPlain(before: seq<Message>, m: Message)
    requires PromptsPaired(before) && !IsPrompt(m) && !m.summary
    ensures PromptsPaired(before + [m])
  {
    forall i | 0 <= i < |before + [m]| && IsPrompt((before + [m])[i])
      ensures i + 1 < |before + [m]| && (before + [m])[i + 1].summary
    {
      assert IsPrompt(before[i]);
    }
  }

  lemma {:induction false} PairedMark(before: seq<Message>, tail: int, summary: string)
    requires PromptsPaired(before)
    ensures PromptsPaired(Marked(before, tail, summary))
  {
    var after := Marked(before, tail, summary);
    forall i | 0 <= i < |after|
      ensures IsPrompt(after[i]) ==> i + 1 < |after| && after[i + 1].summary
      ensures after[i].summary ==> i >= 1 && IsPrompt(after[i - 1])
    {
      if i < |before| {
        assert IsPrompt(before[i]) ==> before[i + 1].summary;
        assert before[i].summary ==> IsPrompt(before[i - 1]);
      }
    }
  }

  /** Replaying a transcript into a one-message session keeps every message at its index exactly
      when its prompts and summaries are paired. */
  lemma {:induction false} SeedingKeepsIndexesIff(systemPrompt: string, h: seq<Message>)
    requires SystemFirst(h) && AllStored(h)
    ensures AlikeThroughout(Replayed([SystemMessage(systemPrompt)], h), h) <==> PromptsPaired(h)
  {
    hide Replayed;
    var r := Replayed([SystemMessage(systemPrompt)], h);
    if PromptsPaired(h) {
      ReplayPrefix(systemPrompt, h, |h|);
      assert h[..|h|] == h;
    }
    if AlikeThroughout(r, h) {
      ReplayIsPaired(systemPrompt, h);
      forall i | 0 <= i < |h|
        ensures IsPrompt(h[i]) == IsPrompt(r[i]) && h[i].summary == r[i].summary
      {
        assert IsStored(h[i]);
      }
    }
  }

  // ---- The view after seeding ----

  lemma {:induction false} ExceptAlike(a: seq<Message>, b: seq<Message>, lo: nat, hi: nat, u: int, m: int)
    requires hi <= |a| && AlikeThroughout(a, b)
    ensures AlikeThroughout(Except(a, lo, hi, u, m), Except(b, lo, hi, u, m))
  {
    if hi > lo { ExceptAlike(a, b, lo, hi - 1, u, m); }
  }

  lemma {:induction false} LastUserAlike(a: seq<Message>, b: seq<Message>, n: nat)
    requires n <= |a| && AlikeThroughout(a, b)
    ensures LastUserBefore(a, n) == LastUserBefore(b, n)
  {
    if n > 0 { LastUserAlike(a, b, n - 1); }
  }

  lemma {:induction false} VisibleAlike(a: seq<Message>, b: seq<Message>)
    requires AlikeThroughout(a, b) && SystemFirst(b) && AllStored(b)
    ensures AlikeThroughout(Visible(a), Visible(b))
  {
    hide Except, LastUserBefore;
    var m := LastMarker(b);
    assert m >= 0 ==> IsStored(b[m]);
    forall i | 0 <= i < |a|
      ensures IsMarker(a[i]) ==> IsMarker(b[i])
    {
      assert IsStored(b[i]);
    }
    LastMarkerUnique(a, m);
    if m >= 0 {
      LastUserAlike(a, b, m);
      var u := LastUserBefore(b, m);
      if u >= 0 {
        var t := if b[m].tailStartID <= 0 || b[m].tailStartID >= |b| then u + 1 else b[m].tailStartID;
        ExceptAlike(a, b, t, |a|, u, m);
        ConcatAlike([a[u], a[m]], [b[u], b[m]], Except(a, t, |a|, u, m), Except(b, t, |b|, u, m));
        ConcatAlike([a[0]], [b[0]], [a[u], a[m]] + Except(a, t, |a|, u, m), [b[u], b[m]] + Except(b, t, |b|, u, m));
      }
    }
  }

  // ---- Every transcript that the session's own operations produce ----

  predicate TypesNoPrompt(e: Event) { e.AddUser? ==> e.text != COMPACTION_USER_MESSAGE }

  ghost predicate Replayable(h: seq<Message>) { AllStored(h) && PromptsPaired(h) && SystemFirst(h) }

  lemma {:induction false} AppendReplayable(h: seq<Message>, ms: seq<Message>)
    requires Replayable(h)
    requires forall k :: 0 <= k < |ms| ==> IsStored(ms[k]) && !ms[k].summary && !IsPrompt(ms[k]) && !ms[k].role.System?
    ensures Replayable(h + ms)
  {
    forall i | 0 <= i < |h + ms| && IsPrompt((h + ms)[i])
      ensures i + 1 < |h + ms| && (h + ms)[i + 1].summary
    {
      assert i < |h| && IsPrompt(h[i]);
    }
  }

  lemma {:induction false} MarkedReplayable(h: seq<Message>, tail: int, summary: string)
    requires Replayable(h)
    ensures Replayable(Marked(h, tail, summary))
  {
    var r := Marked(h, tail, summary);
    forall i | 0 <= i < |r|
      ensures IsStored(r[i])
      ensures IsPrompt(r[i]) ==> i + 1 < |r| && r[i + 1].summary
      ensures r[i].summary ==> i >= 1 && IsPrompt(r[i - 1])
    {
      if i < |h| {
        assert IsStored(h[i]);
        assert IsPrompt(h[i]) ==> h[i + 1].summary;
      }
    }
  }

  lemma {:induction false} ClearedReplayable(h: seq<Message>, r: seq<Message>)
    requires Replayable(h) && SameButCleared(h, r)
    ensures Replayable(r)
  {
    forall i | 0 <= i < |r|
      ensures IsStored(r[i])
      ensures IsPrompt(r[i]) ==> i + 1 < |r| && r[i + 1].summary
      ensures r[i].summary ==> i >= 1 && IsPrompt(r[i - 1])
    {
      assert IsStored(h[i]);
      assert IsPrompt(h[i]) ==> h[i + 1].summary;
    }
  }

  lemma {:induction false} StepReplayable(t: State, e: Event)
    requires Inv(t) && Replayable(t.history) && TypesNoPrompt(e)
    ensures Replayable(Step(t, e).history)
  {
    hide Inv, Replayable, PrunedHistory, SystemUpdated, Marked, PlanOf;
    match e
    case AddUser(text) => AppendReplayable(t.history, [UserMessage(text)]);
    case AddAssistant(text) => AppendReplayable(t.history, [AssistantMessage(text)]);
    case AddInternal(text) => AppendReplayable(t.history, [InternalMessage(text)]);
    case AddBatch(text, calls, results) =>
      AppendReplayable(t.history, [CallMessage(text, calls)] + ResultMessages(results));
    case SetSystemPrompt(text) =>
      SystemUpdateClears(t, text);
      ClearedReplayable(t.history, SystemUpdated(t.history, text));
    case Prune =>
      PruningClears(t.history);
      ClearedReplayable(t.history, PrunedHistory(t.history));
    case Compress(keep, summary) =>
      var p := PlanHeadBounded(t.history, keep);
      if p.Plan? {
        MarkedReplayable(t.history, p.firstKept, summary);
      }
  }

  lemma {:induction false} RunReplayable(systemPrompt: string, events: seq<Event>)
    requires forall k :: 0 <= k < |events| ==> TypesNoPrompt(events[k])
    ensures Replayable(Run(Init(systemPrompt), events).history)
  {
    hide Step, Inv, TypesNoPrompt;
    if events != [] {
      var n := |events| - 1;
      RunReplayable(systemPrompt, events[..n]);
      RunKeepsInv(systemPrompt, events[..n]);
      StepReplayable(Run(Init(systemPrompt), events[..n]), events[n]);
    }
  }

  /** In every run in which nobody types the compaction prompt: the seeded session holds the same
      message at every index, so all tail starts name the same messages, and the model is shown
      the same context, pins and the system text aside. */
  lemma {:induction false} SeedingKeepsEverything(systemPrompt: string, agentPrompt: string, events: seq<Event>)
    requires forall k :: 0 <= k < |events| ==> TypesNoPrompt(events[k])
    ensures var h := Run(Init(systemPrompt), events).history;
      var r := Replayed([SystemMessage(agentPrompt)], h);
      && AlikeThroughout(r, h)
      && AlikeThroughout(Visible(r), Visible(h))
  {
    hide Run, Replayed, Visible;
    var h := Run(Init(systemPrompt), events).history;
    RunReplayable(systemPrompt, events);
    SeedingKeepsIndexesIff(agentPrompt, h);
    VisibleAlike(Replayed([SystemMessage(agentPrompt)], h), h);
  }
}
