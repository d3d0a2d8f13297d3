/** How a transcript may grow within a turn, and what is remembered of it: the steering texts that entered
    and the transcript at every checkpoint. */
module Traces {
  import opened Messages
  import opened Sessions
  import opened Pruning
  import opened Transcripts
  import opened Pairing

  /** The same message, up to the flag and the content of cleared tool output. */
  predicate KeptAs(a: Message, b: Message) {
    b == a.(content := b.content, compacted := b.compacted) && (a.role.Tool? || b.content == a.content)
  }

  /** Messages are only appended, flagged and cleared. */
  ghost predicate Grows(a: seq<Message>, b: seq<Message>) {
    |a| <= |b| && forall i :: 0 <= i < |a| ==> KeptAs(a[i], b[i])
  }

  lemma {:induction false} GrowsAppend(a: seq<Message>, more: seq<Message>)
    ensures Grows(a, a + more)
  {
  }

  lemma {:induction false} GrowsSame(a: seq<Message>)
    ensures Grows(a, a)
  {
  }

  lemma {:induction false} GrowsOn(a: seq<Message>, b: seq<Message>, c: seq<Message>)
    requires Grows(a, b) && Grows(b, c)
    ensures Grows(a, c)
  {
  }

  lemma {:induction false} GrowsMarked(h: seq<Message>, tail: int, summary: string)
    ensures Grows(h, Marked(h, tail, summary))
  {
  }

  lemma {:induction false} GrowsPruned(h: seq<Message>)
    ensures Grows(h, PrunedHistory(h))
  {
    hide Pruned;
    PruningKeepsOthers(h);
  }

  lemma {:induction false} PruningKeepsOthers(h: seq<Message>)
    ensures forall i :: 0 <= i < |h| ==>
      PrunedHistory(h)[i] == h[i] || (h[i].role.Tool? && KeptAs(h[i], PrunedHistory(h)[i]))
  {
    hide Pruned;
    PrunedShape(Raw(h), PRUNE_PROTECTED_TOOLS);
    forall i | 0 <= i < |h|
      ensures PrunedHistory(h)[i] == h[i] || (h[i].role.Tool? && KeptAs(h[i], PrunedHistory(h)[i]))
    {
      assert Raw(h)[i] == RawOf(h[i]);
    }
  }

  // ---- What is remembered ----

  /** The transcript at the start, the same with the prompt of the turn, the steering texts that entered it and
      where, and the transcript at every checkpoint. */
  datatype Trace = Trace(start: seq<Message>, prompted: seq<Message>, steered: seq<string>, at: seq<nat>,
    checkpoints: seq<seq<Message>>)

  /** The texts stand in the transcript as user messages, behind `start` and in order. */
  ghost predicate EnteredAt(h: seq<Message>, start: nat, texts: seq<string>, at: seq<nat>) {
    && |at| == |texts|
    && (forall k :: 0 <= k < |at| ==>
      start <= at[k] < |h| && h[at[k]].role.User? && h[at[k]].content == texts[k])
    && (forall j, k :: 0 <= j < k < |at| ==> at[j] < at[k])
  }

  /** The newest message is a tool result, and calls and results are paired. */
  ghost predicate IsCheckpoint(h: seq<Message>) {
    h != [] && h[|h| - 1].role.Tool? && Paired(h)
  }

  /** Each transcript of the list grew out of the one before it, `last` out of them all. */
  ghost predicate Chained(start: seq<Message>, hs: seq<seq<Message>>, last: seq<Message>) {
    if hs == [] then Grows(start, last)
    else Chained(start, hs[..|hs| - 1], hs[|hs| - 1]) && Grows(hs[|hs| - 1], last)
  }

  ghost predicate TraceInv(t: Trace, h: seq<Message>) {
    && Chained(t.start, t.checkpoints, h) && Grows(t.prompted, h)
    && (forall k :: 0 <= k < |t.checkpoints| ==> IsCheckpoint(t.checkpoints[k]))
    && EnteredAt(h, |t.start|, t.steered, t.at)
  }

  lemma {:induction false} NewTraceInv(start: seq<Message>, h: seq<Message>)
    requires Grows(start, h)
    ensures TraceInv(Trace(start, h, [], [], []), h)
  {
  }

  lemma {:induction false} ChainedGrows(start: seq<Message>, hs: seq<seq<Message>>, h: seq<Message>)
    requires Chained(start, hs, h)
    ensures Grows(start, h)
  {
    hide Grows;
    if hs != [] {
      ChainedGrows(start, hs[..|hs| - 1], hs[|hs| - 1]);
      GrowsOn(start, hs[|hs| - 1], h);
    }
  }

  lemma {:induction false} ChainedOn(start: seq<Message>, hs: seq<seq<Message>>, h: seq<Message>, h': seq<Message>)
    requires Chained(start, hs, h) && Grows(h, h')
    ensures Chained(start, hs, h')
  {
    hide Grows;
    GrowsOn(if hs == [] then start else hs[|hs| - 1], h, h');
  }

  /** Whatever a turn does to the transcript, what is remembered stays true. */
  lemma {:induction false} TraceGrows(t: Trace, h: seq<Message>, h': seq<Message>)
    requires TraceInv(t, h) && Grows(h, h')
    ensures TraceInv(t, h')
  {
    hide Chained, IsCheckpoint;
    GrowsOn(t.prompted, h, h');
    ChainedOn(t.start, t.checkpoints, h, h');
  }

  lemma {:induction false} TraceSteers(t: Trace, h: seq<Message>, text: string)
    requires TraceInv(t, h)
    ensures TraceInv(t.(steered := t.steered + [text], at := t.at + [|h|]), h + [UserMessage(text)])
  {
    hide Chained, IsCheckpoint;
    ChainedGrows(t.start, t.checkpoints, h);
    GrowsAppend(h, [UserMessage(text)]);
    GrowsOn(t.prompted, h, h + [UserMessage(text)]);
    ChainedOn(t.start, t.checkpoints, h, h + [UserMessage(text)]);
  }

  lemma {:induction false} TraceCheckpoints(t: Trace, h: seq<Message>)
    requires TraceInv(t, h) && IsCheckpoint(h)
    ensures TraceInv(t.(checkpoints := t.checkpoints + [h]), h)
  {
    hide IsCheckpoint;
    var hs := t.checkpoints + [h];
    assert hs[..|hs| - 1] == t.checkpoints;
    GrowsSame(h);
  }
}
