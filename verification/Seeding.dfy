/** What seeding an agent's session keeps: everything the laws of runs need, so that they go on from the
    seeded session (pkg/agentloop/agentloop.go:716-739, 774-788). */
module Seeding {
  import opened Messages
  import opened Sessions
  import opened Transcripts
  import opened Compaction
  import opened Pairing
  import opened Replay

  /** A summary at `j` whose tail starts behind `i`, with `i` before its prompt. */
  predicate BelowMark(r: seq<Message>, i: nat, j: nat) {
    j < |r| && r[j].summary && i + 1 < j && i < r[j].tailStartID
  }

  /** Exactly the messages below some tail start are flagged. */
  ghost predicate FlagsFollowMarks(r: seq<Message>) {
    forall i :: 0 <= i < |r| ==> (r[i].compacted <==> !r[i].role.System? && exists j: nat :: BelowMark(r, i, j))
  }

  lemma {:induction false} AppendFollowsMarks(r: seq<Message>, m: Message)
    requires FlagsFollowMarks(r) && !m.summary && !m.compacted
    ensures FlagsFollowMarks(r + [m])
  {
    var r' := r + [m];
    forall i | 0 <= i < |r'|
      ensures r'[i].compacted <==> !r'[i].role.System? && exists j: nat :: BelowMark(r', i, j)
    {
      if i < |r| {
        assert forall j: nat :: BelowMark(r', i, j) <==> BelowMark(r, i, j);
      }
    }
  }

  lemma {:induction false} MarkedFollowsMarks(r: seq<Message>, tail: int, summary: string)
    requires FlagsFollowMarks(r)
    ensures FlagsFollowMarks(Marked(r, tail, summary))
  {
    var r' := Marked(r, tail, summary);
    var n := |r| + 1;
    forall i | 0 <= i < |r'|
      ensures r'[i].compacted <==> !r'[i].role.System? && exists j: nat :: BelowMark(r', i, j)
    {
      assert forall j: nat :: j < |r| ==> (BelowMark(r', i, j) <==> BelowMark(r, i, j));
      assert BelowMark(r', i, n) <==> i < |r| && i < tail;
    }
  }

  lemma {:induction false} ReplayFollowsMarks(prompt: string, source: seq<Message>)
    ensures FlagsFollowMarks(Replayed([SystemMessage(prompt)], source))
  {
    if source != [] {
      var n := |source| - 1;
      var before, m := Replayed([SystemMessage(prompt)], source[..n]), source[n];
      ReplayFollowsMarks(prompt, source[..n]);
      hide FlagsFollowMarks;
      if !m.role.System? && !IsPrompt(m) {
        if m.summary {
          MarkedFollowsMarks(before, m.tailStartID, m.content);
        } else {
          var after := ReplayMessage(before, m);
          AppendFollowsMarks(before, after[|before|]);
        }
      }
    }
  }

  lemma {:induction false} ReplayKeepsPrompt(prompt: string, source: seq<Message>)
    ensures var r := Replayed([SystemMessage(prompt)], source);
      r != [] && r[0] == SystemMessage(prompt)
  {
    if source != [] { ReplayKeepsPrompt(prompt, source[..|source| - 1]); }
  }

  lemma {:induction false} SeededTail(r: seq<Message>, h: seq<Message>)
    requires AlikeThroughout(r, h) && AllStored(h) && AllStored(r)
    ensures LastMarker(r) == LastMarker(h) && Tail(r) == Tail(h)
  {
    var m := LastMarker(h);
    assert m >= 0 ==> IsStored(h[m]);
    forall i | 0 <= i < |r| && IsMarker(r[i])
      ensures IsMarker(h[i])
    {
      assert IsStored(h[i]);
    }
    LastMarkerUnique(r, m);
  }

  lemma {:induction false} SeededStored(r: seq<Message>, h: seq<Message>)
    requires AlikeThroughout(r, h) && AllStored(h) && SystemFirst(h)
    requires r[0] == SystemMessage(r[0].content)
    ensures AllStored(r) && SystemFirst(r) && CallsByAssistant(r)
    ensures forall i :: 0 <= i < |r| ==>
      r[i].role == h[i].role && r[i].toolCalls == h[i].toolCalls && r[i].summary == h[i].summary
    ensures forall i :: 1 <= i < |r| ==> Alike(r[i], h[i])
  {
    assert IsStored(h[0]);
    forall i | 1 <= i < |r|
      ensures Alike(r[i], h[i]) && IsStored(h[i])
    {
    }
  }

  lemma {:induction false} SeededMarks(r: seq<Message>, h: seq<Message>)
    requires WellMarked(h) && |r| == |h|
    requires forall i :: 0 <= i < |r| ==>
      r[i].role == h[i].role && r[i].toolCalls == h[i].toolCalls && r[i].summary == h[i].summary
    requires forall i :: 1 <= i < |r| ==> Alike(r[i], h[i])
    requires r != [] ==> !r[0].summary && r[0].role.System?
    ensures WellMarked(r)
  {
    forall i | 0 <= i < |r| && r[i].summary
      ensures MarkedAt(r, i) && r[i].tailStartID == h[i].tailStartID
    {
      assert MarkedAt(h, i);
      RawRole(r, h, h[i].tailStartID);
    }
  }

  lemma {:induction false} SeededFlags(r: seq<Message>)
    requires WellMarked(r) && FlagsFollowMarks(r)
    ensures FlagsBeforeTail(r)
    ensures forall i :: 0 <= i < |r| && i < Tail(r) && !r[i].role.System? ==> r[i].compacted
  {
    hide LastMarker;
    TailBounds(r);
    forall i | 0 <= i < |r| && r[i].compacted
      ensures i < Tail(r)
    {
      var j: nat :| BelowMark(r, i, j);
    }
    forall i | 0 <= i < |r| && i < Tail(r) && !r[i].role.System?
      ensures r[i].compacted
    {
      assert MarkedAt(r, LastMarker(r));
      assert BelowMark(r, i, LastMarker(r));
    }
  }

  lemma {:induction false} SeededAccounts(r: seq<Message>, h: seq<Message>, told: map<nat, RawMessage>, i: nat)
    requires i < |r| == |h| && Accounted(State(h, told), i)
    requires r[i].role == h[i].role && r[i].summary == h[i].summary
    requires r[i].role.System? || (Alike(r[i], h[i]) && r[i].compacted)
    ensures Accounted(State(r, told), i)
  {
  }

  /** Seeding keeps every invariant, with the same record of what was told: so all that is proved of runs
      goes on from the seeded session, whatever was compacted before. */
  lemma {:induction false} SeedingKeepsInv(prompt: string, h: seq<Message>, told: map<nat, RawMessage>)
    requires Inv(State(h, told)) && Replayable(h) && Paired(h)
    ensures var r := Replayed([SystemMessage(prompt)], h);
      && Inv(State(r, told)) && Replayable(r) && Paired(r)
      && AlikeThroughout(r, h) && Tail(r) == Tail(h)
  {
    hide Replayed, WellMarked, FlagsFollowMarks, FlagsBeforeTail, LastMarker, Accounted, Paired, PromptsPaired;
    var r := Replayed([SystemMessage(prompt)], h);
    SeedingKeepsIndexesIff(prompt, h);
    ReplayKeepsPrompt(prompt, h);
    ReplayFollowsMarks(prompt, h);
    ReplayIsPaired(prompt, h);
    SeededStored(r, h);
    SeededMarks(r, h);
    SeededTail(r, h);
    SeededFlags(r);
    SeededCalls(r, h);
    forall i | 0 <= i < |r| && i < Tail(r)
      ensures Accounted(State(r, told), i)
    {
      assert Accounted(State(h, told), i);
      SeededAccounts(r, h, told, i);
    }
  }

  lemma {:induction false} SeededCalls(r: seq<Message>, h: seq<Message>)
    requires Paired(h) && AlikeThroughout(r, h) && AllStored(h) && AllStored(r)
    ensures Paired(r)
  {
    hide Paired;
    forall i | 0 <= i < |h|
      ensures r[i].role == h[i].role && r[i].toolCalls == h[i].toolCalls && r[i].toolCallID == h[i].toolCallID
    {
      assert IsStored(h[i]) && IsStored(r[i]);
    }
    SameCallsPaired(h, r);
  }
}
