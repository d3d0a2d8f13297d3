/** Exactly which tool output a pruning clears, and that output of a spared tool is among it
    (pkg/compress/pruning.go:16-77, pkg/agentloop/agentloop.go:1125-1176). */
module PruningLaws {
  import opened Messages
  import opened Budgets
  import opened Pruning
  import opened Transcripts

  /** Uncleared output of a tool that is not spared, with at least two user messages behind it. */
  predicate Counted(ms: seq<RawMessage>, kept: seq<string>, j: nat)
    requires j < |ms|
  {
    UsersFrom(ms, j) >= 2 && ms[j].role.Tool? && ms[j].name !in kept && !ms[j].compacted
  }

  /** A summary or cleared output, with at least two user messages behind it. */
  predicate Stops(ms: seq<RawMessage>, kept: seq<string>, j: nat)
    requires j < |ms|
  {
    && UsersFrom(ms, j) >= 2
    && ((ms[j].role.Assistant? && ms[j].summary) || (ms[j].role.Tool? && ms[j].name !in kept && ms[j].compacted))
  }

  /** Something between `i` and `n` ends the scan. */
  predicate StopsWithin(ms: seq<RawMessage>, kept: seq<string>, i: nat, n: nat)
    requires n <= |ms|
  {
    exists j :: i <= j < n && Stops(ms, kept, j)
  }

  /** Tokens of the counted output at positions `i` to `n`. */
  function CountedTokens(ms: seq<RawMessage>, kept: seq<string>, i: nat, n: nat): nat
    requires n <= |ms|
    decreases n
  {
    if n <= i then 0 else
    CountedTokens(ms, kept, i, n - 1) + if Counted(ms, kept, n - 1) then EstimateTokens(ms[n - 1].content) else 0
  }

  /** Old output: counted, nothing ends the scan before it, and more than 40000 tokens from it on. */
  predicate IsOldOutput(ms: seq<RawMessage>, kept: seq<string>, i: nat)
    requires i < |ms|
  {
    Counted(ms, kept, i) && !StopsWithin(ms, kept, i, |ms|) && CountedTokens(ms, kept, i, |ms|) > 40000
  }

  /** Tokens of the old output below `n`. */
  function OldTokens(ms: seq<RawMessage>, kept: seq<string>, n: nat): nat
    requires n <= |ms|
  {
    if n == 0 then 0 else
    OldTokens(ms, kept, n - 1) + if IsOldOutput(ms, kept, n - 1) then EstimateTokens(ms[n - 1].content) else 0
  }

  lemma {:induction false} CountedSplit(ms: seq<RawMessage>, kept: seq<string>, i: nat, k: nat, n: nat)
    requires i <= k <= n <= |ms|
    ensures CountedTokens(ms, kept, i, n) == CountedTokens(ms, kept, i, k) + CountedTokens(ms, kept, k, n)
  {
    hide Counted, EstimateTokens;
    if k < n { CountedSplit(ms, kept, i, k, n - 1); }
  }

  lemma {:induction false} CountedOne(ms: seq<RawMessage>, kept: seq<string>, k: nat)
    requires k < |ms|
    ensures CountedTokens(ms, kept, k, k + 1) == if Counted(ms, kept, k) then EstimateTokens(ms[k].content) else 0
  {
    hide Counted, EstimateTokens;
    assert CountedTokens(ms, kept, k, k) == 0;
  }

  lemma {:induction false} StopsSplit(ms: seq<RawMessage>, kept: seq<string>, i: nat, k: nat)
    requires i <= k < |ms|
    ensures StopsWithin(ms, kept, i, |ms|) <==>
      StopsWithin(ms, kept, i, k) || Stops(ms, kept, k) || StopsWithin(ms, kept, k + 1, |ms|)
  {
    hide Stops;
  }

  lemma {:induction false} InspectMeans(ms: seq<RawMessage>, kept: seq<string>, k: nat)
    requires k < |ms|
    ensures Turns(ms[k], UsersFrom(ms, k + 1)) == UsersFrom(ms, k)
    ensures Inspect(ms[k], kept, UsersFrom(ms, k)).Count? <==> Counted(ms, kept, k)
    ensures Inspect(ms[k], kept, UsersFrom(ms, k)).Stop? <==> Stops(ms, kept, k)
  {
  }

  /** Nothing below a position that ends the scan is old output. */
  lemma {:induction false} NothingOldBelow(ms: seq<RawMessage>, kept: seq<string>, n: nat, stop: nat)
    requires n <= stop + 1 && stop < |ms| && Stops(ms, kept, stop)
    ensures OldTokens(ms, kept, n) == 0
    ensures forall i :: 0 <= i < n ==> !IsOldOutput(ms, kept, i)
  {
    hide Stops, Counted, CountedTokens, EstimateTokens;
    if n > 0 {
      NothingOldBelow(ms, kept, n - 1, stop);
      assert StopsWithin(ms, kept, n - 1, |ms|);
    }
  }

  /** One step of the scan, in terms of positions. */
  lemma {:induction false} ScanStep(ms: seq<RawMessage>, kept: seq<string>, k: nat)
    requires k < |ms| && !StopsWithin(ms, kept, k + 1, |ms|)
    ensures CountedTokens(ms, kept, k, |ms|) == CountedTokens(ms, kept, k + 1, |ms|) +
      if Counted(ms, kept, k) then EstimateTokens(ms[k].content) else 0
    ensures StopsWithin(ms, kept, k, |ms|) <==> Stops(ms, kept, k)
  {
    hide Stops, Counted, CountedTokens, EstimateTokens;
    CountedSplit(ms, kept, k, k + 1, |ms|);
    CountedOne(ms, kept, k);
    StopsSplit(ms, kept, k, k);
  }

  /** The scan picks exactly the old output. */
  lemma {:induction false} PicksAreOldOutput(ms: seq<RawMessage>, kept: seq<string>, n: nat)
    requires n <= |ms| && !StopsWithin(ms, kept, n, |ms|)
    ensures var picks := Picks(ms, kept, n, UsersFrom(ms, n), CountedTokens(ms, kept, n, |ms|));
      && (forall i :: 0 <= i < n ==> (i in picks <==> IsOldOutput(ms, kept, i)))
      && TokensAt(ms, picks) == OldTokens(ms, kept, n)
  {
    hide Inspect, Turns, UsersFrom, Stops, Counted, CountedTokens, EstimateTokens;
    if n > 0 {
      var k := n - 1;
      var total := CountedTokens(ms, kept, n, |ms|);
      InspectMeans(ms, kept, k);
      ScanStep(ms, kept, k);
      if Stops(ms, kept, k) {
        NothingOldBelow(ms, kept, n, k);
      } else {
        PicksAreOldOutput(ms, kept, k);
        var rest := Picks(ms, kept, k, UsersFrom(ms, k), CountedTokens(ms, kept, k, |ms|));
        assert ([k] + rest)[1..] == rest;
        assert forall i :: i in [k] + rest <==> i == k || i in rest;
      }
    }
  }

  /** A message is cleared exactly if it is old output and the old output holds more than 20000 tokens. */
  lemma {:induction false} ClearedIff(ms: seq<RawMessage>, kept: seq<string>, i: nat)
    requires i < |ms|
    ensures Pruned(ms, kept)[i] != ms[i] <==> IsOldOutput(ms, kept, i) && OldTokens(ms, kept, |ms|) > 20000
  {
    hide Picks, TokensAt, CountedTokens, OldTokens, StopsWithin;
    PicksAreOldOutput(ms, kept, |ms|) by { NothingBehind(ms, kept); }
    NothingBehind(ms, kept);
    assert IsOldOutput(ms, kept, i) ==> Placeholder() != ms[i];
  }

  lemma {:induction false} NothingBehind(ms: seq<RawMessage>, kept: seq<string>)
    ensures !StopsWithin(ms, kept, |ms|, |ms|)
    ensures CountedTokens(ms, kept, |ms|, |ms|) == 0 && UsersFrom(ms, |ms|) == 0
  {
  }

  // ---------------------------------------------------------------- in the session

  /** In a session the name of the tool plays no part: output is cleared exactly if it is old output in
      this sense with no tool spared at all, and there is enough of it. */
  lemma {:induction false} SessionOutputClearedIff(h: seq<Message>, i: nat)
    requires i < |h|
    ensures PrunedHistory(h)[i] != h[i] <==>
      IsOldOutput(Raw(h), [], i) && OldTokens(Raw(h), [], |h|) > 20000
  {
    hide Pruned, IsOldOutput, OldTokens;
    KeptToolsHaveNoEffect(h, PRUNE_PROTECTED_TOOLS);
    ClearedIff(Raw(h), [], i);
    PrunedShape(Raw(h), []);
    assert Raw(h)[i].compacted == h[i].compacted;
  }

  /** A question, the output of one `skill` call, and two more questions. */
  function SkillSession(output: string): seq<Message> {
    [SystemMessage("s"), UserMessage("q"), CallMessage("", [ToolCall("1", "skill", "")]),
      ToolMessage("1", "skill", output), UserMessage("q"), UserMessage("q")]
  }

  /** Output of `skill`, which is to be spared, is cleared as soon as it is long enough. */
  lemma {:induction false} SkillOutputClearedIff(output: string)
    ensures "skill" in PRUNE_PROTECTED_TOOLS
    ensures IsPlaceholder(PrunedHistory(SkillSession(output))[3]) <==> |output| > 160000
  {
    hide Pruned, IsOldOutput, OldTokens;
    var h := SkillSession(output);
    SessionOutputClearedIff(h, 3);
    SkillScan(output);
    assert !IsPlaceholder(h[3]);
    assert PrunedHistory(h)[3] == h[3] || IsPlaceholder(PrunedHistory(h)[3]);
  }

  lemma {:induction false} SkillScan(output: string)
    ensures var ms := Raw(SkillSession(output));
      && (IsOldOutput(ms, [], 3) <==> EstimateTokens(output) > 40000)
      && (IsOldOutput(ms, [], 3) ==> OldTokens(ms, [], 6) >= EstimateTokens(output))
  {
    hide CountedTokens;
    var ms := Raw(SkillSession(output));
    assert UsersFrom(ms, 4) == 2 && UsersFrom(ms, 5) == 1;
    assert !Stops(ms, [], 3) && !Stops(ms, [], 4) && !Stops(ms, [], 5);
    assert ms[3].content == output + JoinArguments([]) == output;
    CountedSplit(ms, [], 3, 4, 6);
    CountedSplit(ms, [], 4, 5, 6);
    CountedOne(ms, [], 3);
    CountedOne(ms, [], 4);
    CountedOne(ms, [], 5);
    assert OldTokens(ms, [], 4) <= OldTokens(ms, [], 5) <= OldTokens(ms, [], 6);
  }

  /** A concrete session in which it happens. */
  lemma {:induction false} SkillOutputCleared()
    ensures var output := seq(160001, i => 'x');
      IsPlaceholder(PrunedHistory(SkillSession(output))[3])
  {
    SkillOutputClearedIff(seq(160001, i => 'x'));
  }
}
