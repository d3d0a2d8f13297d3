/** Clearing old tool output: a backward scan that stops at the last summary or at output
    that was already cleared, and clears all scanned output beyond a protected amount. */
module Pruning {
  import opened Messages
  import opened Budgets

  const PRUNE_MINIMUM := 20000
  const PRUNE_PROTECT := 40000
  const PRUNE_PROTECT_TURNS := 2

  datatype Verdict = Pass | Stop | Count

  function Placeholder(): RawMessage {
    RawMessage(Tool, PRUNED_OUTPUT_PLACEHOLDER, "", "", true, false, 0)
  }

  function Turns(m: RawMessage, turns: nat): nat {
    if m.role.User? then turns + 1 else turns
  }

  /** What the scan does with a message once `turns` user messages were seen. */
  function Inspect(m: RawMessage, kept: seq<string>, turns: nat): Verdict {
    if turns < PRUNE_PROTECT_TURNS then Pass
    else if m.role.Assistant? && m.summary then Stop
    else if !m.role.Tool? || m.name in kept then Pass
    else if m.compacted then Stop
    else Count
  }

  /** The positions that the scan clears, going back from `n`. */
  function Picks(ms: seq<RawMessage>, kept: seq<string>, n: nat, turns: nat, total: nat): (p: seq<nat>)
    requires n <= |ms|
    ensures forall k :: 0 <= k < |p| ==> p[k] < n
  {
    if n == 0 then [] else
    var m := ms[n - 1];
    match Inspect(m, kept, Turns(m, turns))
    case Pass => Picks(ms, kept, n - 1, Turns(m, turns), total)
    case Stop => []
    case Count =>
      var next := total + EstimateTokens(m.content);
      if next > PRUNE_PROTECT then [n - 1] + Picks(ms, kept, n - 1, Turns(m, turns), next)
      else Picks(ms, kept, n - 1, Turns(m, turns), next)
  }

  function TokensAt(ms: seq<RawMessage>, at: seq<nat>): nat
    requires forall k :: 0 <= k < |at| ==> at[k] < |ms|
  {
    if at == [] then 0 else EstimateTokens(ms[at[0]].content) + TokensAt(ms, at[1..])
  }

  function Replaced(ms: seq<RawMessage>, picks: seq<nat>): (r: seq<RawMessage>)
    ensures |r| == |ms|
    ensures forall i :: 0 <= i < |ms| ==> r[i] == if i in picks then Placeholder() else ms[i]
  {
    seq(|ms|, i requires 0 <= i < |ms| => if i in picks then Placeholder() else ms[i])
  }

  function Pruned(ms: seq<RawMessage>, kept: seq<string>): (r: seq<RawMessage>)
    ensures |r| == |ms|
  {
    var picks := Picks(ms, kept, |ms|, 0, 0);
    if TokensAt(ms, picks) <= PRUNE_MINIMUM then ms else Replaced(ms, picks)
  }

  method PruneMessages(ms: seq<RawMessage>, kept: seq<string>) returns (r: seq<RawMessage>)
    ensures r == Pruned(ms, kept)
  {
    var toPrune, pruned := ScanForPruning(ms, kept);
    if pruned <= PRUNE_MINIMUM {
      return ms;
    }
    r := ms;
    for k := 0 to |toPrune|
      invariant |r| == |ms|
      invariant forall j :: 0 <= j < |ms| ==> r[j] == if j in toPrune[..k] then Placeholder() else ms[j]
    {
      r := r[toPrune[k] := Placeholder()];
    }
    assert toPrune[..|toPrune|] == toPrune;
  }

  /** The scanning half of the pruner. */
  method ScanForPruning(ms: seq<RawMessage>, kept: seq<string>) returns (toPrune: seq<nat>, pruned: nat)
    ensures toPrune == Picks(ms, kept, |ms|, 0, 0)
    ensures pruned == TokensAt(ms, toPrune)
  {
    assert TokensAt(ms, []) == 0;
    hide TokensAt;
    var total: nat, turns: nat := 0, 0;
    toPrune, pruned := [], 0;
    var i := |ms| - 1;
    while i >= 0
      invariant -1 <= i < |ms|
      invariant toPrune + Picks(ms, kept, i + 1, turns, total) == Picks(ms, kept, |ms|, 0, 0)
      invariant forall k :: 0 <= k < |toPrune| ==> toPrune[k] < |ms|
      invariant pruned == TokensAt(ms, toPrune)
    {
      var m := ms[i];
      if m.role.User? {
        turns := turns + 1;
      }
      if turns >= PRUNE_PROTECT_TURNS {
        if m.role.Assistant? && m.summary {
          return;
        }
        if m.role.Tool? && m.name !in kept {
          if m.compacted {
            return;
          }
          var estimate := EstimateTokens(m.content);
          total := total + estimate;
          if total > PRUNE_PROTECT {
            TokensAtAppend(ms, toPrune, i);
            pruned := pruned + estimate;
            Regroup(toPrune, i, Picks(ms, kept, i, turns, total));
            toPrune := toPrune + [i];
          }
        }
      }
      i := i - 1;
    }
  }

  // ---- Properties ----

  lemma {:induction false} Regroup(a: seq<nat>, i: nat, b: seq<nat>)
    ensures a + ([i] + b) == a + [i] + b
  {
  }

  lemma {:induction false} TokensAtAppend(ms: seq<RawMessage>, at: seq<nat>, i: nat)
    requires i < |ms| && forall k :: 0 <= k < |at| ==> at[k] < |ms|
    ensures TokensAt(ms, at + [i]) == TokensAt(ms, at) + EstimateTokens(ms[i].content)
  {
    if at != [] {
      assert (at + [i])[1..] == at[1..] + [i];
      TokensAtAppend(ms, at[1..], i);
    } else {
      assert (at + [i])[1..] == [];
    }
  }

  /** Number of user messages from position `n` on. */
  function UsersFrom(ms: seq<RawMessage>, n: nat): nat
    requires n <= |ms|
    decreases |ms| - n
  {
    if n == |ms| then 0 else (if ms[n].role.User? then 1 else 0) + UsersFrom(ms, n + 1)
  }

  /** Only tool output is cleared, never twice, never a kept tool's, never what follows the
      second-last user message or precedes the last summary before it. */
  lemma {:induction false} PicksAreOldToolOutput(ms: seq<RawMessage>, kept: seq<string>, n: nat, total: nat, p: nat)
    requires n <= |ms| && p in Picks(ms, kept, n, UsersFrom(ms, n), total)
    ensures 0 < n && p < n && ms[p].role.Tool? && !ms[p].compacted && ms[p].name !in kept
    ensures UsersFrom(ms, p) >= 2
    ensures forall j :: p <= j < n && UsersFrom(ms, j) >= 2 ==> !(ms[j].role.Assistant? && ms[j].summary)
  {
    var m := ms[n - 1];
    var next := if Inspect(m, kept, Turns(m, UsersFrom(ms, n))).Count? then total + EstimateTokens(m.content)
      else total;
    if p != n - 1 {
      PicksAreOldToolOutput(ms, kept, n - 1, next, p);
    }
  }

  /** `r` is `ms` with the positions `picks` cleared, as far as `n`. */
  ghost predicate ClearedUpTo(ms: seq<RawMessage>, r: seq<RawMessage>, picks: seq<nat>, n: nat) {
    && n <= |ms| == |r|
    && forall i :: 0 <= i < n ==> r[i] == if i in picks then Placeholder() else ms[i]
  }

  /** Tokens of the tool output in the scanned range of `ms` that `r` still shows. */
  function Left(ms: seq<RawMessage>, r: seq<RawMessage>, kept: seq<string>, n: nat, turns: nat): nat
    requires n <= |ms| == |r|
  {
    if n == 0 then 0 else
    var m := ms[n - 1];
    match Inspect(m, kept, Turns(m, turns))
    case Pass => Left(ms, r, kept, n - 1, Turns(m, turns))
    case Stop => 0
    case Count =>
      (if r[n - 1].compacted then 0 else EstimateTokens(r[n - 1].content))
      + Left(ms, r, kept, n - 1, Turns(m, turns))
  }

  /** Clearing the picks of a scan clears, further back, the picks of the rest of the scan. */
  lemma {:induction false} ClearedBefore(ms: seq<RawMessage>, r: seq<RawMessage>, kept: seq<string>, n: nat,
      turns: nat, total: nat)
    requires 0 < n <= |ms| && ClearedUpTo(ms, r, Picks(ms, kept, n, turns, total), n)
    requires Inspect(ms[n - 1], kept, Turns(ms[n - 1], turns)).Count?
    ensures var next := total + EstimateTokens(ms[n - 1].content);
      && ClearedUpTo(ms, r, Picks(ms, kept, n - 1, Turns(ms[n - 1], turns), next), n - 1)
      && r[n - 1] == if next > PRUNE_PROTECT then Placeholder() else ms[n - 1]
  {
    var next := total + EstimateTokens(ms[n - 1].content);
    var rest := Picks(ms, kept, n - 1, Turns(ms[n - 1], turns), next);
    assert n - 1 in [n - 1] + rest;
    assert forall i :: 0 <= i < n - 1 ==> (i in [n - 1] + rest <==> i in rest);
  }

  lemma {:induction false} LeftAfterClearing(
      ms: seq<RawMessage>, r: seq<RawMessage>, kept: seq<string>, n: nat, turns: nat, total: nat)
    requires n <= |ms| && ClearedUpTo(ms, r, Picks(ms, kept, n, turns, total), n)
    ensures if total <= PRUNE_PROTECT then total + Left(ms, r, kept, n, turns) <= PRUNE_PROTECT
            else Left(ms, r, kept, n, turns) == 0
  {
    if n > 0 {
      var m := ms[n - 1];
      match Inspect(m, kept, Turns(m, turns))
      case Pass => LeftAfterClearing(ms, r, kept, n - 1, Turns(m, turns), total);
      case Stop =>
      case Count =>
        var next := total + EstimateTokens(m.content);
        ClearedBefore(ms, r, kept, n, turns, total);
        LeftAfterClearing(ms, r, kept, n - 1, Turns(m, turns), next);
    }
  }

  lemma {:induction false} LeftWithoutClearing(ms: seq<RawMessage>, kept: seq<string>, n: nat, turns: nat, total: nat)
    requires n <= |ms|
    ensures Left(ms, ms, kept, n, turns) <= TokensAt(ms, Picks(ms, kept, n, turns, total)) +
      if total <= PRUNE_PROTECT then PRUNE_PROTECT - total else 0
  {
    if n > 0 {
      var m := ms[n - 1];
      match Inspect(m, kept, Turns(m, turns))
      case Pass => LeftWithoutClearing(ms, kept, n - 1, Turns(m, turns), total);
      case Stop =>
      case Count =>
        var next := total + EstimateTokens(m.content);
        var rest := Picks(ms, kept, n - 1, Turns(m, turns), next);
        assert ([n - 1] + rest)[1..] == rest;
        LeftWithoutClearing(ms, kept, n - 1, Turns(m, turns), next);
    }
  }

  /** However large the transcript, at most 60000 tokens of unprotected tool output remain in
      the scanned range, and at most 40000 when anything was cleared. */
  lemma {:induction false} PruningBound(ms: seq<RawMessage>, kept: seq<string>)
    ensures Left(ms, Pruned(ms, kept), kept, |ms|, 0) <= 60000
    ensures Pruned(ms, kept) != ms ==> Left(ms, Pruned(ms, kept), kept, |ms|, 0) <= 40000
  {
    LeftWithoutClearing(ms, kept, |ms|, 0, 0);
    if TokensAt(ms, Picks(ms, kept, |ms|, 0, 0)) > PRUNE_MINIMUM {
      LeftAfterClearing(ms, Pruned(ms, kept), kept, |ms|, 0, 0);
    }
  }

  /** Scanning the cleared list again finds nothing past the protected amount: the scan either
      stops at the first cleared output or passes over all of it. */
  lemma {:induction false} NothingLeftToPick(
      ms: seq<RawMessage>, r: seq<RawMessage>, kept: seq<string>, n: nat, turns: nat, total: nat, again: nat)
    requires n <= |ms| && ClearedUpTo(ms, r, Picks(ms, kept, n, turns, total), n)
    requires again <= PRUNE_PROTECT && (total <= PRUNE_PROTECT ==> again == total)
    ensures Picks(r, kept, n, turns, again) == []
  {
    hide TokensAt, ClearedUpTo;
    if n > 0 {
      var m := ms[n - 1];
      var seen := Turns(m, turns);
      match Inspect(m, kept, seen)
      case Pass =>
        PassesCleared(ms, r, kept, n, turns, total);
        NothingLeftToPick(ms, r, kept, n - 1, seen, total, again);
      case Stop =>
        PassesCleared(ms, r, kept, n, turns, total);
      case Count =>
        var next := total + EstimateTokens(m.content);
        ClearedBefore(ms, r, kept, n, turns, total);
        NothingLeftToPick(ms, r, kept, n - 1, seen, next, if next <= PRUNE_PROTECT then next else again);
    }
  }

  lemma {:induction false} PassesCleared(ms: seq<RawMessage>, r: seq<RawMessage>, kept: seq<string>, n: nat,
      turns: nat, total: nat)
    requires 0 < n <= |ms| && ClearedUpTo(ms, r, Picks(ms, kept, n, turns, total), n)
    requires !Inspect(ms[n - 1], kept, Turns(ms[n - 1], turns)).Count?
    ensures r[n - 1] == ms[n - 1]
    ensures Inspect(ms[n - 1], kept, Turns(ms[n - 1], turns)).Pass? ==>
      ClearedUpTo(ms, r, Picks(ms, kept, n - 1, Turns(ms[n - 1], turns), total), n - 1)
  {
  }

  lemma {:induction false} PruningIsIdempotent(ms: seq<RawMessage>, kept: seq<string>)
    ensures Pruned(Pruned(ms, kept), kept) == Pruned(ms, kept)
  {
    if Pruned(ms, kept) != ms {
      NothingLeftToPick(ms, Pruned(ms, kept), kept, |ms|, 0, 0, 0);
    }
  }

  lemma {:induction false} KeptNamesUnseen(ms: seq<RawMessage>, kept: seq<string>, n: nat, turns: nat, total: nat)
    requires n <= |ms| && "" !in kept && forall i :: 0 <= i < n ==> ms[i].name == ""
    ensures Picks(ms, kept, n, turns, total) == Picks(ms, [], n, turns, total)
  {
    if n > 0 {
      var m := ms[n - 1];
      match Inspect(m, kept, Turns(m, turns))
      case Pass => KeptNamesUnseen(ms, kept, n - 1, Turns(m, turns), total);
      case Stop =>
      case Count => KeptNamesUnseen(ms, kept, n - 1, Turns(m, turns), total + EstimateTokens(m.content));
    }
  }

  /** The callers convert the session before pruning, and the conversion drops the tool name;
      so the list of tools whose output is to be kept has no effect on them. */
  lemma {:induction false} KeptToolsHaveNoEffect(h: seq<Message>, kept: seq<string>)
    requires "" !in kept
    ensures Pruned(Raw(h), kept) == Pruned(Raw(h), [])
  {
    KeptNamesUnseen(Raw(h), kept, |h|, 0, 0);
  }

  /** The part of pruning that the rest of the model relies on. */
  lemma {:induction false} PrunedShape(ms: seq<RawMessage>, kept: seq<string>)
    ensures |Pruned(ms, kept)| == |ms|
    ensures forall i :: 0 <= i < |ms| ==>
      Pruned(ms, kept)[i] == ms[i] || (Pruned(ms, kept)[i] == Placeholder() && ms[i].role.Tool? && !ms[i].compacted)
  {
    forall i | 0 <= i < |ms| && Pruned(ms, kept)[i] != ms[i]
      ensures ms[i].role.Tool? && !ms[i].compacted
    {
      PicksAreOldToolOutput(ms, kept, |ms|, 0, i);
    }
  }
}
