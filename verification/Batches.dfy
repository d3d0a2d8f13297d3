/** A batch of tool calls: which of them are new, which are run, which are skipped, and the results that
    enter the transcript (pkg/agent/loop.go:463-506, pkg/agent/tool_executor.go:31-84). */
module Batches {
  import opened Messages
  import opened Transcripts
  import opened Pairing

  const DUPLICATE_NOTICE: string :=
    "[DUPLICATE] This tool call was already executed earlier in this turn and its result is already in your context."
    + " Re-running it produces no new information. Take a different action or provide the final answer."
  const SKIPPED_NOTICE: string :=
    "[SKIPPED] Review subagent verdict ends this turn; the remaining tool calls were not executed."

  datatype ExecReply = Returned(toolName: string, content: string, endsBatch: bool) | ExecError(reason: string)

  /** Running a tool: the reply to a call that is made at a time. */
  type Tools = (nat, ToolCall) -> ExecReply

  type Signing = ToolCall -> string

  // ---------------------------------------------------------------- duplicates

  function Signatures(calls: seq<ToolCall>, signature: Signing): set<string> {
    set c | c in calls :: signature(c)
  }

  /** The calls of a batch whose signature is new when they come up. */
  function Uniques(calls: seq<ToolCall>, executed: set<string>, signature: Signing): seq<ToolCall> {
    if calls == [] then [] else
    var n := |calls| - 1;
    Uniques(calls[..n], executed, signature) +
    if signature(calls[n]) in executed + Signatures(calls[..n], signature) then [] else [calls[n]]
  }

  /** The other calls of the batch. */
  function Duplicates(calls: seq<ToolCall>, executed: set<string>, signature: Signing): seq<ToolCall> {
    if calls == [] then [] else
    var n := |calls| - 1;
    Duplicates(calls[..n], executed, signature) +
    if signature(calls[n]) in executed + Signatures(calls[..n], signature) then [calls[n]] else []
  }

  lemma {:induction false} SignaturesAppend(calls: seq<ToolCall>, call: ToolCall, signature: Signing)
    ensures Signatures(calls + [call], signature) == Signatures(calls, signature) + {signature(call)}
  {
    assert forall c :: c in calls + [call] <==> c in calls || c == call;
  }

  lemma {:induction false} SignaturesConcat(a: seq<ToolCall>, b: seq<ToolCall>, signature: Signing)
    ensures Signatures(a + b, signature) == Signatures(a, signature) + Signatures(b, signature)
  {
    assert forall c :: c in a + b <==> c in a || c in b;
  }

  /** No call is dropped: each is unique or a duplicate. */
  lemma {:induction false} PartitionIsComplete(calls: seq<ToolCall>, executed: set<string>, signature: Signing)
    ensures multiset(CallIDs(Uniques(calls, executed, signature))) +
      multiset(CallIDs(Duplicates(calls, executed, signature))) == multiset(CallIDs(calls))
  {
    hide CallIDs;
    if calls == [] {
      NoIDs();
    } else {
      var n := |calls| - 1;
      PartitionIsComplete(calls[..n], executed, signature);
      assert calls == calls[..n] + [calls[n]];
      CallIDsAppend(calls[..n], calls[n]);
      CallIDsAppend(Uniques(calls[..n], executed, signature), calls[n]);
      CallIDsAppend(Duplicates(calls[..n], executed, signature), calls[n]);
      assert Uniques(calls[..n], executed, signature) + [] == Uniques(calls[..n], executed, signature);
      assert Duplicates(calls[..n], executed, signature) + [] == Duplicates(calls[..n], executed, signature);
    }
  }

  lemma {:induction false} NoIDs()
    ensures CallIDs([]) == []
  {
  }

  lemma {:induction false} CallIDsAppend(calls: seq<ToolCall>, call: ToolCall)
    ensures multiset(CallIDs(calls + [call])) == multiset(CallIDs(calls)) + multiset{call.id}
  {
    assert CallIDs(calls + [call]) == CallIDs(calls) + [call.id];
  }

  predicate DistinctSignatures(calls: seq<ToolCall>, signature: Signing) {
    forall i, j :: 0 <= i < j < |calls| ==> signature(calls[i]) != signature(calls[j])
  }

  /** The unique calls of a batch have, once each, exactly the signatures that are new. */
  lemma {:induction false} UniquesAreNew(calls: seq<ToolCall>, executed: set<string>, signature: Signing)
    ensures Signatures(Uniques(calls, executed, signature), signature) == Signatures(calls, signature) - executed
    ensures DistinctSignatures(Uniques(calls, executed, signature), signature)
  {
    if calls != [] {
      var n := |calls| - 1;
      var before := Uniques(calls[..n], executed, signature);
      UniquesAreNew(calls[..n], executed, signature);
      assert calls == calls[..n] + [calls[n]];
      SignaturesAppend(calls[..n], calls[n], signature);
      if signature(calls[n]) !in executed + Signatures(calls[..n], signature) {
        SignaturesAppend(before, calls[n], signature);
        forall i | 0 <= i < n && i < |before|
          ensures signature(before[i]) != signature(calls[n])
        {
          assert signature(before[i]) in Signatures(before, signature);
        }
        DistinctAppend(before, calls[n], signature);
      } else {
        assert before + [] == before;
      }
    }
  }

  lemma {:induction false} DistinctAppend(calls: seq<ToolCall>, call: ToolCall, signature: Signing)
    requires DistinctSignatures(calls, signature) && signature(call) !in Signatures(calls, signature)
    ensures DistinctSignatures(calls + [call], signature)
  {
    forall i, j | 0 <= i < j < |calls| + 1
      ensures signature((calls + [call])[i]) != signature((calls + [call])[j])
    {
      assert signature(calls[i]) in Signatures(calls, signature);
    }
  }

  // ---------------------------------------------------------------- execution

  predicate Ends(reply: ExecReply) { reply.Returned? && reply.endsBatch }

  /** How many of the calls are run, the first at time `now`. */
  function Ran(tools: Tools, now: nat, calls: seq<ToolCall>): (n: nat)
    ensures n <= |calls|
    decreases |calls|
  {
    if calls == [] then 0
    else if Ends(tools(now, calls[0])) then 1
    else 1 + Ran(tools, now + 1, calls[1..])
  }

  /** A call is run exactly if no earlier call's reply ends the batch. */
  lemma {:induction false} RanIff(tools: Tools, now: nat, calls: seq<ToolCall>, k: nat)
    requires k < |calls|
    ensures k < Ran(tools, now, calls) <==> forall j: nat :: j < k ==> !Ends(tools(now + j, calls[j]))
    decreases |calls|
  {
    if !Ends(tools(now, calls[0])) {
      if k > 0 {
        RanIff(tools, now + 1, calls[1..], k - 1);
        assert forall j: nat :: 0 < j < k ==> tools(now + j, calls[j]) == tools(now + 1 + (j - 1), calls[1..][j - 1]);
        assert (forall j: nat :: j < k - 1 ==> !Ends(tools(now + 1 + j, calls[1..][j]))) <==>
          (forall j: nat :: j < k ==> !Ends(tools(now + j, calls[j]))) by {
          ShiftedEnds(tools, now, calls, k);
        }
      }
    } else if k > 0 {
      assert Ends(tools(now + 0, calls[0]));
    }
  }

  lemma {:induction false} ShiftedEnds(tools: Tools, now: nat, calls: seq<ToolCall>, k: nat)
    requires 0 < k < |calls| && !Ends(tools(now, calls[0]))
    ensures (forall j: nat :: j < k - 1 ==> !Ends(tools(now + 1 + j, calls[1..][j]))) <==>
      (forall j: nat :: j < k ==> !Ends(tools(now + j, calls[j])))
  {
    if forall j: nat :: j < k - 1 ==> !Ends(tools(now + 1 + j, calls[1..][j])) {
      forall j: nat | j < k
        ensures !Ends(tools(now + j, calls[j]))
      {
        if j > 0 { assert !Ends(tools(now + 1 + (j - 1), calls[1..][j - 1])); }
      }
    }
    if forall j: nat :: j < k ==> !Ends(tools(now + j, calls[j])) {
      forall j: nat | j < k - 1
        ensures !Ends(tools(now + 1 + j, calls[1..][j]))
      {
        assert !Ends(tools(now + (j + 1), calls[j + 1]));
      }
    }
  }

  function ResultOf(call: ToolCall, reply: ExecReply): ToolResult {
    match reply
    case Returned(toolName, content, _) => ToolResult(call.id, toolName, content)
    case ExecError(reason) => ToolResult(call.id, call.name, "Error: " + reason)
  }

  function SkippedResult(call: ToolCall): ToolResult { ToolResult(call.id, call.name, SKIPPED_NOTICE) }

  /** One result for each call: what its tool replied, or the notice that it was skipped. */
  function Results(tools: Tools, now: nat, calls: seq<ToolCall>): (r: seq<ToolResult>)
    ensures |r| == |calls|
    ensures forall k :: 0 <= k < |calls| ==>
      r[k] == if k < Ran(tools, now, calls) then ResultOf(calls[k], tools(now + k, calls[k]))
        else SkippedResult(calls[k])
  {
    seq(|calls|, k requires 0 <= k < |calls| =>
      if k < Ran(tools, now, calls) then ResultOf(calls[k], tools(now + k, calls[k])) else SkippedResult(calls[k]))
  }

  /** What the result of a call says: what its tool replied if it was run, the error with its reason,
    or that the call was
      skipped because an earlier reply ended the batch. */
  lemma {:induction false} ResultSays(tools: Tools, now: nat, calls: seq<ToolCall>, k: nat)
    requires k < |calls|
    ensures var r, reply := Results(tools, now, calls)[k], tools(now + k, calls[k]);
      && r.id == calls[k].id
      && if exists j: nat :: j < k && Ends(tools(now + j, calls[j])) then
           r.name == calls[k].name && r.content == SKIPPED_NOTICE
         else
           match reply
           case Returned(toolName, content, _) => r.name == toolName && r.content == content
           case ExecError(reason) => r.name == calls[k].name && r.content == "Error: " + reason
  {
    hide Ran;
    RanIff(tools, now, calls, k);
  }

  /** Whether the next call of a batch is new: if its signature was neither remembered before nor that of an earlier
      call of the batch. */
  lemma {:induction false} NextIsNewIff(calls: seq<ToolCall>, call: ToolCall, executed: set<string>, signature: Signing)
    ensures var known := signature(call) in executed || exists j ::
      0 <= j < |calls| && signature(calls[j]) == signature(call);
      && Uniques(calls + [call], executed, signature) ==
        Uniques(calls, executed, signature) + (if known then [] else [call])
      && Duplicates(calls + [call], executed, signature) ==
        Duplicates(calls, executed, signature) + (if known then [call] else [])
    ensures Uniques([], executed, signature) == Duplicates([], executed, signature) == []
  {
    var all := calls + [call];
    assert all[..|all| - 1] == calls;
    if signature(call) in Signatures(calls, signature) {
      var c :| c in calls && signature(c) == signature(call);
      var j :| 0 <= j < |calls| && calls[j] == c;
    }
    if j :| 0 <= j < |calls| && signature(calls[j]) == signature(call) {
      assert calls[j] in calls;
    }
  }

  lemma {:induction false} NextIsNew(calls: seq<ToolCall>, call: ToolCall, executed: set<string>, signature: Signing)
    ensures var known := signature(call) in executed + Signatures(calls, signature);
      && Uniques(calls + [call], executed, signature) ==
        Uniques(calls, executed, signature) + (if known then [] else [call])
      && Duplicates(calls + [call], executed, signature) ==
        Duplicates(calls, executed, signature) + (if known then [call] else [])
  {
    hide Signatures;
    assert (calls + [call])[..|calls|] == calls;
  }

  lemma {:induction false} NoneIsNew(executed: set<string>, signature: Signing)
    ensures Uniques([], executed, signature) == Duplicates([], executed, signature) == []
  {
  }

  function Notices(duplicates: seq<ToolCall>): (r: seq<ToolResult>)
    ensures |r| == |duplicates|
    ensures forall k :: 0 <= k < |r| ==> r[k] == ToolResult(duplicates[k].id, duplicates[k].name, DUPLICATE_NOTICE)
  {
    seq(|duplicates|, k requires 0 <= k < |duplicates| =>
      ToolResult(duplicates[k].id, duplicates[k].name, DUPLICATE_NOTICE))
  }

  /** All results of a batch, in the order in which they enter the transcript. */
  function BatchResults(tools: Tools, now: nat, calls: seq<ToolCall>, executed: set<string>, signature: Signing):
    seq<ToolResult>
  {
    Notices(Duplicates(calls, executed, signature)) + Results(tools, now, Uniques(calls, executed, signature))
  }

  /** Every call of the batch is answered, once. */
  lemma {:induction false} BatchAnswersAll(tools: Tools, now: nat, calls: seq<ToolCall>, executed: set<string>,
      signature: Signing)
    ensures LegalBatch(calls, BatchResults(tools, now, calls, executed, signature))
  {
    hide Duplicates, Uniques, Ran;
    PartitionIsComplete(calls, executed, signature);
    var d, u := Duplicates(calls, executed, signature), Uniques(calls, executed, signature);
    var n, r := Notices(d), Results(tools, now, u);
    assert forall k :: 0 <= k < |u| ==> r[k].id == u[k].id;
    hide Notices, Results, ResultIDs, CallIDs;
    SameIDs(d, n);
    SameIDs(u, r);
    ResultIDsConcat(n, r);
  }

  lemma {:induction false} SameIDs(calls: seq<ToolCall>, results: seq<ToolResult>)
    requires |calls| == |results| && forall k :: 0 <= k < |calls| ==> results[k].id == calls[k].id
    ensures ResultIDs(ResultMessages(results)) == CallIDs(calls)
  {
  }

  lemma {:induction false} ResultIDsConcat(a: seq<ToolResult>, b: seq<ToolResult>)
    ensures ResultIDs(ResultMessages(a + b)) == ResultIDs(ResultMessages(a)) + ResultIDs(ResultMessages(b))
  {
  }

  // ---------------------------------------------------------------- the ledger of a turn

  /** The calls that were run have distinct signatures; the signatures remembered are those of the calls that
      were run and of the calls that were skipped, and these are apart. */
  ghost predicate Ledger(log: seq<ToolCall>, executed: set<string>, skipped: set<string>, signature: Signing) {
    && DistinctSignatures(log, signature)
    && executed == Signatures(log, signature) + skipped
    && Signatures(log, signature) !! skipped
  }

  lemma {:induction false} PartSignatures(calls: seq<ToolCall>, n: nat, signature: Signing)
    requires n <= |calls| && DistinctSignatures(calls, signature)
    ensures Signatures(calls, signature) == Signatures(calls[..n], signature) + Signatures(calls[n..], signature)
    ensures Signatures(calls[..n], signature) !! Signatures(calls[n..], signature)
    ensures DistinctSignatures(calls[..n], signature)
  {
    assert calls == calls[..n] + calls[n..];
    SignaturesConcat(calls[..n], calls[n..], signature);
    forall a, b | a in calls[..n] && b in calls[n..]
      ensures signature(a) != signature(b)
    {
      var i :| 0 <= i < n && calls[..n][i] == a;
      var j :| 0 <= j < |calls| - n && calls[n..][j] == b;
      assert signature(calls[i]) != signature(calls[n + j]);
    }
  }

  lemma {:induction false} DistinctConcat(a: seq<ToolCall>, b: seq<ToolCall>, signature: Signing)
    requires DistinctSignatures(a, signature) && DistinctSignatures(b, signature)
    requires Signatures(a, signature) !! Signatures(b, signature)
    ensures DistinctSignatures(a + b, signature)
  {
    forall i, j | 0 <= i < j < |a + b|
      ensures signature((a + b)[i]) != signature((a + b)[j])
    {
      if i < |a| <= j {
        assert signature(a[i]) in Signatures(a, signature) && signature(b[j - |a|]) in Signatures(b, signature);
      }
    }
  }

  /** A batch of which the first `ran` new calls are run keeps the ledger. */
  lemma {:induction false} BatchKeepsLedger(
      log: seq<ToolCall>, executed: set<string>, skipped: set<string>, signature: Signing, calls: seq<ToolCall>,
        ran: nat)
    requires Ledger(log, executed, skipped, signature) && ran <= |Uniques(calls, executed, signature)|
    ensures var u := Uniques(calls, executed, signature);
      Ledger(log + u[..ran], executed + Signatures(calls, signature), skipped + Signatures(u[ran..], signature),
        signature)
  {
    hide Signatures, DistinctSignatures, Uniques;
    var u := Uniques(calls, executed, signature);
    UniquesAreNew(calls, executed, signature);
    PartSignatures(u, ran, signature);
    SignaturesConcat(log, u[..ran], signature);
    DistinctConcat(log, u[..ran], signature);
  }

  /** The new call at `k` has the signature, and no reply before it ends the batch. */
  ghost predicate AskedInTime(tools: Tools, now: nat, u: seq<ToolCall>, k: nat, signature: Signing, s: string) {
    k < |u| && signature(u[k]) == s && forall j: nat :: j < k ==> !Ends(tools(now + j, u[j]))
  }

  /** A signature is run in a batch exactly if it is asked for there, was neither run nor skipped before, and no
      reply to an earlier new call ends the batch. */
  lemma {:induction false} RunsInBatchIff(
      tools: Tools, now: nat, calls: seq<ToolCall>, executed: set<string>, signature: Signing, s: string)
    ensures var u := Uniques(calls, executed, signature);
      s in Signatures(u[..Ran(tools, now, u)], signature) <==>
      && s in Signatures(calls, signature) && s !in executed
      && exists k: nat :: AskedInTime(tools, now, u, k, signature, s)
  {
    hide Uniques, Ran;
    var u := Uniques(calls, executed, signature);
    UniquesAreNew(calls, executed, signature);
    var ran := Ran(tools, now, u);
    if s in Signatures(u[..ran], signature) {
      var c :| c in u[..ran] && signature(c) == s;
      var k :| 0 <= k < ran && u[..ran][k] == c;
      RanIff(tools, now, u, k);
      assert AskedInTime(tools, now, u, k, signature, s);
      assert u[k] in u && signature(u[k]) in Signatures(u, signature);
    }
    if k: nat :| AskedInTime(tools, now, u, k, signature, s) {
      RanIff(tools, now, u, k);
      assert u[k] in u && signature(u[k]) in Signatures(u, signature);
      assert u[..ran][k] == u[k] && u[k] in u[..ran];
      assert signature(u[k]) in Signatures(u[..ran], signature);
    }
  }

  /** Two calls in a batch, of which the first ends it: the second is skipped, its signature is remembered, and
      when it is asked for again it is answered as a duplicate and not run. */
  lemma {:induction false} SkippedThenRefused(tools: Tools, now: nat, later: nat, a: ToolCall, b: ToolCall,
      signature: Signing)
    requires signature(a) != signature(b) && Ends(tools(now, a))
    ensures Uniques([a, b], {}, signature) == [a, b] && Ran(tools, now, [a, b]) == 1
    ensures Results(tools, now, [a, b])[1] == SkippedResult(b)
    ensures var executed := {} + Signatures([a, b], signature);
      && Uniques([b], executed, signature) == []
      && BatchResults(tools, later, [b], executed, signature) == [ToolResult(b.id, b.name, DUPLICATE_NOTICE)]
  {
    hide Results, Notices;
    assert [a, b][..1] == [a] && [a][..0] == [] && [b][..0] == [];
    assert a in [a] && a in [a, b] && b in [a, b];
    assert Uniques([a], {}, signature) == [a];
    assert Duplicates([b], {} + Signatures([a, b], signature), signature) == [b];
  }
}
