/** Tool calls and their results: how the turn loop keeps them together, why a compaction never
    separates them, and the repair that runs before every request. */
module Pairing {
  import opened Messages
  import opened Sessions
  import opened Transcripts
  import opened Compaction

  function CallIDs(calls: seq<ToolCall>): (r: seq<string>)
    ensures |r| == |calls| && forall k :: 0 <= k < |r| ==> r[k] == calls[k].id
  {
    seq(|calls|, k requires 0 <= k < |calls| => calls[k].id)
  }

  function ResultIDs(h: seq<Message>): (r: seq<string>)
    ensures |r| == |h| && forall k :: 0 <= k < |r| ==> r[k] == h[k].toolCallID
  {
    seq(|h|, k requires 0 <= k < |h| => h[k].toolCallID)
  }

  /** The message at `i` is followed at once by exactly one tool message for each of its calls. */
  ghost predicate Block(h: seq<Message>, i: nat) {
    && i < |h| && i + |h[i].toolCalls| < |h|
    && (forall k :: i < k <= i + |h[i].toolCalls| ==> h[k].role.Tool?)
    && multiset(ResultIDs(h[i + 1..i + 1 + |h[i].toolCalls|])) == multiset(CallIDs(h[i].toolCalls))
    && (i + |h[i].toolCalls| + 1 < |h| ==> !h[i + |h[i].toolCalls| + 1].role.Tool?)
  }

  /** The result at `j` answers a call of the message at `i`. */
  ghost predicate Answers(h: seq<Message>, i: nat, j: nat) {
    i < j < |h| && h[i].toolCalls != [] && j <= i + |h[i].toolCalls|
  }

  ghost predicate Paired(h: seq<Message>) {
    && (forall i :: 0 <= i < |h| && h[i].toolCalls != [] ==> h[i].role.Assistant? && Block(h, i))
    && (forall j :: 0 <= j < |h| && h[j].role.Tool? ==> exists i :: Answers(h, i, j))
  }

  predicate LegalBatch(calls: seq<ToolCall>, results: seq<ToolResult>) {
    multiset(CallIDs(calls)) == multiset(ResultIDs(ResultMessages(results)))
  }

  predicate IsLegal(e: Event) { e.AddBatch? ==> LegalBatch(e.calls, e.results) }

  // ---- Preservation ----

  /** Same roles, calls and ids. */
  ghost predicate SameCalls(a: seq<Message>, b: seq<Message>) {
    && |a| == |b|
    && forall i :: 0 <= i < |a| ==>
      a[i].role == b[i].role && a[i].toolCalls == b[i].toolCalls && a[i].toolCallID == b[i].toolCallID
  }

  lemma {:induction false} SameCallsBlock(a: seq<Message>, b: seq<Message>, i: nat)
    requires i < |a| && Block(a, i) && SameCalls(a, b)
    ensures Block(b, i)
  {
    var n := |a[i].toolCalls|;
    assert ResultIDs(a[i + 1..i + 1 + n]) == ResultIDs(b[i + 1..i + 1 + n]);
  }

  lemma {:induction false} SameCallsPaired(a: seq<Message>, b: seq<Message>)
    requires Paired(a) && SameCalls(a, b)
    ensures Paired(b)
  {
    hide Block;
    forall i | 0 <= i < |b| && b[i].toolCalls != []
      ensures b[i].role.Assistant? && Block(b, i)
    {
      SameCallsBlock(a, b, i);
    }
    forall j | 0 <= j < |b| && b[j].role.Tool?
      ensures exists i :: Answers(b, i, j)
    {
      var i :| Answers(a, i, j);
      assert Answers(b, i, j);
    }
  }

  lemma {:induction false} BlockExtends(h: seq<Message>, m: Message, rest: seq<Message>, i: nat)
    requires i < |h| && h[i].toolCalls != [] && Block(h, i) && !m.role.Tool?
    ensures Block(h + ([m] + rest), i)
  {
    var r := h + ([m] + rest);
    var n := |h[i].toolCalls|;
    assert r[i + 1..i + 1 + n] == h[i + 1..i + 1 + n];
  }

  lemma {:induction false} NewBlock(h: seq<Message>, m: Message, results: seq<Message>)
    requires |results| == |m.toolCalls| && multiset(ResultIDs(results)) == multiset(CallIDs(m.toolCalls))
    requires forall k :: 0 <= k < |results| ==> results[k].role.Tool?
    ensures Block(h + ([m] + results), |h|)
  {
    var r := h + ([m] + results);
    assert r[|h|] == m;
    assert r[|h| + 1..|h| + 1 + |m.toolCalls|] == results;
  }

  /** Appending a message and its results, if it has calls. */
  lemma {:induction false} AppendPaired(h: seq<Message>, m: Message, results: seq<Message>)
    requires Paired(h) && !m.role.Tool? && (m.toolCalls != [] ==> m.role.Assistant?)
    requires |results| == |m.toolCalls| && multiset(ResultIDs(results)) == multiset(CallIDs(m.toolCalls))
    requires forall k :: 0 <= k < |results| ==> results[k].role.Tool? && results[k].toolCalls == []
    ensures Paired(h + ([m] + results))
  {
    hide Block, ResultIDs, CallIDs;
    var r := h + ([m] + results);
    forall i | 0 <= i < |r| && r[i].toolCalls != []
      ensures r[i].role.Assistant? && Block(r, i)
    {
      if i < |h| {
        BlockExtends(h, m, results, i);
      } else {
        NewBlock(h, m, results);
      }
    }
    forall j | 0 <= j < |r| && r[j].role.Tool?
      ensures exists i :: Answers(r, i, j)
    {
      if j < |h| {
        var i :| Answers(h, i, j);
        assert Answers(r, i, j);
      } else {
        assert Answers(r, |h|, j);
      }
    }
  }

  lemma {:induction false} AppendOnePaired(h: seq<Message>, m: Message)
    requires Paired(h) && !m.role.Tool? && m.toolCalls == []
    ensures Paired(h + [m])
  {
    AppendPaired(h, m, []);
    assert [m] + [] == [m];
  }

  lemma {:induction false} BatchPaired(h: seq<Message>, text: string, calls: seq<ToolCall>, results: seq<ToolResult>)
    requires Paired(h) && LegalBatch(calls, results)
    ensures Paired(h + ([CallMessage(text, calls)] + ResultMessages(results)))
  {
    assert |multiset(CallIDs(calls))| == |calls|;
    assert |multiset(ResultIDs(ResultMessages(results)))| == |results|;
    AppendPaired(h, CallMessage(text, calls), ResultMessages(results));
  }

  lemma {:induction false} MarkedPaired(h: seq<Message>, tail: int, summary: string)
    requires Paired(h)
    ensures Paired(Marked(h, tail, summary))
  {
    SameCallsPaired(h, FlagBefore(h, tail));
    AppendOnePaired(FlagBefore(h, tail), PromptMessage());
    AppendOnePaired(FlagBefore(h, tail) + [PromptMessage()], SummaryMessage(summary, tail));
    assert Marked(h, tail, summary) == FlagBefore(h, tail) + [PromptMessage()] + [SummaryMessage(summary, tail)];
  }

  lemma {:induction false} StepPaired(t: State, e: Event)
    requires Inv(t) && Paired(t.history) && IsLegal(e)
    ensures Paired(Step(t, e).history)
  {
    hide Inv, Paired, LegalBatch, PrunedHistory, SystemUpdated, Marked, PlanOf;
    match e
    case AddUser(text) => AppendOnePaired(t.history, UserMessage(text));
    case AddAssistant(text) => AppendOnePaired(t.history, AssistantMessage(text));
    case AddInternal(text) => AppendOnePaired(t.history, InternalMessage(text));
    case AddBatch(text, calls, results) => BatchPaired(t.history, text, calls, results);
    case SetSystemPrompt(text) =>
      SystemUpdateClears(t, text);
      SameCallsPaired(t.history, SystemUpdated(t.history, text));
    case Prune =>
      PruningClears(t.history);
      SameCallsPaired(t.history, PrunedHistory(t.history));
    case Compress(keep, summary) =>
      var p := PlanHeadBounded(t.history, keep);
      if p.Plan? {
        MarkedPaired(t.history, p.firstKept, summary);
      }
  }

  /** In every run in which each batch gets one result per call, every call stays directly followed
      by its results, through any pruning and any compaction. */
  lemma {:induction false} RunPaired(systemPrompt: string, events: seq<Event>)
    requires forall k :: 0 <= k < |events| ==> IsLegal(events[k])
    ensures Paired(Run(Init(systemPrompt), events).history)
  {
    hide Step, Inv, IsLegal;
    if events != [] {
      var n := |events| - 1;
      RunPaired(systemPrompt, events[..n]);
      RunKeepsInv(systemPrompt, events[..n]);
      StepPaired(Run(Init(systemPrompt), events[..n]), events[n]);
    }
  }

  // ---- What the model is shown ----

  /** The positions of the transcript that are visible besides the system message and the pair of
      prompt and summary in front. */
  predicate Shown(h: seq<Message>, i: int) {
    0 <= i < |h| && Tail(h) <= i && (LastMarker(h) >= 0 ==> i != LastMarker(h) && i != LastMarker(h) - 1)
  }

  /** Where a shown message stands in the visible context. */
  function Place(h: seq<Message>, i: int): int {
    if LastMarker(h) < 0 then i else if i < LastMarker(h) then i - Tail(h) + 3 else i - Tail(h) + 1
  }

  lemma {:induction false} ShownAtPlace(h: seq<Message>, i: int)
    requires WellMarked(h) && SystemFirst(h) && Shown(h, i)
    ensures 0 <= Place(h, i) < |Visible(h)| && Visible(h)[Place(h, i)] == h[i]
  {
    hide LastMarker, Visible;
    if LastMarker(h) >= 0 {
      VisibleShape(h);
    } else {
      NoMarkerNoChange(h);
    }
  }

  lemma {:induction false} ShownFrom(h: seq<Message>, q: nat) returns (i: nat)
    requires WellMarked(h) && SystemFirst(h) && CallsByAssistant(h)
    requires q < |Visible(h)| && (Visible(h)[q].role.Tool? || Visible(h)[q].toolCalls != [])
    ensures i < |h| && Shown(h, i) && Place(h, i) == q && h[i] == Visible(h)[q]
  {
    hide LastMarker, Visible, Shown, Place;
    if LastMarker(h) >= 0 {
      VisibleShape(h);
      var m := LastMarker(h);
      assert MarkedAt(h, m);
      assert q >= 3;
      i := if q < 3 + (m - 1 - Tail(h)) then q - 3 + Tail(h) else q - 1 + Tail(h);
      assert Shown(h, i) && Place(h, i) == q by { PlaceInverse(h, q, i); }
    } else {
      NoMarkerNoChange(h);
      i := q;
      assert Shown(h, i) && Place(h, i) == q by { PlaceInverse(h, q, i); }
    }
    ShownAtPlace(h, i);
  }

  lemma {:induction false} PlaceInverse(h: seq<Message>, q: nat, i: int)
    requires var m := LastMarker(h);
      if m < 0 then i == q < |h| else
      && 0 <= Tail(h) < m - 1
      && i == (if q < 3 + (m - 1 - Tail(h)) then q - 3 + Tail(h) else q - 1 + Tail(h))
      && 3 <= q && i < |h|
    ensures Shown(h, i) && Place(h, i) == q
  {
  }

  /** No tool result is shown without its call, nor a call without its results. */
  lemma {:induction false} BlocksShownWhole(h: seq<Message>, i: nat, j: nat)
    requires WellMarked(h) && CallsByAssistant(h) && Paired(h) && Answers(h, i, j)
    ensures Shown(h, i) <==> Shown(h, j)
  {
    hide LastMarker, Paired;
    assert Block(h, i) by { BlockOf(h, i); }
    if LastMarker(h) >= 0 {
      assert MarkedAt(h, LastMarker(h));
    }
  }

  lemma {:induction false} BlockOf(h: seq<Message>, i: nat)
    requires Paired(h) && i < |h| && h[i].toolCalls != []
    ensures Block(h, i)
  {
  }

  lemma {:induction false} AnsweredCall(h: seq<Message>, i: nat, j: nat) returns (c: nat)
    requires Block(h, i) && Answers(h, i, j)
    ensures c < |h[i].toolCalls| && h[i].toolCalls[c].id == h[j].toolCallID
  {
    var ids := ResultIDs(h[i + 1..i + 1 + |h[i].toolCalls|]);
    assert ids[j - i - 1] == h[j].toolCallID;
    assert h[j].toolCallID in multiset(ids);
    assert h[j].toolCallID in CallIDs(h[i].toolCalls);
    c :| 0 <= c < |h[i].toolCalls| && CallIDs(h[i].toolCalls)[c] == h[j].toolCallID;
  }

  lemma {:induction false} AnsweringResult(h: seq<Message>, i: nat, c: nat) returns (j: nat)
    requires i < |h| && Block(h, i) && c < |h[i].toolCalls|
    ensures Answers(h, i, j) && h[j].role.Tool? && h[j].toolCallID == h[i].toolCalls[c].id
  {
    var ids := ResultIDs(h[i + 1..i + 1 + |h[i].toolCalls|]);
    assert CallIDs(h[i].toolCalls)[c] in multiset(CallIDs(h[i].toolCalls));
    assert h[i].toolCalls[c].id in multiset(ids);
    var k :| 0 <= k < |ids| && ids[k] == h[i].toolCalls[c].id;
    j := i + 1 + k;
  }

  /** A visible list in which every result follows its call and every call has a later result. */
  ghost predicate CallsMatch(v: seq<Message>) {
    && (forall q :: 0 <= q < |v| && v[q].role.Tool? ==> HasCall(v, q))
    && (forall p, c :: 0 <= p < |v| && 0 <= c < |v[p].toolCalls| ==> HasResult(v, p, v[p].toolCalls[c].id))
  }

  ghost predicate HasCall(v: seq<Message>, q: nat)
    requires q < |v|
  {
    exists p, c :: 0 <= p < q && 0 <= c < |v[p].toolCalls| && v[p].toolCalls[c].id == v[q].toolCallID
  }

  ghost predicate HasResult(v: seq<Message>, p: nat, id: string) {
    exists q :: p < q < |v| && v[q].role.Tool? && v[q].toolCallID == id
  }

  lemma {:induction false} ResultHasCall(h: seq<Message>, q: nat)
    requires WellMarked(h) && SystemFirst(h) && CallsByAssistant(h) && Paired(h)
    requires q < |Visible(h)| && Visible(h)[q].role.Tool?
    ensures HasCall(Visible(h), q)
  {
    hide LastMarker, Visible, WellMarked, Block, Shown;
    var j := ShownFrom(h, q);
    var i: nat :| Answers(h, i, j);
    BlocksShownWhole(h, i, j);
    ShownAtPlace(h, i);
    PlaceMonotone(h, i, j);
    var c := AnsweredCall(h, i, j);
    assert Visible(h)[Place(h, i)].toolCalls[c].id == Visible(h)[q].toolCallID;
  }

  lemma {:induction false} CallHasResult(h: seq<Message>, p: nat, c: nat)
    requires WellMarked(h) && SystemFirst(h) && CallsByAssistant(h) && Paired(h)
    requires p < |Visible(h)| && c < |Visible(h)[p].toolCalls|
    ensures HasResult(Visible(h), p, Visible(h)[p].toolCalls[c].id)
  {
    hide LastMarker, Visible, WellMarked, Block, Shown;
    var i := ShownFrom(h, p);
    var j := AnsweringResult(h, i, c);
    BlocksShownWhole(h, i, j);
    ShownAtPlace(h, j);
    PlaceMonotone(h, i, j);
  }

  lemma {:induction false} PlaceMonotone(h: seq<Message>, i: nat, j: nat)
    requires i < j && Shown(h, i) && Shown(h, j)
    ensures Place(h, i) < Place(h, j)
  {
  }

  /** Of a well-marked transcript in which calls and results are paired, the model never sees a result without its
      call before it, nor a call without its result after it, wherever the compactions cut. */
  lemma {:induction false} ShownCallsMatch(h: seq<Message>)
    requires WellMarked(h) && SystemFirst(h) && CallsByAssistant(h) && Paired(h)
    ensures CallsMatch(Visible(h))
  {
    hide Visible, HasCall, HasResult, Paired, WellMarked;
    forall q | 0 <= q < |Visible(h)| && Visible(h)[q].role.Tool?
      ensures HasCall(Visible(h), q)
    {
      ResultHasCall(h, q);
    }
    forall p, c | 0 <= p < |Visible(h)| && 0 <= c < |Visible(h)[p].toolCalls|
      ensures HasResult(Visible(h), p, Visible(h)[p].toolCalls[c].id)
    {
      CallHasResult(h, p, c);
    }
  }

  /** So it is of every transcript for which the invariant holds, a seeded one as well as one that was run. */
  lemma {:induction false} KeptCallsMatch(t: State)
    requires Inv(t) && Paired(t.history)
    ensures CallsMatch(Visible(t.history))
  {
    hide Visible, Paired, CallsMatch, WellMarked;
    ShownCallsMatch(t.history);
  }

  /** And so in every run with complete batches. */
  lemma {:induction false} VisibleCallsMatch(systemPrompt: string, events: seq<Event>)
    requires forall k :: 0 <= k < |events| ==> IsLegal(events[k])
    ensures CallsMatch(Visible(Run(Init(systemPrompt), events).history))
  {
    hide Run, Visible, IsLegal, CallsMatch, Inv, Paired;
    RunKeepsInv(systemPrompt, events);
    RunPaired(systemPrompt, events);
    KeptCallsMatch(Run(Init(systemPrompt), events));
  }

  // ---- Lists with matching calls ----

  lemma {:induction false} CallsMatchSame(a: seq<Message>, b: seq<Message>)
    requires CallsMatch(a) && SameCalls(a, b)
    ensures CallsMatch(b)
  {
    forall q | 0 <= q < |b| && b[q].role.Tool?
      ensures HasCall(b, q)
    {
      assert HasCall(a, q);
      var p, c :| 0 <= p < q && 0 <= c < |a[p].toolCalls| && a[p].toolCalls[c].id == a[q].toolCallID;
      assert b[p].toolCalls[c].id == b[q].toolCallID;
    }
    forall p, c | 0 <= p < |b| && 0 <= c < |b[p].toolCalls|
      ensures HasResult(b, p, b[p].toolCalls[c].id)
    {
      assert a[p].toolCalls[c] == b[p].toolCalls[c];
      assert HasResult(a, p, a[p].toolCalls[c].id);
      var q :| p < q < |a| && a[q].role.Tool? && a[q].toolCallID == a[p].toolCalls[c].id;
      assert b[q].role.Tool?;
    }
  }

  /** Where a position of `a + b` is found once `n` messages were put between. */
  function Moved(at: nat, a: nat, n: nat): nat { if at < a then at else at + n }

  /** The list `w` is `v` with messages put in at `a` that have neither calls nor are results. */
  ghost predicate PutBetween(v: seq<Message>, w: seq<Message>, a: nat, n: nat) {
    && a <= |v| && |w| == |v| + n
    && (forall k :: 0 <= k < |v| ==> w[Moved(k, a, n)] == v[k])
    && (forall k :: a <= k < a + n ==> !w[k].role.Tool? && w[k].toolCalls == [])
  }

  lemma {:induction false} ResultStillHasCall(v: seq<Message>, w: seq<Message>, a: nat, n: nat, q: nat)
    requires PutBetween(v, w, a, n) && q < |v| && HasCall(v, q)
    ensures HasCall(w, Moved(q, a, n))
  {
    var p, c :| 0 <= p < q && 0 <= c < |v[p].toolCalls| && v[p].toolCalls[c].id == v[q].toolCallID;
    assert w[Moved(p, a, n)].toolCalls[c].id == w[Moved(q, a, n)].toolCallID;
  }

  lemma {:induction false} CallStillHasResult(v: seq<Message>, w: seq<Message>, a: nat, n: nat, p: nat, id: string)
    requires PutBetween(v, w, a, n) && p < |v| && HasResult(v, p, id)
    ensures HasResult(w, Moved(p, a, n), id)
  {
    var q :| p < q < |v| && v[q].role.Tool? && v[q].toolCallID == id;
    assert w[Moved(q, a, n)] == v[q];
  }

  lemma {:induction false} CallsStillMatch(v: seq<Message>, w: seq<Message>, a: nat, n: nat)
    requires CallsMatch(v) && PutBetween(v, w, a, n)
    ensures CallsMatch(w)
  {
    hide HasCall, HasResult;
    forall q' | 0 <= q' < |w| && w[q'].role.Tool?
      ensures HasCall(w, q')
    {
      var q := if q' < a then q' else q' - n;
      assert q' == Moved(q, a, n);
      ResultStillHasCall(v, w, a, n, q);
    }
    forall p', c | 0 <= p' < |w| && 0 <= c < |w[p'].toolCalls|
      ensures HasResult(w, p', w[p'].toolCalls[c].id)
    {
      var p := if p' < a then p' else p' - n;
      assert p' == Moved(p, a, n);
      CallStillHasResult(v, w, a, n, p, v[p].toolCalls[c].id);
    }
  }

  /** Messages without calls and results do no harm wherever they are put. */
  lemma {:induction false} CallsMatchInsert(a: seq<Message>, more: seq<Message>, b: seq<Message>)
    requires CallsMatch(a + b)
    requires forall k :: 0 <= k < |more| ==> !more[k].role.Tool? && more[k].toolCalls == []
    ensures CallsMatch(a + more + b)
  {
    hide CallsMatch;
    var w := a + more + b;
    assert forall k :: |a| <= k < |a| + |more| ==> w[k] == more[k - |a|];
    CallsStillMatch(a + b, w, |a|, |more|);
  }

  /** Whatever the pins, calls and results match in the context that is sent. */
  lemma {:induction false} ContextCallsMatch(h: seq<Message>, pinned: seq<string>)
    requires CallsMatch(Visible(h))
    ensures CallsMatch(Context(h, pinned))
  {
    hide Visible, Context, CallsMatch;
    var v, k, pins := Visible(h), PinIndex(h), MissingPins(Visible(h), pinned);
    ContextShape(h, pinned);
    assert v[..k] + v[k..] == v;
    PinsAreUserMessages(v, pinned);
    CallsMatchInsert(v[..k], pins, v[k..]);
  }

  lemma {:induction false} PinsAreUserMessages(visible: seq<Message>, pinned: seq<string>)
    ensures forall k :: 0 <= k < |MissingPins(visible, pinned)| ==>
      MissingPins(visible, pinned)[k] == UserMessage(MissingPins(visible, pinned)[k].content)
  {
    hide HasUserContent;
    if pinned != [] { PinsAreUserMessages(visible, pinned[..|pinned| - 1]); }
  }

  lemma {:induction false} OneResult(call: ToolCall, r: ToolResult)
    requires r.id == call.id
    ensures LegalBatch([call], [r])
    ensures ResultMessages([r]) == [ToolMessage(r.id, r.name, r.content)]
  {
    assert CallIDs([call]) == ResultIDs(ResultMessages([r]));
  }

  lemma {:induction false} NothingPaired()
    ensures Paired([])
  {
  }
}
