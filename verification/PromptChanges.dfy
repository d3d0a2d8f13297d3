/** What a change of the system prompt does to a transcript that was begun without one
    (session/session.go:155-174). */
module PromptChanges {
  import opened Messages
  import opened Sessions
  import opened Budgets
  import opened Transcripts
  import opened Compaction
  import opened Pairing
  import Text

  ghost predicate WithoutSystem(h: seq<Message>) {
    forall i :: 0 <= i < |h| ==> !h[i].role.System?
  }

  lemma {:induction false} PrependedMarker(h: seq<Message>, prompt: string)
    requires WellMarked(h) && WithoutSystem(h) && LastMarker(h) >= 0
    ensures var m := LastMarker(h);
      && SystemUpdated(h, prompt) == [SystemMessage(prompt)] + h
      && LastMarker(SystemUpdated(h, prompt)) == m + 1
      && LastUserBefore(SystemUpdated(h, prompt), m + 1) == m && LastUserBefore(h, m) == m - 1
      && 0 < Tail(h) < m - 1
  {
    hide LastMarker, LastUserBefore;
    var m := LastMarker(h);
    var moved := [SystemMessage(prompt)] + h;
    assert MarkedAt(h, m);
    assert forall i :: 0 < i < |moved| ==> moved[i] == h[i - 1];
    LastMarkerUnique(moved, m + 1);
    PromptBefore(moved, m + 1);
    PromptBefore(h, m);
  }

  /** Unfolding what is shown of a transcript with a usable tail start. */
  lemma {:induction false} VisibleIs(h: seq<Message>, m: nat, u: nat)
    requires m == LastMarker(h) && u == LastUserBefore(h, m) && 0 < h[m].tailStartID < |h|
    ensures Visible(h) ==
      (if h[0].role.System? then [h[0]] else []) + ([h[u], h[m]] + Except(h, h[m].tailStartID, |h|, u, m))
  {
    hide Except, LastMarker, LastUserBefore;
  }

  lemma {:induction false} SlicesBehindPrompt(h: seq<Message>, prompt: string, tail: nat, m: nat)
    requires 0 < tail < m - 1 && m < |h|
    ensures var moved := [SystemMessage(prompt)] + h;
      && moved[tail..m] + moved[m + 2..] == [h[tail - 1]] + (h[tail..m - 1] + h[m + 1..])
      && moved[0] == SystemMessage(prompt) && moved[m] == h[m - 1] && moved[m + 1] == h[m]
      && moved[tail] == h[tail - 1]
  {
    var moved := [SystemMessage(prompt)] + h;
    assert moved[tail..m] == [h[tail - 1]] + h[tail..m - 1];
    assert moved[m + 2..] == h[m + 1..];
  }

  lemma {:induction false} ShownBehindPrompt(s: Message, u: Message, m: Message, x: Message, rest: seq<Message>)
    ensures [s] + ([u, m] + ([x] + rest)) == [s, u, m] + [x] + rest
    ensures [] + ([u, m] + rest) == [u, m] + rest
  {
  }

  /** The tail now starts at the message before the one that was meant: a message that was already summarised is shown
      again, and otherwise the same as before behind the new system message. */
  lemma {:induction false} PrependShowsOneMore(h: seq<Message>, prompt: string)
    requires WellMarked(h) && WithoutSystem(h) && LastMarker(h) >= 0
    ensures var m, tail := LastMarker(h), Tail(h);
      && 0 < tail < m - 1 && SystemUpdated(h, prompt)[tail] == h[tail - 1]
      && Visible(h) == [h[m - 1], h[m]] + (h[tail..m - 1] + h[m + 1..])
      && Visible(SystemUpdated(h, prompt)) ==
         [SystemMessage(prompt), h[m - 1], h[m]] + [h[tail - 1]] + (h[tail..m - 1] + h[m + 1..])
  {
    hide LastMarker, LastUserBefore, Except, Visible, WellMarked, SystemUpdated, WithoutSystem;
    var m, tail := LastMarker(h), Tail(h);
    PrependedMarker(h, prompt);
    NoSystemInFront(h);
    ShownBefore(h, m);
    ShownAfter(h, prompt, m);
    SlicesBehindPrompt(h, prompt, tail, m);
  }

  lemma {:induction false} NoSystemInFront(h: seq<Message>)
    requires WithoutSystem(h)
    ensures h != [] ==> !h[0].role.System?
  {
  }

  lemma {:induction false} ShownBefore(h: seq<Message>, m: nat)
    requires m == LastMarker(h) && m > 0 && LastUserBefore(h, m) == m - 1 && 0 < h[m].tailStartID < m - 1
    requires !h[0].role.System?
    ensures Visible(h) == [h[m - 1], h[m]] + (h[h[m].tailStartID..m - 1] + h[m + 1..])
  {
    hide LastMarker, LastUserBefore, Except, Visible;
    ExceptPair(h, h[m].tailStartID, m - 1);
    VisibleIs(h, m, m - 1);
    ShownBehindPrompt(h[m], h[m - 1], h[m], h[m], h[h[m].tailStartID..m - 1] + h[m + 1..]);
  }

  lemma {:induction false} ShownAfter(h: seq<Message>, prompt: string, m: nat)
    requires m < |h| && m > 0 && 0 < h[m].tailStartID < m - 1
    requires var moved := [SystemMessage(prompt)] + h;
      LastMarker(moved) == m + 1 && LastUserBefore(moved, m + 1) == m
    ensures Visible([SystemMessage(prompt)] + h) ==
      [SystemMessage(prompt), h[m - 1], h[m]] + [h[h[m].tailStartID - 1]] + (h[h[m].tailStartID..m - 1] + h[m + 1..])
  {
    hide LastMarker, LastUserBefore, Except, Visible;
    var tail, moved := h[m].tailStartID, [SystemMessage(prompt)] + h;
    SlicesBehindPrompt(h, prompt, tail, m);
    ExceptPair(moved, tail, m);
    VisibleIs(moved, m + 1, m);
    ShownBehindPrompt(SystemMessage(prompt), h[m - 1], h[m], h[tail - 1], h[tail..m - 1] + h[m + 1..]);
  }

  // ---------------------------------------------------------------- calls and results

  /** The transcript as it would be if the recorded tail starts had moved along. */
  function Followed(h: seq<Message>): (r: seq<Message>)
    ensures |r| == |h|
    ensures forall i :: 0 <= i < |h| ==>
      r[i] == if h[i].summary then h[i].(tailStartID := h[i].tailStartID + 1) else h[i]
  {
    seq(|h|, i requires 0 <= i < |h| => if h[i].summary then h[i].(tailStartID := h[i].tailStartID + 1) else h[i])
  }

  lemma {:induction false} PrependPaired(h: seq<Message>, m: Message)
    requires Paired(h) && !m.role.Tool? && m.toolCalls == []
    ensures Paired([m] + h)
  {
    hide Block;
    var r := [m] + h;
    forall i | 0 <= i < |r| && r[i].toolCalls != []
      ensures r[i].role.Assistant? && Block(r, i)
    {
      PrependBlock(h, m, i - 1);
    }
    forall j | 0 <= j < |r| && r[j].role.Tool?
      ensures exists i :: Answers(r, i, j)
    {
      var i: nat :| Answers(h, i, j - 1);
      assert Answers(r, i + 1, j);
    }
  }

  lemma {:induction false} PrependBlock(h: seq<Message>, m: Message, i: nat)
    requires i < |h| && Block(h, i)
    ensures Block([m] + h, i + 1)
  {
    var r, n := [m] + h, |h[i].toolCalls|;
    assert r[i + 2..i + 2 + n] == h[i + 1..i + 1 + n];
  }

  lemma {:induction false} CutByRole(a: Message, b: Message)
    requires a.role == b.role
    ensures IsValidCutPoint(RawOf(a)) == IsValidCutPoint(RawOf(b))
  {
  }

  lemma {:induction false} FollowedMark(h: seq<Message>, prompt: string, i: nat)
    requires i < |h| && MarkedAt(h, i)
    ensures MarkedAt([SystemMessage(prompt)] + Followed(h), i + 1)
  {
    hide RawOf;
    var g := [SystemMessage(prompt)] + Followed(h);
    var tail := h[i].tailStartID;
    assert g[i + 1] == Followed(h)[i] && g[i] == Followed(h)[i - 1] && g[tail + 1] == Followed(h)[tail];
    CutByRole(g[tail + 1], h[tail]);
  }

  lemma {:induction false} FollowedWellMarked(h: seq<Message>, prompt: string)
    requires WellMarked(h)
    ensures WellMarked([SystemMessage(prompt)] + Followed(h))
  {
    hide MarkedAt;
    var g := [SystemMessage(prompt)] + Followed(h);
    assert forall i :: 0 < i < |g| ==> g[i] == Followed(h)[i - 1];
    forall i | 0 <= i < |g| && g[i].summary
      ensures MarkedAt(g, i) && g[i].tailStartID == h[i - 1].tailStartID + 1
    {
      FollowedMark(h, prompt, i - 1);
    }
  }

  lemma {:induction false} FollowedCalls(h: seq<Message>, prompt: string)
    requires Paired(h) && WithoutSystem(h)
    ensures var g := [SystemMessage(prompt)] + Followed(h);
      Paired(g) && SystemFirst(g) && CallsByAssistant(g)
  {
    hide Paired;
    var g := [SystemMessage(prompt)] + Followed(h);
    assert forall i :: 0 < i < |g| ==> g[i] == Followed(h)[i - 1];
    SameCallsPaired(h, Followed(h));
    PrependPaired(Followed(h), SystemMessage(prompt));
    PairedCallers(g);
  }

  lemma {:induction false} PairedCallers(h: seq<Message>)
    requires Paired(h)
    ensures CallsByAssistant(h)
  {
  }

  /** What is shown behind the new system message, but for the message shown again, matches. */
  lemma {:induction false} OthersMatch(h: seq<Message>, prompt: string)
    requires WellMarked(h) && WithoutSystem(h) && Paired(h) && LastMarker(h) >= 0
    ensures var m, tail := LastMarker(h), Tail(h);
      0 < tail < m - 1 && CallsMatch([SystemMessage(prompt), h[m - 1], h[m]] + (h[tail..m - 1] + h[m + 1..]))
  {
    hide LastMarker, Visible, Paired, WellMarked, CallsMatch, Followed, Tail, SystemFirst, WithoutSystem;
    hide SystemUpdated, CallsByAssistant, SameCalls, LastUserBefore;
    var m, tail := LastMarker(h), Tail(h);
    var g := [SystemMessage(prompt)] + Followed(h);
    PrependedMarker(h, prompt);
    FollowedWellMarked(h, prompt);
    FollowedCalls(h, prompt);
    ShownCallsMatch(g);
    FollowedMarker(h, prompt);
    VisibleShape(g);
    FollowedSlices(h, prompt, m, tail);
    CallsMatchSame(Visible(g), [SystemMessage(prompt), h[m - 1], h[m]] + (h[tail..m - 1] + h[m + 1..]));
  }

  lemma {:induction false} FollowedMarker(h: seq<Message>, prompt: string)
    requires LastMarker(h) >= 0
    ensures var g := [SystemMessage(prompt)] + Followed(h);
      LastMarker(g) == LastMarker(h) + 1 && Tail(g) == Tail(h) + 1
  {
    hide LastMarker;
    var g := [SystemMessage(prompt)] + Followed(h);
    assert forall i :: 0 < i < |g| ==> g[i] == Followed(h)[i - 1];
    LastMarkerUnique(g, LastMarker(h) + 1);
  }

  lemma {:induction false} FollowedSlices(h: seq<Message>, prompt: string, m: nat, tail: nat)
    requires 0 < tail < m - 1 && m < |h|
    ensures var g := [SystemMessage(prompt)] + Followed(h);
      SameCalls([g[0]] + ([g[m], g[m + 1]] + (g[tail + 1..m] + g[m + 2..])),
        [SystemMessage(prompt), h[m - 1], h[m]] + (h[tail..m - 1] + h[m + 1..]))
  {
    hide SameCalls;
    var f := Followed(h);
    ShiftedParts(h, prompt, m, tail);
    FollowedSlice(h, tail, m - 1);
    FollowedSlice(h, m + 1, |h|);
    FollowedSlice(h, m - 1, m + 1);
    PartsAlike(SystemMessage(prompt), f[m - 1..m + 1], h[m - 1..m + 1], f[tail..m - 1], h[tail..m - 1], f[m + 1..],
      h[m + 1..]);
    OneList(SystemMessage(prompt), h[m - 1], h[m], h[tail..m - 1] + h[m + 1..]);
  }

  lemma {:induction false} ShiftedParts(h: seq<Message>, prompt: string, m: nat, tail: nat)
    requires 0 < tail < m - 1 && m < |h|
    ensures var g, f := [SystemMessage(prompt)] + Followed(h), Followed(h);
      && g[0] == SystemMessage(prompt) && [g[m], g[m + 1]] == f[m - 1..m + 1]
      && g[tail + 1..m] == f[tail..m - 1] && g[m + 2..] == f[m + 1..]
    ensures h[m - 1..m + 1] == [h[m - 1], h[m]]
  {
  }

  lemma {:induction false} OneList(s: Message, u: Message, m: Message, rest: seq<Message>)
    ensures [s] + ([u, m] + rest) == [s, u, m] + rest
  {
  }

  lemma {:induction false} PartsAlike(s: Message, a: seq<Message>, a': seq<Message>, b: seq<Message>, b': seq<Message>,
      c: seq<Message>, c': seq<Message>)
    requires SameCalls(a, a') && SameCalls(b, b') && SameCalls(c, c')
    ensures SameCalls([s] + (a + (b + c)), [s] + (a' + (b' + c')))
  {
    hide SameCalls;
    SameCallsConcat(b, b', c, c');
    SameCallsConcat(a, a', b + c, b' + c');
    SameCallsOne(s);
    SameCallsConcat([s], [s], a + (b + c), a' + (b' + c'));
  }

  lemma {:induction false} FollowedSlice(h: seq<Message>, i: nat, j: nat)
    requires i <= j <= |h|
    ensures SameCalls(Followed(h)[i..j], h[i..j])
    ensures Followed(h)[j..] == Followed(h)[j..|h|] && h[j..] == h[j..|h|] && Followed(h)[i..] == Followed(h)[i..|h|]
    ensures h[i..] == h[i..|h|]
  {
  }

  lemma {:induction false} SameCallsOne(m: Message)
    ensures SameCalls([m], [m])
  {
  }

  lemma {:induction false} SameCallsConcat(a: seq<Message>, b: seq<Message>, c: seq<Message>, d: seq<Message>)
    requires SameCalls(a, b) && SameCalls(c, d)
    ensures SameCalls(a + c, b + d)
  {
  }

  lemma {:induction false} ResultNeedsCaller(v: seq<Message>, q: nat) returns (p: nat)
    requires CallsMatch(v) && q < |v| && v[q].role.Tool?
    ensures p < q && v[p].toolCalls != []
  {
    assert HasCall(v, q);
    var p', c :| 0 <= p' < q && 0 <= c < |v[p'].toolCalls| && v[p'].toolCalls[c].id == v[q].toolCallID;
    p := p';
  }

  lemma {:induction false} OrphanInFront(front: seq<Message>, x: Message, rest: seq<Message>)
    requires x.role.Tool? && forall k :: 0 <= k < |front| ==> front[k].toolCalls == []
    ensures !CallsMatch(front + [x] + rest)
  {
    hide CallsMatch;
    var v := front + [x] + rest;
    assert v[|front|] == x && forall k :: 0 <= k < |front| ==> v[k] == front[k];
    if CallsMatch(v) {
      var p := ResultNeedsCaller(v, |front|);
    }
  }

  lemma {:induction false} CallerIsFollowed(h: seq<Message>, i: nat)
    requires Paired(h) && i < |h| && h[i].toolCalls != []
    ensures i + 1 < |h| && h[i + 1].role.Tool?
  {
    assert Block(h, i);
  }

  lemma {:induction false} BeforeTailCallsNothing(h: seq<Message>, tail: nat)
    requires Paired(h) && 0 < tail < |h| && !h[tail].role.Tool?
    ensures h[tail - 1].toolCalls == []
  {
    hide Paired;
    if h[tail - 1].toolCalls != [] {
      CallerIsFollowed(h, tail - 1);
    }
  }

  /** A change of the prompt keeps calls and results matched exactly if the message before the tail is no result:
      otherwise the model is sent a result without its call. */
  lemma {:induction false} PrependKeepsCallsIff(h: seq<Message>, prompt: string)
    requires WellMarked(h) && WithoutSystem(h) && Paired(h) && LastMarker(h) >= 0
    ensures 0 < Tail(h) < |h|
    ensures CallsMatch(Visible(SystemUpdated(h, prompt))) <==> !h[Tail(h) - 1].role.Tool?
  {
    hide LastMarker, Visible, Paired, CallsMatch, SystemUpdated;
    var m, tail := LastMarker(h), Tail(h);
    PrependShowsOneMore(h, prompt);
    var front, rest := [SystemMessage(prompt), h[m - 1], h[m]], h[tail..m - 1] + h[m + 1..];
    assert MarkedAt(h, m);
    PairedCallers(h);
    if h[tail - 1].role.Tool? {
      OrphanInFront(front, h[tail - 1], rest);
    } else {
      OthersMatch(h, prompt);
      BeforeTailCallsNothing(h, tail);
      CallsMatchInsert(front, [h[tail - 1]], rest);
    }
  }

  /** With a system message in front, or before any compaction, the change moves nothing that matters. */
  lemma {:induction false} HarmlessChange(h: seq<Message>, prompt: string)
    requires WellMarked(h) && Paired(h) && (SystemFirst(h) || (WithoutSystem(h) && LastMarker(h) < 0))
    ensures CallsMatch(Visible(SystemUpdated(h, prompt)))
  {
    hide Visible, Paired, CallsMatch, WellMarked, LastMarker;
    PairedCallers(h);
    if SystemFirst(h) {
      var moved := SystemUpdated(h, prompt);
      assert SameButCleared(h, moved);
      ClearingKeepsMarks(h, moved);
      SameCallsPaired(h, moved);
      ShownCallsMatch(moved);
    } else {
      NothingToFollow(h);
      FollowedWellMarked(h, prompt);
      FollowedCalls(h, prompt);
      ShownCallsMatch([SystemMessage(prompt)] + Followed(h));
    }
  }

  lemma {:induction false} NothingToFollow(h: seq<Message>)
    requires WellMarked(h) && LastMarker(h) < 0
    ensures Followed(h) == h
  {
    hide LastMarker, WellMarked;
    forall i | 0 <= i < |h|
      ensures !h[i].summary
    {
      if h[i].summary { SummaryIsMarker(h, i); }
    }
  }

  lemma {:induction false} SummaryIsMarker(h: seq<Message>, i: nat)
    requires WellMarked(h) && i < |h| && h[i].summary
    ensures LastMarker(h) >= i
  {
    assert MarkedAt(h, i);
  }

  /** Exactly when the model still sees calls and results together after a change of the system prompt. */
  lemma {:induction false} PromptChangeKeepsCallsIff(h: seq<Message>, prompt: string)
    requires WellMarked(h) && Paired(h) && (SystemFirst(h) || WithoutSystem(h))
    ensures !SystemFirst(h) && LastMarker(h) >= 0 ==> 0 < Tail(h) < |h|
    ensures CallsMatch(Visible(SystemUpdated(h, prompt))) <==>
      SystemFirst(h) || LastMarker(h) < 0 || !h[Tail(h) - 1].role.Tool?
  {
    hide Visible, Paired, CallsMatch, WellMarked, LastMarker, SystemUpdated, Tail;
    if SystemFirst(h) || LastMarker(h) < 0 {
      HarmlessChange(h, prompt);
    } else {
      PrependKeepsCallsIff(h, prompt);
    }
  }

  // ---------------------------------------------------------------- a run in which it happens

  /** A question, a call, its result and a second question, in a session without a system prompt. */
  function Begun(call: ToolCall, output: string): seq<Message> {
    [UserMessage("q"), CallMessage("", [call]), ToolMessage(call.id, call.name, output), UserMessage("n")]
  }

  /** The positions below `n`, in order. */
  function UpTo(n: nat): (s: seq<nat>)
    ensures |s| == n && forall k :: 0 <= k < n ==> s[k] == k
  {
    seq(n, k requires 0 <= k < n => k)
  }

  lemma {:induction false} NoStart(ms: seq<RawMessage>, n: nat)
    requires n <= |ms| && forall i :: 0 <= i < n ==> !ms[i].summary
    ensures WorkStart(ms, n) == 0
  {
    if n > 0 { NoStart(ms, n - 1); }
  }

  lemma {:induction false} AllWork(ms: seq<RawMessage>, n: nat)
    requires n <= |ms| && forall i :: 0 <= i < n ==> InWork(ms[i])
    ensures WorkIndexes(ms, 0, n) == UpTo(n)
  {
    hide InWork;
    if n > 0 {
      AllWork(ms, n - 1);
      assert UpTo(n) == UpTo(n - 1) + [n - 1];
    }
  }

  lemma {:induction false} FourKept(ms: seq<RawMessage>)
    requires |ms| == 4 && EstimateTokens(ms[3].content) >= 1
    ensures KeepFrom(ms, 1, 4) == 3
  {
    hide EstimateTokens;
    assert TailTokens(ms, 4) == 0;
  }

  lemma {:induction false} FourCut(ms: seq<RawMessage>)
    requires |ms| == 4 && EstimateTokens(ms[3].content) >= 1 && ms[3].role.User?
    ensures Cut(ms, 1) == CutPoint(3, true)
  {
    hide CutPoints, KeepFrom, FirstFrom, EstimateTokens;
    FourKept(ms);
    var cuts := CutPoints(ms, 4);
    assert 3 in cuts;
    FirstFromLeast(cuts, 3, cuts[0]);
  }

  lemma {:induction false} FourPlan(ms: seq<RawMessage>)
    requires |ms| == 4 && forall i :: 0 <= i < 4 ==> InWork(ms[i]) && !ms[i].summary
    requires ms[3].role.User?
    requires EstimateTokens(ms[3].content) >= 1
    ensures PlanOf(ms, 1) == Plan([0, 1, 2], 3)
  {
    hide WorkIndexes, WorkStart, Cut, InWork, EstimateTokens;
    NoStart(ms, 4);
    AllWork(ms, 4);
    assert Select(ms, UpTo(4)) == ms;
    FourCut(ms);
    assert UpTo(4)[..3] == [0, 1, 2];
  }

  lemma {:induction false} BegunPlan(call: ToolCall, output: string)
    ensures PlanOf(Raw(Begun(call, output)), 1) == Plan([0, 1, 2], 3)
  {
    hide PlanOf;
    var ms := Raw(Begun(call, output));
    assert ms[0].content == "q" + JoinArguments([]) == "q";
    assert ms[3].content == "n" + JoinArguments([]) == "n";
    FourPlan(ms);
  }

  /** Compacting this session and then setting a system prompt sends a result without its call. */
  lemma {:induction false} PromptOrphansResult(call: ToolCall, output: string, summary: string, prompt: string)
    requires Text.Trim(summary) != ""
    ensures var h := Step(State(Begun(call, output), map[]), Compress(1, summary)).history;
      CallsMatch(Visible(h)) && !CallsMatch(Visible(SystemUpdated(h, prompt)))
  {
    hide Step, CallsMatch, Visible, Begun, Marked;
    BegunStep(call, output, summary);
    PromptOrphans(Marked(Begun(call, output), 3, summary), call, output, summary, prompt);
  }

  lemma {:induction false} PromptOrphans(h: seq<Message>, call: ToolCall, output: string, summary: string,
      prompt: string)
    requires h == Marked(Begun(call, output), 3, summary)
    ensures CallsMatch(Visible(h)) && !CallsMatch(Visible(SystemUpdated(h, prompt)))
  {
    hide CallsMatch, Visible, Paired, WellMarked, LastMarker, SystemUpdated, WithoutSystem, Tail, Begun, Marked;
    BegunPaired(call, output);
    MarkedPaired(Begun(call, output), 3, summary);
    BegunMarked(call, output, summary);
    PrependKeepsCallsIff(h, prompt);
    PrependShowsOneMore(h, prompt);
    OthersMatch(h, prompt);
    DropPrompt(h, prompt);
  }

  lemma {:induction false} DropPrompt(h: seq<Message>, prompt: string)
    requires |h| == 6 && CallsMatch([SystemMessage(prompt), h[4], h[5]] + (h[3..4] + h[6..]))
    ensures CallsMatch([h[4], h[5]] + (h[3..4] + h[6..]))
  {
    hide CallsMatch;
    var shown := [h[4], h[5]] + (h[3..4] + h[6..]);
    assert [SystemMessage(prompt), h[4], h[5]] + (h[3..4] + h[6..]) == [SystemMessage(prompt)] + shown;
    DropFrontMatches(SystemMessage(prompt), shown);
  }

  lemma {:induction false} BegunStep(call: ToolCall, output: string, summary: string)
    requires Text.Trim(summary) != ""
    ensures Step(State(Begun(call, output), map[]), Compress(1, summary)).history ==
      Marked(Begun(call, output), 3, summary)
  {
    hide PlanOf, Marked, Text.Trim;
    BegunPlan(call, output);
  }

  lemma {:induction false} BegunPaired(call: ToolCall, output: string)
    ensures Paired(Begun(call, output))
  {
    hide Paired, LegalBatch, ResultMessages, CallIDs, ResultIDs;
    var r := ToolResult(call.id, call.name, output);
    OneResult(call, r);
    NothingPaired();
    AppendOnePaired([], UserMessage("q"));
    BatchPaired([UserMessage("q")], "", [call], [r]);
    var h := [UserMessage("q")] + ([CallMessage("", [call])] + [ToolMessage(call.id, call.name, output)]);
    assert [] + [UserMessage("q")] == [UserMessage("q")];
    AppendOnePaired(h, UserMessage("n"));
    assert h + [UserMessage("n")] == Begun(call, output);
  }

  lemma {:induction false} BegunMarked(call: ToolCall, output: string, summary: string)
    ensures var h := Marked(Begun(call, output), 3, summary);
      && |h| == 6 && WellMarked(h) && WithoutSystem(h) && LastMarker(h) == 5 && Tail(h) == 3
      && h[2].role.Tool?
  {
    var h := Marked(Begun(call, output), 3, summary);
    assert |h| == 6 && IsMarker(h[5]) && IsPrompt(h[4]);
    LastMarkerUnique(h, 5);
  }

  lemma {:induction false} DroppedCall(s: Message, v: seq<Message>, q: nat)
    requires s.toolCalls == [] && q < |v| && HasCall([s] + v, q + 1)
    ensures HasCall(v, q)
  {
    var w := [s] + v;
    assert w[q + 1] == v[q] && w[0] == s;
    var p, c :| 0 <= p < q + 1 && 0 <= c < |w[p].toolCalls| && w[p].toolCalls[c].id == w[q + 1].toolCallID;
    assert p > 0;
    assert w[p] == v[p - 1];
    assert v[p - 1].toolCalls[c].id == v[q].toolCallID;
  }

  lemma {:induction false} DroppedResult(s: Message, v: seq<Message>, p: nat, id: string)
    requires p < |v| && HasResult([s] + v, p + 1, id)
    ensures HasResult(v, p, id)
  {
    var w := [s] + v;
    var q: nat :| p + 1 < q < |w| && w[q].role.Tool? && w[q].toolCallID == id;
    assert v[q - 1] == w[q];
  }

  lemma {:induction false} DropFrontMatches(s: Message, v: seq<Message>)
    requires CallsMatch([s] + v) && s.toolCalls == [] && !s.role.Tool?
    ensures CallsMatch(v)
  {
    hide HasCall, HasResult;
    var w := [s] + v;
    forall q | 0 <= q < |v| && v[q].role.Tool?
      ensures HasCall(v, q)
    {
      assert w[q + 1] == v[q];
      DroppedCall(s, v, q);
    }
    forall p, c | 0 <= p < |v| && 0 <= c < |v[p].toolCalls|
      ensures HasResult(v, p, v[p].toolCalls[c].id)
    {
      assert w[p + 1] == v[p];
      DroppedResult(s, v, p, v[p].toolCalls[c].id);
    }
  }
}
