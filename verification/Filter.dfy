/** The token estimator's own computation of what is still visible, and its agreement with
    the context that the session hands to the model. */
module Filter {
  import opened Messages
  import opened Sessions

  datatype CompactionMarker = CompactionMarker(index: nat, tailStartID: int, summary: string)

  function UserBefore(ms: seq<RawMessage>, n: nat): (u: int)
    requires n <= |ms|
    ensures -1 <= u < n
    ensures u >= 0 ==> ms[u].role.User?
    ensures forall i :: u < i < n ==> !ms[i].role.User?
  {
    if n == 0 then -1 else if ms[n - 1].role.User? then n - 1 else UserBefore(ms, n - 1)
  }

  /** The summaries below `n` that have a user message before them, latest first. */
  function Markers(ms: seq<RawMessage>, n: nat): (r: seq<CompactionMarker>)
    requires n <= |ms|
    ensures forall k :: 0 <= k < |r| ==> r[k].index < n && UserBefore(ms, r[k].index) >= 0
  {
    if n == 0 then []
    else if ms[n - 1].role.Assistant? && ms[n - 1].summary && UserBefore(ms, n - 1) >= 0 then
      [CompactionMarker(n - 1, ms[n - 1].tailStartID, ms[n - 1].content)] + Markers(ms, n - 1)
    else Markers(ms, n - 1)
  }

  function AllMarkers(ms: seq<RawMessage>): seq<CompactionMarker> { Markers(ms, |ms|) }

  function Filtered(ms: seq<RawMessage>): seq<RawMessage> {
    var markers := Markers(ms, |ms|);
    if markers == [] then ms else
    var m := markers[0].index;
    var u := UserBefore(ms, m);
    var t := if markers[0].tailStartID <= 0 then u + 1 else markers[0].tailStartID;
    [ms[u], ms[m]] + Except(ms, t, |ms|, u, m)
  }

  /** An assistant's summary with a user message somewhere before it. */
  predicate IsFound(ms: seq<RawMessage>, i: nat)
    requires i < |ms|
  {
    ms[i].role == Assistant && ms[i].summary && exists u :: 0 <= u < i && ms[u].role == User
  }

  function MarkerOf(ms: seq<RawMessage>, i: nat): CompactionMarker
    requires i < |ms|
  {
    CompactionMarker(i, ms[i].tailStartID, ms[i].content)
  }

  predicate IsMarkerBelow(ms: seq<RawMessage>, n: nat, marker: CompactionMarker)
    requires n <= |ms|
  {
    0 <= marker.index < n && IsFound(ms, marker.index) && marker == MarkerOf(ms, marker.index)
  }

  lemma {:induction false} MarkersStep(ms: seq<RawMessage>, n: nat)
    requires 0 < n <= |ms|
    ensures Markers(ms, n) == (if IsFound(ms, n - 1) then [MarkerOf(ms, n - 1)] else []) + Markers(ms, n - 1)
  {
    hide UserBefore;
    assert UserBefore(ms, n - 1) >= 0 ==> ms[UserBefore(ms, n - 1)].role == User;
  }

  /** The markers are all such summaries, and no others. */
  lemma {:induction false} MarkersAre(ms: seq<RawMessage>, n: nat, marker: CompactionMarker)
    requires n <= |ms|
    ensures marker in Markers(ms, n) <==> IsMarkerBelow(ms, n, marker)
  {
    if n > 0 {
      hide Markers, IsFound;
      MarkersStep(ms, n);
      MarkersAre(ms, n - 1, marker);
    } else {
      assert Markers(ms, 0) == [];
    }
  }

  /** In order, from the last to the first, all below `n`. */
  predicate Descend(markers: seq<CompactionMarker>, n: nat) {
    && (forall k :: 0 <= k < |markers| ==> markers[k].index < n)
    && forall k, l :: 0 <= k < l < |markers| ==> markers[l].index < markers[k].index
  }

  lemma {:induction false} DescendCons(marker: CompactionMarker, markers: seq<CompactionMarker>, n: nat)
    requires Descend(markers, n) && marker.index == n
    ensures Descend([marker] + markers, n + 1)
  {
  }

  lemma {:induction false} DescendOn(markers: seq<CompactionMarker>, n: nat)
    requires Descend(markers, n)
    ensures Descend([] + markers, n + 1)
  {
    assert [] + markers == markers;
  }

  lemma {:induction false} MarkersDescend(ms: seq<RawMessage>, n: nat)
    requires n <= |ms|
    ensures Descend(Markers(ms, n), n)
  {
    hide Descend, IsFound;
    if n > 0 {
      hide Markers;
      MarkersStep(ms, n);
      MarkersDescend(ms, n - 1);
      if IsFound(ms, n - 1) {
        DescendCons(MarkerOf(ms, n - 1), Markers(ms, n - 1), n - 1);
      } else {
        DescendOn(Markers(ms, n - 1), n - 1);
      }
    } else {
      NothingDescends();
    }
  }

  lemma {:induction false} NothingDescends()
    ensures Descend([], 0)
  {
  }

  method FindCompactionMarkers(messages: seq<RawMessage>) returns (markers: seq<CompactionMarker>)
    ensures markers == AllMarkers(messages)
  {
    markers := [];
    var i := |messages| - 1;
    while i >= 0
      invariant -1 <= i < |messages|
      invariant markers + Markers(messages, i + 1) == Markers(messages, |messages|)
    {
      if messages[i].role.Assistant? && messages[i].summary {
        var parent := FindUserBefore(messages, i);
        if parent >= 0 {
          markers := markers + [CompactionMarker(i, messages[i].tailStartID, messages[i].content)];
        }
      }
      i := i - 1;
    }
  }

  method FindUserBefore(messages: seq<RawMessage>, n: nat) returns (u: int)
    requires n <= |messages|
    ensures u == UserBefore(messages, n)
  {
    u := n - 1;
    while u >= 0
      invariant -1 <= u < n
      invariant UserBefore(messages, n) == UserBefore(messages, u + 1)
    {
      if messages[u].role.User? {
        return;
      }
      u := u - 1;
    }
  }

  method FilterCompacted(messages: seq<RawMessage>) returns (result: seq<RawMessage>)
    ensures result == Filtered(messages)
  {
    hide Except, Markers, UserBefore;
    var markers := FindCompactionMarkers(messages);
    if |markers| == 0 {
      return messages;
    }
    var latest := markers[0];
    var compactionUser := FindUserBefore(messages, latest.index);
    if compactionUser < 0 {
      return messages;
    }
    var tailStart := latest.tailStartID;
    if tailStart <= 0 {
      tailStart := compactionUser + 1;
    }
    FilteredWith(messages, latest.index, latest.tailStartID, compactionUser, tailStart);
    var tail := TailWithout(messages, tailStart, compactionUser, latest.index);
    result := [messages[compactionUser], messages[latest.index]] + tail;
  }

  /** The copying loop of the filter. */
  method TailWithout(messages: seq<RawMessage>, tailStart: nat, u: int, m: int) returns (tail: seq<RawMessage>)
    ensures tail == Except(messages, tailStart, |messages|, u, m)
  {
    tail := [];
    var i := tailStart;
    while i < |messages|
      invariant tailStart <= i && (i <= |messages| || i == tailStart)
      invariant tail == if i <= |messages| then Except(messages, tailStart, i, u, m) else []
    {
      if i == u || i == m {
        i := i + 1;
        continue;
      }
      tail := tail + [messages[i]];
      i := i + 1;
    }
  }

  // ---- Agreement of the two views ----

  /** A transcript with a summary that stands for older messages. */
  predicate HasSummary(h: seq<Message>) {
    LastMarker(h) >= 0 && LastUserBefore(h, LastMarker(h)) >= 0
  }

  /** The visible messages without the system message that is prepended to a summary. */
  function VisibleUnprefixed(h: seq<Message>): seq<Message> {
    if HasSummary(h) && h[0].role.System? then Visible(h)[1..] else Visible(h)
  }

  /** The one configuration in which the two computations differ: a tail start beyond the end
      of the transcript, with messages after the compaction prompt other than the summary. */
  predicate TailOverrun(h: seq<Message>) {
    HasSummary(h) &&
    var m := LastMarker(h);
    h[m].tailStartID >= |h| && !(LastUserBefore(h, m) == m - 1 && m == |h| - 1)
  }

  lemma {:induction false} SameUser(h: seq<Message>, n: nat)
    requires n <= |h|
    ensures UserBefore(Raw(h), n) == LastUserBefore(h, n)
  {
    if n > 0 { SameUser(h, n - 1); }
  }

  lemma {:induction false} UserBeforeMonotone(ms: seq<RawMessage>, a: nat, b: nat)
    requires a <= b <= |ms| && UserBefore(ms, a) >= 0
    ensures UserBefore(ms, b) >= 0
  {
    if a < b { UserBeforeMonotone(ms, a, b - 1); }
  }

  lemma {:induction false} NoMarkers(ms: seq<RawMessage>, n: nat)
    requires n <= |ms| && UserBefore(ms, n) < 0
    ensures Markers(ms, n) == []
  {
    if n > 0 { NoMarkers(ms, n - 1); }
  }

  /** The first marker of the estimator, for a summary at the end. */
  lemma {:induction false} MarkerAtEnd(h: seq<Message>, n: nat)
    requires n < |h| && IsMarker(h[n])
    ensures if LastUserBefore(h, n) >= 0
      then Markers(Raw(h), n + 1) != [] && Markers(Raw(h), n + 1)[0] ==
        CompactionMarker(n, h[n].tailStartID, RawOf(h[n]).content)
      else Markers(Raw(h), n + 1) == []
  {
    hide LastUserBefore, UserBefore, JoinArguments;
    SameUser(h, n);
    if UserBefore(Raw(h), n) < 0 {
      NoMarkers(Raw(h), n);
    }
  }

  lemma {:induction false} NoMarkerAtEnd(h: seq<Message>, n: nat)
    requires n < |h| && !IsMarker(h[n])
    ensures Markers(Raw(h), n + 1) == Markers(Raw(h), n)
    ensures LastMarker(h[..n + 1]) == LastMarker(h[..n])
  {
    hide UserBefore, JoinArguments;
    assert h[..n + 1][..n] == h[..n];
    assert h[..n + 1][n] == h[n];
  }

  lemma {:induction false} LastMarkerAtEnd(h: seq<Message>, n: nat)
    requires n < |h| && IsMarker(h[n])
    ensures LastMarker(h[..n + 1]) == n
  {
    assert h[..n + 1][n] == h[n];
  }

  /** The first marker of the estimator is the last marker of the session. */
  lemma {:induction false} SameMarker(h: seq<Message>, n: nat)
    requires n <= |h|
    ensures var m := LastMarker(h[..n]);
      if m >= 0 && LastUserBefore(h, m) >= 0
      then Markers(Raw(h), n) != [] && Markers(Raw(h), n)[0] ==
        CompactionMarker(m, h[m].tailStartID, RawOf(h[m]).content)
      else Markers(Raw(h), n) == []
  {
    hide Markers, LastMarker, LastUserBefore, RawOf, Raw, IsMarker;
    if n == 0 {
      NothingMarked(h);
    } else if IsMarker(h[n - 1]) {
      LastMarkerAtEnd(h, n - 1);
      MarkerAtEnd(h, n - 1);
    } else {
      NoMarkerAtEnd(h, n - 1);
      SameMarker(h, n - 1);
    }
  }

  lemma {:induction false} NothingMarked(h: seq<Message>)
    ensures LastMarker(h[..0]) == -1 && Markers(Raw(h), 0) == []
  {
  }

  lemma {:induction false} ExceptRaw(h: seq<Message>, lo: nat, hi: nat, a: int, b: int)
    requires hi <= |h|
    ensures Except(Raw(h), lo, hi, a, b) == Raw(Except(h, lo, hi, a, b))
  {
    if hi > lo { ExceptRaw(h, lo, hi - 1, a, b); }
  }

  lemma {:induction false} ExceptKeeps<T>(h: seq<T>, lo: nat, hi: nat, a: int, b: int, i: nat)
    requires lo <= i < hi <= |h| && i != a && i != b
    ensures Except(h, lo, hi, a, b) != []
  {
    if i < hi - 1 { ExceptKeeps(h, lo, hi - 1, a, b, i); }
  }

  lemma {:induction false} ExceptOfPrompt<T>(h: seq<T>, u: nat, m: nat)
    requires u < m < |h|
    ensures Except(h, u + 1, |h|, u, m) == [] <==> u + 1 == m == |h| - 1
  {
    if u + 1 < m {
      ExceptKeeps(h, u + 1, |h|, u, m, u + 1);
    } else if m + 1 < |h| {
      ExceptKeeps(h, u + 1, |h|, u, m, m + 1);
    }
  }

  lemma {:induction false} RawShown(a: Message, b: Message, rest: seq<Message>)
    ensures Raw([a, b] + rest) == [RawOf(a), RawOf(b)] + Raw(rest)
  {
  }

  /** Where the kept tail starts for the estimator. */
  function TailStart(h: seq<Message>): nat
    requires HasSummary(h)
  {
    if h[LastMarker(h)].tailStartID <= 0 then LastUserBefore(h, LastMarker(h)) + 1 else h[LastMarker(h)].tailStartID
  }

  lemma {:induction false} FilteredWith(ms: seq<RawMessage>, m: nat, tailStartID: int, u: nat, t: nat)
    requires Markers(ms, |ms|) != [] && m < |ms| && u == UserBefore(ms, m)
    requires Markers(ms, |ms|)[0].index == m && Markers(ms, |ms|)[0].tailStartID == tailStartID
    requires t == if tailStartID <= 0 then u + 1 else tailStartID
    ensures Filtered(ms) == [ms[u], ms[m]] + Except(ms, t, |ms|, u, m)
  {
  }

  /** What the filter keeps of a converted transcript, in terms of the transcript. */
  lemma {:induction false} FilteredShape(h: seq<Message>)
    ensures !HasSummary(h) ==> Filtered(Raw(h)) == Raw(h)
    ensures HasSummary(h) ==>
      var m := LastMarker(h);
      var u := LastUserBefore(h, m);
      Filtered(Raw(h)) == Raw([h[u], h[m]] + Except(h, TailStart(h), |h|, u, m))
  {
    hide Except, Markers, LastMarker, LastUserBefore, UserBefore, RawOf, Raw, HasSummary;
    if HasSummary(h) {
      FilteredOfSummary(h);
    } else {
      NoSummary(h);
    }
  }

  lemma {:induction false} NoSummary(h: seq<Message>)
    requires !HasSummary(h)
    ensures Markers(Raw(h), |h|) == []
  {
    assert h[..|h|] == h;
    SameMarker(h, |h|);
  }

  lemma {:induction false} FilteredOfSummary(h: seq<Message>)
    requires HasSummary(h)
    ensures var m := LastMarker(h);
      var u := LastUserBefore(h, m);
      Filtered(Raw(h)) == Raw([h[u], h[m]] + Except(h, TailStart(h), |h|, u, m))
  {
    hide Except, Markers, LastMarker, LastUserBefore, UserBefore, RawOf, Raw, Filtered;
    var m := LastMarker(h);
    var u := LastUserBefore(h, m);
    var t := TailStart(h);
    assert h[..|h|] == h;
    SameMarker(h, |h|);
    SameUser(h, m);
    FilteredWith(Raw(h), m, h[m].tailStartID, u, t);
    ExceptRaw(h, t, |h|, u, m);
    RawShown(h[u], h[m], Except(h, t, |h|, u, m));
  }

  /** What the session shows of a transcript with a summary, in terms of the transcript. */
  lemma {:induction false} UnprefixedShape(h: seq<Message>)
    requires HasSummary(h)
    ensures var m := LastMarker(h);
      var u := LastUserBefore(h, m);
      var t := if h[m].tailStartID >= |h| then u + 1 else TailStart(h);
      VisibleUnprefixed(h) == [h[u], h[m]] + Except(h, t, |h|, u, m)
  {
    hide Except, LastMarker, LastUserBefore;
    var m := LastMarker(h);
    var u := LastUserBefore(h, m);
    var tail := Except(h, if h[m].tailStartID >= |h| then u + 1 else TailStart(h), |h|, u, m);
    DropFirst(h[0], [h[u], h[m]] + tail);
  }

  lemma {:induction false} DropFirst(m: Message, ms: seq<Message>)
    ensures ([m] + ms)[1..] == ms && [] + ms == ms
  {
  }

  lemma {:induction false} OverrunViews(h: seq<Message>)
    requires HasSummary(h) && h[LastMarker(h)].tailStartID >= |h|
    ensures Filtered(Raw(h)) == Raw(VisibleUnprefixed(h)) <==> !TailOverrun(h)
  {
    hide Except, Filtered, LastMarker, LastUserBefore, RawOf, VisibleUnprefixed;
    FilteredShape(h);
    UnprefixedShape(h);
    var m := LastMarker(h);
    var u := LastUserBefore(h, m);
    ExceptOfPrompt(h, u, m);
    NothingAbove(h, h[m].tailStartID, u, m);
    assert |Raw(VisibleUnprefixed(h))| == 2 + |Except(h, u + 1, |h|, u, m)|;
  }

  /** For every transcript whatsoever: the estimator counts what the model sees, except for the
      system message in front of a summary, if and only if the tail does not overrun. */
  lemma {:induction false} ViewsAgreeIff(h: seq<Message>)
    ensures Filtered(Raw(h)) == Raw(VisibleUnprefixed(h)) <==> !TailOverrun(h)
  {
    hide Except, Filtered, LastMarker, LastUserBefore, RawOf, Raw;
    FilteredShape(h);
    if HasSummary(h) {
      if h[LastMarker(h)].tailStartID >= |h| {
        OverrunViews(h);
      } else {
        hide VisibleUnprefixed;
        UnprefixedShape(h);
      }
    }
  }

  lemma {:induction false} NothingAbove<T>(h: seq<T>, lo: nat, a: int, b: int)
    requires lo >= |h|
    ensures Except(h, lo, |h|, a, b) == []
  {
  }
}
