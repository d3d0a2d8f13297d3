/** The messages sent to the model: conversion of the visible context, and the repair that
    gives every call a result. */
module Repair {
  import opened Messages
  import opened Pairing
  import opened Sessions
  import opened Transcripts
  import opened Compaction

  const RECOVERED_NOTICE: string :=
    "[RECOVERED] This tool call was interrupted before execution and produced no result."

  datatype ApiMessage = ApiMessage(role: Role, content: string, toolCalls: seq<ToolCall>, toolCallID: string,
      name: string)

  /** Ids of all tool messages. */
  function Present(ms: seq<ApiMessage>): (s: set<string>)
    ensures forall id :: id in s <==> exists i :: 0 <= i < |ms| && ms[i].role.Tool? && ms[i].toolCallID == id
  {
    set i | 0 <= i < |ms| && ms[i].role.Tool? :: ms[i].toolCallID
  }

  function Recovered(call: ToolCall): ApiMessage {
    ApiMessage(Tool, RECOVERED_NOTICE, [], call.id, call.name)
  }

  /** Stand-in results for the calls whose ids are not present. */
  function StandIns(calls: seq<ToolCall>, present: set<string>): seq<ApiMessage> {
    if calls == [] then [] else
    StandIns(calls[..|calls| - 1], present) +
    if calls[|calls| - 1].id in present then [] else [Recovered(calls[|calls| - 1])]
  }

  function RepairedWith(ms: seq<ApiMessage>, present: set<string>): seq<ApiMessage> {
    if ms == [] then [] else
    var m := ms[|ms| - 1];
    RepairedWith(ms[..|ms| - 1], present) + ([m] + if m.role.Assistant? then StandIns(m.toolCalls, present) else [])
  }

  function Repaired(ms: seq<ApiMessage>): seq<ApiMessage> { RepairedWith(ms, Present(ms)) }

  method RepairToolCallPairing(messages: seq<ApiMessage>) returns (out: seq<ApiMessage>)
    ensures out == Repaired(messages)
  {
    var present := {};
    for i := 0 to |messages|
      invariant present == Present(messages[..i])
    {
      assert messages[..i + 1] == messages[..i] + [messages[i]];
      PresentAppend(messages[..i], messages[i]);
      if messages[i].role.Tool? {
        present := present + {messages[i].toolCallID};
      }
    }
    assert messages[..|messages|] == messages;
    out := [];
    for i := 0 to |messages|
      invariant out == RepairedWith(messages[..i], present)
    {
      var m := messages[i];
      assert messages[..i + 1][..i] == messages[..i];
      ghost var before := out;
      out := out + [m];
      if !m.role.Assistant? || |m.toolCalls| == 0 {
        continue;
      }
      for k := 0 to |m.toolCalls|
        invariant out == before + ([m] + StandIns(m.toolCalls[..k], present))
      {
        assert m.toolCalls[..k + 1][..k] == m.toolCalls[..k];
        if m.toolCalls[k].id in present {
          continue;
        }
        out := out + [Recovered(m.toolCalls[k])];
      }
      assert m.toolCalls[..|m.toolCalls|] == m.toolCalls;
    }
  }

  lemma {:induction false} PresentAppend(ms: seq<ApiMessage>, m: ApiMessage)
    ensures Present(ms + [m]) == Present(ms) + if m.role.Tool? then {m.toolCallID} else {}
  {
    forall id
      ensures id in Present(ms + [m]) <==> id in Present(ms) || (m.role.Tool? && id == m.toolCallID)
    {
      if id in Present(ms) {
        var i :| 0 <= i < |ms| && ms[i].role.Tool? && ms[i].toolCallID == id;
        assert (ms + [m])[i] == ms[i];
      }
      if m.role.Tool? && id == m.toolCallID {
        assert (ms + [m])[|ms|] == m;
      }
    }
  }

  // ---- Properties, for any list of messages whatsoever ----

  predicate IsSubsequence(a: seq<ApiMessage>, b: seq<ApiMessage>) {
    if a == [] then true
    else if b == [] then false
    else if a[|a| - 1] == b[|b| - 1] then IsSubsequence(a[..|a| - 1], b[..|b| - 1])
    else IsSubsequence(a, b[..|b| - 1])
  }

  ghost predicate EveryCallAnswered(ms: seq<ApiMessage>) {
    forall i, c :: 0 <= i < |ms| && ms[i].role.Assistant? && 0 <= c < |ms[i].toolCalls| ==>
      ms[i].toolCalls[c].id in Present(ms)
  }

  lemma {:induction false} StandInsEmpty(calls: seq<ToolCall>, present: set<string>)
    requires forall c :: 0 <= c < |calls| ==> calls[c].id in present
    ensures StandIns(calls, present) == []
  {
    if calls != [] { StandInsEmpty(calls[..|calls| - 1], present); }
  }

  lemma {:induction false} StandInsMember(calls: seq<ToolCall>, present: set<string>, c: nat)
    requires c < |calls| && calls[c].id !in present
    ensures Recovered(calls[c]) in StandIns(calls, present)
  {
    if c < |calls| - 1 { StandInsMember(calls[..|calls| - 1], present, c); }
  }

  /** With every call answered there is nothing to insert. */
  lemma {:induction false} NothingInserted(ms: seq<ApiMessage>, present: set<string>)
    requires forall i, c :: 0 <= i < |ms| && ms[i].role.Assistant? && 0 <= c < |ms[i].toolCalls| ==>
      ms[i].toolCalls[c].id in present
    ensures RepairedWith(ms, present) == ms
  {
    if ms != [] {
      NothingInserted(ms[..|ms| - 1], present);
      if ms[|ms| - 1].role.Assistant? {
        StandInsEmpty(ms[|ms| - 1].toolCalls, present);
      }
    }
  }

  lemma {:induction false} RepairKeepsMember(ms: seq<ApiMessage>, present: set<string>, m: ApiMessage)
    requires m in ms
    ensures m in RepairedWith(ms, present)
  {
    if m != ms[|ms| - 1] {
      RepairKeepsMember(ms[..|ms| - 1], present, m);
    }
  }

  lemma {:induction false} StandInsOnly(calls: seq<ToolCall>, present: set<string>, x: ApiMessage)
    requires x in StandIns(calls, present)
    ensures exists c :: 0 <= c < |calls| && x == Recovered(calls[c]) && calls[c].id !in present
  {
    var n := |calls| - 1;
    if calls[n].id in present || x != Recovered(calls[n]) {
      StandInsOnly(calls[..n], present, x);
      var c :| 0 <= c < n && x == Recovered(calls[..n][c]) && calls[..n][c].id !in present;
      assert x == Recovered(calls[c]);
    }
  }

  /** The recovery notice of a call in the list whose id is not present. */
  ghost predicate IsNotice(ms: seq<ApiMessage>, present: set<string>, x: ApiMessage) {
    exists i, c :: 0 <= i < |ms| && ms[i].role.Assistant? && 0 <= c < |ms[i].toolCalls| &&
      x == Recovered(ms[i].toolCalls[c]) && ms[i].toolCalls[c].id !in present
  }

  /** Whatever the repair adds is the recovery notice of a call that had no result. */
  lemma {:induction false} RepairAddsOnlyNotices(ms: seq<ApiMessage>, present: set<string>, x: ApiMessage)
    requires x in RepairedWith(ms, present)
    ensures x in ms || IsNotice(ms, present, x)
  {
    var n := |ms| - 1;
    var m := ms[n];
    if x in RepairedWith(ms[..n], present) {
      RepairAddsOnlyNotices(ms[..n], present, x);
      if x !in ms[..n] {
        var i, c :| 0 <= i < n && ms[..n][i].role.Assistant? && 0 <= c < |ms[..n][i].toolCalls| &&
          x == Recovered(ms[..n][i].toolCalls[c]) && ms[..n][i].toolCalls[c].id !in present;
        assert x == Recovered(ms[i].toolCalls[c]);
      }
    } else if x != m {
      StandInsOnly(m.toolCalls, present, x);
      var c :| 0 <= c < |m.toolCalls| && x == Recovered(m.toolCalls[c]) && m.toolCalls[c].id !in present;
      assert x == Recovered(ms[n].toolCalls[c]);
    }
  }

  lemma {:induction false} RepairAnswers(ms: seq<ApiMessage>, present: set<string>, i: nat, c: nat)
    requires i < |ms| && ms[i].role.Assistant? && c < |ms[i].toolCalls| && ms[i].toolCalls[c].id !in present
    ensures Recovered(ms[i].toolCalls[c]) in RepairedWith(ms, present)
  {
    if i < |ms| - 1 {
      RepairAnswers(ms[..|ms| - 1], present, i, c);
    } else {
      StandInsMember(ms[i].toolCalls, present, c);
    }
  }

  /** After the repair every call has a result. */
  lemma {:induction false} RepairIsComplete(ms: seq<ApiMessage>)
    ensures EveryCallAnswered(Repaired(ms))
  {
    hide RepairedWith;
    var r := Repaired(ms);
    forall i, c | 0 <= i < |r| && r[i].role.Assistant? && 0 <= c < |r[i].toolCalls|
      ensures r[i].toolCalls[c].id in Present(r)
    {
      RepairAddsOnlyNotices(ms, Present(ms), r[i]);
      var k :| 0 <= k < |ms| && ms[k] == r[i];
      var id := r[i].toolCalls[c].id;
      if id in Present(ms) {
        var j :| 0 <= j < |ms| && ms[j].role.Tool? && ms[j].toolCallID == id;
        RepairKeepsMember(ms, Present(ms), ms[j]);
      } else {
        RepairAnswers(ms, Present(ms), k, c);
      }
    }
  }

  /** The repair inserts something exactly when some call has no result. */
  lemma {:induction false} RepairChangesNothingIff(ms: seq<ApiMessage>)
    ensures Repaired(ms) == ms <==> EveryCallAnswered(ms)
  {
    if EveryCallAnswered(ms) {
      NothingInserted(ms, Present(ms));
    }
    if Repaired(ms) == ms {
      RepairIsComplete(ms);
    }
  }

  lemma {:induction false} RepairIsIdempotent(ms: seq<ApiMessage>)
    ensures Repaired(Repaired(ms)) == Repaired(ms)
  {
    RepairIsComplete(ms);
    RepairChangesNothingIff(Repaired(ms));
  }

  lemma {:induction false} SkipStandIns(a: seq<ApiMessage>, b: seq<ApiMessage>, s: seq<ApiMessage>)
    requires IsSubsequence(a, b) && (a != [] ==> a[|a| - 1] !in s)
    ensures IsSubsequence(a, b + s)
  {
    if s == [] {
      assert b + s == b;
    } else {
      assert (b + s)[..|b + s| - 1] == b + s[..|s| - 1];
      SkipStandIns(a, b, s[..|s| - 1]);
    }
  }

  lemma {:induction false} SubsequenceSnoc(a: seq<ApiMessage>, b: seq<ApiMessage>, m: ApiMessage)
    requires IsSubsequence(a, b)
    ensures IsSubsequence(a + [m], b + [m])
  {
    assert (a + [m])[..|a|] == a && (b + [m])[..|b|] == b;
  }

  /** Where the stand-ins go: right behind the message with the calls, one for each that has no result, in order. */
  lemma {:induction false} StandInsFollow(a: seq<ApiMessage>, m: ApiMessage, calls: seq<ToolCall>, call: ToolCall,
      present: set<string>)
    ensures RepairedWith([], present) == []
    ensures RepairedWith(a + [m], present) ==
      RepairedWith(a, present) + ([m] + if m.role == Assistant then StandIns(m.toolCalls, present) else [])
    ensures StandIns([], present) == []
    ensures StandIns(calls + [call], present) ==
      StandIns(calls, present) + (if call.id in present then [] else
        [ApiMessage(Tool, "[RECOVERED] This tool call was interrupted before execution and produced no result.", [],
          call.id, call.name)])
  {
    assert (a + [m])[..|a|] == a && (calls + [call])[..|calls|] == calls;
  }

  /** The repair removes and reorders nothing. */
  lemma {:induction false} RepairKeepsOrder(ms: seq<ApiMessage>, present: set<string>)
    ensures IsSubsequence(ms, RepairedWith(ms, present))
  {
    hide IsSubsequence, StandIns;
    if ms == [] {
      EmptySubsequence(RepairedWith(ms, present));
    } else {
      var n := |ms| - 1;
      var before := RepairedWith(ms[..n], present);
      RepairKeepsOrder(ms[..n], present);
      SubsequenceSnoc(ms[..n], before, ms[n]);
      assert ms == ms[..n] + [ms[n]];
      var s := if ms[n].role.Assistant? then StandIns(ms[n].toolCalls, present) else [];
      if ms[n] in s {
        StandInsOnly(ms[n].toolCalls, present, ms[n]);
      }
      SkipStandIns(ms, before + [ms[n]], s);
      assert before + [ms[n]] + s == before + ([ms[n]] + s);
    }
  }

  lemma {:induction false} EmptySubsequence(b: seq<ApiMessage>)
    ensures IsSubsequence([], b)
  {
  }

  // ---- Conversion of the visible context ----

  /** The text transformations of the conversion, whatever they do. */
  datatype Rendering = Rendering(summary: string -> string, toolOutput: string -> string, arguments: string -> string)

  function RenderCalls(calls: seq<ToolCall>, r: Rendering): (s: seq<ToolCall>)
    ensures |s| == |calls| && forall k :: 0 <= k < |s| ==>
      s[k] == calls[k].(arguments := r.arguments(calls[k].arguments))
  {
    seq(|calls|, k requires 0 <= k < |calls| => calls[k].(arguments := r.arguments(calls[k].arguments)))
  }

  function ConvertOne(m: Message, r: Rendering): seq<ApiMessage> {
    if IsPrompt(m) then []
    else if m.summary then [ApiMessage(User, r.summary(m.content), [], "", "")]
    else [ApiMessage(m.role, if m.role.Tool? then r.toolOutput(m.content) else m.content,
      RenderCalls(m.toolCalls, r), m.toolCallID, m.name)]
  }

  function Converted(v: seq<Message>, r: Rendering): seq<ApiMessage> {
    if v == [] then [] else Converted(v[..|v| - 1], r) + ConvertOne(v[|v| - 1], r)
  }

  method ConvertHistoryToAPI(history: seq<Message>, r: Rendering) returns (out: seq<ApiMessage>)
    ensures out == Converted(history, r)
  {
    out := [];
    for i := 0 to |history|
      invariant out == Converted(history[..i], r)
    {
      var msg := history[i];
      assert history[..i + 1][..i] == history[..i];
      if msg.role.User? && msg.content == COMPACTION_USER_MESSAGE {
        continue;
      }
      if msg.summary {
        out := out + [ApiMessage(User, r.summary(msg.content), [], "", "")];
        continue;
      }
      var content := msg.content;
      if msg.role.Tool? {
        content := r.toolOutput(content);
      }
      out := out + [ApiMessage(msg.role, content, RenderCalls(msg.toolCalls, r), msg.toolCallID, msg.name)];
    }
    assert history[..|history|] == history;
  }

  /** The same calls, with their arguments rendered. */
  predicate AreRendered(calls: seq<ToolCall>, rendered: seq<ToolCall>, r: Rendering) {
    && |rendered| == |calls|
    && forall k :: 0 <= k < |calls| ==> rendered[k] == calls[k].(arguments := r.arguments(calls[k].arguments))
  }

  /** What becomes of each message, in order: prompts are dropped, summaries shown as rendered user messages,
    tool output
      and call arguments rendered, all else kept. */
  lemma {:induction false} ConvertedAre(v: seq<Message>, m: Message, r: Rendering)
    ensures Converted([], r) == []
    ensures m.role == User && m.content == COMPACTION_USER_MESSAGE ==> Converted(v + [m], r) == Converted(v, r)
    ensures m.summary && !IsPrompt(m) ==>
      Converted(v + [m], r) == Converted(v, r) + [ApiMessage(User, r.summary(m.content), [], "", "")]
    ensures var content := if m.role == Tool then r.toolOutput(m.content) else m.content;
      !m.summary && !IsPrompt(m) ==> exists calls ::
        && AreRendered(m.toolCalls, calls, r)
        && Converted(v + [m], r) == Converted(v, r) + [ApiMessage(m.role, content, calls, m.toolCallID, m.name)]
  {
    assert (v + [m])[..|v|] == v;
    assert Converted(v, r) + [] == Converted(v, r);
    var calls := RenderCalls(m.toolCalls, r);
    assert AreRendered(m.toolCalls, calls, r);
  }

  lemma {:induction false} ConvertedMember(v: seq<Message>, r: Rendering, q: nat)
    requires q < |v| && v[q].role.Tool? && !v[q].summary
    ensures v[q].toolCallID in Present(Converted(v, r))
  {
    var before := Converted(v[..|v| - 1], r);
    var last := ConvertOne(v[|v| - 1], r);
    if q < |v| - 1 {
      ConvertedMember(v[..|v| - 1], r, q);
      var i :| 0 <= i < |before| && before[i].role.Tool? && before[i].toolCallID == v[q].toolCallID;
      assert Converted(v, r)[i] == before[i];
    } else {
      assert Converted(v, r)[|before|] == last[0];
    }
  }

  lemma {:induction false} ConvertedCall(v: seq<Message>, r: Rendering, i: nat, c: nat) returns (p: nat)
    requires i < |Converted(v, r)| && c < |Converted(v, r)[i].toolCalls|
    ensures p < |v| && c < |v[p].toolCalls| && v[p].toolCalls[c].id == Converted(v, r)[i].toolCalls[c].id
  {
    var before := Converted(v[..|v| - 1], r);
    if i < |before| {
      assert Converted(v, r)[i] == before[i];
      p := ConvertedCall(v[..|v| - 1], r, i, c);
    } else {
      p := |v| - 1;
      assert Converted(v, r)[i] == ConvertOne(v[p], r)[i - |before|];
    }
  }

  /** A matched context needs no repair after conversion. */
  lemma {:induction false} MatchedNeedsNoRepair(v: seq<Message>, r: Rendering)
    requires CallsMatch(v) && forall q :: 0 <= q < |v| && v[q].role.Tool? ==> !v[q].summary
    ensures Repaired(Converted(v, r)) == Converted(v, r)
  {
    hide Converted, Repaired, HasCall;
    var a := Converted(v, r);
    forall i, c | 0 <= i < |a| && a[i].role.Assistant? && 0 <= c < |a[i].toolCalls|
      ensures a[i].toolCalls[c].id in Present(a)
    {
      var p := ConvertedCall(v, r, i, c);
      assert HasResult(v, p, v[p].toolCalls[c].id);
      var q: nat :| p < q < |v| && v[q].role.Tool? && v[q].toolCallID == v[p].toolCalls[c].id;
      ConvertedMember(v, r, q);
    }
    RepairChangesNothingIff(a);
  }

  /** What is shown can be sent: calls and results match, and no result passes for a summary. */
  ghost predicate Sendable(h: seq<Message>) {
    CallsMatch(Visible(h)) && forall q :: 0 <= q < |Visible(h)| && Visible(h)[q].role.Tool? ==> !Visible(h)[q].summary
  }

  /** Every transcript for which the invariant holds, and in which calls and results are paired, can be sent. */
  lemma {:induction false} KeptIsSendable(t: State)
    requires Inv(t) && Paired(t.history)
    ensures Sendable(t.history)
  {
    hide Visible, CallsMatch, Shown, WellMarked, Paired;
    var h := t.history;
    KeptCallsMatch(t);
    forall q | 0 <= q < |Visible(h)| && Visible(h)[q].role.Tool?
      ensures !Visible(h)[q].summary
    {
      var i := ShownFrom(h, q);
      if h[i].summary { SummaryIsAnswer(h, i); }
    }
  }

  /** What can be sent needs no repair, with any pins. */
  lemma {:induction false} SendableNeedsNoRepair(h: seq<Message>, pinned: seq<string>, r: Rendering)
    requires Sendable(h)
    ensures var context := Context(h, pinned);
      CallsMatch(context) && Repaired(Converted(context, r)) == Converted(context, r)
  {
    hide Visible, Converted, Repaired, CallsMatch, Context, MissingPins;
    var v := Visible(h);
    ContextCallsMatch(h, pinned);
    ContextShape(h, pinned);
    PinsAreUserMessages(v, pinned);
    PinnedResultsArePlain(v, PinIndex(h), MissingPins(v, pinned));
    MatchedNeedsNoRepair(Context(h, pinned), r);
  }

  /** Of every transcript for which the invariant holds and in which calls and results are paired, and with any
      pins, the repair leaves the request as it is. */
  lemma {:induction false} RequestNeedsNoRepair(t: State, pinned: seq<string>, r: Rendering)
    requires Inv(t) && Paired(t.history)
    ensures var context := Context(t.history, pinned);
      CallsMatch(context) && Repaired(Converted(context, r)) == Converted(context, r)
  {
    hide Inv, Paired, Sendable, Context, Converted, Repaired, CallsMatch;
    KeptIsSendable(t);
    SendableNeedsNoRepair(t.history, pinned, r);
  }

  /** So in every run with complete batches. */
  lemma {:induction false} RunsNeedNoRepair(systemPrompt: string, events: seq<Event>, pinned: seq<string>, r: Rendering)
    requires forall k :: 0 <= k < |events| ==> IsLegal(events[k])
    ensures var context := Context(Run(Init(systemPrompt), events).history, pinned);
      Repaired(Converted(context, r)) == Converted(context, r)
  {
    hide Run, IsLegal, Converted, Repaired, CallsMatch, Context, Paired, Inv;
    RunKeepsInv(systemPrompt, events);
    RunPaired(systemPrompt, events);
    RequestNeedsNoRepair(Run(Init(systemPrompt), events), pinned, r);
  }

  lemma {:induction false} SummaryIsAnswer(h: seq<Message>, i: nat)
    requires WellMarked(h) && i < |h| && h[i].summary
    ensures h[i].role.Assistant?
  {
    assert MarkedAt(h, i);
  }

  lemma {:induction false} PinnedResultsArePlain(v: seq<Message>, k: nat, pins: seq<Message>)
    requires k <= |v| && forall q :: 0 <= q < |v| && v[q].role.Tool? ==> !v[q].summary
    requires forall j :: 0 <= j < |pins| ==> pins[j] == UserMessage(pins[j].content)
    ensures var c := v[..k] + pins + v[k..];
      forall q :: 0 <= q < |c| && c[q].role.Tool? ==> !c[q].summary
  {
  }
}
