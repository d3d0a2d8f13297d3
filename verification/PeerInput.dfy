/** The steering inbox of a peer: messages that arrive during a turn are either claimed back by
    the sender or drained into the turn, never both. Each method is one atomic step. */
module PeerInputs {

  /** The first occurrence of the text taken out. */
  function RemoveFirst(s: seq<string>, text: string): (r: seq<string>)
    ensures multiset(r) == multiset(s) - multiset{text}
    ensures |r| == if text in s then |s| - 1 else |s|
  {
    if s == [] then [] else
    assert s == [s[0]] + s[1..];
    if s[0] == text then s[1..] else [s[0]] + RemoveFirst(s[1..], text)
  }

  class PeerInput {
    var pending: seq<string>
    var promoted: seq<string>

    constructor ()
      ensures pending == [] && promoted == []
    {
      pending, promoted := [], [];
    }

    method Admit(text: string)
      modifies this`pending
      ensures pending == old(pending) + [text]
    {
      pending := pending + [text];
    }

    method Claim(text: string) returns (claimed: bool)
      modifies this`pending
      ensures claimed <==> text in old(pending)
      ensures pending == RemoveFirst(old(pending), text)
    {
      for i := 0 to |pending|
        invariant pending == old(pending) && text !in pending[..i]
        invariant RemoveFirst(pending, text) == pending[..i] + RemoveFirst(pending[i..], text)
      {
        if pending[i] == text {
          pending := pending[..i] + pending[i + 1..];
          return true;
        }
        SkipOne(pending, i, text);
      }
      return false;
    }

    method Drain() returns (out: seq<string>)
      modifies this`pending, this`promoted
      ensures out == old(pending) && pending == []
      ensures promoted == old(promoted) + out
    {
      if |pending| == 0 {
        return [];
      }
      out := pending;
      pending := [];
      promoted := promoted + out;
    }

    method TakePromoted() returns (out: seq<string>)
      modifies this`promoted
      ensures out == old(promoted) && promoted == []
    {
      out := promoted;
      promoted := [];
    }

    method HasPending() returns (has: bool)
      ensures has <==> pending != []
    {
      has := |pending| > 0;
    }

    method Clear()
      modifies this`pending, this`promoted
      ensures pending == [] && promoted == []
    {
      pending, promoted := [], [];
    }
  }

  /** The text that is taken out is the first such one, and all others stay as they are. */
  lemma {:induction false} RemoveFirstIs(before: seq<string>, text: string, after: seq<string>)
    requires text !in before
    ensures RemoveFirst(before + [text] + after, text) == before + after
    ensures RemoveFirst(before, text) == before
  {
    hide RemoveFirst;
    if before == [] {
      RemoveHere(text, after);
      assert before + [text] + after == [text] + after && before + after == after;
    } else {
      var x, rest := before[0], before[1..];
      assert before == [x] + rest;
      RemoveFirstIs(rest, text, after);
      RemoveLater(x, rest + [text] + after, text);
      RemoveLater(x, rest, text);
      assert before + [text] + after == [x] + (rest + [text] + after);
      assert before + after == [x] + (rest + after);
    }
  }

  lemma {:induction false} RemoveHere(text: string, after: seq<string>)
    ensures RemoveFirst([text] + after, text) == after && RemoveFirst([], text) == []
  {
    assert ([text] + after)[1..] == after;
  }

  lemma {:induction false} SkipOne(s: seq<string>, i: nat, text: string)
    requires i < |s| && s[i] != text
    ensures s[..i] + RemoveFirst(s[i..], text) == s[..i + 1] + RemoveFirst(s[i + 1..], text)
  {
    hide RemoveFirst;
    assert s[i..] == [s[i]] + s[i + 1..];
    RemoveLater(s[i], s[i + 1..], text);
    assert s[..i] + [s[i]] == s[..i + 1];
    assert s[..i] + ([s[i]] + RemoveFirst(s[i + 1..], text)) == s[..i] + [s[i]] + RemoveFirst(s[i + 1..], text);
  }

  lemma {:induction false} RemoveLater(x: string, s: seq<string>, text: string)
    requires x != text
    ensures RemoveFirst([x] + s, text) == [x] + RemoveFirst(s, text)
  {
    assert ([x] + s)[1..] == s;
  }

  // ---- Runs: any interleaving of the steps ----

  datatype Event = Admit(text: string) | Claim(text: string) | Drain | TakePromoted | Clear

  /** The inbox, and where every text that was ever admitted went. */
  datatype Ledger = Ledger(
    pending: seq<string>,
    promoted: seq<string>,
    admitted: multiset<string>,
    claimed: multiset<string>,
    drained: multiset<string>,
    cleared: multiset<string>,
    taken: multiset<string>,
    dropped: multiset<string>)

  function Empty(): Ledger {
    Ledger([], [], multiset{}, multiset{}, multiset{}, multiset{}, multiset{}, multiset{})
  }

  function Step(l: Ledger, e: Event): Ledger {
    match e
    case Admit(text) => l.(pending := l.pending + [text], admitted := l.admitted + multiset{text})
    case Claim(text) =>
      l.(pending := RemoveFirst(l.pending, text),
         claimed := l.claimed + if text in l.pending then multiset{text} else multiset{})
    case Drain =>
      l.(pending := [], promoted := l.promoted + l.pending, drained := l.drained + multiset(l.pending))
    case TakePromoted => l.(promoted := [], taken := l.taken + multiset(l.promoted))
    case Clear =>
      l.(pending := [], promoted := [], cleared := l.cleared + multiset(l.pending),
         dropped := l.dropped + multiset(l.promoted))
  }

  function Run(l: Ledger, events: seq<Event>): Ledger {
    if events == [] then l else Step(Run(l, events[..|events| - 1]), events[|events| - 1])
  }

  ghost predicate Balanced(l: Ledger) {
    && l.admitted == multiset(l.pending) + l.claimed + l.drained + l.cleared
    && l.drained == multiset(l.promoted) + l.taken + l.dropped
  }

  lemma {:induction false} StepBalances(l: Ledger, e: Event)
    requires Balanced(l)
    ensures Balanced(Step(l, e))
  {
    hide RemoveFirst;
    match e
    case Admit(text) =>
    case Claim(text) => ClaimBalances(l, text);
    case Drain => DrainBalances(l);
    case TakePromoted =>
    case Clear =>
  }

  lemma {:induction false} ClaimBalances(l: Ledger, text: string)
    requires Balanced(l)
    ensures Balanced(Step(l, Claim(text)))
  {
    hide RemoveFirst;
    var rest := multiset(RemoveFirst(l.pending, text));
    if text in l.pending {
      assert multiset(l.pending) == rest + multiset{text};
      Regroup(rest, multiset{text}, l.claimed, l.drained + l.cleared);
    } else {
      assert rest == multiset(l.pending);
      assert l.claimed + multiset{} == l.claimed;
    }
  }

  lemma {:induction false} DrainBalances(l: Ledger)
    requires Balanced(l)
    ensures Balanced(Step(l, Drain))
  {
    assert multiset(l.promoted + l.pending) == multiset(l.promoted) + multiset(l.pending);
  }

  lemma {:induction false} Regroup(a: multiset<string>, b: multiset<string>, c: multiset<string>, d: multiset<string>)
    ensures a + b + c + d == a + (c + b) + d
  {
  }

  /** Every admitted text, counted with repetitions, is pending, claimed, drained or cleared; and
      every drained one is promoted, taken over or dropped by a reset. */
  lemma {:induction false} NothingLostNorDoubled(events: seq<Event>)
    ensures Balanced(Run(Empty(), events))
  {
    if events != [] {
      NothingLostNorDoubled(events[..|events| - 1]);
      StepBalances(Run(Empty(), events[..|events| - 1]), events[|events| - 1]);
    }
  }

  /** A message that was admitted once is never both claimed by its sender and drained into a turn. */
  lemma {:induction false} NeverClaimedAndDrained(events: seq<Event>, text: string)
    requires Run(Empty(), events).admitted[text] <= 1
    ensures !(text in Run(Empty(), events).claimed && text in Run(Empty(), events).drained)
  {
    hide Run;
    NothingLostNorDoubled(events);
  }
}
