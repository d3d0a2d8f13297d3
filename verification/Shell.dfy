/** Splitting a shell command line into the commands that permission rules are matched against
    (pkg/permission/shell.go). A `char` is one byte; the byte 0 doubles as "no next byte". */
module Shells {
  import opened Options
  import opened Text

  const NUL := 0 as char

  // ---------------------------------------------------------------- heredocs

  datatype Range = Range(start: nat, end: nat)

  /** The first position from `i` on that holds `c`, or the length. */
  function IndexFrom(s: string, i: nat, c: char): (r: nat)
    requires i <= |s|
    ensures i <= r <= |s| && (r < |s| ==> s[r] == c) && c !in s[i..r]
    decreases |s| - i
  {
    if i == |s| || s[i] == c then i else IndexFrom(s, i + 1, c)
  }

  lemma {:induction false} IndexIs(s: string, i: nat, j: nat, c: char)
    requires i <= j < |s| && s[j] == c && c !in s[i..j]
    ensures IndexFrom(s, i, c) == j
  {
    var r := IndexFrom(s, i, c);
    if r < j { StandsIn(s, i, r, j); }
    if j < r { StandsIn(s, i, j, r); }
  }

  /** The first position from `i` on that holds a space or a tab, or the length. */
  function WordEnd(s: string, i: nat): (r: nat)
    requires i <= |s|
    ensures i <= r <= |s|
    decreases |s| - i
  {
    if i == |s| || s[i] == ' ' || s[i] == '\t' then i else WordEnd(s, i + 1)
  }

  function SkipTabs(s: string, i: nat): (r: nat)
    requires i <= |s|
    ensures i <= r <= |s|
    decreases |s| - i
  {
    if i < |s| && (s[i] == ' ' || s[i] == '\t') then SkipTabs(s, i + 1) else i
  }

  /** The delimiter word that starts at `i`, after `<<`. */
  function HeredocDelim(line: string, i: nat): Option<string>
    requires i <= |line|
  {
    var j := SkipTabs(line, if i < |line| && line[i] == '-' then i + 1 else i);
    if j == |line| then None
    else if line[j] == '\'' || line[j] == '"' then
      var k := IndexFrom(line, j + 1, line[j]);
      if k == |line| then None else Some(line[j + 1..k])
    else
      Some(line[j..WordEnd(line, j)])
  }

  /** The delimiter opened on a line: that of the first `<<` outside quotes. */
  function HeredocOpener(line: string, i: nat, inSingle: bool, inDouble: bool): Option<string>
    requires i <= |line|
    decreases |line| - i
  {
    if i == |line| then None
    else if inSingle then HeredocOpener(line, i + 1, line[i] != '\'', inDouble)
    else if inDouble then HeredocOpener(line, i + 1, false, line[i] != '"')
    else if line[i] == '<' && i + 1 < |line| && line[i + 1] == '<' then HeredocDelim(line, i + 2)
    else HeredocOpener(line, i + 1, line[i] == '\'', line[i] == '"')
  }

  method FindHeredocOpener(line: string) returns (opener: Option<string>)
    ensures opener == HeredocOpener(line, 0, false, false)
  {
    var inSingle, inDouble, i := false, false, 0;
    while i < |line|
      invariant i <= |line|
      invariant !(inSingle && inDouble)
      invariant HeredocOpener(line, i, inSingle, inDouble) == HeredocOpener(line, 0, false, false)
    {
      var ch := line[i];
      if inSingle {
        if ch == '\'' { inSingle := false; }
        i := i + 1;
      } else if inDouble {
        if ch == '"' { inDouble := false; }
        i := i + 1;
      } else if ch == '\'' {
        inSingle := true;
        i := i + 1;
      } else if ch == '"' {
        inDouble := true;
        i := i + 1;
      } else if ch == '<' && i + 1 < |line| && line[i + 1] == '<' {
        return HeredocDelim(line, i + 2);
      } else {
        i := i + 1;
      }
    }
    return None;
  }

  function StripReturns(line: string): string {
    if line != [] && line[|line| - 1] == '\r' then StripReturns(line[..|line| - 1]) else line
  }

  function StripIndent(line: string): string {
    line[SkipTabs(line, 0)..]
  }

  /** The line from `start` up to its newline or the end of the command. */
  function LineAt(command: string, start: nat): string
    requires start <= |command|
  {
    StripReturns(command[start..IndexFrom(command, start, '\n')])
  }

  /** Where a heredoc with this delimiter ends if its body's lines start at `start`. */
  function HeredocEnd(command: string, start: nat, delim: string): (r: nat)
    requires start <= |command| + 1
    ensures start <= r <= |command| + 1
    decreases |command| + 1 - start
  {
    if start > |command| then start
    else
      var next := IndexFrom(command, start, '\n') + 1;
      if StripIndent(LineAt(command, start)) == delim then next else HeredocEnd(command, next, delim)
  }

  /** The heredocs of the lines from `start` on: opener line, body and terminator line. */
  function RangesFrom(command: string, start: nat): (r: seq<Range>)
    requires start <= |command| + 1
    ensures Sorted(r) && (r != [] ==> start <= r[0].start)
    decreases |command| + 1 - start
  {
    if start > |command| then []
    else
      var next := IndexFrom(command, start, '\n') + 1;
      match HeredocOpener(LineAt(command, start), 0, false, false)
      case None => RangesFrom(command, next)
      case Some(delim) =>
        var stop := HeredocEnd(command, next, delim);
        [Range(start, stop)] + RangesFrom(command, stop)
  }

  /** Ranges in order, apart, none of them empty. */
  predicate Sorted(ranges: seq<Range>) {
    && (forall k :: 0 <= k < |ranges| ==> ranges[k].start < ranges[k].end)
    && (forall j, k :: 0 <= j < k < |ranges| ==> ranges[j].end <= ranges[k].start)
  }

  /** The loop over line ends. The list of pending delimiters never holds more than one. */
  method HeredocRanges(command: string) returns (ranges: seq<Range>)
    ensures ranges == RangesFrom(command, 0)
  {
    hide RangesFrom, HeredocEnd, IndexFrom, HeredocOpener, StripIndent, StripReturns, LineAt, Sorted, Pending;
    ranges := [];
    var pending: seq<string> := [];
    var lineStart := 0;
    ghost var done: seq<Range> := [];
    ghost var first: nat := 0;
    for i := 0 to |command| + 1
      invariant lineStart <= i && lineStart <= |command| + 1
      invariant i <= |command| ==> IndexFrom(command, lineStart, '\n') == IndexFrom(command, i, '\n')
      invariant i == |command| + 1 ==> lineStart == i
      invariant |pending| <= 1
      invariant pending == [] ==> done == ranges && RangesFrom(command, 0) == done + RangesFrom(command, lineStart)
      invariant pending != [] ==> ranges == done + [Range(first, lineStart)]
      invariant pending != [] ==> Pending(command, done, first, lineStart, pending[0])
    {
      NextIndex(command, i, '\n');
      if i == |command| || command[i] == '\n' {
        var line := StripReturns(command[lineStart..i]);
        assert line == LineAt(command, lineStart) by { LineIs(command, lineStart, i); }
        if pending != [] {
          PendingStep(command, done, first, lineStart, pending[0]);
          ranges := ranges[|ranges| - 1 := Range(ranges[|ranges| - 1].start, i + 1)];
          assert ranges == done + [Range(first, i + 1)];
          if StripIndent(line) == pending[|pending| - 1] {
            pending := [];
            done := ranges;
          }
        } else {
          RangesStep(command, done, lineStart);
          var opener := FindHeredocOpener(line);
          if opener.Some? {
            first := lineStart;
            ranges := ranges + [Range(lineStart, i + 1)];
            pending := [opener.value];
          }
        }
        lineStart := i + 1;
      }
    }
    if pending != [] { PendingEnd(command, done, first, pending[0]); }
    RangesFromEnd(command);
  }

  lemma {:induction false} NextIndex(s: string, i: nat, c: char)
    requires i <= |s|
    ensures IndexFrom(s, i, c) == if i == |s| || s[i] == c then i else IndexFrom(s, i + 1, c)
  {
  }

  lemma {:induction false} LineIs(command: string, start: nat, i: nat)
    requires start <= i <= |command| && IndexFrom(command, start, '\n') == i
    ensures LineAt(command, start) == StripReturns(command[start..i])
  {
  }

  lemma {:induction false} RangesFromEnd(command: string)
    ensures RangesFrom(command, |command| + 1) == []
  {
  }

  /** A heredoc that is never closed ends with the command. */
  lemma {:induction false} PendingEnd(command: string, done: seq<Range>, first: nat, delim: string)
    requires Pending(command, done, first, |command| + 1, delim)
    ensures RangesFrom(command, 0) == done + [Range(first, |command| + 1)]
  {
  }

  /** One line while no heredoc is open. */
  lemma {:induction false} RangesStep(command: string, done: seq<Range>, start: nat)
    requires start <= |command| && RangesFrom(command, 0) == done + RangesFrom(command, start)
    ensures var next := IndexFrom(command, start, '\n') + 1;
      match HeredocOpener(LineAt(command, start), 0, false, false)
      case None => RangesFrom(command, 0) == done + RangesFrom(command, next)
      case Some(delim) => Pending(command, done, start, next, delim)
  {
    hide HeredocOpener, HeredocEnd, LineAt, IndexFrom, Sorted;
    RangesUnfold(command, start);
  }

  lemma {:induction false} RangesUnfold(command: string, start: nat)
    requires start <= |command|
    ensures var next := IndexFrom(command, start, '\n') + 1;
      RangesFrom(command, start) ==
      match HeredocOpener(LineAt(command, start), 0, false, false)
      case None => RangesFrom(command, next)
      case Some(delim) =>
        var stop := HeredocEnd(command, next, delim);
        [Range(start, stop)] + RangesFrom(command, stop)
  {
    hide HeredocOpener, HeredocEnd, LineAt, IndexFrom, Sorted;
  }

  /** One line while a heredoc is open. */
  lemma {:induction false} PendingStep(command: string, done: seq<Range>, first: nat, start: nat, delim: string)
    requires start <= |command| && Pending(command, done, first, start, delim)
    ensures var next := IndexFrom(command, start, '\n') + 1;
      if StripIndent(LineAt(command, start)) == delim then
        RangesFrom(command, 0) == done + [Range(first, next)] + RangesFrom(command, next)
      else
        Pending(command, done, first, next, delim)
  {
    hide RangesFrom, LineAt, IndexFrom, StripIndent;
    var next := IndexFrom(command, start, '\n') + 1;
    if StripIndent(LineAt(command, start)) == delim {
      assert done + ([Range(first, next)] + RangesFrom(command, next)) == done + [Range(first, next)] +
        RangesFrom(command, next);
    }
  }

  /** A heredoc is open: what is still to come once its end is known. */
  ghost predicate Pending(command: string, done: seq<Range>, first: nat, lineStart: nat, delim: string)
    requires lineStart <= |command| + 1
  {
    var stop := HeredocEnd(command, lineStart, delim);
    RangesFrom(command, 0) == done + ([Range(first, stop)] + RangesFrom(command, stop))
  }

  predicate DoubleLessAt(s: string, i: nat) {
    i + 1 < |s| && s[i] == '<' && s[i + 1] == '<'
  }

  predicate HasDoubleLess(s: string) {
    exists i :: 0 <= i < |s| && DoubleLessAt(s, i)
  }

  lemma {:induction false} NoDoubleLessInside(s: string, i: nat, j: nat)
    requires i <= j <= |s| && !HasDoubleLess(s)
    ensures !HasDoubleLess(s[i..j])
  {
    forall k | 0 <= k < |s[i..j]|
      ensures !DoubleLessAt(s[i..j], k)
    {
      assert !DoubleLessAt(s, i + k);
    }
  }

  lemma {:induction false} NoDoubleLessNoOpener(line: string, i: nat, inSingle: bool, inDouble: bool)
    requires i <= |line| && !HasDoubleLess(line)
    ensures HeredocOpener(line, i, inSingle, inDouble) == None
    decreases |line| - i
  {
    if i < |line| {
      assert !DoubleLessAt(line, i);
      if inSingle { NoDoubleLessNoOpener(line, i + 1, line[i] != '\'', inDouble); }
      else if inDouble { NoDoubleLessNoOpener(line, i + 1, false, line[i] != '"'); }
      else { NoDoubleLessNoOpener(line, i + 1, line[i] == '\'', line[i] == '"'); }
    }
  }

  lemma {:induction false} StripReturnsIsPrefix(line: string)
    ensures StripReturns(line) <= line
  {
    if line != [] && line[|line| - 1] == '\r' { StripReturnsIsPrefix(line[..|line| - 1]); }
  }

  /** A command without `<<` has no heredoc. */
  lemma {:induction false} NoDoubleLessNoRanges(command: string, start: nat)
    requires start <= |command| + 1 && !HasDoubleLess(command)
    ensures RangesFrom(command, start) == []
    decreases |command| + 1 - start
  {
    hide HeredocOpener, HasDoubleLess, StripReturns, HeredocEnd, Sorted;
    if start <= |command| {
      var stop := IndexFrom(command, start, '\n');
      var line := command[start..stop];
      NoDoubleLessInside(command, start, stop);
      StripReturnsIsPrefix(line);
      NoDoubleLessInside(line, 0, |StripReturns(line)|);
      assert LineAt(command, start) == line[..|StripReturns(line)|];
      NoDoubleLessNoOpener(LineAt(command, start), 0, false, false);
      NoDoubleLessNoRanges(command, stop + 1);
    }
  }

  predicate InHeredoc(ranges: seq<Range>, pos: nat) {
    exists k :: 0 <= k < |ranges| && ranges[k].start <= pos < ranges[k].end
  }

  // ---------------------------------------------------------------- one step

  datatype State = State(inSingle: bool, inDouble: bool, paren: nat, dollarParen: nat)

  const NEUTRAL := State(false, false, 0, 0)

  /** What one step does: how far it moves, what it copies, or that it met a separator. */
  datatype Move = Move(state: State, length: nat, text: string, separator: bool)

  function NextByte(s: string): char {
    if |s| > 1 then s[1] else NUL
  }

  function Copied(st: State, c: char): Move {
    Move(st, 1, [c], false)
  }

  function Stepped(heredoc: bool, st: State, s: string): (m: Move)
    requires s != []
    ensures 1 <= m.length <= 2
    ensures m.separator ==> st == NEUTRAL && m.state == NEUTRAL && !heredoc && m.text == [] && m.length <= |s|
    ensures !m.separator ==> m.text != [] && m.text[0] == s[0]
  {
    var c := s[0];
    var next := NextByte(s);
    if heredoc then Copied(st, c)
    else if st.inSingle then Copied(st.(inSingle := c != '\''), c)
    else if st.inDouble then Copied(st.(inDouble := c != '"'), c)
    else if c == '\'' then Copied(st.(inSingle := true), c)
    else if c == '"' then Copied(st.(inDouble := true), c)
    else if c == '$' && next == '(' then Move(st.(dollarParen := st.dollarParen + 1), 2, "$(", false)
    else if c == '\\' then Move(st, 2, if next == NUL then [c] else [c, next], false)
    else if c == '(' then Copied(st.(paren := st.paren + 1), c)
    else if c == ')' then
      Copied(if st.paren > 0 then st.(paren := st.paren - 1)
             else if st.dollarParen > 0 then st.(dollarParen := st.dollarParen - 1)
             else st, c)
    else if st.paren == 0 && st.dollarParen == 0 &&
      (c == ';' || c == '\n' || c == '|' || (c == '&' && next == '&')) then
      Move(st, if (c == '&' || c == '|') && next == c then 2 else 1, [], true)
    else Copied(st, c)
  }

  function After(s: string, n: nat): (r: string)
    ensures |r| == if n < |s| then |s| - n else 0
    ensures r == s[|s| - |r|..]
  {
    if n < |s| then s[n..] else []
  }

  // ---------------------------------------------------------------- the whole run

  /** A piece of the command line and the separator that ended it ("" at the end). */
  datatype Cut = Cut(text: string, separator: string)

  /** The pieces of `s`, which stands at `pos`, when `current` has been collected before it. */
  function Cuts(ranges: seq<Range>, pos: nat, st: State, s: string, current: string): (cuts: seq<Cut>)
    ensures cuts != []
    decreases |s|
  {
    if s == [] then [Cut(current, [])]
    else
      var m := Stepped(InHeredoc(ranges, pos), st, s);
      if m.separator then
        [Cut(current, s[..m.length])] + Cuts(ranges, pos + m.length, m.state, After(s, m.length), [])
      else
        Cuts(ranges, pos + m.length, m.state, After(s, m.length), current + m.text)
  }

  /** The pieces that hold more than blanks, trimmed. */
  function Commands(cuts: seq<Cut>): seq<string> {
    if cuts == [] then []
    else Command(cuts[0].text) + Commands(cuts[1..])
  }

  function Command(text: string): seq<string> {
    if Trim(text) == [] then [] else [Trim(text)]
  }

  function Pieces(command: string): seq<Cut> {
    Cuts(RangesFrom(command, 0), 0, NEUTRAL, command, [])
  }

  function Split(command: string): seq<string> {
    Commands(Pieces(command))
  }

  class Splitter {
    var ranges: seq<Range>
    var rangeIdx: nat
    var inSingle: bool
    var inDouble: bool
    var dollarParen: nat
    var paren: nat

    constructor (ranges: seq<Range>)
      ensures this.ranges == ranges && rangeIdx == 0 && AtState() == NEUTRAL
    {
      this.ranges := ranges;
      rangeIdx, inSingle, inDouble, dollarParen, paren := 0, false, false, 0, 0;
    }

    function AtState(): State
      reads this
    {
      State(inSingle, inDouble, paren, dollarParen)
    }

    /** The heredocs already left behind end before `pos`. */
    ghost predicate Valid(pos: nat)
      reads this
    {
      && Sorted(ranges)
      && rangeIdx <= |ranges|
      && forall k :: 0 <= k < rangeIdx ==> ranges[k].end <= pos
    }

    method IsInHeredoc(pos: nat) returns (b: bool)
      requires Valid(pos)
      modifies this`rangeIdx
      ensures Valid(pos)
      ensures b == InHeredoc(ranges, pos)
      decreases |ranges| - rangeIdx
    {
      if rangeIdx >= |ranges| { return false; }
      var r := ranges[rangeIdx];
      if pos < r.start { return false; }
      if pos >= r.end {
        rangeIdx := rangeIdx + 1;
        b := IsInHeredoc(pos);
        return;
      }
      return true;
    }

    method Step(command: string, i: nat, current: string) returns (next: nat, separator: bool, current': string)
      requires i < |command| && Valid(i)
      modifies this
      ensures ranges == old(ranges) && Valid(next)
      ensures var m := Stepped(InHeredoc(ranges, i), old(AtState()), command[i..]);
        AtState() == m.state && next == i + m.length && separator == m.separator && current' == current + m.text
      ensures separator ==> current' == current
    {
      var ch := command[i];
      var nextByte := NUL;
      if i + 1 < |command| { nextByte := command[i + 1]; }
      assert nextByte == NextByte(command[i..]);
      var inHeredoc := IsInHeredoc(i);
      if inHeredoc {
        return i + 1, false, current + [ch];
      }
      if inSingle {
        if ch == '\'' { inSingle := false; }
        return i + 1, false, current + [ch];
      }
      if inDouble {
        if ch == '"' { inDouble := false; }
        return i + 1, false, current + [ch];
      }
      if ch == '\'' {
        inSingle := true;
        return i + 1, false, current + [ch];
      }
      if ch == '"' {
        inDouble := true;
        return i + 1, false, current + [ch];
      }
      if ch == '$' && nextByte == '(' {
        dollarParen := dollarParen + 1;
        return i + 2, false, current + "$(";
      }
      if ch == '\\' {
        var text := current + [ch];
        if nextByte != NUL { text := text + [nextByte]; }
        assert text == current + (if nextByte == NUL then [ch] else [ch, nextByte]);
        return i + 2, false, text;
      }
      if ch == '(' {
        paren := paren + 1;
        return i + 1, false, current + [ch];
      }
      if ch == ')' {
        if paren > 0 { paren := paren - 1; }
        else if dollarParen > 0 { dollarParen := dollarParen - 1; }
        return i + 1, false, current + [ch];
      }
      var doubled := (ch == '&' && nextByte == '&') || (ch == '|' && nextByte == '|');
      if doubled || ch == ';' || ch == '\n' {
        if paren == 0 && dollarParen == 0 {
          var skip := 1;
          if doubled { skip := 2; }
          return i + skip, true, current;
        }
        return i + 1, false, current + [ch];
      }
      if ch == '|' {
        if paren == 0 && dollarParen == 0 {
          return i + 1, true, current;
        }
        return i + 1, false, current + [ch];
      }
      return i + 1, false, current + [ch];
    }
  }

  lemma {:induction false} CommandsOfOneMore(cut: Cut, cuts: seq<Cut>)
    ensures Commands([cut] + cuts) == Command(cut.text) + Commands(cuts)
  {
    assert ([cut] + cuts)[1..] == cuts;
  }

  /** One step of the run, in positions of the whole command line. */
  lemma {:induction false} SplitStep(ranges: seq<Range>, command: string, i: nat, st: State, current: string)
    requires i < |command|
    ensures var m := Stepped(InHeredoc(ranges, i), st, command[i..]);
      var rest := After(command, i + m.length);
      Commands(Cuts(ranges, i, st, After(command, i), current)) ==
      if m.separator then Command(current) + Commands(Cuts(ranges, i + m.length, m.state, rest, []))
      else Commands(Cuts(ranges, i + m.length, m.state, rest, current + m.text))
  {
    hide Stepped, InHeredoc, Commands, Command, Cuts;
    var s := command[i..];
    var m := Stepped(InHeredoc(ranges, i), st, s);
    assert After(s, m.length) == After(command, i + m.length);
    CutsStep(ranges, i, st, s, current);
    if m.separator {
      CommandsOfOneMore(Cut(current, s[..m.length]), Cuts(ranges, i + m.length, m.state, After(s, m.length), []));
    }
  }

  lemma {:induction false} CutsStep(ranges: seq<Range>, pos: nat, st: State, s: string, current: string)
    requires s != []
    ensures var m := Stepped(InHeredoc(ranges, pos), st, s);
      Cuts(ranges, pos, st, s, current) ==
      if m.separator then
        [Cut(current, s[..m.length])] + Cuts(ranges, pos + m.length, m.state, After(s, m.length), [])
      else
        Cuts(ranges, pos + m.length, m.state, After(s, m.length), current + m.text)
  {
    hide Stepped, InHeredoc, After;
  }

  lemma {:induction false} WholeAfter(s: string)
    ensures After(s, 0) == s
  {
  }

  lemma {:induction false} NothingAfter(s: string, n: nat)
    requires n >= |s|
    ensures After(s, n) == []
  {
  }

  method SplitCommands(command: string) returns (commands: seq<string>)
    ensures commands == Split(command)
  {
    hide Stepped, InHeredoc, RangesFrom, Cuts, Commands, Trim, Sorted, After;
    commands := [];
    var current: string := [];
    var ranges := HeredocRanges(command);
    var sp := new Splitter(ranges);
    var i := 0;
    WholeAfter(command);
    while i < |command|
      invariant sp.ranges == ranges && sp.Valid(i)
      invariant Split(command) == commands + Commands(Cuts(ranges, i, sp.AtState(), After(command, i), current))
      decreases |command| - i
    {
      SplitStep(ranges, command, i, sp.AtState(), current);
      var next, separator, current' := sp.Step(command, i, current);
      current := current';
      if separator {
        assert commands + (Command(current) + Commands(Cuts(ranges, next, sp.AtState(), After(command, next), [])))
            == commands + Command(current) + Commands(Cuts(ranges, next, sp.AtState(), After(command, next), []));
        var text := Trim(current);
        if text != [] { commands := commands + [text]; }
        current := [];
      }
      i := next;
    }
    NothingAfter(command, i);
    LastPiece(ranges, i, sp.AtState(), current);
    var text := Trim(current);
    if text != [] { commands := commands + [text]; }
  }

  lemma {:induction false} LastPiece(ranges: seq<Range>, pos: nat, st: State, current: string)
    ensures Commands(Cuts(ranges, pos, st, [], current)) == Command(current)
  {
    assert [Cut(current, [])][1..] == [];
  }
}
