/** What splitting a command line keeps (pkg/permission/shell.go:165-292). */
module ShellLaws {
  import opened Options
  import opened Text
  import opened Shells

  // ---------------------------------------------------------------- nothing is lost

  /** The pieces and separators put back together. */
  function Rejoined(cuts: seq<Cut>): string {
    if cuts == [] then [] else cuts[0].text + cuts[0].separator + Rejoined(cuts[1..])
  }

  predicate IsSeparator(s: string) {
    s == "&&" || s == "||" || s == ";" || s == "|" || s == "\n"
  }

  /** An unquoted backslash in front of a byte 0, outside heredocs. */
  predicate EscapesNul(heredoc: bool, st: State, s: string)
    requires s != []
  {
    !heredoc && !st.inSingle && !st.inDouble && s[0] == '\\' && |s| > 1 && s[1] == NUL
  }

  predicate EscapesNulSomewhere(ranges: seq<Range>, pos: nat, st: State, s: string)
    decreases |s|
  {
    s != [] &&
    var m := Stepped(InHeredoc(ranges, pos), st, s);
    EscapesNul(InHeredoc(ranges, pos), st, s)
    || EscapesNulSomewhere(ranges, pos + m.length, m.state, After(s, m.length))
  }

  ghost predicate SeparatorsBetween(cuts: seq<Cut>) {
    && cuts != []
    && cuts[|cuts| - 1].separator == []
    && forall k :: 0 <= k < |cuts| - 1 ==> IsSeparator(cuts[k].separator)
  }

  lemma {:induction false} StepCopies(heredoc: bool, st: State, s: string)
    requires s != []
    ensures var m := Stepped(heredoc, st, s);
      && (m.separator ==> IsSeparator(s[..m.length]))
      && (!m.separator && !EscapesNul(heredoc, st, s) ==> s == m.text + After(s, m.length))
      && (EscapesNul(heredoc, st, s) ==> !m.separator && |s| > |m.text| + |After(s, m.length)|)
  {
  }

  /** Pieces and separators, in order, are the text that was split: all of it
      unless an escaped byte 0 was met, and then less. */
  lemma {:induction false} CutsKeepAll(ranges: seq<Range>, pos: nat, st: State, s: string, current: string)
    ensures var cuts := Cuts(ranges, pos, st, s, current);
      && SeparatorsBetween(cuts)
      && Keeps(cuts, EscapesNulSomewhere(ranges, pos, st, s), current + s)
    decreases |s|
  {
    hide Stepped, InHeredoc, Cuts, IsSeparator, EscapesNul, Rejoined, SeparatorsBetween, EscapesNulSomewhere, Keeps;
    if s == [] {
      NoMoreCuts(ranges, pos, st, current);
      NothingEscaped(ranges, pos, st, current);
    } else {
      CutsStep(ranges, pos, st, s, current);
      var heredoc := InHeredoc(ranges, pos);
      StepCopies(heredoc, st, s);
      EscapesStep(ranges, pos, st, s);
      var m := Stepped(heredoc, st, s);
      var rest := After(s, m.length);
      var later := EscapesNulSomewhere(ranges, pos + m.length, m.state, rest);
      if m.separator {
        var cuts := Cuts(ranges, pos + m.length, m.state, rest, []);
        CutsKeepAll(ranges, pos + m.length, m.state, rest, []);
        KeepsCut(Cut(current, s[..m.length]), cuts, later, rest);
        assert s == s[..m.length] + rest;
        assert current + (s[..m.length] + rest) == current + s[..m.length] + rest;
      } else {
        CutsKeepAll(ranges, pos + m.length, m.state, rest, current + m.text);
        KeepsCopied(Cuts(ranges, pos, st, s, current), EscapesNul(heredoc, st, s), later, current, m.text, rest, s);
      }
    }
  }

  /** The pieces and separators make up the text, or less if something was lost. */
  predicate Keeps(cuts: seq<Cut>, lost: bool, text: string) {
    if lost then |Rejoined(cuts)| < |text| else Rejoined(cuts) == text
  }

  lemma {:induction false} NothingEscaped(ranges: seq<Range>, pos: nat, st: State, current: string)
    ensures Keeps([Cut(current, [])], EscapesNulSomewhere(ranges, pos, st, []), current + [])
    ensures SeparatorsBetween([Cut(current, [])])
  {
    NoMoreCuts(ranges, pos, st, current);
  }

  lemma {:induction false} EscapesStep(ranges: seq<Range>, pos: nat, st: State, s: string)
    requires s != []
    ensures var heredoc := InHeredoc(ranges, pos);
      var m := Stepped(heredoc, st, s);
      EscapesNulSomewhere(ranges, pos, st, s) ==
      (EscapesNul(heredoc, st, s) || EscapesNulSomewhere(ranges, pos + m.length, m.state, After(s, m.length)))
  {
    hide InHeredoc, Stepped, EscapesNul, After;
  }

  lemma {:induction false} KeepsCut(cut: Cut, cuts: seq<Cut>, lost: bool, rest: string)
    requires Keeps(cuts, lost, [] + rest) && SeparatorsBetween(cuts) && IsSeparator(cut.separator)
    ensures Keeps([cut] + cuts, lost, cut.text + cut.separator + rest)
    ensures SeparatorsBetween([cut] + cuts)
  {
    hide Rejoined, IsSeparator;
    RejoinedStep(cut, cuts);
    assert [] + rest == rest;
  }

  lemma {:induction false} KeepsCopied(cuts: seq<Cut>, dropped: bool, lost: bool, current: string, text: string,
      rest: string, s: string)
    requires Keeps(cuts, lost, current + text + rest)
    requires !dropped ==> s == text + rest
    requires dropped ==> |s| > |text| + |rest|
    ensures Keeps(cuts, dropped || lost, current + s)
  {
    hide Rejoined;
    if !dropped { assert current + s == current + text + rest; }
  }

  lemma {:induction false} NoMoreCuts(ranges: seq<Range>, pos: nat, st: State, current: string)
    ensures Cuts(ranges, pos, st, [], current) == [Cut(current, [])]
    ensures Rejoined([Cut(current, [])]) == current
  {
    assert [Cut(current, [])][1..] == [];
    assert current + [] + [] == current;
  }

  lemma {:induction false} RejoinedStep(cut: Cut, cuts: seq<Cut>)
    ensures Rejoined([cut] + cuts) == cut.text + cut.separator + Rejoined(cuts)
  {
    assert ([cut] + cuts)[1..] == cuts;
  }

  /** Splitting loses nothing but separators and the blanks around the pieces, exactly when
      no unquoted backslash stands in front of a byte 0. */
  lemma {:induction false} SplitKeepsAllIff(command: string)
    ensures Split(command) == Commands(Pieces(command))
    ensures SeparatorsBetween(Pieces(command))
    ensures Rejoined(Pieces(command)) == command <==>
      !EscapesNulSomewhere(RangesFrom(command, 0), 0, NEUTRAL, command)
  {
    hide Commands, RangesFrom, Cuts, Rejoined, SeparatorsBetween, EscapesNulSomewhere;
    CutsKeepAll(RangesFrom(command, 0), 0, NEUTRAL, command, []);
    assert [] + command == command;
  }

  /** A stretch inside heredocs is copied as it stands, whatever it holds. */
  lemma {:induction false} HeredocCopiedWhole(ranges: seq<Range>, pos: nat, st: State, body: string, rest: string,
      current: string)
    requires forall p :: pos <= p < pos + |body| ==> InHeredoc(ranges, p)
    ensures Cuts(ranges, pos, st, body + rest, current) == Cuts(ranges, pos + |body|, st, rest, current + body)
    decreases |body|
  {
    hide InHeredoc, Cuts;
    if body == [] {
      assert body + rest == rest && current + body == current;
    } else {
      assert InHeredoc(ranges, pos);
      CutsStep(ranges, pos, st, body + rest, current);
      assert After(body + rest, 1) == body[1..] + rest;
      HeredocCopiedWhole(ranges, pos + 1, st, body[1..], rest, current + [body[0]]);
      assert current + [body[0]] + body[1..] == current + body;
    }
  }

  // ---------------------------------------------------------------- commands without heredocs

  function Plain(st: State, s: string, current: string): (cuts: seq<Cut>)
    ensures cuts != []
  {
    Cuts([], 0, st, s, current)
  }

  lemma {:induction false} NoHeredocAnywhere(pos: nat)
    ensures !InHeredoc([], pos)
  {
  }

  lemma {:induction false} PlainAnywhere(pos: nat, st: State, s: string, current: string)
    ensures Cuts([], pos, st, s, current) == Plain(st, s, current)
    decreases |s|
  {
    hide InHeredoc, Stepped, After, Cuts;
    NoHeredocAnywhere(pos);
    NoHeredocAnywhere(0);
    if s == [] {
      NoMoreCuts([], pos, st, current);
      NoMoreCuts([], 0, st, current);
    } else {
      CutsStep([], pos, st, s, current);
      CutsStep([], 0, st, s, current);
      var m := Stepped(false, st, s);
      var next := if m.separator then [] else current + m.text;
      PlainAnywhere(pos + m.length, m.state, After(s, m.length), next);
      PlainAnywhere(m.length, m.state, After(s, m.length), next);
    }
  }

  lemma {:induction false} PlainStep(st: State, s: string, current: string)
    requires s != []
    ensures var m := Stepped(false, st, s);
      Plain(st, s, current) ==
      if m.separator then [Cut(current, s[..m.length])] + Plain(m.state, After(s, m.length), [])
      else Plain(m.state, After(s, m.length), current + m.text)
  {
    hide InHeredoc, Stepped, After, Cuts;
    NoHeredocAnywhere(0);
    var m := Stepped(false, st, s);
    CutsStep([], 0, st, s, current);
    PlainAnywhere(m.length, m.state, After(s, m.length), if m.separator then [] else current + m.text);
  }

  lemma {:induction false} PlainEnd(st: State, current: string)
    ensures Plain(st, [], current) == [Cut(current, [])]
  {
  }

  function Prefixed(text: string, cuts: seq<Cut>): (r: seq<Cut>)
    requires cuts != []
    ensures |r| == |cuts| && r[0] == Cut(text + cuts[0].text, cuts[0].separator) && r[1..] == cuts[1..]
  {
    [Cut(text + cuts[0].text, cuts[0].separator)] + cuts[1..]
  }

  /** What was collected before only stands in front of the first piece. */
  lemma {:induction false} PlainPrefixed(st: State, s: string, current: string)
    ensures Plain(st, s, current) == Prefixed(current, Plain(st, s, []))
    decreases |s|
  {
    hide Stepped, After, Cuts, Plain;
    if s == [] {
      PlainEnd(st, current);
      PlainEnd(st, []);
      assert current + [] == current;
    } else {
      PlainStep(st, s, current);
      PlainStep(st, s, []);
      var m := Stepped(false, st, s);
      if m.separator {
        assert current + [] == current;
      } else {
        assert [] + m.text == m.text;
        PlainPrefixed(m.state, After(s, m.length), current + m.text);
        PlainPrefixed(m.state, After(s, m.length), m.text);
        var first := Plain(m.state, After(s, m.length), [])[0].text;
        assert current + m.text + first == current + (m.text + first);
      }
    }
  }

  lemma {:induction false} PlainSplit(command: string)
    requires !HasDoubleLess(command)
    ensures Split(command) == Commands(Plain(NEUTRAL, command, []))
  {
    NoDoubleLessNoRanges(command, 0);
  }

  // ---------------------------------------------------------------- joining commands

  /** Read from `st`, the text ends outside quotes and parentheses, with no backslash left over. */
  predicate EndsIn(st: State, s: string, end: State)
    decreases |s|
  {
    if s == [] then st == end
    else
      var m := Stepped(false, st, s);
      m.length <= |s| && EndsIn(m.state, s[m.length..], end)
  }

  predicate EndsNeutral(command: string) {
    EndsIn(NEUTRAL, command, NEUTRAL)
  }

  /** The separator does not run into a neighbouring `&` or `|`. */
  predicate Apart(a: string, sep: string, b: string) {
    && IsSeparator(sep)
    && (sep[0] == '&' || sep[0] == '|' ==> a == [] || a[|a| - 1] != sep[0])
    && (sep == "|" ==> b == [] || b[0] != '|')
  }

  lemma {:induction false} StepBefore(st: State, a: string, sep: string, b: string)
    requires a != [] && Apart(a, sep, b)
    requires Stepped(false, st, a).length <= |a|
    ensures sep + b != []
    ensures Stepped(false, st, a + (sep + b)) == Stepped(false, st, a)
  {
    hide Stepped;
    if |a| > 1 {
      StepLooksAtTwo(false, st, a, a + (sep + b));
    } else {
      assert a == [a[0]];
      LastStepBefore(st, a[0], sep, b);
    }
  }

  lemma {:induction false} StepLooksAtTwo(heredoc: bool, st: State, s: string, s': string)
    requires s != [] && s' != [] && s[0] == s'[0] && NextByte(s) == NextByte(s')
    ensures Stepped(heredoc, st, s).state == Stepped(heredoc, st, s').state
    ensures Stepped(heredoc, st, s) == Stepped(heredoc, st, s')
  {
  }

  lemma {:induction false} LastStepBefore(st: State, c: char, sep: string, b: string)
    requires Apart([c], sep, b)
    requires Stepped(false, st, [c]).length == 1
    ensures Stepped(false, st, [c] + (sep + b)) == Stepped(false, st, [c])
  {
    assert NextByte([c] + (sep + b)) == sep[0];
  }

  lemma {:induction false} SeparatorStep(sep: string, b: string)
    requires Apart([], sep, b)
    ensures var m := Stepped(false, NEUTRAL, sep + b);
      m.separator && m.length == |sep| && After(sep + b, |sep|) == b && (sep + b)[..|sep|] == sep
  {
    assert (sep + b)[0] == sep[0];
  }

  /** The pieces of `a`, the last one ended by the separator, then those of `b`. */
  function Chained(x: seq<Cut>, sep: string, y: seq<Cut>): seq<Cut>
    requires x != []
  {
    x[..|x| - 1] + [Cut(x[|x| - 1].text, sep)] + y
  }

  lemma {:induction false} ChainedCons(cut: Cut, x: seq<Cut>, sep: string, y: seq<Cut>)
    requires x != []
    ensures Chained([cut] + x, sep, y) == [cut] + Chained(x, sep, y)
  {
  }

  lemma {:induction false} Join(st: State, a: string, sep: string, b: string, current: string)
    requires EndsIn(st, a, NEUTRAL) && Apart(a, sep, b)
    ensures Plain(st, a + (sep + b), current) == Chained(Plain(st, a, current), sep, Plain(NEUTRAL, b, []))
    decreases |a|
  {
    hide Stepped, Plain, IsSeparator, NextByte;
    var whole := a + (sep + b);
    if a == [] {
      assert whole == sep + b;
      SeparatorStep(sep, b);
      PlainStep(st, whole, current);
      PlainEnd(st, current);
    } else {
      StepBefore(st, a, sep, b);
      var m := Stepped(false, st, a);
      var rest := a[m.length..];
      AfterBefore(a, m.length, sep + b);
      PlainStep(st, a, current);
      PlainStep(st, whole, current);
      assert Apart(rest, sep, b);
      if m.separator {
        Join(m.state, rest, sep, b, []);
        ChainedCons(Cut(current, a[..m.length]), Plain(m.state, rest, []), sep, Plain(NEUTRAL, b, []));
      } else {
        Join(m.state, rest, sep, b, current + m.text);
      }
    }
  }

  lemma {:induction false} AfterBefore(a: string, n: nat, tail: string)
    requires n <= |a|
    ensures After(a, n) == a[n..]
    ensures tail != [] ==> After(a + tail, n) == a[n..] + tail
    ensures (a + tail)[..n] == a[..n]
  {
  }

  /** The two runs share the finished pieces, and the piece then open goes on in `x` with `c`. */
  ghost predicate GoesOn(x: seq<Cut>, y: seq<Cut>, c: char) {
    && 0 < |y| <= |x|
    && x[..|y| - 1] == y[..|y| - 1]
    && y[|y| - 1].text + [c] <= x[|y| - 1].text
    && !Blank(y[|y| - 1].text)
  }

  lemma {:induction false} NonNeutralLeavesAMark(st: State, s: string, current: string)
    requires s != [] && (st != NEUTRAL ==> !Blank(current))
    requires !Stepped(false, st, s).separator
    requires Stepped(false, st, s).state != NEUTRAL || Stepped(false, st, s).length > |s|
    ensures !Blank(current + Stepped(false, st, s).text)
  {
    var m := Stepped(false, st, s);
    BlankConcat(current, m.text);
    assert st == NEUTRAL ==> !IsSpace(m.text[0]);
  }

  lemma {:induction false} SeparatorIsCopied(st: State, sep: string, b: string)
    requires st != NEUTRAL && Apart([], sep, b)
    ensures var m := Stepped(false, st, sep + b);
      !m.separator && m.text == [sep[0]]
  {
  }

  lemma {:induction false} BackslashTakesSeparator(st: State, a: string, sep: string, b: string)
    requires a != [] && IsSeparator(sep) && Stepped(false, st, a).length > |a|
    ensures Stepped(false, st, a).text == a
    ensures var m := Stepped(false, st, a + (sep + b));
      !m.separator && m.text == a + [sep[0]]
  {
    assert NextByte(a + (sep + b)) == sep[0];
  }

  lemma {:induction false} PlainStartsWith(st: State, s: string, current: string)
    ensures current <= Plain(st, s, current)[0].text
  {
    hide Plain;
    PlainPrefixed(st, s, current);
  }

  lemma {:induction false} SeparatorNotEmpty(sep: string)
    requires IsSeparator(sep)
    ensures sep != []
  {
  }

  /** A separator in quotes or parentheses only lengthens the open piece. */
  lemma {:induction false} QuotedSeparatorGoesOn(st: State, sep: string, b: string, current: string)
    requires st != NEUTRAL && Apart([], sep, b) && !Blank(current)
    ensures sep != [] && GoesOn(Plain(st, sep + b, current), Plain(st, [], current), sep[0])
  {
    hide Stepped, Plain, IsSeparator, NextByte, Blank;
    SeparatorNotEmpty(sep);
    SeparatorIsCopied(st, sep, b);
    PlainStep(st, sep + b, current);
    PlainEnd(st, current);
    var m := Stepped(false, st, sep + b);
    PlainStartsWith(m.state, After(sep + b, m.length), current + m.text);
  }

  /** So does one behind a final backslash. */
  lemma {:induction false} EscapedSeparatorGoesOn(st: State, a: string, sep: string, b: string, current: string)
    requires a != [] && IsSeparator(sep) && Stepped(false, st, a).length > |a|
    requires st != NEUTRAL ==> !Blank(current)
    ensures sep != [] && GoesOn(Plain(st, a + (sep + b), current), Plain(st, a, current), sep[0])
  {
    hide Stepped, Plain, IsSeparator, NextByte, Blank;
    SeparatorNotEmpty(sep);
    var whole := a + (sep + b);
    BackslashTakesSeparator(st, a, sep, b);
    NonNeutralLeavesAMark(st, a, current);
    PlainStep(st, a, current);
    PlainStep(st, whole, current);
    PlainEnd(Stepped(false, st, a).state, current + a);
    var m := Stepped(false, st, whole);
    PlainStartsWith(m.state, After(whole, m.length), current + m.text);
    assert current + (a + [sep[0]]) == current + a + [sep[0]];
  }

  lemma {:induction false} OpenPieceGoesOn(st: State, a: string, sep: string, b: string, current: string)
    requires !EndsIn(st, a, NEUTRAL) && Apart(a, sep, b)
    requires st != NEUTRAL ==> !Blank(current)
    ensures sep != [] && GoesOn(Plain(st, a + (sep + b), current), Plain(st, a, current), sep[0])
    decreases |a|
  {
    hide Stepped, Plain, IsSeparator, NextByte, Blank, GoesOn;
    var whole := a + (sep + b);
    if a == [] {
      assert whole == sep + b;
      QuotedSeparatorGoesOn(st, sep, b, current);
    } else {
      var m := Stepped(false, st, a);
      if m.length > |a| {
        EscapedSeparatorGoesOn(st, a, sep, b, current);
      } else {
        StepBefore(st, a, sep, b);
        PlainStep(st, a, current);
        PlainStep(st, whole, current);
        var rest := a[m.length..];
        AfterBefore(a, m.length, sep + b);
        assert Apart(rest, sep, b);
        if m.separator {
          OpenPieceGoesOn(m.state, rest, sep, b, []);
          GoesOnCons(Cut(current, a[..m.length]), Plain(m.state, rest + (sep + b), []), Plain(m.state, rest, []),
            sep[0]);
        } else {
          if m.state != NEUTRAL { NonNeutralLeavesAMark(st, a, current); }
          OpenPieceGoesOn(m.state, rest, sep, b, current + m.text);
        }
      }
    }
  }

  lemma {:induction false} GoesOnCons(cut: Cut, x: seq<Cut>, y: seq<Cut>, c: char)
    requires GoesOn(x, y, c)
    ensures GoesOn([cut] + x, [cut] + y, c)
  {
    hide Blank;
    var n := |y| - 1;
    assert ([cut] + x)[..n + 1] == [cut] + x[..n];
    assert ([cut] + y)[..n + 1] == [cut] + y[..n];
  }

  lemma {:induction false} CommandsConcat(x: seq<Cut>, y: seq<Cut>)
    ensures Commands(x + y) == Commands(x) + Commands(y)
  {
    hide Command;
    if x == [] {
      assert x + y == y;
    } else {
      assert (x + y)[1..] == x[1..] + y;
      CommandsConcat(x[1..], y);
      assert Command(x[0].text) + (Commands(x[1..]) + Commands(y)) == Command(x[0].text) + Commands(x[1..]) +
        Commands(y);
    }
  }

  lemma {:induction false} CommandsOfOne(cut: Cut)
    ensures Commands([cut]) == Command(cut.text)
  {
    assert [cut][1..] == [];
  }

  lemma {:induction false} ChainedCommands(x: seq<Cut>, sep: string, y: seq<Cut>)
    requires x != []
    ensures Commands(Chained(x, sep, y)) == Commands(x) + Commands(y)
  {
    hide Commands, Command;
    var n := |x| - 1;
    var ended := [Cut(x[n].text, sep)];
    assert x == x[..n] + [x[n]];
    CommandsConcat(x[..n], [x[n]]);
    CommandsConcat(x[..n], ended);
    CommandsConcat(x[..n] + ended, y);
    CommandsOfOne(x[n]);
    CommandsOfOne(ended[0]);
  }

  lemma {:induction false} TrimGrows(t: string, c: char, t': string)
    requires !Blank(t) && !IsSpace(c) && t + [c] <= t'
    ensures |Trim(t)| < |Trim(t')|
  {
    hide Trim;
    var l, r := TrimSplit(t);
    var l', r' := TrimSplit(t');
    TrimEmpty(t);
    assert t'[|t|] == (t + [c])[|t|];
    assert t'[|l|] == t[|l|] == Trim(t)[0];
    NonBlankInside(l', Trim(t'), r', |l|);
    NonBlankInside(l', Trim(t'), r', |t|);
  }

  lemma {:induction false} NonBlankInside(left: string, s: string, right: string, i: nat)
    requires Blank(left) && Blank(right) && i < |left + s + right| && !IsSpace((left + s + right)[i])
    ensures |left| <= i < |left| + |s|
  {
    var whole := left + s + right;
    assert forall k :: 0 <= k < |left| ==> whole[k] == left[k];
    assert forall k :: 0 <= k < |right| ==> whole[|left| + |s| + k] == right[k];
    assert whole[|left| + |s|..] == right;
  }

  lemma {:induction false} GoesOnDiffers(x: seq<Cut>, y: seq<Cut>, c: char, more: seq<string>)
    requires GoesOn(x, y, c) && !IsSpace(c)
    ensures Commands(x) != Commands(y) + more
  {
    hide Commands, Trim, Blank, IsSpace;
    var n := |y| - 1;
    var t, t' := y[n].text, x[n].text;
    TrimGrows(t, c, t');
    TrimEmpty(t);
    assert y == y[..n] + [y[n]];
    assert x == x[..n] + ([x[n]] + x[n + 1..]);
    CommandsConcat(y[..n], [y[n]]);
    CommandsConcat(x[..n], [x[n]] + x[n + 1..]);
    CommandsConcat([x[n]], x[n + 1..]);
    CommandsOfOne(x[n]);
    CommandsOfOne(y[n]);
    var k := |Commands(y[..n])|;
    assert Commands(x)[k] == Trim(t');
    assert (Commands(y) + more)[k] == Trim(t);
  }

  lemma {:induction false} NoDoubleLessJoined(a: string, sep: string, b: string)
    requires !HasDoubleLess(a) && !HasDoubleLess(b) && IsSeparator(sep)
    ensures !HasDoubleLess(a + (sep + b))
  {
    var s := a + (sep + b);
    forall i | 0 <= i < |s| ensures !DoubleLessAt(s, i) {
      if i < |a| {
        assert !DoubleLessAt(a, i);
      } else if i >= |a| + |sep| {
        assert !DoubleLessAt(b, i - |a| - |sep|);
      }
    }
  }

  /** Two command lines put behind each other split into the commands of the first and those of
      the second as soon as the first ends outside quotes and parentheses. */
  lemma {:induction false} SplitDistributes(a: string, sep: string, b: string)
    requires !HasDoubleLess(a) && !HasDoubleLess(b) && Apart(a, sep, b)
    requires EndsNeutral(a)
    ensures Split(a + (sep + b)) == Split(a) + Split(b)
  {
    hide Split, HasDoubleLess, Commands, Plain, EndsIn;
    NoDoubleLessJoined(a, sep, b);
    PlainSplit(a);
    PlainSplit(b);
    PlainSplit(a + (sep + b));
    Join(NEUTRAL, a, sep, b, []);
    ChainedCommands(Plain(NEUTRAL, a, []), sep, Plain(NEUTRAL, b, []));
  }

  /** And only then, for every separator but the newline, which trimming can hide. */
  lemma {:induction false} SplitDistributesIff(a: string, sep: string, b: string)
    requires !HasDoubleLess(a) && !HasDoubleLess(b) && Apart(a, sep, b) && sep != "\n"
    ensures Split(a + (sep + b)) == Split(a) + Split(b) <==> EndsNeutral(a)
  {
    hide Split, HasDoubleLess, Commands, Plain, EndsIn;
    if EndsNeutral(a) {
      SplitDistributes(a, sep, b);
    } else {
      NoDoubleLessJoined(a, sep, b);
      PlainSplit(a);
      PlainSplit(a + (sep + b));
      OpenPieceGoesOn(NEUTRAL, a, sep, b, []);
      GoesOnDiffers(Plain(NEUTRAL, a + (sep + b), []), Plain(NEUTRAL, a, []), sep[0], Split(b));
    }
  }

  // ---------------------------------------------------------------- joining at a newline

  /** The state in which the text ends, read from `st`. */
  function EndState(st: State, s: string): State
    decreases |s|
  {
    if s == [] then st
    else
      var m := Stepped(false, st, s);
      if m.length <= |s| then EndState(m.state, s[m.length..]) else m.state
  }

  /** Read from `st`, the text ends with a backslash that has nothing left to escape. */
  predicate EndsEscaping(st: State, s: string)
    decreases |s|
  {
    s != [] &&
    var m := Stepped(false, st, s);
    m.length > |s| || EndsEscaping(m.state, s[m.length..])
  }

  /** The second command line begins with nothing but blanks, up to a separator or its end. */
  predicate BeginsBlank(b: string) {
    Blank(Plain(NEUTRAL, b, [])[0].text)
  }

  /** The pieces of `y`, of which the last goes on with a newline and what follows it. */
  function GoneOn(y: seq<Cut>, x: seq<Cut>): seq<Cut>
    requires y != [] && x != []
  {
    y[..|y| - 1] + Prefixed(y[|y| - 1].text + "\n", x)
  }

  lemma {:induction false} GoneOnCons(cut: Cut, y: seq<Cut>, x: seq<Cut>)
    requires y != [] && x != []
    ensures GoneOn([cut] + y, x) == [cut] + GoneOn(y, x)
  {
    hide Prefixed;
    assert ([cut] + y)[..|y|] == [cut] + y[..|y| - 1];
  }

  lemma {:induction false} NewlineIsCopied(st: State, b: string)
    requires st != NEUTRAL
    ensures Stepped(false, st, "\n" + b) == Copied(st, '\n')
    ensures After("\n" + b, 1) == b
  {
  }

  lemma {:induction false} BackslashTakesNewline(st: State, a: string, b: string)
    requires a != [] && Stepped(false, st, a).length > |a|
    ensures Stepped(false, st, a + ("\n" + b)) == Move(st, 2, a + "\n", false)
    ensures Stepped(false, st, a) == Move(st, 2, a, false)
    ensures After(a + ("\n" + b), 2) == b && After(a, 2) == []
  {
    assert a == [a[0]];
    assert NextByte(a + ("\n" + b)) == '\n';
  }

  lemma {:induction false} QuotedNewline(st: State, b: string, current: string)
    requires st != NEUTRAL
    ensures Plain(st, "\n" + b, current) == Prefixed(current + "\n", Plain(st, b, []))
  {
    hide Stepped, Plain, After;
    NewlineIsCopied(st, b);
    PlainStep(st, "\n" + b, current);
    PlainPrefixed(st, b, current + "\n");
  }

  lemma {:induction false} EscapedNewline(st: State, a: string, b: string, current: string)
    requires a != [] && Stepped(false, st, a).length > |a|
    ensures Plain(st, a, current) == [Cut(current + a, [])]
    ensures Plain(st, a + ("\n" + b), current) == Prefixed(current + a + "\n", Plain(st, b, []))
  {
    hide Stepped, Plain, After;
    BackslashTakesNewline(st, a, b);
    PlainStep(st, a, current);
    PlainEnd(st, current + a);
    PlainStep(st, a + ("\n" + b), current);
    assert current + (a + "\n") == current + a + "\n";
    PlainPrefixed(st, b, current + a + "\n");
  }

  /** Behind a text that does not end neutral the newline is copied, and reading goes on in the state reached. */
  lemma {:induction false} NewlineGoesOn(st: State, a: string, b: string, current: string)
    requires !EndsIn(st, a, NEUTRAL)
    ensures Plain(st, a + ("\n" + b), current) == GoneOn(Plain(st, a, current), Plain(EndState(st, a), b, []))
    decreases |a|
  {
    hide Stepped, Plain, Prefixed;
    var whole := a + ("\n" + b);
    if a == [] {
      assert whole == "\n" + b;
      PlainEnd(st, current);
      QuotedNewline(st, b, current);
      OnlyPieceGoesOn(Cut(current, []), Plain(st, b, []));
    } else {
      var m := Stepped(false, st, a);
      if m.length > |a| {
        EscapedNewline(st, a, b, current);
        BackslashTakesNewline(st, a, b);
        OnlyPieceGoesOn(Cut(current + a, []), Plain(st, b, []));
      } else {
        StepBefore(st, a, "\n", b);
        PlainStep(st, a, current);
        PlainStep(st, whole, current);
        var rest := a[m.length..];
        AfterBefore(a, m.length, "\n" + b);
        if m.separator {
          NewlineGoesOn(m.state, rest, b, []);
          GoneOnCons(Cut(current, a[..m.length]), Plain(m.state, rest, []), Plain(EndState(m.state, rest), b, []));
        } else {
          NewlineGoesOn(m.state, rest, b, current + m.text);
        }
      }
    }
  }

  lemma {:induction false} OnlyPieceGoesOn(cut: Cut, x: seq<Cut>)
    requires x != []
    ensures GoneOn([cut], x) == Prefixed(cut.text + "\n", x)
  {
    hide Prefixed;
    assert [cut][..0] == [];
    assert [] + Prefixed(cut.text + "\n", x) == Prefixed(cut.text + "\n", x);
  }

  /** In quotes or parentheses a piece that begins blank is blank to the end. */
  lemma {:induction false} BlankStays(st: State, b: string)
    requires st != NEUTRAL
    ensures Blank(Plain(st, b, [])[0].text) <==> Blank(b)
    ensures Blank(b) ==> Plain(st, b, []) == [Cut(b, [])]
    decreases |b|
  {
    hide Plain, Blank;
    if b == [] {
      PlainEnd(st, []);
    } else {
      var m := Stepped(false, st, b);
      var rest := After(b, m.length);
      PlainStep(st, b, []);
      assert [] + m.text == m.text;
      PlainPrefixed(m.state, rest, m.text);
      var t := Plain(m.state, rest, [])[0].text;
      BlankConcat(m.text, t);
      FirstOf(m.text, b);
      if IsSpace(b[0]) {
        assert m == Copied(st, b[0]);
        assert b == [b[0]] + rest;
        BlankConcat([b[0]], rest);
        OneBlank(b[0]);
        BlankStays(st, rest);
      }
    }
  }

  lemma {:induction false} OneBlank(c: char)
    ensures Blank([c]) <==> IsSpace(c)
  {
    assert [c][0] == c;
  }

  lemma {:induction false} FirstOf(a: string, b: string)
    requires a != [] && b != [] && a[0] == b[0]
    ensures Blank(a) || Blank(b) ==> IsSpace(b[0])
  {
  }

  lemma {:induction false} TrimKeepsOrGrows(t: string, w: string)
    requires !Blank(t)
    ensures Trim(t + w) == Trim(t) <==> Blank(w)
  {
    hide Trim;
    var l, r := TrimSplit(t);
    TrimEmpty(t);
    if Blank(w) {
      BlankConcat(r, w);
      TrimPad(l, Trim(t), r + w);
      assert t + w == l + Trim(t) + (r + w);
    } else {
      var i :| 0 <= i < |w| && !IsSpace(w[i]);
      var l', r' := TrimSplit(t + w);
      assert (t + w)[|l|] == t[|l|] == Trim(t)[0];
      assert (t + w)[|t| + i] == w[i];
      NonBlankInside(l', Trim(t + w), r', |l|);
      NonBlankInside(l', Trim(t + w), r', |t| + i);
    }
  }

  /** A blank line has no commands. */
  lemma {:induction false} BlankHasNoCommands(b: string, current: string)
    requires Blank(b) && Blank(current)
    ensures Commands(Plain(NEUTRAL, b, current)) == []
    decreases |b|
  {
    hide Plain, Blank, Trim, Commands;
    if b == [] {
      PlainEnd(NEUTRAL, current);
      CommandsOfOne(Cut(current, []));
      TrimEmpty(current);
    } else {
      BlankTail(b);
      PlainStep(NEUTRAL, b, current);
      assert After(b, 1) == b[1..];
      if b[0] == '\n' {
        BlankHasNoCommands(b[1..], NoText());
        CommandsOfOneMore(Cut(current, b[..1]), Plain(NEUTRAL, b[1..], []));
        TrimEmpty(current);
      } else {
        assert Stepped(false, NEUTRAL, b) == Copied(NEUTRAL, b[0]);
        OneBlank(b[0]);
        BlankConcat(current, [b[0]]);
        BlankHasNoCommands(b[1..], current + [b[0]]);
      }
    }
  }

  function NoText(): (s: string)
    ensures s == [] && Blank(s)
  {
    []
  }

  /** The open piece of the first line is not blank. */
  lemma {:induction false} OpenPieceIsNotBlank(a: string)
    requires !EndsNeutral(a)
    ensures var y := Plain(NEUTRAL, a, []); !Blank(y[|y| - 1].text)
  {
    hide Plain, Blank;
    OpenPieceGoesOn(NEUTRAL, a, "\n", [], []);
  }

  /** What becomes of the commands when the last piece of the first line goes on. */
  lemma {:induction false} GoneOnCommands(y: seq<Cut>, x: seq<Cut>)
    requires y != [] && x != [] && !Blank(y[|y| - 1].text)
    ensures var t := y[|y| - 1].text;
      Commands(GoneOn(y, x)) == Commands(y[..|y| - 1]) + ([Trim(t + ("\n" + x[0].text))] + Commands(x[1..]))
    ensures Commands(y) == Commands(y[..|y| - 1]) + [Trim(y[|y| - 1].text)]
  {
    hide Commands, Trim, Blank;
    var n := |y| - 1;
    var t := y[n].text;
    var went := Prefixed(t + "\n", x);
    assert went == [went[0]] + x[1..];
    CommandsConcat(y[..n], went);
    CommandsOfOneMore(went[0], x[1..]);
    assert t + "\n" + x[0].text == t + ("\n" + x[0].text);
    TrimEmpty(t);
    TrimEmpty(t + ("\n" + x[0].text));
    BlankConcat(t, "\n" + x[0].text);
    assert y == y[..n] + [y[n]];
    CommandsConcat(y[..n], [y[n]]);
    CommandsOfOne(y[n]);
  }

  lemma {:induction false} FirstDiffers(before: seq<string>, u: string, v: string, r: seq<string>, s: seq<string>)
    ensures before + ([u] + r) == before + [v] + s <==> u == v && r == s
  {
    var x, y := before + ([u] + r), before + [v] + s;
    assert x[|before|] == u && y[|before|] == v;
    assert x[|before| + 1..] == r && y[|before| + 1..] == s;
  }

  /** Exactly when two lines split like the two joined by a newline: the first ends neutral; or the second is blank; or
      the first ends with a lone backslash, outside quotes and parentheses, and the second begins blank. */
  lemma {:induction false} LinesDistributeIff(a: string, b: string)
    requires !HasDoubleLess(a) && !HasDoubleLess(b)
    ensures Split(a + ("\n" + b)) == Split(a) + Split(b) <==>
      || EndsNeutral(a)
      || Blank(b)
      || (EndsEscaping(NEUTRAL, a) && EndState(NEUTRAL, a) == NEUTRAL && BeginsBlank(b))
  {
    hide Split, HasDoubleLess, Commands, Plain, EndsIn, Blank, Trim, EndState, GoneOn, EndsEscaping;
    if EndsNeutral(a) {
      SplitDistributes(a, "\n", b);
    } else {
      NoDoubleLessJoined(a, "\n", b);
      PlainSplit(a);
      PlainSplit(b);
      PlainSplit(a + ("\n" + b));
      NewlineGoesOn(NEUTRAL, a, b, []);
      OpenPieceIsNotBlank(a);
      var y, st := Plain(NEUTRAL, a, []), EndState(NEUTRAL, a);
      var x := Plain(st, b, []);
      GoneOnCommands(y, x);
      var t := y[|y| - 1].text;
      TrimKeepsOrGrows(t, "\n" + x[0].text);
      BlankConcat("\n", x[0].text);
      OneBlank('\n');
      FirstDiffers(Commands(y[..|y| - 1]), Trim(t + ("\n" + x[0].text)), Trim(t), Commands(x[1..]), Split(b));
      NeutralOnlyEscaping(NEUTRAL, a);
      RestOfLine(st, b);
    }
  }

  /** A text that ends in the neutral state, but not neutral, ends with a lone backslash. */
  lemma {:induction false} NeutralOnlyEscaping(st: State, a: string)
    requires !EndsIn(st, a, NEUTRAL)
    ensures EndState(st, a) == NEUTRAL ==> EndsEscaping(st, a)
    decreases |a|
  {
    hide Stepped;
    if a != [] {
      var m := Stepped(false, st, a);
      if m.length <= |a| { NeutralOnlyEscaping(m.state, a[m.length..]); }
    }
  }

  /** When the first piece behind the newline is blank, what remains are the commands of the second line. */
  lemma {:induction false} RestOfLine(st: State, b: string)
    requires !HasDoubleLess(b)
    ensures var x := Plain(st, b, []);
      (Blank(x[0].text) && Commands(x[1..]) == Split(b)) <==> if st == NEUTRAL then BeginsBlank(b) else Blank(b)
    ensures Blank(b) ==> BeginsBlank(b)
  {
    hide Split, HasDoubleLess, Commands, Plain, Blank, Trim;
    var x := Plain(st, b, []);
    PlainSplit(b);
    BlankBegins(b);
    if st == NEUTRAL {
      assert x == [x[0]] + x[1..];
      CommandsOfOneMore(x[0], x[1..]);
      TrimEmpty(x[0].text);
    } else {
      BlankStays(st, b);
      if Blank(b) {
        BlankHasNoCommands(b, NoText());
        assert x[1..] == [];
        CommandsOfNone();
      }
    }
  }

  lemma {:induction false} CommandsOfNone()
    ensures Commands([]) == []
  {
  }

  lemma {:induction false} BlankBegins(b: string)
    requires !HasDoubleLess(b)
    ensures Blank(b) ==> BeginsBlank(b)
  {
    hide Plain, Blank, Trim, Commands;
    if Blank(b) {
      var x := Plain(NEUTRAL, b, []);
      BlankHasNoCommands(b, NoText());
      assert x == [x[0]] + x[1..];
      CommandsOfOneMore(x[0], x[1..]);
      TrimEmpty(x[0].text);
    }
  }

  // ---------------------------------------------------------------- pieces are final

  predicate NulAfterBackslash(s: string, i: nat) {
    i + 1 < |s| && s[i] == '\\' && s[i + 1] == NUL
  }

  predicate HasNulAfterBackslash(s: string) {
    exists i :: 0 <= i < |s| && NulAfterBackslash(s, i)
  }

  lemma {:induction false} NoNulInside(s: string, i: nat, j: nat)
    requires i <= j <= |s| && !HasNulAfterBackslash(s)
    ensures !HasNulAfterBackslash(s[i..j])
  {
    forall k | 0 <= k < |s[i..j]|
      ensures !NulAfterBackslash(s[i..j], k)
    {
      assert !NulAfterBackslash(s, i + k);
    }
  }

  /** A copying step repeats what it reads, and reads the same when the text is cut short behind it. */
  lemma {:induction false} StepCutShort(st: State, s: string, k: nat)
    requires s != [] && !HasNulAfterBackslash(s) && 0 < k <= |s|
    requires !Stepped(false, st, s).separator
    ensures var m := Stepped(false, st, s);
      && s == m.text + After(s, m.length)
      && var cut := Stepped(false, st, s[..k]);
      && !cut.separator
      && (k >= |m.text| ==> cut == m)
      && (k < |m.text| ==> cut.text == s[..k] && After(s[..k], cut.length) == [])
  {
    hide Stepped;
    assert !NulAfterBackslash(s, 0);
    StepCopies(false, st, s);
    var short := s[..k];
    if |short| > 1 || |s| == 1 {
      StepLooksAtTwo(false, st, s, short);
    } else {
      StepOnOne(st, s, short);
    }
  }

  lemma {:induction false} StepOnOne(st: State, s: string, short: string)
    requires |s| > 1 && short == [s[0]] && !Stepped(false, st, s).separator
    ensures var m, cut := Stepped(false, st, s), Stepped(false, st, short);
      !cut.separator && cut.text == short && (|m.text| <= 1 && s[0] != '\\' ==> cut == m)
    ensures After(short, Stepped(false, st, short).length) == []
    ensures s[0] == '\\' && !st.inSingle && !st.inDouble && s[1] != NUL ==> |Stepped(false, st, s).text| == 2
    ensures s[0] == '\\' && (st.inSingle || st.inDouble) ==> Stepped(false, st, short) == Stepped(false, st, s)
  {
  }

  /** The first piece, and every beginning of it, is one piece when read alone. */
  lemma {:induction false} FirstPieceAlone(st: State, s: string, k: nat)
    requires !HasNulAfterBackslash(s) && k <= |Plain(st, s, [])[0].text|
    ensures Plain(st, s, [])[0].text <= s
    ensures Plain(st, s[..k], []) == [Cut(s[..k], [])]
    decreases |s|
  {
    hide Stepped, Plain, HasNulAfterBackslash;
    PlainEnd(st, []);
    if s != [] {
      var m := Stepped(false, st, s);
      PlainStep(st, s, []);
      if !m.separator {
        var rest := After(s, m.length);
        StepCutShort(st, s, |s|);
        assert rest == s[|m.text|..];
        NoNulInside(s, |m.text|, |s|);
        assert rest == s[|m.text|..|s|];
        assert [] + m.text == m.text;
        PlainPrefixed(m.state, rest, m.text);
        var first := Plain(m.state, rest, [])[0].text;
        FirstPieceAlone(m.state, rest, if k >= |m.text| then k - |m.text| else 0);
        FirstText(s, m.text, first);
        if k > 0 {
          StepCutShort(st, s, k);
          PlainStep(st, s[..k], []);
          if k >= |m.text| {
            CutShort(s, m.text, m.length, k);
            PlainPrefixed(m.state, rest[..k - |m.text|], m.text);
          } else {
            assert [] + s[..k] == s[..k];
            PlainEnd(Stepped(false, st, s[..k]).state, s[..k]);
          }
        }
      }
    }
    if k == 0 { assert s[..k] == []; }
  }

  lemma {:induction false} FirstText(s: string, text: string, first: string)
    requires text <= s && first <= s[|text|..]
    ensures text + first <= s
  {
  }

  lemma {:induction false} CutShort(s: string, text: string, n: nat, k: nat)
    requires s == text + After(s, n) && |text| <= k <= |s|
    ensures After(s[..k], n) == After(s, n)[..k - |text|]
    ensures text + After(s, n)[..k - |text|] == s[..k]
  {
  }

  /** The pieces behind the first are those of what follows some step. */
  lemma {:induction false} LaterPieces(st: State, s: string)
    requires |Plain(st, s, [])| > 1
    ensures s != []
    ensures var m := Stepped(false, st, s);
      var later := Plain(m.state, After(s, m.length), []);
      Plain(st, s, [])[1..] == if m.separator then later else later[1..]
    ensures Stepped(false, st, s).separator ==> Stepped(false, st, s).state == NEUTRAL
  {
    hide Stepped, Plain;
    PlainEnd(st, []);
    var m := Stepped(false, st, s);
    PlainStep(st, s, []);
    assert [] + m.text == m.text;
    PlainPrefixed(m.state, After(s, m.length), m.text);
  }

  /** Every piece stands in the text and is one piece when read alone. */
  lemma {:induction false} PieceAlone(st: State, s: string, j: nat) returns (at: nat)
    requires !HasNulAfterBackslash(s) && j < |Plain(st, s, [])|
    ensures var t := Plain(st, s, [])[j].text;
      at + |t| <= |s| && t == s[at..at + |t|] && Plain(if j == 0 then st else NEUTRAL, t, []) == [Cut(t, [])]
    decreases |s|
  {
    hide Stepped, Plain, HasNulAfterBackslash, After;
    if j == 0 {
      var t := Plain(st, s, [])[0].text;
      FirstPieceAlone(st, s, |t|);
      at := 0;
    } else {
      LaterPieces(st, s);
      var m := Stepped(false, st, s);
      var rest := After(s, m.length);
      var skipped := |s| - |rest|;
      NoNulInside(s, skipped, |s|);
      assert rest == s[skipped..|s|];
      assert Plain(st, s, [])[j] == Plain(st, s, [])[1..][j - 1];
      at := PieceAlone(m.state, rest, if m.separator then j - 1 else j);
      SliceOfRest(s, skipped, at, |Plain(st, s, [])[j].text|);
      at := skipped + at;
    }
  }

  lemma {:induction false} SliceOfRest(s: string, skipped: nat, at: nat, n: nat)
    requires skipped + at + n <= |s|
    ensures s[skipped..][at..at + n] == s[skipped + at..skipped + at + n]
  {
  }

  lemma {:induction false} LeadingBlanksDrop(blanks: string, s: string)
    requires Blank(blanks) && Plain(NEUTRAL, blanks + s, []) == [Cut(blanks + s, [])]
    ensures Plain(NEUTRAL, s, []) == [Cut(s, [])]
  {
    hide Plain, Blank;
    if blanks == [] {
      assert blanks + s == s;
    } else {
      var whole := blanks + s;
      assert IsSpace(blanks[0]) && Blank(blanks[1..]) by { BlankTail(blanks); }
      PlainStep(NEUTRAL, whole, []);
      var m := Stepped(false, NEUTRAL, whole);
      assert m.separator ==> |Plain(NEUTRAL, whole, [])| > 1;
      assert m == Copied(NEUTRAL, blanks[0]);
      var rest := blanks[1..] + s;
      assert After(whole, 1) == rest;
      assert [] + m.text == m.text;
      PlainPrefixed(NEUTRAL, rest, m.text);
      var inner := Plain(NEUTRAL, rest, []);
      assert inner[0].text == (m.text + inner[0].text)[1..];
      assert whole[1..] == rest;
      assert inner == [inner[0]];
      LeadingBlanksDrop(blanks[1..], s);
    }
  }

  lemma {:induction false} BlankTail(s: string)
    requires Blank(s) && s != []
    ensures IsSpace(s[0]) && Blank(s[1..])
  {
  }

  lemma {:induction false} CommandsArePieces(cuts: seq<Cut>, r: string) returns (j: nat)
    requires r in Commands(cuts)
    ensures j < |cuts| && r == Trim(cuts[j].text) && r != []
  {
    hide Trim;
    if r in Command(cuts[0].text) {
      j := 0;
    } else {
      j := CommandsArePieces(cuts[1..], r);
      j := j + 1;
    }
  }

  /** A command found in a line without `<<` and without an escaped byte 0 is one command
      when it is split again. */
  lemma {:induction false} PiecesAreFinal(command: string, r: string)
    requires !HasDoubleLess(command) && !HasNulAfterBackslash(command) && r in Split(command)
    ensures Split(r) == [r]
  {
    hide Split, Plain, HasDoubleLess, HasNulAfterBackslash, Blank, Trim, IsSpace;
    PlainSplit(command);
    var cuts := Plain(NEUTRAL, command, []);
    var j := CommandsArePieces(cuts, r);
    var t := cuts[j].text;
    var at := PieceAlone(NEUTRAL, command, j);
    NoNulInside(command, at, at + |t|);
    NoDoubleLessInside(command, at, at + |t|);
    var l, right := TrimSplit(t);
    var n := |l| + |r|;
    FirstPieceAlone(NEUTRAL, t, n);
    assert t[..n] == l + r;
    LeadingBlanksDrop(l, r);
    NoDoubleLessInside(t, |l|, n);
    assert t[|l|..n] == r;
    PlainSplit(r);
    CommandsOfOne(Cut(r, []));
    TrimIdentity(r);
  }

  /** A heredoc that opens on the first line and never closes makes the whole line one command. */
  lemma {:induction false} OpenHeredocIsOneCommand(line: string)
    requires RangesFrom(line, 0) == [Range(0, |line| + 1)]
    ensures Split(line) == Command(line)
  {
    hide Cuts, Commands, Command, RangesFrom;
    var ranges := [Range(0, |line| + 1)];
    forall p | 0 <= p < 0 + |line| ensures InHeredoc(ranges, p) { assert ranges[0].start <= p < ranges[0].end; }
    HeredocCopiedWhole(ranges, 0, NEUTRAL, line, [], []);
    assert line + [] == line && [] + line == line;
    NoMoreCuts(ranges, |line|, NEUTRAL, line);
    CommandsOfOne(Cut(line, []));
  }

  /** With a heredoc open on the line, a later separator belongs to the heredoc: this is why the
      laws above leave `<<` out. */
  lemma {:induction false} HeredocHidesSeparator()
    ensures var a, b := "a<<E", "ls";
      EndsNeutral(a) && Split(a + (";" + b)) == ["a<<E;ls"] && Split(a + (";" + b)) != Split(a) + Split(b)
  {
    hide Split, EndsNeutral, RangesFrom, Trim;
    assert "a<<E" + (";" + "ls") == "a<<E;ls";
    OrdinaryEndsNeutral("a<<E");
    OneHeredoc();
    OpenHeredocIsOneCommand("a<<E;ls");
    TrimIdentity("a<<E;ls");
    LongerThanAll("a<<E;ls", "a<<E", "ls");
  }

  lemma {:induction false} LongerThanAll(whole: string, a: string, b: string)
    requires |whole| > |a| && |whole| > |b|
    ensures [whole] != Split(a) + Split(b)
  {
    hide Split;
    if [whole] == Split(a) + Split(b) {
      assert whole in Split(a) + Split(b);
      if whole in Split(a) { PiecesNotLongerThan(a, whole); } else { PiecesNotLongerThan(b, whole); }
    }
  }

  predicate Ordinary(c: char) {
    c !in ['\'', '"', '$', '\\', '(', ')', '&', '|', ';', '\n']
  }

  lemma {:induction false} OrdinaryEndsNeutral(s: string)
    requires forall i :: 0 <= i < |s| ==> Ordinary(s[i])
    ensures EndsNeutral(s)
  {
    if s != [] {
      assert Ordinary(s[0]);
      assert Stepped(false, NEUTRAL, s) == Copied(NEUTRAL, s[0]);
      OrdinaryEndsNeutral(s[1..]);
    }
  }

  lemma {:induction false} OneHeredoc()
    ensures RangesFrom("a<<E;ls", 0) == [Range(0, 8)]
  {
    var line := "a<<E;ls";
    assert IndexFrom(line, 0, '\n') == 7;
    assert LineAt(line, 0) == line[0..7] == line;
    assert WordEnd(line, 3) == 7;
    assert HeredocDelim(line, 3) == Some("E;ls");
    assert HeredocOpener(line, 1, false, false) == Some("E;ls");
    assert HeredocOpener(line, 0, false, false) == Some("E;ls");
    assert HeredocEnd(line, 8, "E;ls") == 8;
  }

  lemma {:induction false} PiecesNotLongerThan(command: string, source: string)
    requires source in Split(command)
    ensures |source| <= |command|
  {
    hide Split, Trim, Cuts, Rejoined, SeparatorsBetween, RangesFrom, EscapesNulSomewhere, Commands;
    SplitKeepsAllIff(command);
    var j := CommandsArePieces(Pieces(command), source);
    CutsKeepAll(RangesFrom(command, 0), 0, NEUTRAL, command, []);
    PieceWithin(Pieces(command), j);
  }

  lemma {:induction false} PieceWithin(cuts: seq<Cut>, j: nat)
    requires j < |cuts|
    ensures |cuts[j].text| <= |Rejoined(cuts)|
  {
    if j > 0 { PieceWithin(cuts[1..], j - 1); }
  }
}
