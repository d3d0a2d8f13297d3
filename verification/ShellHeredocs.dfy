/** Where heredocs begin and end, told from how they are written (pkg/permission/shell.go:39-153). */
module ShellHeredocs {
  import opened Options
  import opened Text
  import opened Shells
  import opened ShellLexemes

  // ---------------------------------------------------------------- the line that opens one

  /** Quoted texts and bytes that open nothing, in front of `tail`. A backslash means nothing here. */
  predicate OpensNothing(ls: seq<Lexeme>, tail: string) {
    ls != [] ==> SkippedOver(ls[0], Written(ls[1..]) + tail) && OpensNothing(ls[1..], tail)
  }

  predicate IsBlankWord(s: string) { forall k :: 0 <= k < |s| ==> s[k] == ' ' || s[k] == '\t' }

  /** A delimiter as it may be written behind `<<`: quoted, or as a word up to a blank. */
  predicate WritesDelimiter(written: string, delim: string, more: string) {
    || (written == "'" + delim + "'" && '\'' !in delim)
    || (written == "\"" + delim + "\"" && '"' !in delim)
    || (&& written == delim != [] && delim[0] != '\'' && delim[0] != '"'
        && ' ' !in delim && '\t' !in delim && (more == [] || more[0] == ' ' || more[0] == '\t'))
  }

  lemma {:induction false} OpenerSkips(line: string, i: nat, quote: char, body: string)
    requires i + |body| < |line| && line[i..i + |body|] == body && line[i + |body|] == quote && quote !in body
    requires quote == '\'' || quote == '"'
    ensures HeredocOpener(line, i, quote == '\'', quote == '"') == HeredocOpener(line, i + |body| + 1, false, false)
    decreases |body|
  {
    if body != [] {
      assert line[i] == body[0] != quote;
      assert line[i + 1..i + |body|] == body[1..];
      assert quote !in body[1..];
      OpenerSkips(line, i + 1, quote, body[1..]);
    }
  }

  lemma {:induction false} OpenerAt(line: string, i: nat)
    requires i < |line|
    ensures line[i] == '\'' || line[i] == '"' ==>
      HeredocOpener(line, i, false, false) == HeredocOpener(line, i + 1, line[i] == '\'', line[i] == '"')
    ensures line[i] != '\'' && line[i] != '"' && !DoubleLessAt(line, i) ==>
      HeredocOpener(line, i, false, false) == HeredocOpener(line, i + 1, false, false)
    ensures DoubleLessAt(line, i) ==> HeredocOpener(line, i, false, false) == HeredocDelim(line, i + 2)
  {
  }

  lemma {:induction false} OpensStep(ls: seq<Lexeme>, tail: string)
    requires ls != [] && OpensNothing(ls, tail)
    ensures SkippedOver(ls[0], Written(ls[1..]) + tail) && OpensNothing(ls[1..], tail)
    ensures Written(ls) + tail == Spelled(ls[0]) + (Written(ls[1..]) + tail)
    ensures |Written(ls)| == |Spelled(ls[0])| + |Written(ls[1..])|
  {
    hide Spelled;
    assert Written(ls) == Spelled(ls[0]) + Written(ls[1..]);
  }

  /** What opens nothing is passed over. */
  lemma {:induction false} OpenerBehind(line: string, i: nat, ls: seq<Lexeme>, tail: string)
    requires i <= |line| && line[i..] == Written(ls) + tail && OpensNothing(ls, tail)
    ensures i + |Written(ls)| <= |line|
    ensures HeredocOpener(line, i, false, false) == HeredocOpener(line, i + |Written(ls)|, false, false)
    decreases |ls|
  {
    hide HeredocOpener, Spelled, Written, OpensNothing, SkippedOver;
    if ls == [] {
      NothingWritten();
    } else {
      var n, rest := |Spelled(ls[0])|, Written(ls[1..]) + tail;
      OpensStep(ls, tail);
      StandBehind(line, i, Spelled(ls[0]), rest);
      OneSkipped(line, i, ls[0], rest);
      OpenerBehind(line, i + n, ls[1..], tail);
    }
  }

  lemma {:induction false} NothingWritten()
    ensures Written([]) == []
  {
  }

  /** A quoted text, or a byte that opens nothing in front of `rest`. */
  predicate SkippedOver(l: Lexeme, rest: string) {
    match l
    case Bare(c) => c != '\'' && c != '"' && (c == '<' ==> !Begins(rest, '<'))
    case Quoted(quote, body) => (quote == '\'' || quote == '"') && quote !in body
    case _ => false
  }

  lemma {:induction false} NotDouble(line: string, i: nat, rest: string)
    requires i < |line| && line[i + 1..] == rest && (line[i] == '<' ==> !Begins(rest, '<'))
    ensures !DoubleLessAt(line, i)
  {
    assert rest == line[i + 1..] && |rest| == |line| - i - 1;
    assert i + 1 < |line| ==> rest[0] == line[i + 1] && (Begins(rest, '<') <==> line[i + 1] == '<');
  }

  lemma {:induction false} OneSkipped(line: string, i: nat, l: Lexeme, rest: string)
    requires i + |Spelled(l)| <= |line| && line[i..i + |Spelled(l)|] == Spelled(l)
    requires line[i + |Spelled(l)|..] == rest
    requires SkippedOver(l, rest)
    ensures HeredocOpener(line, i, false, false) == HeredocOpener(line, i + |Spelled(l)|, false, false)
  {
    hide HeredocOpener;
    var n := |Spelled(l)|;
    assert line[i] == Spelled(l)[0];
    OpenerAt(line, i);
    if l.Quoted? {
      assert line[i + n - 1] == Spelled(l)[n - 1] == l.quote;
      QuotedBody(line, i, l.quote, l.body);
      OpenerSkips(line, i + 1, l.quote, l.body);
    } else {
      NotDouble(line, i, rest);
    }
  }

  lemma {:induction false} QuotedBody(line: string, i: nat, quote: char, body: string)
    requires i + |body| + 2 <= |line| && line[i..i + |body| + 2] == [quote] + body + [quote]
    ensures line[i + 1..i + 1 + |body|] == body
  {
    SliceOfSlice(line, i, |body| + 2, 1, 1 + |body|);
    assert ([quote] + body + [quote])[1..1 + |body|] == body;
  }

  lemma {:induction false} SliceOfSlice(s: string, i: nat, n: nat, a: nat, b: nat)
    requires i + n <= |s| && a <= b <= n
    ensures s[i..i + n][a..b] == s[i + a..i + b]
  {
    var x, y := s[i..i + n][a..b], s[i + a..i + b];
    assert |x| == |y| && forall k :: 0 <= k < |x| ==> x[k] == y[k];
  }

  lemma {:induction false} SkipsBlanks(line: string, i: nat, gap: string)
    requires i + |gap| <= |line| && line[i..i + |gap|] == gap && IsBlankWord(gap)
    ensures SkipTabs(line, i) == SkipTabs(line, i + |gap|)
    decreases |gap|
  {
    if gap != [] {
      assert line[i] == gap[0] && line[i + 1..i + |gap|] == gap[1..];
      SkipsBlanks(line, i + 1, gap[1..]);
    }
  }

  lemma {:induction false} WordEndIs(line: string, i: nat, j: nat)
    requires i <= j <= |line| && (forall k :: i <= k < j ==> line[k] != ' ' && line[k] != '\t')
    requires j == |line| || line[j] == ' ' || line[j] == '\t'
    ensures WordEnd(line, i) == j
    decreases j - i
  {
    if i < j { WordEndIs(line, i + 1, j); }
  }

  /** Where `a` and then `b` stand. */
  lemma {:induction false} StandBehind(s: string, i: nat, a: string, b: string)
    requires i <= |s| && s[i..] == a + b
    ensures i + |a| <= |s| && s[i..i + |a|] == a && s[i + |a|..] == b
    ensures forall k :: 0 <= k < |a| ==> s[i + k] == a[k]
    ensures b != [] ==> i + |a| < |s| && s[i + |a|] == b[0]
  {
    assert s[i..][..|a|] == a && s[i..][|a|..] == b;
  }

  /** The delimiter behind `<<`, an optional dash and any blanks. */
  lemma {:induction false} DelimiterIs(line: string, i: nat, dash: string, gap: string, written: string, delim: string,
      more: string)
    requires i <= |line| && line[i..] == dash + (gap + (written + more))
    requires (dash == [] || dash == "-") && IsBlankWord(gap) && WritesDelimiter(written, delim, more)
    requires dash == [] && gap == [] ==> written[0] != '-'
    ensures HeredocDelim(line, i) == Some(delim)
  {
    hide SkipTabs, WordEnd, IndexFrom, WritesDelimiter, HeredocDelim, IsBlankWord;
    var start := i + |dash|;
    var j := start + |gap|;
    StandBehind(line, i, dash, gap + (written + more));
    StandBehind(line, start, gap, written + more);
    StartsTight(written, delim, more);
    assert line[j] == written[0];
    NoDash(line, i, dash, gap, written, more);
    SkipsBlanks(line, start, gap);
    NoBlankHere(line, j);
    WrittenAt(line, j, written, delim, more);
    DelimiterAt(line, i, j);
  }

  lemma {:induction false} DelimiterAt(line: string, i: nat, j: nat)
    requires i <= |line| && j < |line| && SkipTabs(line, if i < |line| && line[i] == '-' then i + 1 else i) == j
    ensures HeredocDelim(line, i) ==
      if line[j] == '\'' || line[j] == '"' then
        (var k := IndexFrom(line, j + 1, line[j]); if k == |line| then None else Some(line[j + 1..k]))
      else Some(line[j..WordEnd(line, j)])
  {
    hide SkipTabs, WordEnd, IndexFrom;
  }

  lemma {:induction false} NoDash(line: string, i: nat, dash: string, gap: string, written: string, more: string)
    requires i <= |line| && line[i..] == dash + (gap + (written + more)) && written != []
    requires (dash == [] || dash == "-") && IsBlankWord(gap) && (dash == [] && gap == [] ==> written[0] != '-')
    ensures (if i < |line| && line[i] == '-' then i + 1 else i) == i + |dash|
  {
    var all := dash + (gap + (written + more));
    assert line[i] == all[0];
    if dash == [] {
      assert all[0] == if gap == [] then written[0] else gap[0];
    }
  }

  lemma {:induction false} StartsTight(written: string, delim: string, more: string)
    requires WritesDelimiter(written, delim, more)
    ensures written != [] && written[0] != ' ' && written[0] != '\t'
  {
  }

  lemma {:induction false} NoBlankHere(line: string, j: nat)
    requires j < |line| && line[j] != ' ' && line[j] != '\t'
    ensures SkipTabs(line, j) == j
  {
  }

  lemma {:induction false} WrittenAt(line: string, j: nat, written: string, delim: string, more: string)
    requires j < |line| && line[j..] == written + more && WritesDelimiter(written, delim, more)
    ensures if line[j] == '\'' || line[j] == '"' then
        IndexFrom(line, j + 1, line[j]) < |line| && line[j + 1..IndexFrom(line, j + 1, line[j])] == delim
      else line[j..WordEnd(line, j)] == delim
  {
    hide WordEnd, IndexFrom;
    StandBehind(line, j, written, more);
    assert line[j + 0] == written[0];
    if written == "'" + delim + "'" && '\'' !in delim {
      QuotedDelimiter(line, j, '\'', delim);
    } else if written == "\"" + delim + "\"" && '"' !in delim {
      QuotedDelimiter(line, j, '"', delim);
    } else {
      forall k | j <= k < j + |written| ensures line[k] != ' ' && line[k] != '\t' {
        assert line[j + (k - j)] == delim[k - j];
      }
      EndOfWord(line, j + |written|, more);
      WordEndIs(line, j, j + |written|);
    }
  }

  lemma {:induction false} EndOfWord(line: string, i: nat, more: string)
    requires i <= |line| && line[i..] == more && (more == [] || more[0] == ' ' || more[0] == '\t')
    ensures i == |line| || line[i] == ' ' || line[i] == '\t'
  {
  }

  lemma {:induction false} QuotedDelimiter(line: string, j: nat, quote: char, delim: string)
    requires j + |delim| + 2 <= |line| && line[j..j + |delim| + 2] == [quote] + delim + [quote] && quote !in delim
    ensures line[j] == quote
    ensures IndexFrom(line, j + 1, quote) < |line| && line[j + 1..IndexFrom(line, j + 1, quote)] == delim
  {
    hide IndexFrom;
    var s := line[j..j + |delim| + 2];
    assert line[j] == s[0] && line[j + 1 + |delim|] == s[1 + |delim|] == quote;
    QuotedBody(line, j, quote, delim);
    IndexIs(line, j + 1, j + 1 + |delim|, quote);
  }

  /** A line opens a heredoc with the delimiter that stands behind its first `<<` outside quotes. */
  lemma {:induction false} OpenerIs(ls: seq<Lexeme>, dash: string, gap: string, written: string, delim: string,
      more: string)
    requires OpensNothing(ls, "<<" + (dash + (gap + (written + more))))
    requires (dash == [] || dash == "-") && IsBlankWord(gap) && WritesDelimiter(written, delim, more)
    requires written != [] && (dash == [] && gap == [] ==> written[0] != '-')
    ensures HeredocOpener(Written(ls) + ("<<" + (dash + (gap + (written + more)))), 0, false, false) == Some(delim)
  {
    hide HeredocOpener, HeredocDelim, Written, OpensNothing, WritesDelimiter;
    var behind := dash + (gap + (written + more));
    var line, i := Written(ls) + ("<<" + behind), |Written(ls)|;
    WholeFrom(line);
    OpenerBehind(line, 0, ls, "<<" + behind);
    WholeFrom(line);
    StandBehind(line, 0, Written(ls), "<<" + behind);
    StandBehind(line, i, "<<", behind);
    assert line[i + 0] == '<' && line[i + 1] == '<';
    OpenerAt(line, i);
    DelimiterIs(line, i + 2, dash, gap, written, delim, more);
  }

  lemma {:induction false} WholeFrom(s: string)
    ensures s[0..] == s
  {
  }

  /** And a line that opens nothing opens no heredoc. */
  lemma {:induction false} NoOpenerIs(ls: seq<Lexeme>)
    requires OpensNothing(ls, [])
    ensures HeredocOpener(Written(ls), 0, false, false) == None
  {
    assert Written(ls)[0..] == Written(ls) + [];
    OpenerBehind(Written(ls), 0, ls, []);
  }

  // ---------------------------------------------------------------- the lines of one

  /** The line with its newline. */
  function Ended(line: string): string { line + "\n" }

  function Lines(lines: seq<string>): string {
    if lines == [] then [] else Ended(lines[0]) + Lines(lines[1..])
  }

  /** What counts of a line as the end of a heredoc: without carriage returns at its end and without indentation. */
  ghost predicate IsEndLine(line: string, delim: string) {
    exists indent: string, crs: string ::
      line == indent + delim + crs && IsBlankWord(indent) && IsReturns(crs)
  }

  predicate IsReturns(s: string) { forall k :: 0 <= k < |s| ==> s[k] == '\r' }

  /** Neither indentation nor carriage returns belong to it. */
  predicate IsTight(delim: string) {
    delim == [] || (delim[0] != ' ' && delim[0] != '\t' && delim[|delim| - 1] != '\r')
  }

  lemma {:induction false} StripsReturns(s: string, crs: string)
    requires IsReturns(crs) && (s == [] || s[|s| - 1] != '\r')
    ensures StripReturns(s + crs) == s
    decreases |crs|
  {
    if crs == [] {
      assert s + crs == s;
    } else {
      assert (s + crs)[..|s + crs| - 1] == s + crs[..|crs| - 1];
      StripsReturns(s, crs[..|crs| - 1]);
    }
  }

  /** Every line is its text without carriage returns at the end, and these. */
  lemma {:induction false} ReturnsSplit(s: string) returns (crs: string)
    ensures s == StripReturns(s) + crs && IsReturns(crs)
    ensures StripReturns(s) == [] || StripReturns(s)[|StripReturns(s)| - 1] != '\r'
  {
    if s != [] && s[|s| - 1] == '\r' {
      crs := ReturnsSplit(s[..|s| - 1]);
      crs := crs + ['\r'];
    } else {
      crs := [];
    }
  }

  lemma {:induction false} IndentSplit(s: string) returns (indent: string)
    ensures s == indent + StripIndent(s) && IsBlankWord(indent)
  {
    var j := SkipTabs(s, 0);
    indent := s[..j];
    SkippedAreBlank(s, 0);
  }

  lemma {:induction false} SkippedAreBlank(s: string, i: nat)
    requires i <= |s|
    ensures forall k :: i <= k < SkipTabs(s, i) ==> s[k] == ' ' || s[k] == '\t'
    decreases |s| - i
  {
    if i < |s| && (s[i] == ' ' || s[i] == '\t') { SkippedAreBlank(s, i + 1); }
  }

  /** A line ends a heredoc exactly if this is what it says, for a delimiter that is tight. */
  lemma {:induction false} EndLineIff(line: string, delim: string)
    requires delim != [] && IsTight(delim)
    ensures StripIndent(StripReturns(line)) == delim <==> IsEndLine(line, delim)
  {
    hide StripReturns, SkipTabs;
    if StripIndent(StripReturns(line)) == delim {
      var crs := ReturnsSplit(line);
      var indent := IndentSplit(StripReturns(line));
      assert line == indent + delim + crs;
    }
    if IsEndLine(line, delim) {
      var indent: string, crs: string :|
        line == indent + delim + crs && IsBlankWord(indent) && IsReturns(crs);
      var s := indent + delim;
      assert s[|s| - 1] == delim[|delim| - 1];
      StripsReturns(s, crs);
      assert s[0..|indent|] == indent && s[|indent|] == delim[0] && s[|indent|..] == delim;
      SkipsBlanks(s, 0, indent);
      NoBlankHere(s, |indent|);
    }
  }

  lemma {:induction false} LineEnded(command: string, start: nat, line: string)
    requires start + |line| + 1 <= |command| && command[start..start + |line| + 1] == Ended(line)
    ensures command[start + |line|] == '\n' && command[start..start + |line|] == line
  {
    var s := command[start..start + |line| + 1];
    assert s[|line|] == '\n' && s[..|line|] == line;
  }

  lemma {:induction false} LineIsAt(command: string, start: nat, line: string, rest: string)
    requires start <= |command| && command[start..] == Ended(line) + rest && '\n' !in line
    ensures IndexFrom(command, start, '\n') == start + |line| && LineAt(command, start) == StripReturns(line)
    ensures start + |line| + 1 <= |command| && command[start + |line| + 1..] == rest
  {
    hide StripReturns, IndexFrom;
    StandBehind(command, start, Ended(line), rest);
    LineEnded(command, start, line);
    IndexIs(command, start, start + |line|, '\n');
  }

  lemma {:induction false} LinesCons(body: seq<string>, rest: string)
    requires body != []
    ensures Lines(body) + rest == Ended(body[0]) + (Lines(body[1..]) + rest)
    ensures |Lines(body)| == |body[0]| + 1 + |Lines(body[1..])|
  {
    hide Lines;
    assert Lines(body) == Ended(body[0]) + Lines(body[1..]) by { LinesUnfold(body); }
  }

  lemma {:induction false} LinesUnfold(body: seq<string>)
    requires body != []
    ensures Lines(body) == Ended(body[0]) + Lines(body[1..])
  {
  }

  lemma {:induction false} EndUnfold(command: string, start: nat, delim: string)
    requires start <= |command|
    ensures var next := IndexFrom(command, start, '\n') + 1;
      HeredocEnd(command, start, delim) ==
        if StripIndent(LineAt(command, start)) == delim then next else HeredocEnd(command, next, delim)
  {
  }

  lemma {:induction false} BodyRunsOn(command: string, start: nat, body: seq<string>, delim: string, rest: string)
    requires start <= |command| && command[start..] == Lines(body) + rest
    requires forall k :: 0 <= k < |body| ==> '\n' !in body[k] && StripIndent(StripReturns(body[k])) != delim
    ensures start + |Lines(body)| <= |command|
    ensures HeredocEnd(command, start, delim) == HeredocEnd(command, start + |Lines(body)|, delim)
    decreases |body|
  {
    hide IndexFrom, LineAt, StripIndent, StripReturns, HeredocEnd;
    if body == [] {
      assert Lines(body) == [];
    } else {
      var more := Lines(body[1..]) + rest;
      LinesCons(body, rest);
      hide Lines, Ended;
      LineIsAt(command, start, body[0], more);
      EndUnfold(command, start, delim);
      BodyRunsOn(command, start + |body[0]| + 1, body[1..], delim, rest);
    }
  }

  lemma {:induction false} EndsAt(command: string, start: nat, line: string, delim: string, rest: string)
    requires start <= |command| && command[start..] == Ended(line) + rest && '\n' !in line
    requires StripIndent(StripReturns(line)) == delim
    ensures HeredocEnd(command, start, delim) == start + |line| + 1
  {
    hide IndexFrom, LineAt, StripIndent, StripReturns;
    LineIsAt(command, start, line, rest);
  }

  /** A line that opens no heredoc is passed over. */
  lemma {:induction false} PlainLine(command: string, start: nat, line: string, rest: string)
    requires start <= |command| && command[start..] == Ended(line) + rest && '\n' !in line
    requires HeredocOpener(StripReturns(line), 0, false, false) == None
    ensures start + |line| + 1 <= |command|
    ensures RangesFrom(command, start) == RangesFrom(command, start + |line| + 1)
  {
    hide HeredocOpener, IndexFrom, LineAt, StripReturns, HeredocEnd;
    LineIsAt(command, start, line, rest);
    RangesUnfold(command, start);
  }

  lemma {:induction false} NoEndLines(body: seq<string>, delim: string)
    requires delim != [] && IsTight(delim)
    requires forall k :: 0 <= k < |body| ==> '\n' !in body[k] && !IsEndLine(body[k], delim)
    ensures forall k :: 0 <= k < |body| ==> '\n' !in body[k] && StripIndent(StripReturns(body[k])) != delim
  {
    hide StripReturns, StripIndent, IsEndLine, IsTight;
    forall k | 0 <= k < |body| ensures StripIndent(StripReturns(body[k])) != delim { EndLineIff(body[k], delim); }
  }

  lemma {:induction false} EndIs(command: string, first: nat, delim: string, body: seq<string>, end: string,
      rest: string)
    requires first <= |command| && command[first..] == Lines(body) + (Ended(end) + rest)
    requires delim != [] && IsTight(delim) && '\n' !in end && IsEndLine(end, delim)
    requires forall k :: 0 <= k < |body| ==> '\n' !in body[k] && !IsEndLine(body[k], delim)
    ensures HeredocEnd(command, first, delim) == first + |Lines(body)| + |end| + 1 <= |command|
  {
    hide IndexFrom, LineAt, StripReturns, StripIndent, HeredocEnd, Lines, IsEndLine, IsTight, Ended;
    NoEndLines(body, delim);
    BodyRunsOn(command, first, body, delim, Ended(end) + rest);
    StandBehind(command, first, Lines(body), Ended(end) + rest);
    EndLineIff(end, delim);
    EndsAt(command, first + |Lines(body)|, end, delim, rest);
    LineIsAt(command, first + |Lines(body)|, end, rest);
  }

  /** A heredoc reaches from the beginning of the line that opens it to behind the first line that says nothing but its
      delimiter; the search goes on behind it. */
  lemma {:induction false} HeredocIs(command: string, start: nat, opener: string, delim: string, body: seq<string>,
      end: string, rest: string)
    requires start <= |command| && command[start..] == Ended(opener) + (Lines(body) + (Ended(end) + rest))
    requires '\n' !in opener && HeredocOpener(StripReturns(opener), 0, false, false) == Some(delim)
    requires delim != [] && IsTight(delim) && '\n' !in end && IsEndLine(end, delim)
    requires forall k :: 0 <= k < |body| ==> '\n' !in body[k] && !IsEndLine(body[k], delim)
    ensures var stop := start + |opener| + 1 + |Lines(body)| + |end| + 1;
      stop <= |command| && RangesFrom(command, start) == [Range(start, stop)] + RangesFrom(command, stop)
  {
    hide HeredocOpener, IndexFrom, LineAt, StripReturns, StripIndent, HeredocEnd, Lines, IsEndLine, IsTight;
    hide RangesFrom, Ended, Sorted;
    LineIsAt(command, start, opener, Lines(body) + (Ended(end) + rest));
    EndIs(command, start + |opener| + 1, delim, body, end, rest);
    RangesUnfold(command, start);
  }

  /** A heredoc that is not ended takes all the rest. */
  lemma {:induction false} UnendedHeredocIs(command: string, start: nat, opener: string, delim: string,
      body: seq<string>, last: string)
    requires start <= |command| && command[start..] == Ended(opener) + (Lines(body) + last)
    requires '\n' !in opener && HeredocOpener(StripReturns(opener), 0, false, false) == Some(delim)
    requires delim != [] && IsTight(delim) && '\n' !in last && !IsEndLine(last, delim)
    requires forall k :: 0 <= k < |body| ==> '\n' !in body[k] && !IsEndLine(body[k], delim)
    ensures RangesFrom(command, start) == [Range(start, |command| + 1)]
  {
    hide HeredocOpener, IndexFrom, LineAt, StripReturns, StripIndent, HeredocEnd, Lines, IsEndLine, IsTight;
    hide RangesFrom, Ended, Sorted;
    LineIsAt(command, start, opener, Lines(body) + last);
    UnendedIs(command, start + |opener| + 1, delim, body, last);
    RangesUnfold(command, start);
    RangesFromEnd(command);
  }

  lemma {:induction false} UnendedIs(command: string, first: nat, delim: string, body: seq<string>, last: string)
    requires first <= |command| && command[first..] == Lines(body) + last
    requires delim != [] && IsTight(delim) && '\n' !in last && !IsEndLine(last, delim)
    requires forall k :: 0 <= k < |body| ==> '\n' !in body[k] && !IsEndLine(body[k], delim)
    ensures HeredocEnd(command, first, delim) == |command| + 1
  {
    hide IndexFrom, LineAt, StripReturns, StripIndent, HeredocEnd, Lines, IsEndLine, IsTight;
    NoEndLines(body, delim);
    BodyRunsOn(command, first, body, delim, last);
    StandBehind(command, first, Lines(body), last);
    EndLineIff(last, delim);
    LastLine(command, first + |Lines(body)|, last, delim);
  }

  lemma {:induction false} LastLine(command: string, at: nat, last: string, delim: string)
    requires at <= |command| && command[at..] == last && '\n' !in last && StripIndent(StripReturns(last)) != delim
    ensures HeredocEnd(command, at, delim) == |command| + 1
  {
    hide StripReturns, StripIndent, IndexFrom, HeredocEnd;
    NoNewline(command, at, last);
    assert command[at..|command|] == last;
    EndUnfold(command, at, delim);
    NothingBehind(command, delim);
  }

  lemma {:induction false} NothingBehind(command: string, delim: string)
    ensures HeredocEnd(command, |command| + 1, delim) == |command| + 1
  {
  }

  lemma {:induction false} NoNewline(command: string, at: nat, last: string)
    requires at <= |command| && command[at..] == last && '\n' !in last
    ensures IndexFrom(command, at, '\n') == |command|
    decreases |last|
  {
    if at < |command| {
      assert command[at] == last[0] && command[at + 1..] == last[1..];
      NoNewline(command, at + 1, last[1..]);
    }
  }
}
