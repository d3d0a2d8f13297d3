/** How a command line is read, without the splitter: as quoted texts, escaped bytes, parentheses and bare bytes. The
    splitter is proved to follow this reading (pkg/permission/shell.go:196-292). */
module ShellLexemes {
  import opened Text
  import opened Shells
  import opened ShellLaws

  datatype Lexeme =
    | Bare(c: char) | Quoted(quote: char, body: string) | Escaped(c: char)
    | Open | OpenDollar | Close

  function Spelled(l: Lexeme): (s: string)
    ensures s != []
  {
    match l
    case Bare(c) => [c]
    case Quoted(quote, body) => [quote] + body + [quote]
    case Escaped(c) => ['\\', c]
    case Open => "("
    case OpenDollar => "$("
    case Close => ")"
  }

  function Written(ls: seq<Lexeme>): string {
    if ls == [] then [] else Spelled(ls[0]) + Written(ls[1..])
  }

  predicate Begins(s: string, c: char) { s != [] && s[0] == c }

  /** A byte that stands for itself, at this depth of parentheses and in front of `rest`: no quote, backslash or opening
      parenthesis; a closing one only where none is open; and no dollar sign in front of an opening one. */
  predicate StandsBare(c: char, depth: nat, rest: string) {
    && c != '\'' && c != '"' && c != '\\' && c != '('
    && (c == ')' ==> depth == 0)
    && (c == '$' ==> !Begins(rest, '('))
  }

  /** A separator begins here. */
  predicate Separates(c: char, rest: string) {
    c == ';' || c == '\n' || c == '|' || (c == '&' && Begins(rest, '&'))
  }

  /** The lexemes are a reading of what they spell, in front of `tail`, with so many parentheses open: quotes end at the
      first quote of their kind, and all parentheses are closed at the end. */
  predicate Reads(ls: seq<Lexeme>, depth: nat, tail: string) {
    if ls == [] then depth == 0
    else
      match ls[0]
      case Bare(c) => StandsBare(c, depth, Written(ls[1..]) + tail) && Reads(ls[1..], depth, tail)
      case Quoted(quote, body) => quote in {'\'', '"'} && quote !in body && Reads(ls[1..], depth, tail)
      case Escaped(c) => Reads(ls[1..], depth, tail)
      case Open => Reads(ls[1..], depth + 1, tail)
      case OpenDollar => Reads(ls[1..], depth + 1, tail)
      case Close => depth > 0 && Reads(ls[1..], depth - 1, tail)
  }

  /** None of them separates: bare separators stand in parentheses only. No byte 0 is escaped. */
  predicate IsOneCommand(ls: seq<Lexeme>, depth: nat, tail: string) {
    if ls == [] then true
    else
      match ls[0]
      case Bare(c) => (depth == 0 ==> !Separates(c, Written(ls[1..]) + tail)) && IsOneCommand(ls[1..], depth, tail)
      case Quoted(_, _) => IsOneCommand(ls[1..], depth, tail)
      case Escaped(c) => c != NUL && IsOneCommand(ls[1..], depth, tail)
      case Open => IsOneCommand(ls[1..], depth + 1, tail)
      case OpenDollar => IsOneCommand(ls[1..], depth + 1, tail)
      case Close => depth > 0 && IsOneCommand(ls[1..], depth - 1, tail)
  }

  /** The splitter's state with so many parentheses open, outside quotes. */
  predicate AtDepth(st: State, depth: nat) {
    !st.inSingle && !st.inDouble && st.paren + st.dollarParen == depth
  }

  lemma {:induction false} EmptyAround(s: string)
    ensures [] + s == s && s + [] == s
  {
  }

  // ---------------------------------------------------------------- one lexeme

  /** The state in the quotes. */
  function Inside(st: State, quote: char): State {
    if quote == '\'' then st.(inSingle := true) else st.(inDouble := true)
  }

  /** Inside quotes everything is copied, up to the quote that ends them. */
  lemma {:induction false} QuotedCopied(st: State, quote: char, body: string, rest: string, current: string)
    requires !st.inSingle && !st.inDouble && quote in {'\'', '"'} && quote !in body
    ensures Plain(Inside(st, quote), body + [quote] + rest, current) == Plain(st, rest, current + body + [quote])
    decreases |body|
  {
    hide Plain;
    var s := body + [quote] + rest;
    PlainStep(Inside(st, quote), s, current);
    if body == [] {
      assert After(s, 1) == rest && current + body + [quote] == current + [quote];
    } else {
      assert After(s, 1) == body[1..] + [quote] + rest;
      QuotedCopied(st, quote, body[1..], rest, current + [body[0]]);
      assert current + [body[0]] + body[1..] + [quote] == current + body + [quote];
    }
  }

  /** How the depth changes. */
  function DepthAfter(l: Lexeme, depth: nat): int {
    match l
    case Open => depth + 1
    case OpenDollar => depth + 1
    case Close => depth - 1
    case _ => depth
  }

  /** A lexeme in front of `rest` that is read as it should and separates nothing. */
  predicate ReadsOne(l: Lexeme, depth: nat, rest: string) {
    match l
    case Bare(c) => StandsBare(c, depth, rest) && (depth == 0 ==> !Separates(c, rest))
    case Quoted(quote, body) => quote in {'\'', '"'} && quote !in body
    case Escaped(c) => c != NUL
    case Open => true
    case OpenDollar => true
    case Close => depth > 0
  }

  /** The state behind the lexeme. */
  function StateAfter(l: Lexeme, st: State): State {
    match l
    case Open => st.(paren := st.paren + 1)
    case OpenDollar => st.(dollarParen := st.dollarParen + 1)
    case Close =>
      if st.paren > 0 then st.(paren := st.paren - 1)
      else if st.dollarParen > 0 then st.(dollarParen := st.dollarParen - 1)
      else st
    case _ => st
  }

  lemma {:induction false} StepCopies(st: State, s: string)
    requires s != [] && !st.inSingle && !st.inDouble
    requires s[0] != '\'' && s[0] != '"' && s[0] != '\\' && s[0] != '('
    requires s[0] == ')' ==> st.paren == 0 && st.dollarParen == 0
    requires s[0] == '$' ==> NextByte(s) != '('
    requires st.paren == 0 && st.dollarParen == 0 ==>
      s[0] != ';' && s[0] != '\n' && s[0] != '|' && (s[0] == '&' ==> NextByte(s) != '&')
    ensures Stepped(false, st, s) == Copied(st, s[0])
  {
    hide NextByte;
  }

  lemma {:induction false} StepOfBare(c: char, depth: nat, st: State, rest: string)
    requires AtDepth(st, depth) && StandsBare(c, depth, rest) && (depth == 0 ==> !Separates(c, rest))
    ensures Stepped(false, st, [c] + rest) == Move(st, 1, [c], false)
  {
    hide Stepped, NextByte, Begins;
    NextOfBare(c, rest);
    StepCopies(st, [c] + rest);
  }

  lemma {:induction false} NextOfBare(c: char, rest: string)
    ensures ([c] + rest)[0] == c
    ensures NextByte([c] + rest) == '&' ==> Begins(rest, '&')
    ensures NextByte([c] + rest) == '(' ==> Begins(rest, '(')
  {
  }

  lemma {:induction false} StepOfLexeme(l: Lexeme, depth: nat, st: State, rest: string)
    requires AtDepth(st, depth) && ReadsOne(l, depth, rest) && !l.Quoted?
    ensures Stepped(false, st, Spelled(l) + rest) == Move(StateAfter(l, st), |Spelled(l)|, Spelled(l), false)
  {
    var s := Spelled(l) + rest;
    assert s[0] == Spelled(l)[0];
    match l
    case Bare(c) => StepOfBare(c, depth, st, rest);
    case Escaped(c) => assert NextByte(s) == c;
    case Open =>
    case OpenDollar => assert NextByte(s) == '(';
    case Close =>
  }

  lemma {:induction false} DepthKept(l: Lexeme, depth: nat, st: State, rest: string)
    requires AtDepth(st, depth) && ReadsOne(l, depth, rest)
    ensures DepthAfter(l, depth) >= 0 && AtDepth(StateAfter(l, st), DepthAfter(l, depth))
  {
  }

  lemma {:induction false} AfterSpelled(spelled: string, rest: string)
    ensures After(spelled + rest, |spelled|) == rest
  {
  }

  lemma {:induction false} StepOfQuote(st: State, quote: char, rest: string)
    requires !st.inSingle && !st.inDouble && quote in {'\'', '"'}
    ensures Stepped(false, st, [quote] + rest) == Move(Inside(st, quote), 1, [quote], false)
  {
  }

  lemma {:induction false} LexemeCopied(l: Lexeme, depth: nat, st: State, rest: string, current: string)
    requires AtDepth(st, depth) && ReadsOne(l, depth, rest)
    ensures Plain(st, Spelled(l) + rest, current) == Plain(StateAfter(l, st), rest, current + Spelled(l))
  {
    hide Plain, Stepped, After, Spelled, StateAfter, Inside;
    if l.Quoted? {
      QuotedLexemeCopied(st, l.quote, l.body, rest, current);
      QuotedSpelled(l, st);
    } else {
      StepOfLexeme(l, depth, st, rest);
      PlainStep(st, Spelled(l) + rest, current);
      AfterSpelled(Spelled(l), rest);
    }
  }

  lemma {:induction false} QuotedSpelled(l: Lexeme, st: State)
    requires l.Quoted?
    ensures Spelled(l) == [l.quote] + l.body + [l.quote] && StateAfter(l, st) == st
  {
  }

  lemma {:induction false} QuotedLexemeCopied(st: State, quote: char, body: string, rest: string, current: string)
    requires !st.inSingle && !st.inDouble && quote in {'\'', '"'} && quote !in body
    ensures Plain(st, [quote] + body + [quote] + rest, current) == Plain(st, rest, current + ([quote] + body + [quote]))
  {
    hide Plain, Stepped, After, Inside;
    var more := body + [quote] + rest;
    assert [quote] + body + [quote] + rest == [quote] + more;
    StepOfQuote(st, quote, more);
    PlainStep(st, [quote] + more, current);
    AfterSpelled([quote], more);
    QuotedCopied(st, quote, body, rest, current + [quote]);
    assert current + [quote] + body + [quote] == current + ([quote] + body + [quote]);
  }

  lemma {:induction false} FirstLexeme(ls: seq<Lexeme>, depth: nat, tail: string)
    requires ls != [] && Reads(ls, depth, tail) && IsOneCommand(ls, depth, tail)
    ensures ReadsOne(ls[0], depth, Written(ls[1..]) + tail)
    ensures DepthAfter(ls[0], depth) >= 0
    ensures Reads(ls[1..], DepthAfter(ls[0], depth), tail) && IsOneCommand(ls[1..], DepthAfter(ls[0], depth), tail)
  {
    hide StandsBare, Separates;
  }

  /** What is read as one command is copied whole, and leaves the splitter neutral. */
  lemma {:induction false} CommandCopied(ls: seq<Lexeme>, depth: nat, st: State, tail: string, current: string)
    requires AtDepth(st, depth) && Reads(ls, depth, tail) && IsOneCommand(ls, depth, tail)
    ensures Plain(st, Written(ls) + tail, current) == Plain(NEUTRAL, tail, current + Written(ls))
    decreases |ls|
  {
    hide Plain, ReadsOne, Spelled, IsOneCommand, StateAfter, DepthAfter;
    if ls == [] {
      EmptyAround(tail);
      EmptyAround(current);
    } else {
      hide Reads, AtDepth;
      var l, more := ls[0], Written(ls[1..]);
      assert Written(ls) + tail == Spelled(l) + (more + tail);
      FirstLexeme(ls, depth, tail);
      LexemeCopied(l, depth, st, more + tail, current);
      DepthKept(l, depth, st, more + tail);
      CommandCopied(ls[1..], DepthAfter(l, depth), StateAfter(l, st), tail, current + Spelled(l));
      assert current + Spelled(l) + more == current + Written(ls);
    }
  }

  // ---------------------------------------------------------------- a line of commands

  /** A command and the separator behind it. */
  datatype Part = Part(command: seq<Lexeme>, separator: string)

  /** The parts and then a last command. */
  function Line(parts: seq<Part>, last: seq<Lexeme>): string {
    if parts == [] then Written(last)
    else Written(parts[0].command) + (parts[0].separator + Line(parts[1..], last))
  }

  /** Each command is read as one in front of what follows, and the separators do not run into it. */
  predicate IsLine(parts: seq<Part>, last: seq<Lexeme>) {
    if parts == [] then IsAlone(last, [])
    else (IsEnded(parts[0], Line(parts[1..], last)) && IsLine(parts[1..], last))
  }

  /** One command, in front of `tail`. */
  predicate IsAlone(command: seq<Lexeme>, tail: string) {
    Reads(command, 0, tail) && IsOneCommand(command, 0, tail)
  }

  /** A command with a separator that does not run into what follows. */
  predicate IsEnded(p: Part, rest: string) {
    && p.separator in {"&&", "||", ";", "|", "\n"}
    && (p.separator == "|" ==> !Begins(rest, '|'))
    && IsAlone(p.command, p.separator + rest)
  }

  /** The commands of a line: what is written between the separators, trimmed, unless it is blank. */
  function CommandsOf(parts: seq<Part>, last: seq<Lexeme>): seq<string> {
    if parts == [] then Trimmings(Written(last))
    else Trimmings(Written(parts[0].command)) + CommandsOf(parts[1..], last)
  }

  function Trimmings(text: string): seq<string> {
    if Blank(text) then [] else [Trim(text)]
  }

  lemma {:induction false} TrimmingsAre(text: string)
    ensures Command(text) == Trimmings(text)
  {
    TrimEmpty(text);
  }

  lemma {:induction false} OneCommandCopied(ls: seq<Lexeme>, tail: string)
    requires Reads(ls, 0, tail) && IsOneCommand(ls, 0, tail)
    ensures Plain(NEUTRAL, Written(ls) + tail, []) == Plain(NEUTRAL, tail, Written(ls))
  {
    hide Plain, Reads, IsOneCommand, Written;
    CommandCopied(ls, 0, NEUTRAL, tail, []);
    EmptyAround(Written(ls));
  }

  lemma {:induction false} LineCuts(parts: seq<Part>, last: seq<Lexeme>)
    requires IsLine(parts, last)
    ensures Commands(Plain(NEUTRAL, Line(parts, last), [])) == CommandsOf(parts, last)
    decreases |parts|
  {
    hide Plain, Reads, IsOneCommand, Commands, Trimmings, Command, Written, Begins;
    if parts == [] {
      OneCommandCopied(last, []);
      assert Written(last) + [] == Written(last);
      PlainEnd(NEUTRAL, Written(last));
      CommandsOfOne(Cut(Written(last), []));
      TrimmingsAre(Written(last));
    } else {
      var p, rest := parts[0], Line(parts[1..], last);
      OneCommandCopied(p.command, p.separator + rest);
      SeparatorEnds(p.separator, rest, Written(p.command));
      CommandsOfOneMore(Cut(Written(p.command), p.separator), Plain(NEUTRAL, rest, []));
      TrimmingsAre(Written(p.command));
      LineCuts(parts[1..], last);
    }
  }

  lemma {:induction false} SeparatorEnds(sep: string, rest: string, current: string)
    requires sep in {"&&", "||", ";", "|", "\n"} && (sep == "|" ==> !Begins(rest, '|'))
    ensures Plain(NEUTRAL, sep + rest, current) == [Cut(current, sep)] + Plain(NEUTRAL, rest, [])
  {
    hide Plain;
    SeparatorStep(sep, rest);
    PlainStep(NEUTRAL, sep + rest, current);
  }

  /** A line of commands, put together from quoted texts, escaped bytes, parentheses and bare bytes in any way, splits
      into exactly these commands: separators in quotes, behind a backslash or in parentheses separate nothing, all
      others do. */
  lemma {:induction false} SplitReadsCommands(parts: seq<Part>, last: seq<Lexeme>)
    requires IsLine(parts, last) && !HasDoubleLess(Line(parts, last))
    ensures Split(Line(parts, last)) == CommandsOf(parts, last)
  {
    hide Plain, Line, IsLine, HasDoubleLess, Split, CommandsOf;
    PlainSplit(Line(parts, last));
    LineCuts(parts, last);
  }

  /** A quoted text alone is one command, whatever separators it holds. */
  lemma {:induction false} QuotedIsOneCommand(quote: char, body: string)
    requires quote in {'\'', '"'} && quote !in body && !HasDoubleLess([quote] + body + [quote])
    ensures Split([quote] + body + [quote]) == [[quote] + body + [quote]]
  {
    hide HasDoubleLess, Split;
    var ls := [Quoted(quote, body)];
    var text := [quote] + body + [quote];
    assert ls[1..] == [] && Written(ls) == text + [] == text;
    assert Reads(ls[1..], 0, []) && IsOneCommand(ls[1..], 0, []);
    assert Reads(ls, 0, []) && IsOneCommand(ls, 0, []);
    SplitReadsCommands([], ls);
    TrimIdentity(text);
    assert !IsSpace(text[0]);
  }

  // ---------------------------------------------------------------- closed texts

  /** The text can be read to its end, with all quotes and parentheses closed and no backslash left over. */
  ghost predicate IsClosed(s: string) {
    exists ls :: Reads(ls, 0, []) && Written(ls) == s
  }

  lemma {:induction false} EndsInStep(st: State, s: string, m: Move, rest: string)
    requires s != [] && Stepped(false, st, s) == m && m.length <= |s| && s[m.length..] == rest
    ensures EndsIn(st, s, NEUTRAL) <==> EndsIn(m.state, rest, NEUTRAL)
  {
    hide Stepped;
  }

  lemma {:induction false} StepInside(st: State, quote: char, s: string)
    requires s != [] && !st.inSingle && !st.inDouble && quote in {'\'', '"'}
    ensures Stepped(false, Inside(st, quote), s) ==
      Copied(if s[0] == quote then st else Inside(st, quote), s[0])
  {
  }

  lemma {:induction false} QuotedEndsIn(st: State, quote: char, body: string, rest: string)
    requires !st.inSingle && !st.inDouble && quote in {'\'', '"'} && quote !in body
    requires EndsIn(st, rest, NEUTRAL)
    ensures EndsIn(Inside(st, quote), body + [quote] + rest, NEUTRAL)
    decreases |body|
  {
    hide Stepped, Inside, EndsIn;
    var s := body + [quote] + rest;
    StepInside(st, quote, s);
    if body == [] {
      assert s[1..] == rest;
      EndsInStep(Inside(st, quote), s, Copied(st, quote), rest);
    } else {
      assert s[1..] == body[1..] + [quote] + rest;
      QuotedEndsIn(st, quote, body[1..], rest);
      EndsInStep(Inside(st, quote), s, Copied(Inside(st, quote), s[0]), body[1..] + [quote] + rest);
    }
  }

  /** At depth 0 a separator moves on by its length and leaves the splitter neutral. */
  lemma {:induction false} StepSeparates(s: string)
    requires s != [] && Separates(s[0], s[1..])
    ensures var m := Stepped(false, NEUTRAL, s);
      && m.state == NEUTRAL
      && m.length <= |s|
      && m.length == if (s[0] == '&' || s[0] == '|') && Begins(s[1..], s[0]) then 2 else 1
  {
    assert NextByte(s) == if |s| > 1 then s[1] else NUL;
  }

  lemma {:induction false} NeutralAtZero(st: State)
    ensures AtDepth(st, 0) <==> st == NEUTRAL
  {
  }

  lemma {:induction false} WrittenCons(l: Lexeme, ls: seq<Lexeme>)
    ensures Written([l] + ls) == Spelled(l) + Written(ls)
  {
    assert ([l] + ls)[1..] == ls;
  }

  lemma {:induction false} ReadsStep(ls: seq<Lexeme>, depth: nat)
    requires ls != [] && Reads(ls, depth, [])
    ensures DepthAfter(ls[0], depth) >= 0 && Reads(ls[1..], DepthAfter(ls[0], depth), [])
    ensures Written(ls) == Spelled(ls[0]) + Written(ls[1..])
    ensures ls[0].Bare? ==> StandsBare(ls[0].c, depth, Written(ls[1..]))
    ensures ls[0].Quoted? ==> ls[0].quote in {'\'', '"'} && ls[0].quote !in ls[0].body
    ensures ls[0].Close? ==> depth > 0
  {
    assert Written(ls[1..]) + [] == Written(ls[1..]);
  }

  lemma {:induction false} BareAhead(ls: seq<Lexeme>, c: char, depth: nat)
    requires Reads(ls, depth, []) && Begins(Written(ls), c) && (c == '&' || c == '|')
    ensures ls != [] && ls[0] == Bare(c) && Reads(ls[1..], depth, []) && Written(ls)[1..] == Written(ls[1..])
  {
  }

  lemma {:induction false} SpelledEscape()
    ensures Spelled(Escaped(NUL)) == ['\\', NUL]
  {
  }

  lemma {:induction false} DepthIs(l: Lexeme, depth: nat)
    ensures l.Quoted? || l.Escaped? || l.Bare? ==> DepthAfter(l, depth) == depth
  {
  }

  lemma {:induction false} DepthOf(st: State, depth: nat)
    requires AtDepth(st, depth)
    ensures !st.inSingle && !st.inDouble
  {
  }

  lemma {:induction false} NoneOpen(st: State, depth: nat)
    requires AtDepth(st, depth)
    ensures depth == 0 <==> st.paren == 0 && st.dollarParen == 0
  {
  }

  lemma {:induction false} ReadsOneOf(l: Lexeme, depth: nat, rest: string)
    requires l.Bare? ==> StandsBare(l.c, depth, rest) && (depth == 0 ==> !Separates(l.c, rest))
    requires !l.Quoted? && l != Escaped(NUL) && (l.Close? ==> depth > 0)
    ensures ReadsOne(l, depth, rest)
  {
  }

  lemma {:induction false} StepOfEscape(depth: nat, st: State, rest: string)
    requires AtDepth(st, depth)
    ensures var m := Stepped(false, st, ['\\', NUL] + rest); m.state == st && m.length == 2
  {
  }

  lemma {:induction false} TailOf(a: string, b: string)
    ensures |a + b| == |a| + |b| && (a + b)[|a|..] == b
  {
  }

  lemma {:induction false} QuotedEndsNeutral(l: Lexeme, st: State, rest: string)
    requires l.Quoted? && l.quote in {'\'', '"'} && l.quote !in l.body && !st.inSingle && !st.inDouble
    requires EndsIn(st, rest, NEUTRAL)
    ensures EndsIn(st, Spelled(l) + rest, NEUTRAL)
  {
    hide Stepped, EndsIn, Inside;
    var more := l.body + [l.quote] + rest;
    assert Spelled(l) + rest == [l.quote] + more;
    QuotedEndsIn(st, l.quote, l.body, rest);
    StepOfQuote(st, l.quote, more);
    TailOf([l.quote], more);
    EndsInStep(st, [l.quote] + more, Move(Inside(st, l.quote), 1, [l.quote], false), more);
  }

  lemma {:induction false} EscapeEndsNeutral(depth: nat, st: State, rest: string)
    requires AtDepth(st, depth) && EndsIn(st, rest, NEUTRAL)
    ensures EndsIn(st, Spelled(Escaped(NUL)) + rest, NEUTRAL)
  {
    hide Stepped, EndsIn, AtDepth;
    SpelledEscape();
    StepOfEscape(depth, st, rest);
    var s := ['\\', NUL] + rest;
    TailOf(['\\', NUL], rest);
    EndsInStep(st, s, Stepped(false, st, s), rest);
  }

  lemma {:induction false} LexemeEndsNeutral(l: Lexeme, depth: nat, st: State, rest: string)
    requires AtDepth(st, depth) && ReadsOne(l, depth, rest) && !l.Quoted?
    requires EndsIn(StateAfter(l, st), rest, NEUTRAL)
    ensures EndsIn(st, Spelled(l) + rest, NEUTRAL)
  {
    hide Stepped, EndsIn, AtDepth, ReadsOne, StateAfter, Spelled;
    StepOfLexeme(l, depth, st, rest);
    TailOf(Spelled(l), rest);
    EndsInStep(st, Spelled(l) + rest, Move(StateAfter(l, st), |Spelled(l)|, Spelled(l), false), rest);
  }

  lemma {:induction false} NothingEndsNeutral(st: State, depth: nat)
    requires AtDepth(st, depth) && Reads([], depth, [])
    ensures EndsIn(st, Written([]), NEUTRAL)
  {
  }

  /** What can be read ends neutral. */
  lemma {:induction false} ReadEndsNeutral(ls: seq<Lexeme>, depth: nat, st: State)
    requires AtDepth(st, depth) && Reads(ls, depth, [])
    ensures EndsIn(st, Written(ls), NEUTRAL)
    decreases |ls|, 1
  {
    hide Stepped, EndsIn, Reads, Spelled, Written, StandsBare, AtDepth, StateAfter, Begins, DepthAfter, Separates;
    hide ReadsOne;
    if ls == [] {
      NothingEndsNeutral(st, depth);
    } else {
      NeutralAtZero(st);
      var l, rest := ls[0], Written(ls[1..]);
      ReadsStep(ls, depth);
      DepthIs(l, depth);
      if l.Quoted? {
        ReadEndsNeutral(ls[1..], depth, st);
        DepthOf(st, depth);
        QuotedEndsNeutral(l, st, rest);
      } else if l.Bare? && depth == 0 && Separates(l.c, rest) {
        SeparatorEndsNeutral(ls);
      } else if l == Escaped(NUL) {
        ReadEndsNeutral(ls[1..], depth, st);
        EscapeEndsNeutral(depth, st, rest);
      } else {
        ReadsOneOf(l, depth, rest);
        DepthKept(l, depth, st, rest);
        ReadEndsNeutral(ls[1..], DepthAfter(l, depth), StateAfter(l, st));
        LexemeEndsNeutral(l, depth, st, rest);
      }
    }
  }

  lemma {:induction false} BareWritten(ls: seq<Lexeme>)
    requires ls != [] && ls[0].Bare?
    ensures Written(ls) != [] && Written(ls)[0] == ls[0].c && Written(ls)[1..] == Written(ls[1..])
  {
  }

  lemma {:induction false} SeparatorEndsNeutral(ls: seq<Lexeme>)
    requires ls != [] && Reads(ls, 0, []) && ls[0].Bare? && Separates(ls[0].c, Written(ls[1..]))
    ensures EndsIn(NEUTRAL, Written(ls), NEUTRAL)
    decreases |ls|, 0
  {
    hide Stepped, EndsIn, Reads, Begins, Written, Separates, Spelled, StandsBare, AtDepth, DepthAfter;
    ReadsStep(ls, 0);
    NeutralAtZero(NEUTRAL);
    DepthIs(ls[0], 0);
    BareWritten(ls);
    var s := Written(ls);
    StepSeparates(s);
    var m := Stepped(false, NEUTRAL, s);
    if m.length == 2 {
      BareAhead(ls[1..], s[0], 0);
      TailOfTail(s);
      assert ls[1..][1..] == ls[2..];
      ReadEndsNeutral(ls[2..], 0, NEUTRAL);
      EndsInStep(NEUTRAL, s, m, s[2..]);
    } else {
      ReadEndsNeutral(ls[1..], 0, NEUTRAL);
      EndsInStep(NEUTRAL, s, m, s[1..]);
    }
  }

  lemma {:induction false} TailOfTail(s: string)
    requires |s| >= 2
    ensures s[1..][1..] == s[2..]
  {
  }

  lemma {:induction false} NotInsideNeutral(st: State, quote: char, s: string)
    requires EndsIn(Inside(st, quote), s, NEUTRAL)
    ensures s != []
    ensures Stepped(false, Inside(st, quote), s).length <= |s|
  {
  }

  lemma {:induction false} QuoteFound(st: State, quote: char, s: string) returns (body: string, rest: string)
    requires !st.inSingle && !st.inDouble && quote in {'\'', '"'} && EndsIn(Inside(st, quote), s, NEUTRAL)
    ensures s == body + [quote] + rest && quote !in body && EndsIn(st, rest, NEUTRAL)
    decreases |s|
  {
    hide Stepped, EndsIn, Inside;
    NotInsideNeutral(st, quote, s);
    StepInside(st, quote, s);
    var m := Stepped(false, Inside(st, quote), s);
    EndsInStep(Inside(st, quote), s, m, s[1..]);
    if s[0] == quote {
      body, rest := [], s[1..];
    } else {
      body, rest := QuoteFound(st, quote, s[1..]);
      body := [s[0]] + body;
    }
  }

  /** The lexeme that stands for a byte outside quotes. */
  function LexemeAt(depth: nat, s: string): Lexeme
    requires s != []
  {
    if s[0] == '\\' then Escaped(NextByte(s))
    else if s[0] == '$' && NextByte(s) == '(' then OpenDollar
    else if s[0] == '(' then Open
    else if s[0] == ')' && depth > 0 then Close
    else Bare(s[0])
  }

  lemma {:induction false} StepAt(st: State, depth: nat, s: string)
    requires s != [] && AtDepth(st, depth) && s[0] != '\'' && s[0] != '"'
    requires !(depth == 0 && LexemeAt(depth, s).Bare? && Separates(s[0], s[1..]))
    ensures var m, l := Stepped(false, st, s), LexemeAt(depth, s);
      m.state == StateAfter(l, st) && m.length == |Spelled(l)| && (m.length <= |s| ==> s[..m.length] == Spelled(l))
  {
    hide Stepped, NextByte, AtDepth, StateAfter;
    DepthOf(st, depth);
    match LexemeAt(depth, s)
    case Escaped(c) =>
      StepSpecial(st, s);
      if |s| > 1 { NextIsSecond(s); }
    case OpenDollar =>
      StepSpecial(st, s);
      NextIsSecond(s);
    case Open => StepSpecial(st, s);
    case Close => StepSpecial(st, s);
    case Bare(c) =>
      NoneOpen(st, depth);
      if depth == 0 { SingleSeparates(s); }
      StepCopies(st, s);
      assert StateAfter(Bare(c), st) == st by { BareKeepsState(c, st); }
    case Quoted(_, _) =>
  }

  lemma {:induction false} BareKeepsState(c: char, st: State)
    ensures StateAfter(Bare(c), st) == st
  {
  }

  lemma {:induction false} NextIsSecond(s: string)
    requires s != [] && (|s| > 1 || NextByte(s) == '(')
    ensures |s| > 1 && s[..2] == [s[0], NextByte(s)]
  {
  }

  lemma {:induction false} SingleSeparates(s: string)
    requires s != [] && !Separates(s[0], s[1..])
    ensures s[0] != ';' && s[0] != '\n' && s[0] != '|' && (s[0] == '&' ==> NextByte(s) != '&')
  {
  }

  lemma {:induction false} StepSpecial(st: State, s: string)
    requires s != [] && !st.inSingle && !st.inDouble
    ensures var m := Stepped(false, st, s);
      && (s[0] == '\\' ==> m.state == st && m.length == 2)
      && (s[0] == '$' && NextByte(s) == '(' ==> m.state == StateAfter(OpenDollar, st) && m.length == 2)
      && (s[0] == '(' ==> m.state == StateAfter(Open, st) && m.length == 1)
      && (s[0] == ')' ==> m.state == StateAfter(Close, st) && m.length == 1)
      && StateAfter(Escaped(NextByte(s)), st) == st
  {
    hide NextByte;
  }

  lemma {:induction false} LexemeAtReads(depth: nat, s: string, rest: string)
    requires s != [] && s[0] != '\'' && s[0] != '"'
    requires |Spelled(LexemeAt(depth, s))| <= |s| && rest == s[|Spelled(LexemeAt(depth, s))|..]
    ensures var l := LexemeAt(depth, s);
      (l.Bare? ==> StandsBare(l.c, depth, rest)) && (l.Close? ==> depth > 0) && !l.Quoted?
  {
  }

  lemma {:induction false} ReadsCons(l: Lexeme, ls: seq<Lexeme>, depth: nat)
    requires DepthAfter(l, depth) >= 0 && Reads(ls, DepthAfter(l, depth), [])
    requires l.Bare? ==> StandsBare(l.c, depth, Written(ls))
    requires l.Quoted? ==> l.quote in {'\'', '"'} && l.quote !in l.body
    requires l.Close? ==> depth > 0
    ensures Reads([l] + ls, depth, []) && Written([l] + ls) == Spelled(l) + Written(ls)
  {
    hide StandsBare;
    assert ([l] + ls)[1..] == ls && Written(ls) + [] == Written(ls);
  }

  lemma {:induction false} DepthAt(l: Lexeme, depth: nat, st: State)
    requires AtDepth(st, depth) && (l.Close? ==> depth > 0)
    ensures DepthAfter(l, depth) >= 0 && AtDepth(StateAfter(l, st), DepthAfter(l, depth))
  {
  }

  lemma {:induction false} NothingIsRead(st: State, depth: nat)
    requires AtDepth(st, depth) && EndsIn(st, [], NEUTRAL)
    ensures Reads([], depth, []) && Written([]) == []
  {
  }

  /** What ends neutral can be read. */
  lemma {:induction false} NeutralIsRead(st: State, depth: nat, s: string) returns (ls: seq<Lexeme>)
    requires AtDepth(st, depth) && EndsIn(st, s, NEUTRAL)
    ensures Reads(ls, depth, []) && Written(ls) == s
    decreases |s|, 1
  {
    if s == [] {
      NothingIsRead(st, depth);
      ls := [];
    } else {
      hide Stepped, EndsIn, Reads, Spelled, Written, StandsBare, AtDepth, StateAfter, DepthAfter, Separates, LexemeAt;
      hide Inside, NextByte, Begins;
      var c := s[0];
      DepthOf(st, depth);
      if c == '\'' || c == '"' {
        ls := QuoteIsRead(st, depth, s);
      } else if depth == 0 && LexemeAt(depth, s).Bare? && Separates(c, s[1..]) {
        ls := SeparatorIsRead(st, s);
      } else {
        var l := LexemeAt(depth, s);
        StepAt(st, depth, s);
        var rest := EndsInRest(st, s, |Spelled(l)|);
        LexemeAtReads(depth, s, rest);
        DepthAt(l, depth, st);
        ls := NeutralIsRead(StateAfter(l, st), DepthAfter(l, depth), rest);
        ReadsCons(l, ls, depth);
        ls := [l] + ls;
      }
    }
  }

  lemma {:induction false} EndsInRest(st: State, s: string, n: nat) returns (rest: string)
    requires s != [] && EndsIn(st, s, NEUTRAL) && Stepped(false, st, s).length == n
    ensures 0 < n <= |s| && rest == s[n..] && s == s[..n] + rest && EndsIn(Stepped(false, st, s).state, rest, NEUTRAL)
  {
    hide Stepped;
    rest := s[n..];
  }

  lemma {:induction false} QuoteIsRead(st: State, depth: nat, s: string) returns (ls: seq<Lexeme>)
    requires s != [] && (s[0] == '\'' || s[0] == '"')
    requires AtDepth(st, depth) && EndsIn(st, s, NEUTRAL)
    ensures Reads(ls, depth, []) && Written(ls) == s
    decreases |s|, 0
  {
    hide Stepped, EndsIn, Reads, Written, AtDepth, Inside;
    DepthOf(st, depth);
    var q := s[0];
    assert s == [q] + s[1..];
    StepOfQuote(st, q, s[1..]);
    var more := EndsInRest(st, s, 1);
    var body, rest := QuoteFound(st, q, more);
    assert s == ([q] + body + [q]) + rest;
    ls := NeutralIsRead(st, depth, rest);
    ReadsCons(Quoted(q, body), ls, depth);
    ls := [Quoted(q, body)] + ls;
  }

  lemma {:induction false} SeparatorIsRead(st: State, s: string) returns (ls: seq<Lexeme>)
    requires s != [] && AtDepth(st, 0) && Separates(s[0], s[1..]) && EndsIn(st, s, NEUTRAL)
    ensures Reads(ls, 0, []) && Written(ls) == s
    decreases |s|, 0
  {
    hide Stepped, EndsIn, Reads, Written, AtDepth, Begins, Spelled, StandsBare, DepthAfter;
    NeutralAtZero(st);
    StepSeparates(s);
    var m := Stepped(false, st, s);
    var c := s[0];
    var rest := EndsInRest(st, s, m.length);
    ls := NeutralIsRead(NEUTRAL, 0, rest);
    SeparatorStands(c, Written(ls));
    ReadsCons(Bare(c), ls, 0) by { DepthIs(Bare(c), 0); }
    ls := [Bare(c)] + ls;
    if m.length == 2 {
      SeparatorStands(c, Written(ls));
      ReadsCons(Bare(c), ls, 0) by { DepthIs(Bare(c), 0); }
      TwoBytes(s);
      assert [c] + ([c] + rest) == [c, c] + rest;
      ls := [Bare(c)] + ls;
    } else {
      assert s[..1] == [c];
    }
  }

  lemma {:induction false} TwoBytes(s: string)
    requires |s| >= 2
    ensures s[..2] == [s[0], s[1]] && (Begins(s[1..], s[0]) ==> s[1] == s[0])
  {
  }

  lemma {:induction false} SeparatorStands(c: char, rest: string)
    requires c == ';' || c == '\n' || c == '|' || c == '&'
    ensures StandsBare(c, 0, rest) && Spelled(Bare(c)) == [c]
  {
  }

  /** A text ends neutral exactly if it can be read to its end. */
  lemma {:induction false} EndsNeutralIff(s: string)
    ensures EndsNeutral(s) <==> IsClosed(s)
  {
    hide EndsIn, Reads, Written, AtDepth;
    NeutralAtZero(NEUTRAL);
    if EndsNeutral(s) {
      var ls := NeutralIsRead(NEUTRAL, 0, s);
    }
    if ls :| Reads(ls, 0, []) && Written(ls) == s {
      ReadEndsNeutral(ls, 0, NEUTRAL);
    }
  }

  /** Two command lines joined by a separator other than the newline split like the two of them exactly if the first can
      be read to its end: no quote, parenthesis or backslash of it is left open. */
  lemma {:induction false} JoinedSplitsIff(a: string, sep: string, b: string)
    requires !HasDoubleLess(a) && !HasDoubleLess(b) && Apart(a, sep, b) && sep != "\n"
    ensures Split(a + (sep + b)) == Split(a) + Split(b) <==> IsClosed(a)
  {
    hide Split, HasDoubleLess, IsClosed, EndsNeutral, Apart;
    EndsNeutralIff(a);
    SplitDistributesIff(a, sep, b);
  }
}
