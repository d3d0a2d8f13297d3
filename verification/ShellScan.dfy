/** The patterns that a command line asks permission for (pkg/permission/shell.go:8-28, 294-396). */
module ShellScans {
  import opened Text
  import opened Shells
  import opened ShellLaws
  import ShellLexemes

  // ---------------------------------------------------------------- tokens

  /** One step of the tokenizer; `separator` marks a blank between tokens. */
  function TokenStep(st: State, s: string): (m: Move)
    requires s != []
    ensures 1 <= m.length <= 2
    ensures if m.separator then m.text == [] && (s[0] == ' ' || s[0] == '\t') else m.text != []
  {
    TokenStepOn(st, s[0], NextByte(s))
  }

  function TokenStepOn(st: State, c: char, next: char): (m: Move)
    ensures 1 <= m.length <= 2
    ensures if m.separator then m.text == [] && (c == ' ' || c == '\t') else m.text != []
  {
    if st.inSingle then Copied(st.(inSingle := c != '\''), c)
    else if st.inDouble then Copied(st.(inDouble := c != '"'), c)
    else if c == '\'' then Copied(st.(inSingle := true), c)
    else if c == '"' then Copied(st.(inDouble := true), c)
    else if c == '$' && next == '(' then Move(st.(dollarParen := st.dollarParen + 1), 2, "$(", false)
    else if c == '\\' then Move(st, 2, if next == NUL then [c] else [c, next], false)
    else if c == ')' && st.dollarParen > 0 then Copied(st.(dollarParen := st.dollarParen - 1), c)
    else if (c == ' ' || c == '\t') && st.dollarParen == 0 then Move(st, 1, [], true)
    else Copied(st, c)
  }

  function Token(current: string): seq<string> {
    if current == [] then [] else [current]
  }

  function TokensFrom(st: State, s: string, current: string): seq<string>
    decreases |s|
  {
    if s == [] then Token(current)
    else
      var m := TokenStep(st, s);
      if m.separator then Token(current) + TokensFrom(m.state, After(s, m.length), [])
      else TokensFrom(m.state, After(s, m.length), current + m.text)
  }

  function Tokens(source: string): seq<string> {
    TokensFrom(NEUTRAL, source, [])
  }

  method Tokenize(source: string) returns (tokens: seq<string>)
    ensures tokens == Tokens(source)
  {
    hide TokenStep, After, NextByte, Underway;
    tokens := [];
    var current: string := [];
    var inSingle, inDouble := false, false;
    var dollarParen: nat := 0;
    var i := 0;
    TokensStart(source);
    while i < |source|
      invariant Underway(source, tokens, State(inSingle, inDouble, 0, dollarParen), i, current)
      decreases |source| - i
    {
      var ch := source[i];
      var next := NUL;
      if i + 1 < |source| { next := source[i + 1]; }
      ghost var m := TokenStepOn(State(inSingle, inDouble, 0, dollarParen), ch, next);
      TokensAdvance(source, tokens, State(inSingle, inDouble, 0, dollarParen), i, current);
      ghost var i0, current0, tokens0 := i, current, tokens;
      if inSingle {
        current := current + [ch];
        if ch == '\'' { inSingle := false; }
        i := i + 1;
      } else if inDouble {
        current := current + [ch];
        if ch == '"' { inDouble := false; }
        i := i + 1;
      } else if ch == '\'' {
        inSingle := true;
        current := current + [ch];
        i := i + 1;
      } else if ch == '"' {
        inDouble := true;
        current := current + [ch];
        i := i + 1;
      } else if ch == '$' && next == '(' {
        dollarParen := dollarParen + 1;
        current := current + "$(";
        i := i + 2;
      } else if ch == '\\' {
        var text := [ch];
        if next != NUL { text := text + [next]; }
        current := current + text;
        i := i + 2;
      } else if ch == ')' && dollarParen > 0 {
        dollarParen := dollarParen - 1;
        current := current + [ch];
        i := i + 1;
      } else if (ch == ' ' || ch == '\t') && dollarParen == 0 {
        if |current| > 0 { tokens := tokens + [current]; }
        current := [];
        i := i + 1;
      } else {
        current := current + [ch];
        i := i + 1;
      }
      assert m.state == State(inSingle, inDouble, 0, dollarParen) && i == i0 + m.length;
      if m.separator {
        assert tokens == tokens0 + Token(current0) && current == [];
      } else {
        assert tokens == tokens0 && current == current0 + m.text;
      }
    }
    TokensFinish(source, tokens, State(inSingle, inDouble, 0, dollarParen), i, current);
    if |current| > 0 { tokens := tokens + [current]; }
  }

  /** What the loop of the tokenizer keeps: the tokens so far and those still to come. */
  ghost predicate Underway(source: string, tokens: seq<string>, st: State, i: nat, current: string) {
    Tokens(source) == tokens + TokensFrom(st, After(source, i), current)
  }

  lemma {:induction false} TokensStart(source: string)
    ensures Underway(source, [], NEUTRAL, 0, [])
  {
    hide TokensFrom;
    WholeAfter(source);
  }

  lemma {:induction false} TokensAdvance(source: string, tokens: seq<string>, st: State, i: nat, current: string)
    requires i < |source| && Underway(source, tokens, st, i, current)
    ensures var m := TokenStepOn(st, source[i], if i + 1 < |source| then source[i + 1] else NUL);
      if m.separator then Underway(source, tokens + Token(current), m.state, i + m.length, [])
      else Underway(source, tokens, m.state, i + m.length, current + m.text)
  {
    hide TokensFrom, TokenStepOn, Token, After;
    var m := TokenStepOn(st, source[i], if i + 1 < |source| then source[i + 1] else NUL);
    TokensStep(st, source, i, current);
    Reassociated(tokens, Token(current), TokensFrom(m.state, After(source, i + m.length), []));
  }

  lemma {:induction false} TokensFinish(source: string, tokens: seq<string>, st: State, i: nat, current: string)
    requires i >= |source| && Underway(source, tokens, st, i, current)
    ensures Tokens(source) == tokens + Token(current)
  {
    NothingAfter(source, i);
    LastToken(st, current);
  }

  lemma {:induction false} Reassociated(a: seq<string>, b: seq<string>, c: seq<string>)
    ensures a + b + c == a + (b + c)
  {
  }

  lemma {:induction false} LastToken(st: State, current: string)
    ensures TokensFrom(st, [], current) == Token(current)
  {
  }

  lemma {:induction false} TokensUnfold(st: State, s: string, current: string)
    requires s != []
    ensures var m := TokenStep(st, s);
      TokensFrom(st, s, current) ==
      if m.separator then Token(current) + TokensFrom(m.state, After(s, m.length), [])
      else TokensFrom(m.state, After(s, m.length), current + m.text)
  {
    hide TokenStep, Token, After;
  }

  lemma {:induction false} TokensStep(st: State, source: string, i: nat, current: string)
    requires i < |source|
    ensures var m := TokenStepOn(st, source[i], if i + 1 < |source| then source[i + 1] else NUL);
      var rest := After(source, i + m.length);
      TokensFrom(st, After(source, i), current) ==
      if m.separator then Token(current) + TokensFrom(m.state, rest, [])
      else TokensFrom(m.state, rest, current + m.text)
  {
    hide TokenStepOn, Token, TokensFrom, After, NextByte;
    var s := After(source, i);
    LooksAt(source, i);
    TokensUnfold(st, s, current);
    AfterAfter(source, i, TokenStep(st, s).length);
  }

  lemma {:induction false} LooksAt(s: string, i: nat)
    requires i < |s|
    ensures var rest := After(s, i);
      rest != [] && rest[0] == s[i] && NextByte(rest) == if i + 1 < |s| then s[i + 1] else NUL
  {
  }

  lemma {:induction false} AfterAfter(s: string, i: nat, n: nat)
    ensures After(After(s, i), n) == After(s, i + n)
  {
  }

  lemma {:induction false} StartedTokenStays(st: State, s: string, current: string)
    requires current != []
    ensures TokensFrom(st, s, current) != []
    decreases |s|
  {
    hide TokenStep;
    if s != [] {
      var m := TokenStep(st, s);
      if !m.separator { StartedTokenStays(m.state, After(s, m.length), current + m.text); }
    }
  }

  /** A command found by splitting always has a first token. */
  lemma {:induction false} CommandsHaveTokens(command: string, source: string)
    requires source in Split(command)
    ensures Tokens(source) != []
  {
    hide Split, Trim, TokenStepOn, TokensFrom, After, Commands, Pieces;
    ShowSplit(command);
    var j := CommandsArePieces(Pieces(command), source);
    var m := TokenStep(NEUTRAL, source);
    assert !m.separator;
    TokensUnfold(NEUTRAL, source, []);
    assert [] + m.text == m.text;
    StartedTokenStays(m.state, After(source, m.length), m.text);
  }

  lemma {:induction false} ShowSplit(command: string)
    ensures Split(command) == Commands(Pieces(command))
  {
  }

  // ---------------------------------------------------------------- words come back

  /** Read from `st`, the text holds no blank outside quotes and `$(`, loses nothing, and ends outside them. */
  predicate IsWordFrom(st: State, s: string)
    decreases |s|
  {
    if s == [] then st == NEUTRAL
    else
      var m := TokenStep(st, s);
      !m.separator && m.length <= |s| && m.text == s[..m.length] && IsWordFrom(m.state, s[m.length..])
  }

  predicate IsGap(s: string) {
    forall i :: 0 <= i < |s| ==> s[i] == ' ' || s[i] == '\t'
  }

  /** A word and the blanks behind it. */
  datatype Word = Word(text: string, gap: string)

  function Spaced(words: seq<Word>): string {
    if words == [] then [] else words[0].text + (words[0].gap + Spaced(words[1..]))
  }

  function Texts(words: seq<Word>): seq<string> {
    if words == [] then [] else [words[0].text] + Texts(words[1..])
  }

  /** Words apart from each other by blanks; behind the last there need not be any. */
  predicate IsLine(words: seq<Word>) {
    && (forall k :: 0 <= k < |words| ==>
      words[k].text != [] && IsWordFrom(NEUTRAL, words[k].text) && IsGap(words[k].gap))
    && (forall k :: 0 <= k < |words| - 1 ==> words[k].gap != [])
  }

  lemma {:induction false} WordStep(st: State, s: string, tail: string)
    requires s != [] && TokenStep(st, s).length <= |s|
    requires tail == [] || tail[0] == ' ' || tail[0] == '\t'
    ensures TokenStep(st, s + tail) == TokenStep(st, s)
  {
  }

  /** A word in front of a blank, or of the end, is added to the current token as it stands. */
  lemma {:induction false} WordRead(st: State, s: string, tail: string, current: string)
    requires IsWordFrom(st, s) && (tail == [] || tail[0] == ' ' || tail[0] == '\t')
    ensures TokensFrom(st, s + tail, current) == TokensFrom(NEUTRAL, tail, current + s)
    decreases |s|
  {
    hide TokensFrom, TokenStep;
    if s == [] {
      assert s + tail == tail && current + s == current;
    } else {
      WordStep(st, s, tail);
      TokensUnfold(st, s + tail, current);
      var m := TokenStep(st, s);
      var rest := s[m.length..];
      assert After(s + tail, m.length) == rest + tail;
      WordRead(m.state, rest, tail, current + m.text);
      assert current + m.text + rest == current + s;
    }
  }

  /** Blanks only end the current token. */
  lemma {:induction false} GapRead(gap: string, rest: string, current: string)
    requires IsGap(gap) && (gap == [] ==> current == [] || rest == [])
    ensures TokensFrom(NEUTRAL, gap + rest, current) == Token(current) + TokensFrom(NEUTRAL, rest, [])
    decreases |gap|
  {
    hide TokensFrom;
    if gap == [] {
      assert gap + rest == rest;
      LastToken(NEUTRAL, current);
      LastToken(NEUTRAL, []);
    } else {
      TokensUnfold(NEUTRAL, gap + rest, current);
      assert After(gap + rest, 1) == gap[1..] + rest;
      GapRead(gap[1..], rest, []);
    }
  }

  /** Words written with blanks between them are read back as exactly these tokens. */
  lemma {:induction false} TokensComeBack(indent: string, words: seq<Word>)
    requires IsGap(indent) && IsLine(words)
    ensures Tokens(indent + Spaced(words)) == Texts(words)
  {
    hide TokensFrom, Spaced, Texts, IsLine, IsGap;
    GapRead(indent, Spaced(words), []);
    WordsRead(words);
  }

  lemma {:induction false} WordsRead(words: seq<Word>)
    requires IsLine(words)
    ensures TokensFrom(NEUTRAL, Spaced(words), []) == Texts(words)
    decreases |words|
  {
    hide TokensFrom, IsWordFrom, IsGap;
    if words == [] {
      LastToken(NEUTRAL, []);
    } else {
      var w, rest := words[0], words[1..];
      assert IsLine(rest);
      assert w.gap == [] ==> rest == [];
      var tail := w.gap + Spaced(rest);
      GapStarts(w.gap, Spaced(rest));
      WordRead(NEUTRAL, w.text, tail, []);
      assert [] + w.text == w.text;
      GapRead(w.gap, Spaced(rest), w.text);
      WordsRead(rest);
    }
  }

  lemma {:induction false} GapStarts(gap: string, rest: string)
    requires IsGap(gap) && (gap == [] ==> rest == [])
    ensures var tail := gap + rest;
      tail == [] || tail[0] == ' ' || tail[0] == '\t'
  {
  }

  /** The lexemes are a reading of one word, with so many `$(` open: no blank stands outside quotes and `$(`. A
      parenthesis without a dollar sign means nothing here. */
  predicate ReadsWord(ls: seq<ShellLexemes.Lexeme>, depth: nat) {
    if ls == [] then depth == 0
    else
      && InWord(ls[0], depth, ShellLexemes.Written(ls[1..]))
      && ReadsWord(ls[1..], ShellLexemes.DepthAfter(ls[0], depth))
  }

  predicate WordByte(c: char, depth: nat, rest: string) {
    && c != '\'' && c != '"' && c != '\\'
    && (c == '$' ==> !ShellLexemes.Begins(rest, '('))
    && (depth == 0 ==> c != ' ' && c != '\t')
    && (depth > 0 ==> c != ')')
  }

  lemma {:induction false} WordFromStep(st: State, s: string, m: Move, rest: string)
    requires s != [] && TokenStep(st, s) == m && !m.separator && m.length <= |s|
    requires m.text == s[..m.length] && s[m.length..] == rest && IsWordFrom(m.state, rest)
    ensures IsWordFrom(st, s)
  {
    hide TokenStep;
  }

  lemma {:induction false} QuotedInWord(st: State, quote: char, body: string, rest: string)
    requires !st.inSingle && !st.inDouble && (quote == '\'' || quote == '"') && quote !in body && IsWordFrom(st, rest)
    ensures IsWordFrom(ShellLexemes.Inside(st, quote), body + [quote] + rest)
    decreases |body|
  {
    hide IsWordFrom;
    var s := body + [quote] + rest;
    var inside := ShellLexemes.Inside(st, quote);
    if body == [] {
      assert s[1..] == rest && s[..1] == [quote];
      WordFromStep(inside, s, Copied(st, quote), rest);
    } else {
      assert s[1..] == body[1..] + [quote] + rest && s[..1] == [body[0]];
      QuotedInWord(st, quote, body[1..], rest);
      WordFromStep(inside, s, Copied(inside, body[0]), s[1..]);
    }
  }

  function Dollars(depth: nat): State { State(false, false, 0, depth) }

  /** The lexeme may stand in a word, in front of `rest`. */
  predicate InWord(l: ShellLexemes.Lexeme, depth: nat, rest: string) {
    match l
    case Bare(c) => WordByte(c, depth, rest)
    case Quoted(quote, body) => (quote == '\'' || quote == '"') && quote !in body
    case Escaped(c) => c != NUL
    case Open => false
    case OpenDollar => true
    case Close => depth > 0
  }

  lemma {:induction false} QuotedLexemeInWord(depth: nat, quote: char, body: string, rest: string)
    requires (quote == '\'' || quote == '"') && quote !in body && IsWordFrom(Dollars(depth), rest)
    ensures IsWordFrom(Dollars(depth), [quote] + body + [quote] + rest)
  {
    hide IsWordFrom;
    var st, more := Dollars(depth), body + [quote] + rest;
    var s := [quote] + more;
    assert [quote] + body + [quote] + rest == s;
    QuotedInWord(st, quote, body, rest);
    assert s[1..] == more && s[..1] == [quote];
    WordFromStep(st, s, Copied(ShellLexemes.Inside(st, quote), quote), more);
  }

  lemma {:induction false} StepInWord(l: ShellLexemes.Lexeme, depth: nat, rest: string)
    requires !l.Quoted? && InWord(l, depth, rest) && ShellLexemes.DepthAfter(l, depth) >= 0
    ensures TokenStep(Dollars(depth), ShellLexemes.Spelled(l) + rest) ==
      Move(Dollars(ShellLexemes.DepthAfter(l, depth)), |ShellLexemes.Spelled(l)|, ShellLexemes.Spelled(l), false)
  {
    match l
    case Bare(c) => BareInWord(c, depth, rest);
    case Escaped(c) => assert NextByte(['\\', c] + rest) == c;
    case OpenDollar => assert NextByte("$(" + rest) == '(';
    case Close =>
  }

  lemma {:induction false} LexemeInWord(l: ShellLexemes.Lexeme, depth: nat, rest: string)
    requires InWord(l, depth, rest) && ShellLexemes.DepthAfter(l, depth) >= 0
    requires IsWordFrom(Dollars(ShellLexemes.DepthAfter(l, depth)), rest)
    ensures IsWordFrom(Dollars(depth), ShellLexemes.Spelled(l) + rest)
  {
    hide IsWordFrom, TokenStep, InWord, ShellLexemes.Spelled;
    var spelled := ShellLexemes.Spelled(l);
    if l.Quoted? {
      ShellLexemes.QuotedSpelled(l, NEUTRAL);
      QuotedLexemeInWord(depth, l.quote, l.body, rest) by { assert InWord(l, depth, rest);
        QuotedStands(l, depth, rest); }
    } else {
      StepInWord(l, depth, rest);
      ShellLexemes.TailOf(spelled, rest);
      assert (spelled + rest)[..|spelled|] == spelled;
      WordFromStep(Dollars(depth), spelled + rest,
        Move(Dollars(ShellLexemes.DepthAfter(l, depth)), |spelled|, spelled, false), rest);
    }
  }

  lemma {:induction false} QuotedStands(l: ShellLexemes.Lexeme, depth: nat, rest: string)
    requires l.Quoted? && InWord(l, depth, rest)
    ensures (l.quote == '\'' || l.quote == '"') && l.quote !in l.body
  {
  }

  lemma {:induction false} BareInWord(c: char, depth: nat, rest: string)
    requires WordByte(c, depth, rest)
    ensures TokenStep(Dollars(depth), [c] + rest) == Copied(Dollars(depth), c)
  {
    hide NextByte, ShellLexemes.Begins;
    ShellLexemes.NextOfBare(c, rest);
  }

  /** What is read as a word is one for the tokenizer. */
  lemma {:induction false} WordIsRead(ls: seq<ShellLexemes.Lexeme>, depth: nat)
    requires ReadsWord(ls, depth)
    ensures IsWordFrom(Dollars(depth), ShellLexemes.Written(ls))
    decreases |ls|
  {
    hide IsWordFrom, WordByte, ShellLexemes.Spelled;
    if ls == [] {
      NothingIsWord();
    } else {
      WordIsRead(ls[1..], ShellLexemes.DepthAfter(ls[0], depth));
      LexemeInWord(ls[0], depth, ShellLexemes.Written(ls[1..]));
    }
  }

  lemma {:induction false} NothingIsWord()
    ensures IsWordFrom(Dollars(0), [])
  {
  }

  /** A word in its lexemes, and the blanks behind it. */
  datatype LexedWord = LexedWord(lexemes: seq<ShellLexemes.Lexeme>, gap: string)

  function Lexed(words: seq<LexedWord>): (r: seq<Word>)
    ensures |r| == |words|
    ensures forall k :: 0 <= k < |r| ==> r[k] == Word(ShellLexemes.Written(words[k].lexemes), words[k].gap)
  {
    seq(|words|, k requires 0 <= k < |words| => Word(ShellLexemes.Written(words[k].lexemes), words[k].gap))
  }

  /** Words put together from quoted texts, escaped bytes, `$( )` and other bytes, with blanks between them, are read
      back as exactly these tokens: a blank in quotes, behind a backslash or in `$( )` ends no token, all others do. */
  lemma {:induction false} LexedWordsComeBack(indent: string, words: seq<LexedWord>)
    requires IsGap(indent)
    requires forall k :: 0 <= k < |words| ==>
      words[k].lexemes != [] && ReadsWord(words[k].lexemes, 0) && IsGap(words[k].gap)
    requires forall k :: 0 <= k < |words| - 1 ==> words[k].gap != []
    ensures Tokens(indent + Spaced(Lexed(words))) == Texts(Lexed(words))
  {
    hide Tokens, Spaced, Texts, IsGap, ReadsWord, IsWordFrom;
    forall k | 0 <= k < |words|
      ensures Lexed(words)[k].text != [] && IsWordFrom(NEUTRAL, Lexed(words)[k].text)
    {
      WordIsRead(words[k].lexemes, 0);
      WrittenNotEmpty(words[k].lexemes);
    }
    TokensComeBack(indent, Lexed(words));
  }

  lemma {:induction false} WrittenNotEmpty(ls: seq<ShellLexemes.Lexeme>)
    requires ls != []
    ensures ShellLexemes.Written(ls) != []
  {
  }

  // ---------------------------------------------------------------- nested commands

  /** The matches of `$(`, a run without `)`, and `)`: from left to right, not overlapping. */
  function NestedCommands(source: string): seq<string>
    decreases |source|
  {
    if |source| < 3 then []
    else if source[0] == '$' && source[1] == '(' then
      var close := IndexFrom(source, 2, ')');
      if 2 < close < |source| then [source[2..close]] + NestedCommands(source[close + 1..])
      else NestedCommands(source[1..])
    else NestedCommands(source[1..])
  }

  predicate OpensAt(s: string, i: nat) {
    i + 3 < |s| && s[i] == '$' && s[i + 1] == '(' && s[i + 2] != ')' && ')' in s[i + 2..]
  }

  predicate NestedAt(s: string, i: nat, inner: string) {
    i + |inner| + 3 <= |s| && s[i..i + |inner| + 3] == "$(" + inner + ")"
  }

  lemma {:induction false} NestedShift(s: string, d: nat, i: nat, inner: string)
    requires d <= |s| && NestedAt(s[d..], i, inner)
    ensures NestedAt(s, d + i, inner)
  {
    var n := |inner| + 3;
    assert s[d..][i..i + n] == s[d + i..d + i + n];
  }

  lemma {:induction false} NestedHere(s: string, close: nat)
    requires 2 < close < |s| && s[0] == '$' && s[1] == '(' && s[close] == ')'
    ensures NestedAt(s, 0, s[2..close])
  {
    assert s[0..close + 1] == "$(" + s[2..close] + ")";
  }

  /** Every match is a bracketed run in the source, and so shorter than it by three. */
  lemma {:induction false} NestedOccur(source: string, inner: string) returns (i: nat)
    requires inner in NestedCommands(source)
    ensures NestedAt(source, i, inner) && inner != [] && ')' !in inner
    decreases |source|
  {
    hide NestedAt, IndexFrom;
    var close := IndexFrom(source, 2, ')');
    if source[0] == '$' && source[1] == '(' && 2 < close < |source| {
      if inner == source[2..close] {
        i := 0;
        NestedHere(source, close);
      } else {
        i := NestedOccur(source[close + 1..], inner);
        NestedShift(source, close + 1, i, inner);
        i := close + 1 + i;
      }
    } else {
      i := NestedOccur(source[1..], inner);
      NestedShift(source, 1, i, inner);
      i := 1 + i;
    }
  }

  /** There is a match exactly when some `$(` is followed by another byte than `)` and later by `)`. */
  lemma {:induction false} NestedFoundIff(source: string)
    ensures NestedCommands(source) != [] <==> exists i :: 0 <= i < |source| && OpensAt(source, i)
    decreases |source|
  {
    if |source| >= 3 {
      var close := IndexFrom(source, 2, ')');
      if source[0] == '$' && source[1] == '(' && 2 < close < |source| {
        assert source[2..][close - 2] == ')';
        assert OpensAt(source, 0);
      } else {
        assert !OpensAt(source, 0) by { NotOpen(source, close); }
        NestedFoundIff(source[1..]);
        OpensLater(source);
      }
    }
  }

  /** The matches are found one behind the other: the first is the first one that is opened and closed, up to the next
      closing parenthesis, and the search goes on behind it. */
  lemma {:induction false} NestedBehind(before: string, inner: string, rest: string)
    requires inner != [] && ')' !in inner
    requires forall i :: 0 <= i < |before| ==> !OpensAt(before + ("$(" + inner + ")" + rest), i)
    ensures NestedCommands(before + ("$(" + inner + ")" + rest)) == [inner] + NestedCommands(rest)
    decreases |before|
  {
    var found := "$(" + inner + ")" + rest;
    var source := before + found;
    if before == [] {
      assert source == found;
      NestedAtStart(inner, rest);
    } else {
      assert source[1..] == before[1..] + found;
      forall i | 0 <= i < |before[1..]|
        ensures !OpensAt(source[1..], i)
      {
        assert !OpensAt(source, i + 1);
        OpensShift(source, i);
      }
      hide OpensAt;
      NestedBehind(before[1..], inner, rest);
      assert !OpensAt(source, 0);
      NotOpened(source);
    }
  }

  lemma {:induction false} NestedAtStart(inner: string, rest: string)
    requires inner != [] && ')' !in inner
    ensures NestedCommands("$(" + inner + ")" + rest) == [inner] + NestedCommands(rest)
  {
    var source, close := "$(" + inner + ")" + rest, |inner| + 2;
    assert source[2..close] == inner && source[close] == ')' && source[close + 1..] == rest;
    IndexIs(source, 2, close, ')');
    hide IndexFrom;
  }

  lemma {:induction false} OpensShift(source: string, i: nat)
    requires i + 1 < |source|
    ensures OpensAt(source[1..], i) == OpensAt(source, i + 1)
  {
    if i + 2 < |source[1..]| { assert source[1..][i + 2..] == source[i + 3..]; }
  }

  lemma {:induction false} NotOpened(source: string)
    requires |source| >= 3 && !OpensAt(source, 0)
    ensures NestedCommands(source) == NestedCommands(source[1..])
  {
    var close := IndexFrom(source, 2, ')');
    if source[0] == '$' && source[1] == '(' && 2 < close < |source| { OpensHere(source, close); }
  }

  lemma {:induction false} OpensHere(source: string, close: nat)
    requires 2 < close < |source| && source[0] == '$' && source[1] == '(' && source[close] == ')' && source[2] != ')'
    ensures OpensAt(source, 0)
  {
    StandsIn(source, 2, close, |source|);
    assert source[2..|source|] == source[2..];
  }

  lemma {:induction false} NotOpen(source: string, close: nat)
    requires |source| >= 3 && close == IndexFrom(source, 2, ')')
    requires !(source[0] == '$' && source[1] == '(' && 2 < close < |source|)
    ensures !OpensAt(source, 0)
  {
    if close == |source| { assert source[2..] == source[2..close]; }
  }

  lemma {:induction false} OpensLater(source: string)
    requires source != [] && !OpensAt(source, 0)
    ensures (exists i :: 0 <= i < |source| && OpensAt(source, i)) <==>
      (exists i :: 0 <= i < |source[1..]| && OpensAt(source[1..], i))
  {
    forall i | 0 <= i < |source| - 1
      ensures OpensAt(source[1..], i) == OpensAt(source, i + 1)
    {
      OpensShift(source, i);
    }
    if i :| 0 <= i < |source| && OpensAt(source, i) {
      assert OpensAt(source[1..], i - 1);
    }
  }

  lemma {:induction false} NestedShorter(source: string)
    ensures forall inner :: inner in NestedCommands(source) ==> |inner| < |source|
  {
    forall inner | inner in NestedCommands(source)
      ensures |inner| < |source|
    {
      var i := NestedOccur(source, inner);
    }
  }

  // ---------------------------------------------------------------- scanning

  /** Commands that only change the directory ask for nothing. */
  predicate ChangesDirectory(source: string) {
    var tokens := Tokens(source);
    tokens != [] && (tokens[0] == "cd" || tokens[0] == "chdir" || tokens[0] == "popd" || tokens[0] == "pushd")
  }

  function AddUnique(xs: seq<string>, x: string): seq<string> {
    if x in xs then xs else xs + [x]
  }

  function AddAll(xs: seq<string>, ys: seq<string>): seq<string>
    decreases |ys|
  {
    if ys == [] then xs else AddAll(AddUnique(xs, ys[0]), ys[1..])
  }

  /** The patterns of a command line and of the commands nested in it. */
  function ScanPatterns(command: string): seq<string>
    decreases |command|, 2, 0
  {
    assert forall source :: source in Split(command) ==> |source| <= |command| by {
      forall source | source in Split(command) ensures |source| <= |command| { PiecesNotLongerThan(command, source); }
    }
    SourcePatterns(Split(command), |command|, [])
  }

  function SourcePatterns(sources: seq<string>, size: nat, found: seq<string>): seq<string>
    requires forall source :: source in sources ==> |source| <= size
    decreases size, 1, |sources|
  {
    if sources == [] then found
    else if ChangesDirectory(sources[0]) then SourcePatterns(sources[1..], size, found)
    else
      NestedShorter(sources[0]);
      SourcePatterns(sources[1..], size, NestedPatterns(NestedCommands(sources[0]), size, AddUnique(found, sources[0])))
  }

  function NestedPatterns(nested: seq<string>, size: nat, found: seq<string>): seq<string>
    requires forall inner :: inner in nested ==> |inner| < size
    decreases size, 0, |nested|
  {
    if nested == [] then found
    else NestedPatterns(nested[1..], size, AddAll(found, ScanPatterns(nested[0])))
  }

  /** The pattern under which a command may be allowed for good: a rule on its tokens. */
  type Rule = seq<string> -> string

  function Mapped(rule: Rule, sources: seq<string>): (r: seq<string>)
    ensures |r| == |sources| && forall k :: 0 <= k < |r| ==> r[k] == rule(Tokens(sources[k]))
  {
    seq(|sources|, k requires 0 <= k < |sources| => rule(Tokens(sources[k])))
  }

  /** The patterns for good that belong to the patterns found, each once. */
  function AlwaysOf(rule: Rule, patterns: seq<string>): seq<string> {
    AddAll([], Mapped(rule, patterns))
  }

  class Scan {
    var patterns: seq<string>
    var always: seq<string>

    constructor ()
      ensures patterns == [] && always == []
    {
      patterns, always := [], [];
    }

    method AddUniquePattern(pattern: string)
      modifies this`patterns
      ensures patterns == AddUnique(old(patterns), pattern)
    {
      patterns := Unique(patterns, pattern);
    }

    method AddUniqueAlways(pattern: string)
      modifies this`always
      ensures always == AddUnique(old(always), pattern)
    {
      always := Unique(always, pattern);
    }

    static method Unique(items: seq<string>, value: string) returns (r: seq<string>)
      ensures r == AddUnique(items, value)
    {
      for k := 0 to |items|
        invariant value !in items[..k]
      {
        if items[k] == value { return items; }
      }
      assert items[..|items|] == items;
      return items + [value];
    }

    /** Takes over what another scan found. */
    method Merge(inner: Scan)
      requires inner != this
      modifies this
      ensures patterns == AddAll(old(patterns), inner.patterns)
      ensures always == AddAll(old(always), inner.always)
    {
      hide AddUnique;
      assert inner.patterns[0..] == inner.patterns && inner.always[0..] == inner.always;
      for i := 0 to |inner.patterns|
        invariant inner.patterns == old(inner.patterns) && inner.always == old(inner.always) && always == old(always)
        invariant AddAll(old(patterns), inner.patterns) == AddAll(patterns, inner.patterns[i..])
      {
        assert inner.patterns[i..][1..] == inner.patterns[i + 1..];
        AddUniquePattern(inner.patterns[i]);
      }
      ghost var found := patterns;
      for i := 0 to |inner.always|
        invariant inner.always == old(inner.always) && patterns == found
        invariant AddAll(old(always), inner.always) == AddAll(always, inner.always[i..])
      {
        assert inner.always[i..][1..] == inner.always[i + 1..];
        AddUniqueAlways(inner.always[i]);
      }
    }

    method Nested(source: string, rule: Rule, ghost size: nat)
      requires |source| <= size && always == AlwaysOf(rule, patterns)
      requires forall inner :: inner in NestedCommands(source) ==> |inner| < size
      modifies this
      ensures patterns == NestedPatterns(NestedCommands(source), size, old(patterns))
      ensures always == AlwaysOf(rule, patterns)
      decreases size, 0
    {
      hide NestedCommands, ScanPatterns, AlwaysOf;
      var nested := NestedCommands(source);
      assert nested[0..] == nested;
      for k := 0 to |nested|
        invariant NestedPatterns(nested, size, old(patterns)) == NestedPatterns(nested[k..], size, patterns)
        invariant always == AlwaysOf(rule, patterns)
      {
        var inner := ScanCommand(nested[k], rule);
        assert nested[k..][1..] == nested[k + 1..];
        AlwaysOfAll(rule, patterns, inner.patterns);
        Merge(inner);
      }
    }
  }

  method ScanCommand(command: string, rule: Rule) returns (scan: Scan)
    ensures fresh(scan)
    ensures scan.patterns == ScanPatterns(command)
    ensures scan.always == AlwaysOf(rule, scan.patterns)
    decreases |command|, 1
  {
    hide NestedCommands, NestedPatterns, Split, Tokens, AddUnique, AlwaysOf;
    scan := new Scan();
    var sources := SplitCommands(command);
    ghost var size := |command|;
    forall source | source in sources ensures |source| <= size { PiecesNotLongerThan(command, source); }
    assert sources[0..] == sources;
    AlwaysOfNone(rule);
    for k := 0 to |sources|
      invariant fresh(scan)
      invariant SourcePatterns(sources, size, []) == SourcePatterns(sources[k..], size, scan.patterns)
      invariant scan.always == AlwaysOf(rule, scan.patterns)
    {
      var source := sources[k];
      assert sources[k..][1..] == sources[k + 1..];
      var tokens := Tokenize(source);
      CommandsHaveTokens(command, source);
      if |tokens| == 0 { continue; }
      var cmd := tokens[0];
      if cmd == "cd" || cmd == "chdir" || cmd == "popd" || cmd == "pushd" { continue; }
      NestedShorter(source);
      AlwaysOfUnique(rule, scan.patterns, source);
      scan.AddUniquePattern(source);
      scan.AddUniqueAlways(rule(tokens));
      scan.Nested(source, rule, size);
    }
  }

  lemma {:induction false} AlwaysOfNone(rule: Rule)
    ensures AlwaysOf(rule, []) == []
  {
  }

  lemma {:induction false} AddAllSnoc(xs: seq<string>, ys: seq<string>, y: string)
    ensures AddAll(xs, ys + [y]) == AddUnique(AddAll(xs, ys), y)
    decreases |ys|
  {
    if ys == [] {
      assert ([] + [y])[1..] == [];
    } else {
      assert (ys + [y])[1..] == ys[1..] + [y];
      AddAllSnoc(AddUnique(xs, ys[0]), ys[1..], y);
    }
  }

  /** Adding one pattern adds what belongs to it, in either list once. */
  lemma {:induction false} AlwaysOfUnique(rule: Rule, patterns: seq<string>, p: string)
    ensures AlwaysOf(rule, AddUnique(patterns, p)) == AddUnique(AlwaysOf(rule, patterns), rule(Tokens(p)))
  {
    hide Tokens, AddAll;
    if p in patterns {
      var k :| 0 <= k < |patterns| && patterns[k] == p;
      assert Mapped(rule, patterns)[k] == rule(Tokens(p));
      AddAllHolds([], Mapped(rule, patterns), rule(Tokens(p)));
    } else {
      assert Mapped(rule, patterns + [p]) == Mapped(rule, patterns) + [rule(Tokens(p))];
      AddAllSnoc([], Mapped(rule, patterns), rule(Tokens(p)));
    }
  }

  lemma {:induction false} AlwaysOfAdded(rule: Rule, patterns: seq<string>, more: seq<string>)
    ensures AlwaysOf(rule, AddAll(patterns, more)) == AddAll(AlwaysOf(rule, patterns), Mapped(rule, more))
    decreases |more|
  {
    hide Tokens, AlwaysOf, AddUnique;
    if more != [] {
      AlwaysOfUnique(rule, patterns, more[0]);
      AlwaysOfAdded(rule, AddUnique(patterns, more[0]), more[1..]);
      assert Mapped(rule, more)[1..] == Mapped(rule, more[1..]);
    }
  }

  /** Adding a list without its repetitions is adding the list. */
  lemma {:induction false} AddAllTwice(xs: seq<string>, zs: seq<string>, ys: seq<string>)
    ensures AddAll(xs, AddAll(zs, ys)) == AddAll(AddAll(xs, zs), ys)
    decreases |ys|
  {
    if ys != [] {
      var y := ys[0];
      AddAllTwice(xs, AddUnique(zs, y), ys[1..]);
      if y in zs {
        AddAllHolds(xs, zs, y);
      } else {
        AddAllSnoc(xs, zs, y);
      }
    }
  }

  /** Merging another scan keeps the two lists in step. */
  lemma {:induction false} AlwaysOfAll(rule: Rule, patterns: seq<string>, more: seq<string>)
    ensures AlwaysOf(rule, AddAll(patterns, more)) == AddAll(AlwaysOf(rule, patterns), AlwaysOf(rule, more))
  {
    hide Tokens, AddUnique;
    AlwaysOfAdded(rule, patterns, more);
    AddAllTwice(AlwaysOf(rule, patterns), [], Mapped(rule, more));
    AddNothing(AlwaysOf(rule, patterns));
  }

  lemma {:induction false} AddNothing(xs: seq<string>)
    ensures AddAll(xs, []) == xs
  {
  }

  // ---------------------------------------------------------------- what is found

  /** `pattern` is one of the commands that the line itself asks for. */
  predicate Asks(command: string, pattern: string) {
    pattern in Split(command) &&
    !(Tokens(pattern) != [] && Tokens(pattern)[0] in {"cd", "chdir", "popd", "pushd"})
  }

  /** `inner` is nested in one of the commands that `outer` asks for. */
  ghost predicate Opens(outer: string, inner: string) {
    exists source :: Asks(outer, source) && inner in NestedCommands(source)
  }

  /** Each command line of the chain is nested in the one before it. */
  ghost predicate Chain(chain: seq<string>) {
    chain != [] && forall k :: 0 <= k < |chain| - 1 ==> Linked(chain, k)
  }

  ghost predicate Linked(chain: seq<string>, k: nat)
    requires k + 1 < |chain|
  {
    Opens(chain[k], chain[k + 1])
  }

  ghost predicate FoundBy(command: string, pattern: string, chain: seq<string>) {
    Chain(chain) && chain[0] == command && Asks(chain[|chain| - 1], pattern)
  }

  ghost predicate Found(command: string, pattern: string) {
    exists chain :: FoundBy(command, pattern, chain)
  }

  predicate NoRepeats(xs: seq<string>) {
    forall i, j :: 0 <= i < j < |xs| ==> xs[i] != xs[j]
  }

  lemma {:induction false} AddAllHolds(xs: seq<string>, ys: seq<string>, x: string)
    ensures x in AddAll(xs, ys) <==> x in xs || x in ys
    decreases |ys|
  {
    if ys != [] {
      AddAllHolds(AddUnique(xs, ys[0]), ys[1..], x);
      assert ys == [ys[0]] + ys[1..];
    }
  }

  lemma {:induction false} AddAllUnique(xs: seq<string>, ys: seq<string>)
    requires NoRepeats(xs)
    ensures NoRepeats(AddAll(xs, ys))
    decreases |ys|
  {
    if ys != [] { AddAllUnique(AddUnique(xs, ys[0]), ys[1..]); }
  }

  /** What a list of nested commands adds. */
  ghost predicate FoundInside(nested: seq<string>, pattern: string) {
    exists inner :: inner in nested && Found(inner, pattern)
  }

  /** What a list of commands adds. */
  ghost predicate FoundAmong(sources: seq<string>, pattern: string) {
    exists source :: source in sources && !ChangesDirectory(source) &&
      (pattern == source || FoundInside(NestedCommands(source), pattern))
  }

  lemma {:induction false} FoundUnfolds(command: string, pattern: string)
    ensures Found(command, pattern) <==> FoundAmong(Split(command), pattern)
  {
    hide Split, Tokens, NestedCommands;
    if Found(command, pattern) {
      var chain :| FoundBy(command, pattern, chain);
      if |chain| == 1 {
        assert pattern in Split(command);
      } else {
        assert Linked(chain, 0);
        var source :| Asks(command, source) && chain[1] in NestedCommands(source);
        var rest := chain[1..];
        forall k | 0 <= k < |rest| - 1 ensures Linked(rest, k) { assert Linked(chain, k + 1); }
        assert FoundBy(chain[1], pattern, rest);
        assert FoundInside(NestedCommands(source), pattern);
      }
    }
    if FoundAmong(Split(command), pattern) {
      var source :| source in Split(command) && !ChangesDirectory(source)
        && (pattern == source || FoundInside(NestedCommands(source), pattern));
      if pattern == source {
        assert FoundBy(command, pattern, [command]);
      } else {
        var inner :| inner in NestedCommands(source) && Found(inner, pattern);
        var chain :| FoundBy(inner, pattern, chain);
        var longer := [command] + chain;
        assert Asks(command, source);
        forall k | 0 <= k < |longer| - 1 ensures Linked(longer, k) {
          if k > 0 { assert Linked(chain, k - 1); }
        }
        assert FoundBy(command, pattern, longer);
      }
    }
  }

  /** The scan finds exactly the commands of the line and of the command lines nested in them at any
      depth, but for commands that change the directory, and each of them once. */
  lemma {:induction false} ScanFindsExactly(command: string, pattern: string)
    ensures pattern in ScanPatterns(command) <==> Found(command, pattern)
    ensures NoRepeats(ScanPatterns(command))
    decreases |command|, 2, 0
  {
    hide Split, Found, FoundAmong, SourcePatterns;
    forall source | source in Split(command) ensures |source| <= |command| { PiecesNotLongerThan(command, source); }
    FoundUnfolds(command, pattern);
    SourcesFindExactly(Split(command), |command|, [], pattern);
  }

  lemma {:induction false} SourcesFindExactly(sources: seq<string>, size: nat, found: seq<string>, pattern: string)
    requires forall source :: source in sources ==> |source| <= size
    requires NoRepeats(found)
    ensures var r := SourcePatterns(sources, size, found);
      (pattern in r <==> pattern in found || FoundAmong(sources, pattern)) && NoRepeats(r)
    decreases size, 1, |sources|
  {
    hide NestedCommands, NestedPatterns, ChangesDirectory, FoundInside;
    if sources != [] {
      var source, rest := sources[0], sources[1..];
      assert sources == [source] + rest;
      if ChangesDirectory(source) {
        SourcesFindExactly(rest, size, found, pattern);
      } else {
        NestedShorter(source);
        NestedFindExactly(NestedCommands(source), size, AddUnique(found, source), pattern);
        SourcesFindExactly(rest, size, NestedPatterns(NestedCommands(source), size, AddUnique(found, source)), pattern);
      }
    }
  }

  lemma {:induction false} NestedFindExactly(nested: seq<string>, size: nat, found: seq<string>, pattern: string)
    requires forall inner :: inner in nested ==> |inner| < size
    requires NoRepeats(found)
    ensures var r := NestedPatterns(nested, size, found);
      (pattern in r <==> pattern in found || FoundInside(nested, pattern)) && NoRepeats(r)
    decreases size, 0, |nested|
  {
    hide ScanPatterns, Found, AddAll;
    if nested != [] {
      var inner, rest := nested[0], nested[1..];
      assert nested == [inner] + rest;
      ScanFindsExactly(inner, pattern);
      AddAllHolds(found, ScanPatterns(inner), pattern);
      AddAllUnique(found, ScanPatterns(inner));
      NestedFindExactly(rest, size, AddAll(found, ScanPatterns(inner)), pattern);
    }
  }
}
