/** Parsing undoes printing (pkg/agent/xml_parser.go:93-265, 409-431, 470-500). */
module XmlLaws {
  import opened Options
  import opened Text
  import opened XmlToolCalls

  // ---------------------------------------------------------------- printing

  /** A parameter as printed, with the text up to the next tag: its key in the tag, or as an attribute in quotes. */
  datatype Param =
    | Param(key: string, value: string, close: string, gap: string)
    | Attribute(key: string, quote: char, value: string, gap: string)

  /** A call as printed, with its opening and closing tags; `before`, `inside` and `after` are the texts between its
      tags. The function need not be closed. */
  datatype Shown = Shown(open: string, name: string, params: seq<Param>, closeFunction: string, close: string,
    before: string, inside: string, after: string)

  /** A call and the text behind it. */
  datatype Part = Part(call: Shown, text: string)

  function PrintParam(p: Param): string {
    match p
    case Param(key, value, close, gap) => "<parameter=" + key + ">" + (value + (close + gap))
    case Attribute(key, quote, value, gap) => AttributeTag(key, quote) + (value + ("</parameter>" + gap))
  }

  function AttributeTag(key: string, quote: char): string {
    "<parameter name=" + [quote] + key + [quote] + ">"
  }

  function PrintParams(params: seq<Param>): string {
    if params == [] then [] else PrintParam(params[0]) + PrintParams(params[1..])
  }

  function PrintCall(c: Shown): string {
    c.open + (c.before + Tagged(c))
  }

  function Tagged(c: Shown): string {
    "<function=" + c.name + ">" + (c.inside + (PrintParams(c.params) + Closing(c)))
  }

  function Closing(c: Shown): string {
    c.closeFunction + (c.after + c.close)
  }

  function PrintParts(parts: seq<Part>): string {
    if parts == [] then [] else PrintCall(parts[0].call) + (parts[0].text + PrintParts(parts[1..]))
  }

  function Print(text: string, parts: seq<Part>): string {
    text + PrintParts(parts)
  }

  /** Free of `<`, as the texts between tags must be. */
  predicate NoTag(s: string) {
    '<' !in s
  }

  /** No closing parameter tag in any of its four forms. */
  predicate NoClosingTag(value: string) {
    forall k :: 0 <= k < |value| ==> MatchCloseTag(value, k, "parameter") < 0
  }

  /** The four forms of an opening tag. */
  predicate Opens(form: string, tag: string) {
    form == "<" + tag + ">" || form == "<" + tag + " >" || form == "< " + tag + ">" || form == "< " + tag + " >"
  }

  /** The four forms of a closing tag. */
  predicate Closes(form: string, tag: string) {
    form == "</" + tag + ">" || form == "</ " + tag + " >" || form == "</" + tag + " >" || form == "< /" + tag + ">"
  }

  predicate GoodParam(p: Param) {
    match p
    case Param(key, value, close, gap) =>
      '>' !in key && Closes(close, "parameter") && NoClosingTag(value) && NoTag(gap)
    case Attribute(key, quote, value, gap) =>
      && (quote == '"' || quote == '\'') && key != [] && quote !in key && '>' !in key
      && NoClosingTag(value) && NoTag(gap)
  }

  predicate GoodCall(c: Shown) {
    && Opens(c.open, "tool_call") && Closes(c.close, "tool_call")
    && (c.closeFunction == [] || Closes(c.closeFunction, "function"))
    && Trim(c.name) != [] && '>' !in c.name
    && NoTag(c.before) && NoTag(c.inside) && NoTag(c.after)
    && forall p :: p in c.params ==> GoodParam(p)
  }

  predicate GoodPart(part: Part) {
    GoodCall(part.call) && NoTag(part.text)
  }

  predicate NoFence(s: string) {
    forall i :: 0 <= i < |s| ==> !FenceAt(s, i)
  }

  /** The arguments that the printed parameters stand for, the last of equal keys. */
  function ArgsOf(args: map<string, string>, params: seq<Param>): map<string, string>
    decreases |params|
  {
    if params == [] then args
    else ArgsOf(ArgAdded(args, params[0]), params[1..])
  }

  /** A key in the tag is trimmed, and dropped if it is blank; an attribute is taken as it stands. */
  function ArgAdded(args: map<string, string>, p: Param): map<string, string> {
    match p
    case Param(key, value, _, _) => if Blank(key) then args else args[Trim(key) := Trim(value)]
    case Attribute(key, _, value, _) => args[key := Trim(value)]
  }

  function CallOf(c: Shown): Call {
    Call(Trim(c.name), ArgsOf(map[], c.params))
  }

  function CallsOf(parts: seq<Part>): seq<Call> {
    if parts == [] then [] else [CallOf(parts[0].call)] + CallsOf(parts[1..])
  }

  function TextsOf(parts: seq<Part>): string {
    if parts == [] then [] else parts[0].text + TextsOf(parts[1..])
  }

  // ---------------------------------------------------------------- places in the input

  lemma {:induction false} PlaceSplit(s: string, i: nat, a: string, b: string)
    requires StandsAt(s, i, a + b)
    ensures StandsAt(s, i, a) && StandsAt(s, i + |a|, b)
  {
    assert s[i..i + |a|] == (a + b)[..|a|];
    assert s[i + |a|..i + |a| + |b|] == (a + b)[|a|..];
  }

  lemma {:induction false} PlaceChar(s: string, i: nat, a: string, k: nat)
    requires StandsAt(s, i, a) && k < |a|
    ensures i + k < |s| && s[i + k] == a[k]
  {
    assert s[i..i + |a|][k] == s[i + k];
  }

  /** A tag needs its `<`. */
  lemma {:induction false} TagNeedsLess(s: string, i: nat, a: string)
    requires i < |s| && s[i] != '<' && a != [] && a[0] == '<'
    ensures !StandsAt(s, i, a)
  {
    hide StandsAt;
    if StandsAt(s, i, a) { PlaceChar(s, i, a, 0); }
  }

  lemma {:induction false} NoLessNoTag(s: string, i: nat, tag: string)
    requires i < |s| && s[i] != '<'
    ensures MatchOpenTag(s, i, tag) == -1 && MatchCloseTag(s, i, tag) == -1
    ensures ParseTagWithValue(s, i, tag) == Option.None
    ensures ParseFunctionTagAsContent(s, i) == Option.None && ParseAttrTag(s, i) == Option.None
  {
    hide StandsAt, Trim;
    TagNeedsLess(s, i, "<" + tag + ">");
    TagNeedsLess(s, i, "<" + tag + " >");
    TagNeedsLess(s, i, "< " + tag + ">");
    TagNeedsLess(s, i, "< " + tag + " >");
    TagNeedsLess(s, i, "</" + tag + ">");
    TagNeedsLess(s, i, "</ " + tag + " >");
    TagNeedsLess(s, i, "</" + tag + " >");
    TagNeedsLess(s, i, "< /" + tag + ">");
    TagNeedsLess(s, i, "<function>");
  }

  lemma {:induction false} NoFenceNoBlock(s: string, pos: nat)
    requires NoFence(s)
    ensures !InCodeBlock(s, pos)
  {
    NoFenceCount(s, pos);
  }

  lemma {:induction false} NoFenceCount(s: string, pos: nat)
    requires NoFence(s)
    ensures Fences(s, pos) == 0
  {
    if pos > 0 { NoFenceCount(s, pos - 1); }
  }

  // ---------------------------------------------------------------- texts

  lemma {:induction false} TextRuns(s: string, i: nat, text: string, p: Parser)
    requires StandsAt(s, i, text) && NoTag(text) && NoFence(s) && p.state == InText
    ensures Run(s, i, p) == Run(s, i + |text|, p.(content := p.content + text))
    decreases |text|
  {
    hide NoFence, Run, InCodeBlock, StandsAt;
    if text == [] {
      assert p.content + text == p.content;
    } else {
      PlaceChar(s, i, text, 0);
      assert text[0] in text;
      NoLessNoTag(s, i, "tool_call");
      NoFenceNoBlock(s, i);
      RunStep(s, i, p);
      assert text == [text[0]] + text[1..];
      PlaceSplit(s, i, [text[0]], text[1..]);
      TextRuns(s, i + 1, text[1..], p.(content := p.content + [s[i]]));
      assert p.content + [s[i]] + text[1..] == p.content + text;
    }
  }

  /** Text between the tags of a call only reaches the pending text. */
  lemma {:induction false} GapRuns(s: string, i: nat, gap: string, p: Parser) returns (q: Parser)
    requires StandsAt(s, i, gap) && NoTag(gap) && (p.state == InToolCall || p.state == InFunction)
    ensures Run(s, i, p) == Run(s, i + |gap|, q) && q == p.(pending := p.pending + gap)
    decreases |gap|
  {
    hide Run, StandsAt, MatchCloseTag, ParseTagWithValue, ParseFunctionTagAsContent, ParseAttrTag;
    if gap == [] {
      q := p;
      assert p.pending + gap == p.pending;
    } else {
      PlaceChar(s, i, gap, 0);
      assert gap[0] in gap;
      NoLessNoTag(s, i, "tool_call");
      NoLessNoTag(s, i, "function");
      NoLessNoTag(s, i, "parameter");
      RunStep(s, i, p);
      assert gap == [gap[0]] + gap[1..];
      PlaceSplit(s, i, [gap[0]], gap[1..]);
      var next := Step(s, i, p);
      assert next == OtherStep(s, i, p);
      assert s[i..i + 1] == [gap[0]];
      q := GapRuns(s, i + 1, gap[1..], next.p);
      assert p.pending + [gap[0]] + gap[1..] == p.pending + gap;
    }
  }

  // ---------------------------------------------------------------- tags

  /** What stands at `i` decides: two texts that differ cannot both stand there. */
  lemma {:induction false} OneTagAtATime(s: string, i: nat, a: string, b: string, k: nat)
    requires StandsAt(s, i, a) && k < |a| && k < |b| && a[k] != b[k]
    ensures !StandsAt(s, i, b)
  {
    hide StandsAt;
    PlaceChar(s, i, a, k);
    if StandsAt(s, i, b) { PlaceChar(s, i, b, k); }
  }

  /** The tag does not begin like the marks around it. */
  predicate IsTagName(tag: string) { tag != [] && tag[0] != ' ' && tag[0] != '/' && tag[0] != '<' && tag[0] != '>' }

  lemma {:induction false} OpenMatches(s: string, i: nat, form: string, tag: string)
    requires IsTagName(tag) && Opens(form, tag) && StandsAt(s, i, form)
    ensures MatchOpenTag(s, i, tag) == i + |form| && i < |s| && s[i] == '<'
  {
    hide StandsAt;
    var n := |tag|;
    PlaceChar(s, i, form, 0);
    if form == "<" + tag + " >" {
      OneTagAtATime(s, i, form, "<" + tag + ">", n + 1);
    } else if form == "< " + tag + ">" || form == "< " + tag + " >" {
      OneTagAtATime(s, i, form, "<" + tag + ">", 1);
      OneTagAtATime(s, i, form, "<" + tag + " >", 1);
      if form == "< " + tag + " >" { OneTagAtATime(s, i, form, "< " + tag + ">", n + 2); }
    }
  }

  lemma {:induction false} CloseMatches(s: string, i: nat, form: string, tag: string)
    requires IsTagName(tag) && Closes(form, tag) && StandsAt(s, i, form)
    ensures MatchCloseTag(s, i, tag) == i + |form| && i < |s| && s[i] == '<'
  {
    hide StandsAt;
    var n := |tag|;
    PlaceChar(s, i, form, 0);
    if form == "</ " + tag + " >" {
      OneTagAtATime(s, i, form, "</" + tag + ">", 2);
    } else if form == "</" + tag + " >" {
      OneTagAtATime(s, i, form, "</" + tag + ">", n + 2);
      OneTagAtATime(s, i, form, "</ " + tag + " >", 2);
    } else if form == "< /" + tag + ">" {
      OneTagAtATime(s, i, form, "</" + tag + ">", 1);
      OneTagAtATime(s, i, form, "</ " + tag + " >", 1);
      OneTagAtATime(s, i, form, "</" + tag + " >", 1);
    }
  }

  /** One tag is closed at a time. */
  lemma {:induction false} ClosesOther(s: string, i: nat, form: string, tag: string, other: string)
    requires IsTagName(tag) && IsTagName(other) && tag[0] != other[0] && Closes(form, tag) && StandsAt(s, i, form)
    ensures MatchCloseTag(s, i, other) == -1
  {
    hide StandsAt;
    var k := if form == "</" + tag + ">" || form == "</" + tag + " >" then 2 else 3;
    assert form[k] == tag[0];
    OneTagAtATime(s, i, form, "</" + other + ">", if form == "< /" + tag + ">" then 1 else 2);
    OneTagAtATime(s, i, form, "</" + other + " >", if form == "< /" + tag + ">" then 1 else 2);
    OneTagAtATime(s, i, form, "</ " + other + " >",
      if form == "< /" + tag + ">" then 1 else if form == "</ " + tag + " >" then 3 else 2);
    OneTagAtATime(s, i, form, "< /" + other + ">", if form == "< /" + tag + ">" then 3 else 1);
  }

  lemma {:induction false} OpenRuns(s: string, i: nat, form: string, p: Parser)
    requires Opens(form, "tool_call") && StandsAt(s, i, form) && NoFence(s) && p.state == InText
    ensures Run(s, i, p) ==
      Run(s, i + |form|, p.(state := InToolCall, pending := form, funcName := [], args := map[]))
  {
    hide NoFence, Run, InCodeBlock, StandsAt, MatchOpenTag, MatchCloseTag;
    OpenMatches(s, i, form, "tool_call");
    NoFenceNoBlock(s, i);
    RunStep(s, i, p);
    assert s[i..i + |form|] == form by { Standing(s, i, form); }
  }

  lemma {:induction false} Standing(s: string, i: nat, a: string)
    requires StandsAt(s, i, a)
    ensures i + |a| <= |s| && s[i..i + |a|] == a
  {
  }

  /** The call ends, whether its function was closed before or not. */
  lemma {:induction false} CloseCallRuns(s: string, i: nat, form: string, p: Parser)
    requires Closes(form, "tool_call") && StandsAt(s, i, form) && p.funcName != []
    requires p.state == InToolCall || p.state == InFunction
    requires p.paramValue == []
    ensures Run(s, i, p) ==
      Run(s, i + |form|,
          p.(state := InText, pending := [], funcName := [], args := map[],
            calls := p.calls + [Call(p.funcName, p.args)]))
  {
    hide Run, StandsAt, ParseTagWithValue, ParseFunctionTagAsContent, ParseAttrTag, MatchCloseTag;
    CloseMatches(s, i, form, "tool_call");
    ClosesOther(s, i, form, "tool_call", "function");
    RunStep(s, i, p);
  }

  lemma {:induction false} CloseFunctionRuns(s: string, i: nat, form: string, p: Parser)
    requires Closes(form, "function") && StandsAt(s, i, form) && p.state == InFunction
    ensures Run(s, i, p) == Run(s, i + |form|, p.(state := InToolCall, pending := p.pending + form))
  {
    hide Run, StandsAt, ParseTagWithValue, ParseAttrTag, MatchCloseTag;
    CloseMatches(s, i, form, "function");
    RunStep(s, i, p);
    Standing(s, i, form);
  }

  predicate IsGap(s: string) {
    forall k :: 0 <= k < |s| ==> s[k] == ' ' || s[k] == '\t' || s[k] == '\n' || s[k] == '\r'
  }

  /** A tag with a value, with any blanks around its name and the equals sign, is read as the trimmed value. */
  lemma {:induction false} SpacedTag(s: string, i: nat, a: string, tag: string, b: string, name: string)
    requires StandsAt(s, i, "<" + (a + (tag + (b + ("=" + (name + ">")))))) && '>' !in name && IsGap(a) && IsGap(b)
    requires tag != [] && !IsSpace(tag[0])
    ensures ParseTagWithValue(s, i, tag) == Option.Some(Tag(Trim(name), i + |a| + |tag| + |b| + |name| + 3))
  {
    hide StandsAt, Trim, FindChar, SkipBlanks, IsGap, ParseTagWithValue, IsSpace;
    var k := i + 1 + |a|;
    var e := k + |tag| + |b|;
    PlaceSplit(s, i, "<", a + (tag + (b + ("=" + (name + ">")))));
    PlaceChar(s, i, "<", 0);
    TagBehindGap(s, i + 1, a, tag, b + ("=" + (name + ">")));
    ValueBehindGap(s, k + |tag|, b, name);
    NameRead(s, e + 1, name);
    ValueTagIs(s, i, tag, k, e, e + 1 + |name|);
  }

  lemma {:induction false} TagBehindGap(s: string, i: nat, a: string, tag: string, rest: string)
    requires StandsAt(s, i, a + (tag + rest)) && IsGap(a) && tag != [] && !IsSpace(tag[0])
    ensures SkipBlanks(s, i) == i + |a| && StandsAt(s, i + |a|, tag) && StandsAt(s, i + |a| + |tag|, rest)
  {
    hide StandsAt, SkipBlanks, IsGap, IsSpace;
    PlaceSplit(s, i, a, tag + rest);
    PlaceSplit(s, i + |a|, tag, rest);
    PlaceChar(s, i + |a|, tag, 0);
    GapSkipped(s, i, a);
  }

  lemma {:induction false} ValueBehindGap(s: string, i: nat, b: string, name: string)
    requires StandsAt(s, i, b + ("=" + (name + ">"))) && IsGap(b)
    ensures SkipBlanks(s, i) == i + |b| < |s| && s[i + |b|] == '=' && StandsAt(s, i + |b| + 1, name + ">")
  {
    assert !IsSpace('=');
    hide StandsAt, SkipBlanks, IsGap, IsSpace;
    PlaceSplit(s, i, b, "=" + (name + ">"));
    PlaceSplit(s, i + |b|, "=", name + ">");
    PlaceChar(s, i + |b|, "=", 0);
    GapSkipped(s, i, b);
  }

  lemma {:induction false} ValueTagIs(s: string, i: nat, tag: string, at: nat, eq: nat, end: nat)
    requires i < |s| && s[i] == '<' && SkipBlanks(s, i + 1) == at && StandsAt(s, at, tag)
    requires SkipBlanks(s, at + |tag|) == eq < |s| && s[eq] == '='
    requires SkipBlanks(s, eq + 1) <= end && FindChar(s, SkipBlanks(s, eq + 1), '>') == end
    ensures ParseTagWithValue(s, i, tag) == Option.Some(Tag(Trim(s[SkipBlanks(s, eq + 1)..end]), end + 1))
  {
    hide StandsAt, Trim, FindChar, SkipBlanks;
  }

  lemma {:induction false} GapSkipped(s: string, i: nat, gap: string)
    requires StandsAt(s, i, gap) && IsGap(gap) && i + |gap| < |s| && !IsSpace(s[i + |gap|])
    ensures SkipBlanks(s, i) == i + |gap|
    decreases |gap|
  {
    if gap != [] {
      assert s[i] == gap[0] && s[i + 1..i + |gap|] == gap[1..];
      GapSkipped(s, i + 1, gap[1..]);
    }
  }

  /** `<tag=name>` is read as the trimmed name. */
  lemma {:induction false} NamedTag(s: string, i: nat, tag: string, name: string)
    requires StandsAt(s, i, "<" + tag + "=" + name + ">") && '>' !in name
    requires tag != [] && !IsSpace(tag[0])
    ensures ParseTagWithValue(s, i, tag) == Option.Some(Tag(Trim(name), i + |tag| + |name| + 3))
  {
    hide StandsAt, Trim, ParseTagWithValue;
    assert "<" + tag + "=" + name + ">" == "<" + ([] + (tag + ([] + ("=" + (name + ">")))));
    SpacedTag(s, i, [], tag, [], name);
  }

  /** A function whose name stands behind its tag: the name is the text up to the next bracket. If that closes it is
      passed over, and if it opens a tag it is not. */
  lemma {:induction false} NameBehindTag(s: string, i: nat, name: string, c: char)
    requires StandsAt(s, i, "<function>" + (name + [c])) && '<' !in name && '>' !in name && Trim(name) != []
    requires c == '<' || c == '>'
    ensures ParseFunctionTagAsContent(s, i) ==
      Option.Some(Tag(Trim(name), i + 10 + |name| + if c == '>' then 1 else 0))
  {
    hide StandsAt, Trim, FindChar, FindText;
    var from, end := i + 10, i + 10 + |name|;
    PlaceSplit(s, i, "<function>", name + [c]);
    PlaceSplit(s, from, name, [c]);
    PlaceChar(s, end, [c], 0);
    Standing(s, from, name);
    FindsFirst(s, from, end, c);
    var bracket, less, close := FindChar(s, from, '>'), FindChar(s, from, '<'), FindText(s, from, "</function>");
    FoundBehind(s, from, end, name, '>');
    FoundBehind(s, from, end, name, '<');
    if close >= 0 {
      PlaceChar(s, close, "</function>", 0);
      ClosesBehind(s, from, end, name, close);
    }
    if c == '<' && close >= 0 && less == close { assert s[from..close] == name; }
  }

  lemma {:induction false} FoundBehind(s: string, from: nat, end: nat, name: string, c: char)
    requires from <= end < |s| && s[from..end] == name && c !in name
    ensures FindChar(s, from, c) < 0 || FindChar(s, from, c) >= end
  {
    var r := FindChar(s, from, c);
    if from <= r < end { StandsIn(s, from, r, end); }
  }

  lemma {:induction false} ClosesBehind(s: string, from: nat, end: nat, name: string, close: nat)
    requires from <= end < |s| && s[from..end] == name && '<' !in name && from <= close < |s| && s[close] == '<'
    ensures close >= end
  {
    if close < end { StandsIn(s, from, close, end); }
  }

  lemma {:induction false} NoBlanksToSkip(s: string, i: nat)
    requires i < |s| && !IsSpace(s[i])
    ensures SkipBlanks(s, i) == i
  {
  }

  /** Blanks that are skipped before the name are blanks that trimming takes away as well. */
  lemma {:induction false} NameRead(s: string, j: nat, name: string)
    requires StandsAt(s, j, name + ">") && '>' !in name
    ensures var from := SkipBlanks(s, j);
      from <= j + |name| && FindChar(s, from, '>') == j + |name| && Trim(s[from..j + |name|]) == Trim(name)
  {
    hide Trim;
    PlaceSplit(s, j, name, ">");
    Standing(s, j, name);
    PlaceChar(s, j + |name|, ">", 0);
    var n := BlanksSkipped(s, j, name);
    TrimSkips(name, n);
    var from := j + n;
    assert s[from..j + |name|] == name[n..];
    FindsFirst(s, from, j + |name|, '>');
  }

  lemma {:induction false} BlanksSkipped(s: string, j: nat, name: string) returns (n: nat)
    requires j + |name| < |s| && s[j..j + |name|] == name && s[j + |name|] == '>'
    ensures n <= |name| && SkipBlanks(s, j) == j + n && Blank(name[..n])
    decreases |name|
  {
    if name == [] {
      n := 0;
    } else {
      assert name[0] == s[j];
      if s[j] == ' ' || s[j] == '\t' || s[j] == '\n' || s[j] == '\r' {
        assert name[1..] == s[j + 1..j + |name|];
        n := BlanksSkipped(s, j + 1, name[1..]);
        assert name[..n + 1] == [name[0]] + name[1..][..n];
        n := n + 1;
      } else {
        n := 0;
      }
    }
  }

  lemma {:induction false} TrimSkips(s: string, n: nat)
    requires n <= |s| && Blank(s[..n])
    ensures Trim(s[n..]) == Trim(s)
  {
    hide Trim, Blank, Trimmed;
    var l, r := TrimSplit(s[n..]);
    var kept := Trim(s[n..]);
    BlankConcat(s[..n], l);
    TrimPad(s[..n] + l, kept, r);
    SplitAt(s, n);
    Associative(s[..n], l + kept, r);
    Associative(s[..n], l, kept);
  }

  lemma {:induction false} FindsFirst(s: string, start: nat, end: nat, c: char)
    requires start <= end < |s| && s[end] == c && c !in s[start..end]
    ensures FindChar(s, start, c) == end
    decreases end - start
  {
    if start < end {
      assert s[start] == s[start..end][0];
      assert s[start + 1..end] == s[start..end][1..];
      FindsFirst(s, start + 1, end, c);
    }
  }

  lemma {:induction false} NotClosing(s: string, i: nat, a: string, tag: string)
    requires StandsAt(s, i, a) && |a| > 1 && a[0] == '<' && a[1] != '/' && a[1] != ' '
    ensures MatchCloseTag(s, i, tag) == -1
  {
    hide StandsAt;
    OneTagAtATime(s, i, a, "</" + tag + ">", 1);
    OneTagAtATime(s, i, a, "</ " + tag + " >", 1);
    OneTagAtATime(s, i, a, "</" + tag + " >", 1);
    OneTagAtATime(s, i, a, "< /" + tag + ">", 1);
  }

  lemma {:induction false} FunctionRuns(s: string, i: nat, name: string, p: Parser) returns (q: Parser)
    requires StandsAt(s, i, "<function=" + name + ">") && '>' !in name && p.state == InToolCall
    ensures Run(s, i, p) == Run(s, i + |"<function=" + name + ">"|, q)
    ensures q == p.(state := InFunction, pending := q.pending, funcName := Trim(name), args := map[])
  {
    hide Run, StandsAt, ParseTagWithValue, ParseFunctionTagAsContent, MatchCloseTag, Trim;
    var tag := "<function=" + name + ">";
    PlaceChar(s, i, tag, 0);
    NotClosing(s, i, tag, "tool_call");
    assert tag == "<" + "function" + "=" + name + ">";
    NamedTag(s, i, "function", name);
    RunStep(s, i, p);
    q := Step(s, i, p).p;
  }

  lemma {:induction false} ParamTagRuns(s: string, i: nat, key: string, p: Parser) returns (q: Parser)
    requires StandsAt(s, i, "<parameter=" + key + ">") && '>' !in key && p.state == InFunction
    ensures Run(s, i, p) == Run(s, i + |"<parameter=" + key + ">"|, q)
    ensures q == p.(state := InParam, pending := q.pending, paramName := Trim(key), paramValue := [])
  {
    hide Run, StandsAt, ParseTagWithValue, ParseAttrTag, MatchCloseTag, Trim;
    var tag := "<parameter=" + key + ">";
    PlaceChar(s, i, tag, 0);
    NotClosing(s, i, tag, "tool_call");
    NotClosing(s, i, tag, "function");
    assert tag == "<" + "parameter" + "=" + key + ">";
    NamedTag(s, i, "parameter", key);
    RunStep(s, i, p);
    q := Step(s, i, p).p;
  }

  // ---------------------------------------------------------------- values

  lemma {:induction false} TailHasNone(form: string, n: nat, c: char)
    requires 0 < n < |form| && c !in form[1..]
    ensures form[n] != c
  {
    assert form[n] == form[1..][n - 1];
  }

  /** No closing tag runs from the value into what stands behind it, since that starts with `<`. */
  lemma {:induction false} FormStaysInside(s: string, i: nat, value: string, k: nat, form: string)
    requires StandsAt(s, i, value + "<") && k < |value|
    requires form != [] && '<' !in form[1..] && StandsAt(s, i + k, form)
    ensures StandsAt(value, k, form)
  {
    hide StandsAt;
    PlaceSplit(s, i, value, "<");
    if k + |form| > |value| {
      TailHasNone(form, |value| - k, '<');
      PlaceChar(s, i + k, form, |value| - k);
      assert i + k + (|value| - k) == i + |value|;
      PlaceChar(s, i + |value|, "<", 0);
    } else {
      PlaceInside(s, i, value, k, form);
    }
  }

  lemma {:induction false} PlaceInside(s: string, i: nat, value: string, k: nat, form: string)
    requires StandsAt(s, i, value) && StandsAt(s, i + k, form) && k + |form| <= |value|
    ensures StandsAt(value, k, form)
  {
    forall m | 0 <= m < |form|
      ensures value[k..k + |form|][m] == form[m]
    {
      assert value[k + m] == s[i..i + |value|][k + m] == s[i + (k + m)];
      assert form[m] == s[i + k..i + k + |form|][m] == s[i + k + m];
    }
  }

  lemma {:induction false} NotClosedInside(s: string, i: nat, value: string, k: nat)
    requires StandsAt(s, i, value + "<") && k < |value| && NoClosingTag(value)
    ensures MatchCloseTag(s, i + k, "parameter") == -1
  {
    assert MatchCloseTag(value, k, "parameter") < 0;
    var a, b, c, d := "</" + "parameter" + ">", "</ " + "parameter" + " >", "</" + "parameter" + " >",
      "< /" + "parameter" + ">";
    NoneInside(s, i, value, k, a);
    NoneInside(s, i, value, k, b);
    NoneInside(s, i, value, k, c);
    NoneInside(s, i, value, k, d);
  }

  lemma {:induction false} NoneInside(s: string, i: nat, value: string, k: nat, form: string)
    requires StandsAt(s, i, value + "<") && k < |value| && !StandsAt(value, k, form)
    requires form != [] && '<' !in form[1..]
    ensures !StandsAt(s, i + k, form)
  {
    if StandsAt(s, i + k, form) { FormStaysInside(s, i, value, k, form); }
  }

  lemma {:induction false} ValueRuns(s: string, i: nat, value: string, k: nat, p: Parser)
    requires StandsAt(s, i, value + "<") && NoClosingTag(value) && k <= |value| && p.state == InParam
    ensures Run(s, i + k, p) == Run(s, i + |value|, p.(paramValue := p.paramValue + value[k..]))
    decreases |value| - k
  {
    hide Run, StandsAt, MatchCloseTag, NoClosingTag, Trim;
    if k == |value| {
      assert p.paramValue + value[k..] == p.paramValue;
    } else {
      NotClosedInside(s, i, value, k);
      PlaceChar(s, i, value + "<", k);
      RunStep(s, i + k, p);
      ValueRuns(s, i, value, k + 1, p.(paramValue := p.paramValue + [s[i + k]]));
      assert p.paramValue + [s[i + k]] + value[k + 1..] == p.paramValue + value[k..];
    }
  }

  lemma {:induction false} CloseParamRuns(s: string, i: nat, form: string, p: Parser)
    requires Closes(form, "parameter") && StandsAt(s, i, form) && p.state == InParam
    ensures Run(s, i, p) == Run(s, i + |form|,
      p.(state := InFunction, pending := p.pending + form,
         args := WithArg(p.args, p.paramName, Trim(p.paramValue)), paramName := [], paramValue := []))
  {
    hide Run, StandsAt, Trim, MatchCloseTag;
    CloseMatches(s, i, form, "parameter");
    RunStep(s, i, p);
    Standing(s, i, form);
  }

  lemma {:induction false} AddedArg(args: map<string, string>, param: Param)
    requires param.Param?
    ensures ArgAdded(args, param) == WithArg(args, Trim(param.key), Trim(param.value))
  {
    hide Trim, Blank;
    TrimEmpty(param.key);
  }

  lemma {:induction false} ClosesBegins(form: string, tag: string)
    requires Closes(form, tag)
    ensures form != [] && form[0] == '<'
  {
  }

  lemma {:induction false} PlaceBefore(s: string, i: nat, value: string)
    requires StandsAt(s, i, value) && i + |value| < |s| && s[i + |value|] == '<'
    ensures StandsAt(s, i, value + "<")
  {
    assert s[i..i + |value| + 1] == value + "<";
  }

  lemma {:induction false} TaggedParamRuns(s: string, i: nat, param: Param, p: Parser) returns (q: Parser)
    requires param.Param? && StandsAt(s, i, PrintParam(param)) && GoodParam(param)
    requires p.state == InFunction && p.paramName == [] && p.paramValue == []
    ensures Run(s, i, p) == Run(s, i + |PrintParam(param)|, q)
    ensures q == p.(pending := q.pending, args := ArgAdded(p.args, param))
  {
    hide Run, StandsAt, Trim, NoClosingTag, Blank, Closes, NoTag, WithArg;
    var tag := "<parameter=" + param.key + ">";
    var close := param.close;
    assert PrintParam(param) == tag + (param.value + (close + param.gap));
    hide PrintParam;
    PlaceSplit(s, i, tag, param.value + (close + param.gap));
    q := ParamTagRuns(s, i, param.key, p);
    q := ValueAndGapRun(s, i + |tag|, param.value, close, param.gap, q);
    AddedArg(p.args, param);
  }

  /** The value, its closing tag and the text behind it. */
  lemma {:induction false} ValueAndGapRun(s: string, at: nat, value: string, close: string, gap: string, p: Parser)
    returns (q: Parser)
    requires StandsAt(s, at, value + (close + gap)) && NoClosingTag(value) && NoTag(gap) && Closes(close, "parameter")
    requires p.state == InParam && p.paramValue == []
    ensures Run(s, at, p) == Run(s, at + |value| + |close| + |gap|, q)
    ensures q == p.(state := InFunction, pending := q.pending, args := WithArg(p.args, p.paramName, Trim(value)),
      paramName := [], paramValue := [])
  {
    hide Run, StandsAt, Trim, NoClosingTag, Closes, NoTag, WithArg;
    PlaceSplit(s, at, value, close + gap);
    PlaceSplit(s, at + |value|, close, gap);
    ClosesBegins(close, "parameter");
    PlaceChar(s, at + |value|, close, 0);
    PlaceBefore(s, at, value);
    ValueRuns(s, at, value, 0, p);
    assert [] + value[0..] == value;
    q := p.(paramValue := value);
    CloseParamRuns(s, at + |value|, close, q);
    q := q.(state := InFunction, pending := q.pending + close,
            args := WithArg(q.args, q.paramName, Trim(q.paramValue)), paramName := [], paramValue := []);
    q := GapRuns(s, at + |value| + |close|, gap, q);
  }

  lemma {:induction false} ParamRuns(s: string, i: nat, param: Param, p: Parser) returns (q: Parser)
    requires StandsAt(s, i, PrintParam(param)) && GoodParam(param)
    requires p.state == InFunction && p.paramName == [] && p.paramValue == []
    ensures Run(s, i, p) == Run(s, i + |PrintParam(param)|, q)
    ensures q == p.(pending := q.pending, args := ArgAdded(p.args, param))
  {
    if param.Param? {
      q := TaggedParamRuns(s, i, param, p);
    } else {
      q := AttributeRuns(s, i, param, p);
    }
  }

  // ---------------------------------------------------------------- attributes

  /** An attribute is read as its key and the trimmed text up to the closing tag. */
  lemma {:induction false} AttributeRead(s: string, i: nat, key: string, quote: char, value: string)
    requires StandsAt(s, i, AttributeTag(key, quote) + (value + "</parameter>")) && NoClosingTag(value)
    requires (quote == '"' || quote == '\'') && key != [] && quote !in key && '>' !in key
    ensures ParseAttrTag(s, i) == Option.Some(AttrTag(key, Trim(value),
      i + |AttributeTag(key, quote)| + |value| + |"</parameter>"|))
    ensures ParseTagWithValue(s, i, "parameter") == Option.None
  {
    hide StandsAt, Trim, FindChar, FindText, NoClosingTag, NameAttribute, ParseAttrTag, ParseTagWithValue, SkipBlanks;
    hide AttributeTag;
    var tag := AttributeTag(key, quote);
    var attribute := "name=" + [quote] + key + [quote];
    AttributeTagIs(key, quote);
    PlaceSplit(s, i, tag, value + "</parameter>");
    var end := i + |tag|;
    PlaceSplit(s, end, value, "</parameter>");
    PlaceSplit(s, i, "<", ("parameter " + attribute) + ">");
    PlaceChar(s, i, "<", 0);
    InnerTag(s, i + 1, attribute);
    AttributeName(attribute, key, quote);
    ClosingFound(s, end, value);
    Standing(s, end, value);
    NoValueTag(s, i, attribute);
    AttributeFound(s[i + 1..end - 1], attribute, key);
    AttrTagIs(s, i, end - 1, key, end + |value|);
  }

  lemma {:induction false} AttributeFound(inner: string, attribute: string, key: string)
    requires StandsAt(inner, 0, "parameter ") && inner[|"parameter "|..] == attribute
    requires NameAttribute(Trim(attribute)) == Option.Some(key)
    ensures AttributeIn(inner) == Option.Some(key)
  {
    hide StandsAt, Trim, NameAttribute;
  }

  lemma {:induction false} AttrTagIs(s: string, i: nat, close: nat, key: string, closeTag: nat)
    requires i < close < |s| && s[i] == '<' && FindChar(s, i + 1, '>') == close
    requires AttributeIn(s[i + 1..close]) == Option.Some(key) && key != []
    requires FindText(s, close + 1, "</parameter>") == closeTag && close < closeTag <= |s|
    ensures ParseAttrTag(s, i) == Option.Some(AttrTag(key, Trim(s[close + 1..closeTag]), closeTag + |"</parameter>"|))
  {
    hide StandsAt, Trim, FindChar, FindText, AttributeIn;
  }

  lemma {:induction false} AttributeTagIs(key: string, quote: char)
    ensures var attribute := "name=" + [quote] + key + [quote];
      && AttributeTag(key, quote) == "<" + (("parameter " + attribute) + ">")
      && |AttributeTag(key, quote)| == |attribute| + 12 && attribute != [] && attribute[0] == 'n'
      && ('>' !in key && quote != '>' ==> '>' !in attribute)
  {
  }

  lemma {:induction false} InnerTag(s: string, i: nat, attribute: string)
    requires StandsAt(s, i, ("parameter " + attribute) + ">") && '>' !in attribute
    ensures var close := i + |"parameter "| + |attribute|;
      && FindChar(s, i, '>') == close && close < |s|
      && s[i..close] == "parameter " + attribute
      && StandsAt(s[i..close], 0, "parameter ") && s[i..close][|"parameter "|..] == attribute
  {
    hide FindChar, StandsAt;
    var inner := "parameter " + attribute;
    PlaceSplit(s, i, inner, ">");
    Standing(s, i, inner);
    PlaceChar(s, i + |inner|, ">", 0);
    assert '>' !in inner;
    FindsFirst(s, i, i + |inner|, '>');
    AllOfIt(inner);
    PlaceSplit(inner, 0, "parameter ", attribute);
  }

  lemma {:induction false} AttributeName(attribute: string, key: string, quote: char)
    requires attribute == "name=" + [quote] + key + [quote] && (quote == '"' || quote == '\'') && quote !in key
    ensures Trim(attribute) == attribute && NameAttribute(attribute) == Option.Some(key)
  {
    hide Trim, FindChar;
    TrimIdentity(attribute);
    var end := |attribute| - 1;
    assert attribute[6..end] == key && attribute[end] == quote;
    FindsFirst(attribute, 6, end, quote);
    if quote == '"' {
      assert attribute == "name=\"" + (key + [quote]);
      AllOfIt(attribute);
      PlaceSplit(attribute, 0, "name=\"", key + [quote]);
    } else {
      assert attribute == "name='" + (key + [quote]);
      AllOfIt(attribute);
      PlaceSplit(attribute, 0, "name='", key + [quote]);
      OneTagAtATime(attribute, 0, "name='", "name=\"", 5);
    }
  }

  lemma {:induction false} ClosingFound(s: string, i: nat, value: string)
    requires StandsAt(s, i, value) && StandsAt(s, i + |value|, "</parameter>") && NoClosingTag(value)
    ensures FindText(s, i, "</parameter>") == i + |value|
  {
    FindsText(s, i, i, value);
  }

  lemma {:induction false} FindsText(s: string, i: nat, j: nat, value: string)
    requires i <= j <= i + |value| && StandsAt(s, i, value) && StandsAt(s, i + |value|, "</parameter>")
    requires NoClosingTag(value)
    ensures FindText(s, j, "</parameter>") == i + |value|
    decreases i + |value| - j
  {
    hide StandsAt, NoClosingTag, MatchCloseTag;
    if j < i + |value| {
      PlaceChar(s, i + |value|, "</parameter>", 0);
      PlaceBefore(s, i, value);
      NotClosedInside(s, i, value, j - i);
      assert !StandsAt(s, j, "</parameter>") by { NotClosedHere(s, j); }
      PlaceChar(s, i, value, j - i);
      FindsText(s, i, j + 1, value);
    }
  }

  lemma {:induction false} NotClosedHere(s: string, j: nat)
    requires MatchCloseTag(s, j, "parameter") == -1
    ensures !StandsAt(s, j, "</parameter>")
  {
    assert "</" + "parameter" + ">" == "</parameter>";
  }

  /** A tag with an attribute has no value behind an equals sign of its own. */
  lemma {:induction false} NoValueTag(s: string, i: nat, attribute: string)
    requires StandsAt(s, i, "<" + (("parameter " + attribute) + ">")) && attribute != [] && attribute[0] == 'n'
    ensures ParseTagWithValue(s, i, "parameter") == Option.None
  {
    hide StandsAt, Trim, FindChar;
    var inner := ("parameter " + attribute) + ">";
    PlaceSplit(s, i, "<", inner);
    PlaceChar(s, i, "<", 0);
    assert inner == "parameter" + (" " + (attribute + ">"));
    PlaceSplit(s, i + 1, "parameter", " " + (attribute + ">"));
    PlaceChar(s, i + 1, inner, 0);
    PlaceChar(s, i + 10, " " + (attribute + ">"), 0);
    PlaceChar(s, i + 10, " " + (attribute + ">"), 1);
    NoBlanksToSkip(s, i + 1);
    NoBlanksToSkip(s, i + 11);
    assert SkipBlanks(s, i + 10) == SkipBlanks(s, i + 11);
  }

  lemma {:induction false} AttributeRuns(s: string, i: nat, param: Param, p: Parser) returns (q: Parser)
    requires param.Attribute? && StandsAt(s, i, PrintParam(param)) && GoodParam(param) && p.state == InFunction
    ensures Run(s, i, p) == Run(s, i + |PrintParam(param)|, q)
    ensures q == p.(pending := q.pending, args := ArgAdded(p.args, param))
  {
    hide Run, StandsAt, Trim, NoClosingTag, ParseAttrTag, ParseTagWithValue, MatchCloseTag, AttributeTag, NoTag;
    hide PrintParam;
    var tag := AttributeTag(param.key, param.quote);
    var whole := tag + (param.value + "</parameter>");
    AttributePrinted(param);
    PlaceSplit(s, i, whole, param.gap);
    AttributeRead(s, i, param.key, param.quote, param.value);
    AttributeOpens(s, i, param.key, param.quote, param.value + "</parameter>");
    RunStep(s, i, p);
    q := Step(s, i, p).p;
    q := GapRuns(s, i + |whole|, param.gap, q);
  }

  lemma {:induction false} AttributePrinted(param: Param)
    requires param.Attribute?
    ensures PrintParam(param) == AttributeTag(param.key, param.quote) + (param.value + "</parameter>") + param.gap
  {
    hide AttributeTag;
  }

  lemma {:induction false} AttributeOpens(s: string, i: nat, key: string, quote: char, rest: string)
    requires StandsAt(s, i, AttributeTag(key, quote) + rest)
    ensures i < |s| && s[i] == '<'
    ensures MatchCloseTag(s, i, "function") == -1 && MatchCloseTag(s, i, "tool_call") == -1
  {
    hide StandsAt;
    var tag := AttributeTag(key, quote);
    PlaceSplit(s, i, tag, rest);
    PlaceChar(s, i, tag, 0);
    NotClosing(s, i, tag, "function");
    NotClosing(s, i, tag, "tool_call");
  }

  lemma {:induction false} ParamsRun(s: string, i: nat, params: seq<Param>, p: Parser) returns (q: Parser)
    requires StandsAt(s, i, PrintParams(params)) && (forall param :: param in params ==> GoodParam(param))
    requires p.state == InFunction && p.paramName == [] && p.paramValue == []
    ensures Run(s, i, p) == Run(s, i + |PrintParams(params)|, q)
    ensures q == p.(pending := q.pending, args := ArgsOf(p.args, params))
    decreases |params|
  {
    hide Run, StandsAt, Trim, GoodParam, PrintParam, ArgAdded;
    if params == [] {
      q := p;
    } else {
      PlaceSplit(s, i, PrintParam(params[0]), PrintParams(params[1..]));
      q := ParamRuns(s, i, params[0], p);
      q := ParamsRun(s, i + |PrintParam(params[0])|, params[1..], q);
    }
  }

  // ---------------------------------------------------------------- calls

  /** From the function tag to the last parameter. */
  lemma {:induction false} TaggedRuns(s: string, i: nat, c: Shown, p: Parser) returns (q: Parser)
    requires StandsAt(s, i, Tagged(c)) && GoodCall(c)
    requires p.state == InToolCall && p.paramName == [] && p.paramValue == []
    ensures |Closing(c)| <= |Tagged(c)|
    ensures var j := i + |Tagged(c)| - |Closing(c)|;
      Run(s, i, p) == Run(s, j, q) && StandsAt(s, j, Closing(c))
    ensures q == p.(state := InFunction, pending := q.pending, funcName := Trim(c.name),
      args := ArgsOf(map[], c.params))
  {
    hide Run, StandsAt, Trim, NoTag, GoodParam, PrintParams, ArgsOf, Closing;
    var fromParams := PrintParams(c.params) + Closing(c);
    var tag := "<function=" + c.name + ">";
    PlaceSplit(s, i, tag, c.inside + fromParams);
    q := FunctionRuns(s, i, c.name, p);
    var j := i + |tag|;
    PlaceSplit(s, j, c.inside, fromParams);
    q := GapRuns(s, j, c.inside, q);
    j := j + |c.inside|;
    PlaceSplit(s, j, PrintParams(c.params), Closing(c));
    q := ParamsRun(s, j, c.params, q);
  }

  lemma {:induction false} EndRuns(s: string, i: nat, after: string, close: string, p: Parser)
    requires StandsAt(s, i, after + close) && NoTag(after) && Closes(close, "tool_call")
    requires (p.state == InFunction || p.state == InToolCall) && p.funcName != [] && p.paramValue == []
    ensures Run(s, i, p) == Run(s, i + |after + close|,
      p.(state := InText, pending := [], funcName := [], args := map[], calls := p.calls + [Call(p.funcName, p.args)]))
  {
    hide Run, StandsAt, NoTag, Closes;
    PlaceSplit(s, i, after, close);
    var q := GapRuns(s, i, after, p);
    CloseCallRuns(s, i + |after|, close, q);
  }

  lemma {:induction false} ClosingRuns(s: string, i: nat, c: Shown, p: Parser)
    requires StandsAt(s, i, Closing(c)) && NoTag(c.after) && Closes(c.close, "tool_call")
    requires c.closeFunction == [] || Closes(c.closeFunction, "function")
    requires p.state == InFunction && p.funcName != [] && p.paramValue == []
    ensures Run(s, i, p) == Run(s, i + |Closing(c)|,
      p.(state := InText, pending := [], funcName := [], args := map[], calls := p.calls + [Call(p.funcName, p.args)]))
  {
    hide Run, StandsAt, NoTag, Closes;
    var rest := c.after + c.close;
    PlaceSplit(s, i, c.closeFunction, rest);
    if c.closeFunction != [] {
      CloseFunctionRuns(s, i, c.closeFunction, p);
      EndRuns(s, i + |c.closeFunction|, c.after, c.close,
        p.(state := InToolCall, pending := p.pending + c.closeFunction));
    } else {
      EndRuns(s, i, c.after, c.close, p);
    }
  }

  lemma {:induction false} CallRuns(s: string, i: nat, c: Shown, p: Parser)
    requires StandsAt(s, i, PrintCall(c)) && GoodCall(c) && NoFence(s)
    requires p == START.(content := p.content, calls := p.calls)
    ensures Run(s, i, p) == Run(s, i + |PrintCall(c)|, p.(calls := p.calls + [CallOf(c)]))
  {
    hide Run, StandsAt, Trim, NoTag, NoFence, GoodParam, Tagged, Closing, ArgsOf, Opens, Closes;
    PlaceSplit(s, i, c.open, c.before + Tagged(c));
    var j := i + |c.open|;
    OpenRuns(s, i, c.open, p);
    PlaceSplit(s, j, c.before, Tagged(c));
    var q := GapRuns(s, j, c.before, p.(state := InToolCall, pending := c.open, funcName := [], args := map[]));
    j := j + |c.before|;
    q := TaggedRuns(s, j, c, q);
    ClosingRuns(s, j + |Tagged(c)| - |Closing(c)|, c, q);
  }

  lemma {:induction false} PartsRun(s: string, i: nat, parts: seq<Part>, p: Parser)
    requires StandsAt(s, i, PrintParts(parts)) && NoFence(s) && (forall part :: part in parts ==> GoodPart(part))
    requires p == START.(content := p.content, calls := p.calls)
    ensures Run(s, i, p) ==
      Run(s, i + |PrintParts(parts)|, p.(content := p.content + TextsOf(parts), calls := p.calls + CallsOf(parts)))
    decreases |parts|
  {
    hide Run, StandsAt, NoTag, NoFence, PrintCall, GoodCall, CallOf;
    if parts == [] {
      assert p.content + [] == p.content && p.calls + [] == p.calls;
    } else {
      var c, text, rest := parts[0].call, parts[0].text, parts[1..];
      assert GoodPart(parts[0]);
      PlaceSplit(s, i, PrintCall(c), text + PrintParts(rest));
      CallRuns(s, i, c, p);
      var j := i + |PrintCall(c)|;
      PlaceSplit(s, j, text, PrintParts(rest));
      var q := p.(calls := p.calls + [CallOf(c)]);
      TextRuns(s, j, text, q);
      q := q.(content := q.content + text);
      PartsRun(s, j + |text|, rest, q);
      assert p.content + text + TextsOf(rest) == p.content + (text + TextsOf(rest));
      assert p.calls + [CallOf(c)] + CallsOf(rest) == p.calls + ([CallOf(c)] + CallsOf(rest));
    }
  }

  lemma {:induction false} AllOfIt(s: string)
    ensures StandsAt(s, 0, s)
  {
  }

  /** Parsing undoes printing: calls printed with any texts free of `<` around and between their tags are
      read back in order, and the content is the texts outside the calls. */
  lemma {:induction false} ParsingUndoesPrinting(text: string, parts: seq<Part>)
    requires NoTag(text) && (forall part :: part in parts ==> GoodPart(part)) && NoFence(Print(text, parts))
    ensures Parse(Print(text, parts)) == ParseResult(text + TextsOf(parts), CallsOf(parts))
  {
    hide Run, NoTag, NoFence, GoodPart, PrintParts, StandsAt, TextsOf, CallsOf;
    var s := Print(text, parts);
    AllOfIt(s);
    PlaceSplit(s, 0, text, PrintParts(parts));
    TextRuns(s, 0, text, START);
    assert [] + text == text && [] + CallsOf(parts) == CallsOf(parts);
    var p := START.(content := text);
    PartsRun(s, |text|, parts, p);
    RunEnd(s, |s|, p.(content := text + TextsOf(parts), calls := CallsOf(parts)));
  }

  /** A call that is opened but never closed leaves the input as it was. */
  lemma {:induction false} UnfinishedStays(text: string, open: string, rest: string)
    requires NoTag(text) && NoTag(rest) && Opens(open, "tool_call") && NoFence(text + (open + rest))
    ensures Parse(text + (open + rest)) == ParseResult(text + (open + rest), [])
  {
    hide Run, NoTag, NoFence, StandsAt, Opens;
    var s := text + (open + rest);
    AllOfIt(s);
    PlaceSplit(s, 0, text, open + rest);
    PlaceSplit(s, |text|, open, rest);
    TextRuns(s, 0, text, START);
    assert [] + text == text;
    var p := START.(content := text);
    OpenRuns(s, |text|, open, p);
    var q := GapRuns(s, |text| + |open|, rest,
      p.(state := InToolCall, pending := open, funcName := [], args := map[]));
    RunEnd(s, |s|, q);
  }

  lemma {:induction false} NamelessCloses(s: string, i: nat, form: string, p: Parser)
    requires Closes(form, "tool_call") && StandsAt(s, i, form)
    requires p.state == InToolCall && p.funcName == [] && p.args == map[]
    ensures Run(s, i, p) == Run(s, i + |form|, p.(state := InText, pending := [], content := p.content + p.pending))
  {
    hide Run, StandsAt, ParseTagWithValue, ParseFunctionTagAsContent, MatchCloseTag;
    CloseMatches(s, i, form, "tool_call");
    RunStep(s, i, p);
  }

  /** Of a call without a function the opening tag and the text in it stay, and the closing tag goes. */
  lemma {:induction false} NamelessCallStays(text: string, open: string, inside: string, close: string)
    requires NoTag(text) && NoTag(inside) && Opens(open, "tool_call") && Closes(close, "tool_call")
    requires NoFence(text + (open + (inside + close)))
    ensures Parse(text + (open + (inside + close))) == ParseResult(text + (open + inside), [])
  {
    hide Run, NoTag, NoFence, StandsAt, Opens, Closes;
    var s := text + (open + (inside + close));
    AllOfIt(s);
    PlaceSplit(s, 0, text, open + (inside + close));
    PlaceSplit(s, |text|, open, inside + close);
    PlaceSplit(s, |text| + |open|, inside, close);
    TextRuns(s, 0, text, START);
    assert [] + text == text;
    var p := START.(content := text);
    OpenRuns(s, |text|, open, p);
    var q := GapRuns(s, |text| + |open|, inside,
      p.(state := InToolCall, pending := open, funcName := [], args := map[]));
    var j := |text| + |open| + |inside|;
    NamelessCloses(s, j, close, q);
    RunEnd(s, |s|, q.(state := InText, pending := [], content := q.content + q.pending));
    assert text + (open + inside) == text + open + inside;
  }

  // ---------------------------------------------------------------- arguments come back exactly

  predicate TrimmedParam(p: Param) {
    p.key != [] && Trimmed(p.key) && Trimmed(p.value)
  }

  predicate DistinctKeys(params: seq<Param>) {
    forall i, j :: 0 <= i < j < |params| ==> params[i].key != params[j].key
  }

  /** Trimmed parameters with distinct keys are read back as exactly these keys and values. */
  lemma {:induction false} ArgumentsComeBack(args: map<string, string>, params: seq<Param>)
    requires forall p :: p in params ==> TrimmedParam(p) && p.key !in args
    requires DistinctKeys(params)
    ensures var r := ArgsOf(args, params);
      && (forall p :: p in params ==> p.key in r && r[p.key] == p.value)
      && (forall k :: k in args ==> k in r && r[k] == args[k])
      && (forall k :: k in r ==> k in args || exists p :: p in params && p.key == k)
    decreases |params|
  {
    hide ArgAdded, TrimmedParam;
    if params != [] {
      var p, rest := params[0], params[1..];
      assert params == [p] + rest;
      ArgComesBack(args, p);
      forall q | q in rest ensures TrimmedParam(q) && q.key !in args[p.key := p.value] {
        var k :| 0 <= k < |rest| && rest[k] == q;
        assert params[0].key != params[k + 1].key;
      }
      assert DistinctKeys(rest) by {
        forall i, j | 0 <= i < j < |rest| ensures rest[i].key != rest[j].key {
          assert params[i + 1].key != params[j + 1].key;
        }
      }
      ArgumentsComeBack(args[p.key := p.value], rest);
    }
  }

  lemma {:induction false} ArgComesBack(args: map<string, string>, p: Param)
    requires TrimmedParam(p)
    ensures ArgAdded(args, p) == args[p.key := p.value]
  {
    hide Trim, Trimmed, Blank;
    TrimEmpty(p.key);
    TrimIdentity(p.key);
    TrimIdentity(p.value);
  }

  // ---------------------------------------------------------------- texts without calls

  /** An input whose opening tags all stand in code blocks is left as it is. */
  lemma {:induction false} FencedTextUntouched(s: string)
    requires forall i :: 0 <= i < |s| && MatchOpenTag(s, i, "tool_call") > 0 ==> InCodeBlock(s, i)
    ensures Parse(s) == ParseResult(s, [])
  {
    hide Run;
    TextOnly(s, 0, START);
    assert [] + s[0..] == s;
    RunEnd(s, |s|, START.(content := s));
  }

  /** Behind a fence that is not closed everything stays as it is, whatever tags it holds. */
  lemma {:induction false} OpenFenceStays(s: string)
    requires StandsAt(s, 0, "```") && forall i :: 1 <= i < |s| ==> !StandsAt(s, i, "```")
    ensures Parse(s) == ParseResult(s, [])
  {
    hide Parse;
    forall i | 0 <= i < |s| && MatchOpenTag(s, i, "tool_call") > 0
      ensures InCodeBlock(s, i)
    {
      if i == 0 {
        PlaceChar(s, 0, "```", 0);
        NoLessNoTag(s, 0, "tool_call");
      } else {
        OneFence(s, i);
      }
    }
    FencedTextUntouched(s);
  }

  lemma {:induction false} OneFence(s: string, pos: nat)
    requires StandsAt(s, 0, "```") && forall i :: 1 <= i < |s| ==> !StandsAt(s, i, "```")
    requires 0 < pos <= |s|
    ensures Fences(s, pos) == 1
  {
    if pos > 1 { OneFence(s, pos - 1); }
  }

  lemma {:induction false} TextOnly(s: string, i: nat, p: Parser)
    requires forall k :: 0 <= k < |s| && MatchOpenTag(s, k, "tool_call") > 0 ==> InCodeBlock(s, k)
    requires i <= |s| && p.state == InText
    ensures Run(s, i, p) == Run(s, |s|, p.(content := p.content + s[i..]))
    decreases |s| - i
  {
    hide Run, MatchOpenTag, MatchCloseTag, InCodeBlock;
    if i == |s| {
      assert p.content + s[i..] == p.content;
    } else {
      RunStep(s, i, p);
      var next := TextStep(s, i, p);
      assert next.p == p.(content := p.content + s[i..next.i]);
      TextOnly(s, next.i, next.p);
      assert p.content + s[i..next.i] + s[next.i..] == p.content + s[i..];
    }
  }
}
