/** Reading tool calls that a model wrote as XML (pkg/agent/xml_parser.go:30-265, 385-566). */
module XmlToolCalls {
  import opened Options
  import opened Text

  datatype Call = Call(name: string, args: map<string, string>)

  datatype ParseState = InText | InToolCall | InFunction | InParam

  /** The local variables of the parser. */
  datatype Parser = Parser(
    state: ParseState, content: string, pending: string,
    funcName: string, paramName: string, paramValue: string,
    args: map<string, string>, calls: seq<Call>)

  const START := Parser(InText, [], [], [], [], [], map[], [])

  datatype ParseResult = ParseResult(content: string, calls: seq<Call>)

  // ---------------------------------------------------------------- tags

  /** The first position from `start` on that holds `c`, or -1. */
  function FindChar(s: string, start: nat, c: char): (r: int)
    ensures r == -1 || (start <= r < |s| && s[r] == c && c !in s[start..r])
    decreases |s| - start
  {
    if start >= |s| then -1 else if s[start] == c then start else FindChar(s, start + 1, c)
  }

  /** The first position from `start` on where `sub` stands, or -1. */
  function FindText(s: string, start: nat, sub: string): (r: int)
    ensures r == -1 || (start <= r && StandsAt(s, r, sub))
    decreases |s| - start
  {
    if StandsAt(s, start, sub) then start
    else if start >= |s| then -1
    else FindText(s, start + 1, sub)
  }

  function SkipBlanks(s: string, i: nat): (r: nat)
    ensures i <= r && (i <= |s| ==> r <= |s|)
    decreases |s| - i
  {
    if i < |s| && (s[i] == ' ' || s[i] == '\t' || s[i] == '\n' || s[i] == '\r') then SkipBlanks(s, i + 1) else i
  }

  /** The end of the first of the four forms that stands at `i`, or -1. */
  function MatchAny(s: string, i: nat, a: string, b: string, c: string, d: string): int {
    if StandsAt(s, i, a) then i + |a|
    else if StandsAt(s, i, b) then i + |b|
    else if StandsAt(s, i, c) then i + |c|
    else if StandsAt(s, i, d) then i + |d|
    else -1
  }

  function MatchOpenTag(s: string, i: nat, tag: string): (r: int)
    ensures r == -1 || i < r <= |s|
  {
    MatchAny(s, i, "<" + tag + ">", "<" + tag + " >", "< " + tag + ">", "< " + tag + " >")
  }

  function MatchCloseTag(s: string, i: nat, tag: string): (r: int)
    ensures r == -1 || i < r <= |s|
  {
    MatchAny(s, i, "</" + tag + ">", "</ " + tag + " >", "</" + tag + " >", "< /" + tag + ">")
  }

  /** A tag that was read: the name in it and the position behind it. */
  datatype Tag = Tag(name: string, next: nat)

  function ParseTagWithValue(s: string, i: nat, tag: string): (r: Option<Tag>)
    ensures r.Some? ==> i < r.value.next <= |s|
  {
    if i >= |s| || s[i] != '<' then None
    else
      var at := SkipBlanks(s, i + 1);
      if !StandsAt(s, at, tag) then None
      else
        var eq := SkipBlanks(s, at + |tag|);
        if eq >= |s| || s[eq] != '=' then None
        else
          var from := SkipBlanks(s, eq + 1);
          var end := FindChar(s, from, '>');
          if end < 0 then None else Some(Tag(Trim(s[from..end]), end + 1))
  }

  function ParseFunctionTagAsContent(s: string, i: nat): (r: Option<Tag>)
    ensures r.Some? ==> i < r.value.next <= |s|
  {
    if !StandsAt(s, i, "<function>") then None
    else
      var from := i + |"<function>"|;
      var closeFunc := FindText(s, from, "</function>");
      var bracket := FindChar(s, from, '>');
      var firstLT := FindChar(s, from, '<');
      var tag :=
        if bracket >= 0 && (firstLT < 0 || bracket < firstLT) then Some(Tag(Trim(s[from..bracket]), bracket + 1))
        else if closeFunc >= 0 && (firstLT < 0 || firstLT == closeFunc) then
          Some(Tag(Trim(s[from..closeFunc]), closeFunc))
        else if firstLT >= 0 then Some(Tag(Trim(s[from..firstLT]), firstLT))
        else None;
      if tag.Some? && tag.value.name == [] then None else tag
  }

  /** The value of the attribute `name` in double or single quotes. */
  function NameAttribute(attributes: string): Option<string> {
    if StandsAt(attributes, 0, "name=\"") then
      var end := FindChar(attributes, 6, '"');
      if end < 0 then None else Some(attributes[6..end])
    else if StandsAt(attributes, 0, "name='") then
      var end := FindChar(attributes, 6, '\'');
      if end < 0 then None else Some(attributes[6..end])
    else None
  }

  datatype AttrTag = AttrTag(name: string, content: string, next: nat)

  function ParseAttrTag(s: string, i: nat): (r: Option<AttrTag>)
    ensures r.Some? ==> i < r.value.next <= |s|
  {
    if i >= |s| || s[i] != '<' then None
    else
      var close := FindChar(s, i + 1, '>');
      if close < 0 then None
      else
        var name := AttributeIn(s[i + 1..close]);
        var closeTag := FindText(s, close + 1, "</parameter>");
        if name.None? || name.value == [] || closeTag < 0 then None
        else Some(AttrTag(name.value, Trim(s[close + 1..closeTag]), closeTag + |"</parameter>"|))
  }

  /** The name in a tag without its brackets. */
  function AttributeIn(inner: string): Option<string> {
    if StandsAt(inner, 0, "parameter ") then NameAttribute(Trim(inner[|"parameter "|..])) else None
  }

  // ---------------------------------------------------------------- code blocks

  predicate FenceAt(s: string, i: nat) {
    StandsAt(s, i, "```")
  }

  /** How many fences start before `pos`. */
  function Fences(s: string, pos: nat): nat {
    if pos == 0 then 0 else Fences(s, pos - 1) + (if FenceAt(s, pos - 1) then 1 else 0)
  }

  predicate InCodeBlock(s: string, pos: nat) {
    Fences(s, pos) % 2 == 1
  }

  method IsInCodeBlock(s: string, pos: nat) returns (b: bool)
    ensures b == InCodeBlock(s, pos)
  {
    var count, i := 0, 0;
    while i < pos && i + 2 < |s|
      invariant i <= pos && count == Fences(s, i)
    {
      if s[i..i + 3] == "```" { count := count + 1; }
      i := i + 1;
    }
    NoFencesBeyond(s, i, pos);
    return count % 2 == 1;
  }

  lemma {:induction false} NoFencesBeyond(s: string, i: nat, pos: nat)
    requires i <= pos && (i == pos || i + 2 >= |s|)
    ensures Fences(s, pos) == Fences(s, i)
  {
    if i < pos { NoFencesBeyond(s, i, pos - 1); }
  }

  // ---------------------------------------------------------------- the parser

  datatype Next = Next(p: Parser, i: nat)

  function TextStep(s: string, i: nat, p: Parser): (r: Next)
    requires i < |s|
    ensures i < r.i <= |s|
  {
    var open, close := MatchOpenTag(s, i, "tool_call"), MatchCloseTag(s, i, "tool_call");
    if !InCodeBlock(s, i) && open > 0 then
      Next(p.(pending := s[i..open], state := InToolCall, funcName := [], args := map[]), open)
    else if !InCodeBlock(s, i) && close > 0 then
      Next(p.(content := p.content + s[i..close]), close)
    else
      Next(p.(content := p.content + [s[i]]), i + 1)
  }

  /** Anything else inside a call goes to the pending text, a tag at once. */
  function OtherStep(s: string, i: nat, p: Parser): (r: Next)
    requires i < |s|
    ensures i < r.i <= |s|
  {
    var end := FindChar(s, i + 1, '>');
    var next := if s[i] == '<' && end > 0 then end + 1 else i + 1;
    Next(p.(pending := p.pending + s[i..next]), next)
  }

  function ToolCallStep(s: string, i: nat, p: Parser): (r: Next)
    requires i < |s|
    ensures i < r.i <= |s|
  {
    var close := MatchCloseTag(s, i, "tool_call");
    var tag := ParseTagWithValue(s, i, "function");
    var content := ParseFunctionTagAsContent(s, i);
    if close > 0 then
      Next(p.(state := InText, pending := [], funcName := [], args := map[],
              calls := if p.funcName != [] then p.calls + [Call(p.funcName, p.args)] else p.calls,
              content := if p.funcName != [] then p.content else p.content + p.pending),
           close)
    else if tag.Some? then
      Next(p.(state := InFunction, pending := p.pending + s[i..tag.value.next], funcName := tag.value.name,
        args := map[]),
           tag.value.next)
    else if content.Some? then
      Next(p.(state := InFunction, pending := p.pending + s[i..content.value.next], funcName := content.value.name,
        args := map[]),
           content.value.next)
    else OtherStep(s, i, p)
  }

  function FunctionStep(s: string, i: nat, p: Parser): (r: Next)
    requires i < |s|
    ensures i < r.i <= |s|
  {
    var closeFunction, closeCall := MatchCloseTag(s, i, "function"), MatchCloseTag(s, i, "tool_call");
    var tag := ParseTagWithValue(s, i, "parameter");
    var attr := ParseAttrTag(s, i);
    if closeFunction > 0 then
      Next(p.(state := InToolCall, pending := p.pending + s[i..closeFunction]), closeFunction)
    else if closeCall > 0 then
      Next(p.(state := InText, pending := [], funcName := [], args := map[], paramValue := [],
              calls := if p.funcName != [] then p.calls + [Call(p.funcName, p.args)] else p.calls),
           closeCall)
    else if tag.Some? then
      Next(p.(state := InParam, pending := p.pending + s[i..tag.value.next], paramName := tag.value.name,
        paramValue := []),
           tag.value.next)
    else if attr.Some? then
      Next(p.(pending := p.pending + s[i..attr.value.next], args := p.args[attr.value.name := attr.value.content]),
           attr.value.next)
    else OtherStep(s, i, p)
  }

  /** A parameter with an empty name is dropped. */
  function WithArg(args: map<string, string>, name: string, value: string): map<string, string> {
    if name != [] then args[name := value] else args
  }

  function ParamStep(s: string, i: nat, p: Parser): (r: Next)
    requires i < |s|
    ensures i < r.i <= |s|
  {
    var close := MatchCloseTag(s, i, "parameter");
    if close > 0 then
      Next(p.(state := InFunction, pending := p.pending + s[i..close],
              args := WithArg(p.args, p.paramName, Trim(p.paramValue)), paramName := [], paramValue := []),
           close)
    else
      Next(p.(paramValue := p.paramValue + [s[i]]), i + 1)
  }

  function Step(s: string, i: nat, p: Parser): (r: Next)
    requires i < |s|
    ensures i < r.i <= |s|
  {
    match p.state
    case InText => TextStep(s, i, p)
    case InToolCall => ToolCallStep(s, i, p)
    case InFunction => FunctionStep(s, i, p)
    case InParam => ParamStep(s, i, p)
  }

  function Run(s: string, i: nat, p: Parser): Parser
    decreases |s| - i
  {
    if i >= |s| then p
    else
      var next := Step(s, i, p);
      Run(s, next.i, next.p)
  }

  /** What an unfinished call leaves in the content. */
  function Finish(p: Parser): ParseResult {
    ParseResult(
      if p.state == InText then p.content
      else if p.paramName != [] then p.content + p.pending + p.paramValue
      else p.content + p.pending,
      p.calls)
  }

  function Parse(s: string): ParseResult {
    Finish(Run(s, 0, START))
  }

  lemma {:induction false} RunStep(s: string, i: nat, p: Parser)
    requires i < |s|
    ensures Run(s, i, p) == Run(s, Step(s, i, p).i, Step(s, i, p).p)
  {
    hide Step;
  }

  /** The loop. Outside a parameter no parameter name is held, so that the places where the source
      stores a parameter left open do nothing. */
  method ParseWithWrapper(s: string) returns (result: ParseResult)
    ensures result == Parse(s)
  {
    hide Run, InCodeBlock, MatchOpenTag, MatchCloseTag, ParseTagWithValue, ParseFunctionTagAsContent, ParseAttrTag;
    hide FindChar, Trim;
    var content, pending: string := [], [];
    var state := InText;
    var funcName, paramName, paramValue: string := [], [], [];
    var args: map<string, string> := map[];
    var calls: seq<Call> := [];
    var i := 0;
    while i < |s|
      invariant i <= |s|
      invariant Run(s, 0, START) == Run(s, i, Parser(state, content, pending, funcName, paramName, paramValue, args,
        calls))
      invariant state != InParam ==> paramName == [] && paramValue == []
      decreases |s| - i
    {
      ghost var p := Parser(state, content, pending, funcName, paramName, paramValue, args, calls);
      RunStep(s, i, p);
      match state {
        case InText =>
          ghost var next := TextStep(s, i, p);
          var fenced := IsInCodeBlock(s, i);
          var open, close := MatchOpenTag(s, i, "tool_call"), MatchCloseTag(s, i, "tool_call");
          if fenced {
            content := content + [s[i]];
            i := i + 1;
          } else if open > 0 {
            pending := s[i..open];
            state, funcName, args := InToolCall, [], map[];
            i := open;
          } else if close > 0 {
            content := content + s[i..close];
            i := close;
          } else {
            content := content + [s[i]];
            i := i + 1;
          }
          assert next == Next(Parser(state, content, pending, funcName, paramName, paramValue, args, calls), i);
        case InToolCall =>
          ghost var next := ToolCallStep(s, i, p);
          var close := MatchCloseTag(s, i, "tool_call");
          var tag := ParseTagWithValue(s, i, "function");
          var asContent := ParseFunctionTagAsContent(s, i);
          if close > 0 {
            if funcName != [] {
              calls := calls + [Call(funcName, args)];
            } else {
              content := content + pending;
            }
            funcName, args, pending, state := [], map[], [], InText;
            i := close;
          } else if tag.Some? {
            pending := pending + s[i..tag.value.next];
            funcName, args, state := tag.value.name, map[], InFunction;
            i := tag.value.next;
          } else if asContent.Some? {
            pending := pending + s[i..asContent.value.next];
            funcName, args, state := asContent.value.name, map[], InFunction;
            i := asContent.value.next;
          } else {
            pending, i := AppendOther(s, i, pending, p);
          }
          assert next == Next(Parser(state, content, pending, funcName, paramName, paramValue, args, calls), i);
        case InFunction =>
          ghost var next := FunctionStep(s, i, p);
          var closeFunction, closeCall := MatchCloseTag(s, i, "function"), MatchCloseTag(s, i, "tool_call");
          var tag := ParseTagWithValue(s, i, "parameter");
          var attr := ParseAttrTag(s, i);
          if closeFunction > 0 {
            pending := pending + s[i..closeFunction];
            state := InToolCall;
            i := closeFunction;
          } else if closeCall > 0 {
            if funcName != [] { calls := calls + [Call(funcName, args)]; }
            funcName, args, paramName, paramValue, pending, state := [], map[], [], [], [], InText;
            i := closeCall;
          } else if tag.Some? {
            pending := pending + s[i..tag.value.next];
            paramName, paramValue, state := tag.value.name, [], InParam;
            i := tag.value.next;
          } else if attr.Some? {
            pending := pending + s[i..attr.value.next];
            args := args[attr.value.name := attr.value.content];
            i := attr.value.next;
          } else {
            pending, i := AppendOther(s, i, pending, p);
          }
          assert next == Next(Parser(state, content, pending, funcName, paramName, paramValue, args, calls), i);
        case InParam =>
          ghost var next := ParamStep(s, i, p);
          var close := MatchCloseTag(s, i, "parameter");
          if close > 0 {
            pending := pending + s[i..close];
            if paramName != [] { args := args[paramName := Trim(paramValue)]; }
            paramName, paramValue, state := [], [], InFunction;
            i := close;
          } else {
            paramValue := paramValue + [s[i]];
            i := i + 1;
          }
          assert next == Next(Parser(state, content, pending, funcName, paramName, paramValue, args, calls), i);
      }
    }
    RunEnd(s, i, Parser(state, content, pending, funcName, paramName, paramValue, args, calls));
    if state != InText {
      content := content + pending;
      if paramName != [] { content := content + paramValue; }
    }
    return ParseResult(content, calls);
  }

  lemma {:induction false} RunEnd(s: string, i: nat, p: Parser)
    requires i >= |s|
    ensures Run(s, i, p) == p
  {
  }

  method AppendOther(s: string, i: nat, pending: string, ghost p: Parser) returns (pending': string, i': nat)
    requires i < |s| && p.pending == pending
    ensures OtherStep(s, i, p) == Next(p.(pending := pending'), i')
  {
    if s[i] == '<' {
      var end := FindChar(s, i + 1, '>');
      if end > 0 { return pending + s[i..end + 1], end + 1; }
    }
    assert s[i..i + 1] == [s[i]];
    return pending + [s[i]], i + 1;
  }
}
