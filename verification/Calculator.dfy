/** The calculator's expression parser (pkg/tools/helpers.go:171-353). Numbers are reals; powers and
    the named functions are parameters. */
module Calculators {

  datatype Token =
    | Number(x: real) | Plus | Minus | Star | Slash | Percent | StarStar
    | Open | Close | Func(name: string) | Comma

  datatype Error =
    | UnexpectedEnd | UnexpectedToken | MissingClose | ExpectedOpen | TrailingToken
    | DivisionByZero | ModuloByZero | UnknownFunction

  datatype Op = Add | Sub | Times | Over | Rem | Power

  /** A value, an error, or the runtime fault of an integer division by zero. */
  datatype Outcome<V> = Value(v: V) | Fails(error: Error) | Panics

  /** What the parser computes with. */
  datatype Algebra<!V> = Algebra(
    number: real -> V, negate: V -> V, keep: V -> V, group: V -> V,
    apply: (string, V) -> Outcome<V>, combine: (Op, V, V) -> Outcome<V>)

  datatype Parsed<V> = Ok(value: V, rest: seq<Token>) | Err(error: Error) | Panic

  predicate IsSumOp(t: Token) { t == Plus || t == Minus }

  predicate IsTermOp(t: Token) { t == Star || t == Slash || t == Percent }

  function OpOf(t: Token): Op
    requires IsSumOp(t) || IsTermOp(t)
  {
    if t == Plus then Add else if t == Minus then Sub
    else if t == Star then Times else if t == Slash then Over else Rem
  }

  function After<V>(outcome: Outcome<V>, rest: seq<Token>): Parsed<V> {
    match outcome
    case Value(v) => Ok(v, rest)
    case Fails(e) => Err(e)
    case Panics => Panic
  }

  // ---------------------------------------------------------------- the parser

  function SumParse<V>(a: Algebra<V>, ts: seq<Token>): (r: Parsed<V>)
    ensures r.Ok? ==> |r.rest| < |ts|
    decreases |ts|, 5
  {
    match TermParse(a, ts)
    case Ok(left, rest) => SumLoop(a, left, rest)
    case other => other
  }

  function SumLoop<V>(a: Algebra<V>, left: V, ts: seq<Token>): (r: Parsed<V>)
    ensures r.Ok? ==> |r.rest| <= |ts|
    decreases |ts|, 6
  {
    if ts == [] || !IsSumOp(ts[0]) then Ok(left, ts)
    else
      match TermParse(a, ts[1..])
      case Ok(right, rest) =>
        (match a.combine(OpOf(ts[0]), left, right)
         case Value(v) => SumLoop(a, v, rest)
         case Fails(e) => Err(e)
         case Panics => Panic)
      case other => other
  }

  function TermParse<V>(a: Algebra<V>, ts: seq<Token>): (r: Parsed<V>)
    ensures r.Ok? ==> |r.rest| < |ts|
    decreases |ts|, 4
  {
    match PowerParse(a, ts)
    case Ok(left, rest) => TermLoop(a, left, rest)
    case other => other
  }

  function TermLoop<V>(a: Algebra<V>, left: V, ts: seq<Token>): (r: Parsed<V>)
    ensures r.Ok? ==> |r.rest| <= |ts|
    decreases |ts|, 6
  {
    if ts == [] || !IsTermOp(ts[0]) then Ok(left, ts)
    else
      match PowerParse(a, ts[1..])
      case Ok(right, rest) =>
        (match a.combine(OpOf(ts[0]), left, right)
         case Value(v) => TermLoop(a, v, rest)
         case Fails(e) => Err(e)
         case Panics => Panic)
      case other => other
  }

  function PowerParse<V>(a: Algebra<V>, ts: seq<Token>): (r: Parsed<V>)
    ensures r.Ok? ==> |r.rest| < |ts|
    decreases |ts|, 3
  {
    match UnaryParse(a, ts)
    case Ok(left, rest) =>
      if rest == [] || rest[0] != StarStar then Ok(left, rest)
      else
        (match PowerParse(a, rest[1..])
         case Ok(right, rest') => After(a.combine(Power, left, right), rest')
         case other => other)
    case other => other
  }

  function UnaryParse<V>(a: Algebra<V>, ts: seq<Token>): (r: Parsed<V>)
    ensures r.Ok? ==> |r.rest| < |ts|
    decreases |ts|, 2
  {
    if ts == [] then Err(UnexpectedEnd)
    else if ts[0] == Minus then
      match UnaryParse(a, ts[1..])
      case Ok(v, rest) => Ok(a.negate(v), rest)
      case other => other
    else if ts[0] == Plus then
      match UnaryParse(a, ts[1..])
      case Ok(v, rest) => Ok(a.keep(v), rest)
      case other => other
    else PrimaryParse(a, ts)
  }

  function PrimaryParse<V>(a: Algebra<V>, ts: seq<Token>): (r: Parsed<V>)
    ensures r.Ok? ==> |r.rest| < |ts|
    decreases |ts|, 1
  {
    if ts == [] then Err(UnexpectedEnd)
    else
      match ts[0]
      case Number(x) => Ok(a.number(x), ts[1..])
      case Open =>
        (match SumParse(a, ts[1..])
         case Ok(v, rest) => if rest == [] || rest[0] != Close then Err(MissingClose) else Ok(a.group(v), rest[1..])
         case other => other)
      case Func(name) =>
        if |ts| == 1 || ts[1] != Open then Err(ExpectedOpen)
        else
          (match SumParse(a, ts[2..])
           case Ok(v, rest) =>
             if rest == [] || rest[0] != Close then Err(MissingClose) else After(a.apply(name, v), rest[1..])
           case other => other)
      case _ => Err(UnexpectedToken)
  }

  function Parse<V>(a: Algebra<V>, ts: seq<Token>): Outcome<V> {
    match SumParse(a, ts)
    case Ok(v, rest) => if rest != [] then Fails(TrailingToken) else Value(v)
    case Err(e) => Fails(e)
    case Panic => Panics
  }

  lemma {:induction false} SumLoopStep<V>(a: Algebra<V>, left: V, ts: seq<Token>)
    ensures SumLoop(a, left, ts) ==
      if ts == [] || !IsSumOp(ts[0]) then Ok(left, ts)
      else
        var next := TermParse(a, ts[1..]);
        if next.Ok? then GoOnSum(a, a.combine(OpOf(ts[0]), left, next.value), next.rest) else next
  {
    hide TermParse, IsSumOp, OpOf;
  }

  lemma {:induction false} TermLoopStep<V>(a: Algebra<V>, left: V, ts: seq<Token>)
    ensures TermLoop(a, left, ts) ==
      if ts == [] || !IsTermOp(ts[0]) then Ok(left, ts)
      else
        var next := PowerParse(a, ts[1..]);
        if next.Ok? then GoOnTerm(a, a.combine(OpOf(ts[0]), left, next.value), next.rest) else next
  {
    hide PowerParse, IsTermOp, OpOf;
  }

  lemma {:induction false} SumStart<V>(a: Algebra<V>, ts: seq<Token>)
    ensures var first := TermParse(a, ts);
      SumParse(a, ts) == if first.Ok? then SumLoop(a, first.value, first.rest) else first
  {
    hide TermParse, SumLoop;
  }

  lemma {:induction false} TermStart<V>(a: Algebra<V>, ts: seq<Token>)
    ensures var first := PowerParse(a, ts);
      TermParse(a, ts) == if first.Ok? then TermLoop(a, first.value, first.rest) else first
  {
    hide PowerParse, TermLoop;
  }

  lemma {:induction false} PowerStart<V>(a: Algebra<V>, ts: seq<Token>)
    ensures var first := UnaryParse(a, ts);
      PowerParse(a, ts) ==
      if !first.Ok? || first.rest == [] || first.rest[0] != StarStar then first
      else
        var next := PowerParse(a, first.rest[1..]);
        if next.Ok? then After(a.combine(Power, first.value, next.value), next.rest) else next
  {
    hide UnaryParse, After;
  }

  /** How a sum goes on once its first operands have been read. */
  function GoOnSum<V>(a: Algebra<V>, outcome: Outcome<V>, rest: seq<Token>): Parsed<V> {
    match outcome
    case Value(v) => SumLoop(a, v, rest)
    case Fails(e) => Err(e)
    case Panics => Panic
  }

  function GoOnTerm<V>(a: Algebra<V>, outcome: Outcome<V>, rest: seq<Token>): Parsed<V> {
    match outcome
    case Value(v) => TermLoop(a, v, rest)
    case Fails(e) => Err(e)
    case Panics => Panic
  }

  // ---------------------------------------------------------------- the grammar

  datatype Tree =
    | Num(x: real) | Group(inner: Tree) | Call(name: string, inner: Tree)
    | Neg(inner: Tree) | Pos(inner: Tree) | Bin(op: Op, left: Tree, right: Tree)

  /** Sums of terms, to the left. */
  predicate IsSum(t: Tree)
    decreases t, 5
  {
    if t.Bin? && (t.op == Add || t.op == Sub) then IsSum(t.left) && IsTerm(t.right) else IsTerm(t)
  }

  /** Products, quotients and remainders of powers, to the left. */
  predicate IsTerm(t: Tree)
    decreases t, 4
  {
    if t.Bin? && (t.op == Times || t.op == Over || t.op == Rem) then IsTerm(t.left) && IsPower(t.right) else IsPower(t)
  }

  /** Powers, to the right, of signed operands. */
  predicate IsPower(t: Tree)
    decreases t, 3
  {
    if t.Bin? then t.op == Power && IsUnary(t.left) && IsPower(t.right) else IsUnary(t)
  }

  predicate IsUnary(t: Tree)
    decreases t, 2
  {
    if t.Neg? || t.Pos? then IsUnary(t.inner) else IsPrimary(t)
  }

  predicate IsPrimary(t: Tree)
    decreases t, 1
  {
    t.Num? || ((t.Group? || t.Call?) && IsSum(t.inner))
  }

  function Sign(op: Op): Token {
    match op
    case Add => Plus
    case Sub => Minus
    case Times => Star
    case Over => Slash
    case Rem => Percent
    case Power => StarStar
  }

  /** The tokens that a tree derives. */
  function Yield(t: Tree): (ts: seq<Token>)
    ensures ts != []
  {
    match t
    case Num(x) => [Number(x)]
    case Group(inner) => [Open] + Yield(inner) + [Close]
    case Call(name, inner) => [Func(name), Open] + Yield(inner) + [Close]
    case Neg(inner) => [Minus] + Yield(inner)
    case Pos(inner) => [Plus] + Yield(inner)
    case Bin(op, left, right) => Yield(left) + [Sign(op)] + Yield(right)
  }

  /** What a tree means: operands from left to right, then the operation. */
  function Eval<V>(a: Algebra<V>, t: Tree): Outcome<V> {
    match t
    case Num(x) => Value(a.number(x))
    case Group(inner) => (match Eval(a, inner) case Value(v) => Value(a.group(v)) case other => other)
    case Call(name, inner) => (match Eval(a, inner) case Value(v) => a.apply(name, v) case other => other)
    case Neg(inner) => (match Eval(a, inner) case Value(v) => Value(a.negate(v)) case other => other)
    case Pos(inner) => (match Eval(a, inner) case Value(v) => Value(a.keep(v)) case other => other)
    case Bin(op, left, right) =>
      match Eval(a, left)
      case Value(x) => (match Eval(a, right) case Value(y) => a.combine(op, x, y) case other => other)
      case other => other
  }

  // ---------------------------------------------------------------- soundness

  /** `t` derives what was read of `ts`, and means the value. */
  ghost predicate Reads<V>(a: Algebra<V>, t: Tree, ts: seq<Token>, r: Parsed<V>) {
    r.Ok? && ts == Yield(t) + r.rest && Eval(a, t) == Value(r.value)
  }

  lemma {:induction false} SumSound<V>(a: Algebra<V>, ts: seq<Token>) returns (t: Tree)
    requires SumParse(a, ts).Ok?
    ensures IsSum(t) && Reads(a, t, ts, SumParse(a, ts))
    decreases |ts|, 5
  {
    hide SumParse, SumLoop, TermParse, TermLoop, PowerParse, UnaryParse, PrimaryParse, Eval, Yield;
    SumStart(a, ts);
    var first := TermParse(a, ts);
    t := TermSound(a, ts);
    TermIsSum(t);
    t := SumLoopSound(a, t, first.value, first.rest);
  }

  lemma {:induction false} SumLoopSound<V>(a: Algebra<V>, l: Tree, left: V, ts: seq<Token>) returns (t: Tree)
    requires IsSum(l) && Eval(a, l) == Value(left) && SumLoop(a, left, ts).Ok?
    ensures IsSum(t) && Reads(a, t, Yield(l) + ts, SumLoop(a, left, ts))
    decreases |ts|, 6
  {
    hide SumParse, SumLoop, TermParse, TermLoop, PowerParse, UnaryParse, PrimaryParse, Yield;
    SumLoopStep(a, left, ts);
    if ts == [] || !IsSumOp(ts[0]) {
      t := l;
    } else {
      var next := TermParse(a, ts[1..]);
      var r := TermSound(a, ts[1..]);
      var op := OpOf(ts[0]);
      t := Bin(op, l, r);
      JoinTokens(l, op, r, ts, next.rest);
      t := SumLoopSound(a, t, a.combine(op, left, next.value).v, next.rest);
    }
  }

  lemma {:induction false} JoinTokens(l: Tree, op: Op, r: Tree, ts: seq<Token>, rest: seq<Token>)
    requires ts != [] && ts[0] == Sign(op) && ts[1..] == Yield(r) + rest
    ensures Yield(l) + ts == Yield(Bin(op, l, r)) + rest
  {
    assert ts == [Sign(op)] + (Yield(r) + rest);
  }

  lemma {:induction false} TermSound<V>(a: Algebra<V>, ts: seq<Token>) returns (t: Tree)
    requires TermParse(a, ts).Ok?
    ensures IsTerm(t) && Reads(a, t, ts, TermParse(a, ts))
    decreases |ts|, 4
  {
    hide SumParse, SumLoop, TermParse, TermLoop, PowerParse, UnaryParse, PrimaryParse, Eval, Yield;
    TermStart(a, ts);
    var first := PowerParse(a, ts);
    t := PowerSound(a, ts);
    PowerIsTerm(t);
    t := TermLoopSound(a, t, first.value, first.rest);
  }

  lemma {:induction false} TermLoopSound<V>(a: Algebra<V>, l: Tree, left: V, ts: seq<Token>) returns (t: Tree)
    requires IsTerm(l) && Eval(a, l) == Value(left) && TermLoop(a, left, ts).Ok?
    ensures IsTerm(t) && Reads(a, t, Yield(l) + ts, TermLoop(a, left, ts))
    decreases |ts|, 6
  {
    hide SumParse, SumLoop, TermParse, TermLoop, PowerParse, UnaryParse, PrimaryParse, Yield;
    TermLoopStep(a, left, ts);
    if ts == [] || !IsTermOp(ts[0]) {
      t := l;
    } else {
      var next := PowerParse(a, ts[1..]);
      var r := PowerSound(a, ts[1..]);
      var op := OpOf(ts[0]);
      t := Bin(op, l, r);
      JoinTokens(l, op, r, ts, next.rest);
      t := TermLoopSound(a, t, a.combine(op, left, next.value).v, next.rest);
    }
  }

  lemma {:induction false} PowerSound<V>(a: Algebra<V>, ts: seq<Token>) returns (t: Tree)
    requires PowerParse(a, ts).Ok?
    ensures IsPower(t) && Reads(a, t, ts, PowerParse(a, ts))
    decreases |ts|, 3
  {
    hide SumParse, SumLoop, TermParse, TermLoop, PowerParse, UnaryParse, PrimaryParse;
    PowerStart(a, ts);
    var first := UnaryParse(a, ts);
    t := UnarySound(a, ts);
    UnaryIsPower(t);
    if first.rest != [] && first.rest[0] == StarStar {
      var r := PowerSound(a, first.rest[1..]);
      var next := PowerParse(a, first.rest[1..]);
      JoinTokens(t, Power, r, first.rest, next.rest);
      t := Bin(Power, t, r);
    }
  }

  lemma {:induction false} UnaryIsPower(t: Tree)
    requires IsUnary(t)
    ensures IsPower(t) && IsTerm(t) && IsSum(t)
  {
  }

  lemma {:induction false} PowerIsTerm(t: Tree)
    requires IsPower(t)
    ensures IsTerm(t)
  {
  }

  lemma {:induction false} TermIsSum(t: Tree)
    requires IsTerm(t)
    ensures IsSum(t)
  {
  }

  lemma {:induction false} UnarySound<V>(a: Algebra<V>, ts: seq<Token>) returns (t: Tree)
    requires UnaryParse(a, ts).Ok?
    ensures IsUnary(t) && Reads(a, t, ts, UnaryParse(a, ts))
    decreases |ts|, 2
  {
    hide SumParse, PrimaryParse, IsPrimary;
    if ts[0] == Minus || ts[0] == Plus {
      t := UnarySound(a, ts[1..]);
      assert ts == [ts[0]] + ts[1..];
      t := if ts[0] == Minus then Neg(t) else Pos(t);
    } else {
      t := PrimarySound(a, ts);
    }
  }

  /** A sum in brackets, behind `prefix`. */
  lemma {:induction false} Bracketed(prefix: seq<Token>, t: Tree, ts: seq<Token>, rest: seq<Token>)
    requires |prefix| <= |ts| && ts[..|prefix|] == prefix && ts[|prefix|..] == Yield(t) + rest
    requires rest != [] && rest[0] == Close
    ensures ts == prefix + Yield(t) + [Close] + rest[1..]
  {
    hide Yield;
    assert rest == [Close] + rest[1..];
    assert ts == prefix + ts[|prefix|..];
    assert prefix + (Yield(t) + ([Close] + rest[1..])) == prefix + Yield(t) + [Close] + rest[1..];
  }

  lemma {:induction false} PrimarySound<V>(a: Algebra<V>, ts: seq<Token>) returns (t: Tree)
    requires PrimaryParse(a, ts).Ok?
    ensures IsPrimary(t) && Reads(a, t, ts, PrimaryParse(a, ts))
    decreases |ts|, 1
  {
    hide SumParse, IsSum;
    match ts[0] {
      case Number(x) =>
        t := Num(x);
        assert ts == [ts[0]] + ts[1..];
      case Open =>
        t := SumSound(a, ts[1..]);
        Bracketed([Open], t, ts, SumParse(a, ts[1..]).rest);
        t := Group(t);
      case Func(name) =>
        t := SumSound(a, ts[2..]);
        assert ts[..2] == [Func(name), Open];
        Bracketed([Func(name), Open], t, ts, SumParse(a, ts[2..]).rest);
        t := Call(name, t);
      case _ =>
        assert false;
    }
  }

  // ---------------------------------------------------------------- completeness

  predicate NoTermOp(rest: seq<Token>) {
    rest == [] || (!IsTermOp(rest[0]) && rest[0] != StarStar)
  }

  predicate NoPowerOp(rest: seq<Token>) {
    rest == [] || rest[0] != StarStar
  }

  /** What an operation means once its left operand has been read. */
  function EvalRight<V>(a: Algebra<V>, op: Op, x: V, right: Tree): Outcome<V> {
    match Eval(a, right)
    case Value(y) => a.combine(op, x, y)
    case other => other
  }

  lemma {:induction false} SumLoopReads<V>(a: Algebra<V>, op: Op, x: V, right: Tree, rest: seq<Token>)
    requires (op == Add || op == Sub) && NoTermOp(rest)
    requires TermParse(a, Yield(right) + rest) == GoOnTerm(a, Eval(a, right), rest)
    ensures SumLoop(a, x, [Sign(op)] + (Yield(right) + rest)) == GoOnSum(a, EvalRight(a, op, x, right), rest)
  {
    hide SumParse, SumLoop, TermParse, TermLoop, PowerParse, UnaryParse, PrimaryParse, Eval, Yield;
    var tail := [Sign(op)] + (Yield(right) + rest);
    assert tail[1..] == Yield(right) + rest;
    SumLoopStep(a, x, tail);
    if Eval(a, right).Value? { TermLoopStep(a, Eval(a, right).v, rest); }
  }

  lemma {:induction false} SumComplete<V>(a: Algebra<V>, t: Tree, rest: seq<Token>)
    requires IsSum(t) && NoTermOp(rest)
    ensures SumParse(a, Yield(t) + rest) == GoOnSum(a, Eval(a, t), rest)
    decreases t, 5
  {
    hide SumParse, SumLoop, TermParse, TermLoop, PowerParse, UnaryParse, PrimaryParse, GoOnTerm;
    if t.Bin? && (t.op == Add || t.op == Sub) {
      var tail := [Sign(t.op)] + (Yield(t.right) + rest);
      assert Yield(t) + rest == Yield(t.left) + tail;
      SumComplete(a, t.left, tail);
      TermComplete(a, t.right, rest);
      if Eval(a, t.left).Value? { SumLoopReads(a, t.op, Eval(a, t.left).v, t.right, rest); }
    } else {
      TermComplete(a, t, rest);
      TermAloneIsSum(a, t, rest);
    }
  }

  lemma {:induction false} TermAloneIsSum<V>(a: Algebra<V>, t: Tree, rest: seq<Token>)
    requires NoTermOp(rest)
    requires TermParse(a, Yield(t) + rest) == GoOnTerm(a, Eval(a, t), rest)
    ensures SumParse(a, Yield(t) + rest) == GoOnSum(a, Eval(a, t), rest)
  {
    hide SumParse, SumLoop, TermParse, TermLoop, PowerParse, UnaryParse, PrimaryParse, Eval, Yield;
    SumStart(a, Yield(t) + rest);
    if Eval(a, t).Value? { TermLoopStep(a, Eval(a, t).v, rest); }
  }

  lemma {:induction false} TermLoopReads<V>(a: Algebra<V>, op: Op, x: V, right: Tree, rest: seq<Token>)
    requires (op == Times || op == Over || op == Rem) && NoPowerOp(rest)
    requires PowerParse(a, Yield(right) + rest) == After(Eval(a, right), rest)
    ensures TermLoop(a, x, [Sign(op)] + (Yield(right) + rest)) == GoOnTerm(a, EvalRight(a, op, x, right), rest)
  {
    hide SumParse, SumLoop, TermParse, TermLoop, PowerParse, UnaryParse, PrimaryParse, Eval, Yield;
    var tail := [Sign(op)] + (Yield(right) + rest);
    assert tail[1..] == Yield(right) + rest;
    TermLoopStep(a, x, tail);
  }

  lemma {:induction false} TermComplete<V>(a: Algebra<V>, t: Tree, rest: seq<Token>)
    requires IsTerm(t) && NoPowerOp(rest)
    ensures TermParse(a, Yield(t) + rest) == GoOnTerm(a, Eval(a, t), rest)
    decreases t, 4
  {
    hide SumParse, SumLoop, TermParse, TermLoop, PowerParse, UnaryParse, PrimaryParse;
    if t.Bin? && (t.op == Times || t.op == Over || t.op == Rem) {
      var tail := [Sign(t.op)] + (Yield(t.right) + rest);
      assert Yield(t) + rest == Yield(t.left) + tail;
      TermComplete(a, t.left, tail);
      PowerComplete(a, t.right, rest);
      if Eval(a, t.left).Value? { TermLoopReads(a, t.op, Eval(a, t.left).v, t.right, rest); }
    } else {
      PowerComplete(a, t, rest);
      TermStart(a, Yield(t) + rest);
    }
  }

  lemma {:induction false} PowerComplete<V>(a: Algebra<V>, t: Tree, rest: seq<Token>)
    requires IsPower(t) && NoPowerOp(rest)
    ensures PowerParse(a, Yield(t) + rest) == After(Eval(a, t), rest)
    decreases t, 3
  {
    hide SumParse, SumLoop, TermParse, TermLoop, PowerParse, UnaryParse, PrimaryParse;
    PowerStart(a, Yield(t) + rest);
    if t.Bin? {
      var tail := [StarStar] + (Yield(t.right) + rest);
      assert Yield(t) + rest == Yield(t.left) + tail;
      UnaryComplete(a, t.left, tail);
      assert tail[1..] == Yield(t.right) + rest;
      PowerComplete(a, t.right, rest);
    } else {
      UnaryComplete(a, t, rest);
    }
  }

  lemma {:induction false} UnaryComplete<V>(a: Algebra<V>, t: Tree, rest: seq<Token>)
    requires IsUnary(t)
    ensures UnaryParse(a, Yield(t) + rest) == After(Eval(a, t), rest)
    decreases t, 2
  {
    hide SumParse, PrimaryParse;
    var ts := Yield(t) + rest;
    if t.Neg? || t.Pos? {
      assert ts[1..] == Yield(t.inner) + rest;
      UnaryComplete(a, t.inner, rest);
    } else {
      PrimaryComplete(a, t, rest);
    }
  }

  lemma {:induction false} PrimaryComplete<V>(a: Algebra<V>, t: Tree, rest: seq<Token>)
    requires IsPrimary(t)
    ensures PrimaryParse(a, Yield(t) + rest) == After(Eval(a, t), rest)
    ensures Yield(t)[0] != Minus && Yield(t)[0] != Plus
    decreases t, 1
  {
    hide SumParse;
    var ts := Yield(t) + rest;
    match t {
      case Num(x) =>
        assert ts[1..] == rest;
      case Group(inner) =>
        assert ts[1..] == Yield(inner) + ([Close] + rest);
        SumComplete(a, inner, [Close] + rest);
        if Eval(a, inner).Value? { SumLoopStep(a, Eval(a, inner).v, [Close] + rest); }
        assert ([Close] + rest)[1..] == rest;
      case Call(name, inner) =>
        assert ts[2..] == Yield(inner) + ([Close] + rest);
        SumComplete(a, inner, [Close] + rest);
        if Eval(a, inner).Value? { SumLoopStep(a, Eval(a, inner).v, [Close] + rest); }
        assert ([Close] + rest)[1..] == rest;
    }
  }

  /** The parser's outcome on every derivable list of tokens is the meaning of its derivation. */
  lemma {:induction false} ParseComplete<V>(a: Algebra<V>, t: Tree)
    requires IsSum(t)
    ensures Parse(a, Yield(t)) == Eval(a, t)
  {
    assert Yield(t) + [] == Yield(t);
    SumComplete(a, t, []);
    if Eval(a, t).Value? { SumLoopStep(a, Eval(a, t).v, []); }
  }

  /** The parser gives a value exactly for the lists with a derivation that has this value. */
  lemma {:induction false} ParseSoundAndComplete<V>(a: Algebra<V>, ts: seq<Token>, v: V)
    ensures Parse(a, ts) == Value(v) <==> exists t :: IsSum(t) && Yield(t) == ts && Eval(a, t) == Value(v)
  {
    if Parse(a, ts) == Value(v) {
      var t := SumSound(a, ts);
      assert Yield(t) + [] == Yield(t);
    }
    if t :| IsSum(t) && Yield(t) == ts && Eval(a, t) == Value(v) {
      ParseComplete(a, t);
    }
  }

  /** Computing with trees instead of numbers. */
  const TREES: Algebra<Tree> := Algebra(
    x => Num(x), t => Neg(t), t => Pos(t), t => Group(t),
    (name, t) => Value(Call(name, t)), (op, l, r) => Value(Bin(op, l, r)))

  lemma {:induction false} TreesRebuild(t: Tree)
    ensures Eval(TREES, t) == Value(t)
  {
    match t
    case Num(x) =>
    case Group(inner) => TreesRebuild(inner);
    case Call(name, inner) => TreesRebuild(inner);
    case Neg(inner) => TreesRebuild(inner);
    case Pos(inner) => TreesRebuild(inner);
    case Bin(op, left, right) => TreesRebuild(left); TreesRebuild(right);
  }

  /** No list of tokens has two derivations. */
  lemma {:induction false} Unambiguous(t: Tree, u: Tree)
    requires IsSum(t) && IsSum(u) && Yield(t) == Yield(u)
    ensures t == u
  {
    ParseComplete(TREES, t);
    ParseComplete(TREES, u);
    TreesRebuild(t);
    TreesRebuild(u);
  }

  // ---------------------------------------------------------------- numbers

  /** What the mathematics library computes. */
  datatype Library = Library(pow: (real, real) -> real, call: (string, real) -> real)

  function Truncated(x: real): int {
    if x >= 0.0 then x.Floor else -((-x).Floor)
  }

  /** The remainder of the division that truncates: its sign is the dividend's. */
  function Remainder(x: int, y: int): int
    requires y != 0
  {
    var n, d := if x < 0 then -x else x, if y < 0 then -y else y;
    if x < 0 then -(n % d) else n % d
  }

  predicate KnownFunction(name: string) {
    name == "sin" || name == "cos" || name == "tan" || name == "sqrt" ||
    name == "abs" || name == "round" || name == "floor" || name == "ceil"
  }

  function Combined(lib: Library, op: Op, x: real, y: real): Outcome<real> {
    match op
    case Add => Value(x + y)
    case Sub => Value(x - y)
    case Times => Value(x * y)
    case Over => if y == 0.0 then Fails(DivisionByZero) else Value(x / y)
    case Rem =>
      if y == 0.0 then Fails(ModuloByZero)
      else if Truncated(y) == 0 then Panics
      else Value(Remainder(Truncated(x), Truncated(y)) as real)
    case Power => Value(lib.pow(x, y))
  }

  function Applied(lib: Library, name: string, x: real): Outcome<real> {
    if KnownFunction(name) then Value(lib.call(name, x)) else Fails(UnknownFunction)
  }

  function Reals(lib: Library): Algebra<real> {
    Algebra(x => x, x => -x, x => x, x => x, (name, x) => Applied(lib, name, x), (op, x, y) => Combined(lib, op, x, y))
  }

  lemma {:induction false} Product(lib: Library, x: real, y: real)
    ensures Reals(lib).combine(Times, x, y) == Value(x * y)
  {
    assert Combined(lib, Times, x, y) == Value(x * y);
  }

  method ParseExpression(lib: Library, tokens: seq<Token>) returns (r: Outcome<real>)
    ensures r == Parse(Reals(lib), tokens)
  {
    var result := ParseAddSub(lib, tokens);
    match result
    case Ok(v, rest) =>
      if |rest| > 0 { return Fails(TrailingToken); }
      return Value(v);
    case Err(e) => return Fails(e);
    case Panic => return Panics;
  }

  method ParseAddSub(lib: Library, tokens: seq<Token>) returns (r: Parsed<real>)
    ensures r == SumParse(Reals(lib), tokens)
    decreases |tokens|, 5
  {
    hide SumParse, SumLoop, TermParse, TermLoop, PowerParse, UnaryParse, PrimaryParse;
    SumStart(Reals(lib), tokens);
    var first := ParseMulDiv(lib, tokens);
    if !first.Ok? { return first; }
    var left, rest := first.value, first.rest;
    while |rest| > 0
      invariant |rest| < |tokens|
      invariant SumParse(Reals(lib), tokens) == SumLoop(Reals(lib), left, rest)
      decreases |rest|
    {
      SumLoopStep(Reals(lib), left, rest);
      var typ := rest[0];
      if typ != Plus && typ != Minus { break; }
      var next := ParseMulDiv(lib, rest[1..]);
      if !next.Ok? { return next; }
      rest := next.rest;
      if typ == Plus { left := left + next.value; } else { left := left - next.value; }
    }
    SumLoopStep(Reals(lib), left, rest);
    return Ok(left, rest);
  }

  method ParseMulDiv(lib: Library, tokens: seq<Token>) returns (r: Parsed<real>)
    ensures r == TermParse(Reals(lib), tokens)
    decreases |tokens|, 4
  {
    hide SumParse, SumLoop, TermParse, TermLoop, PowerParse, UnaryParse, PrimaryParse, Truncated, Remainder;
    TermStart(Reals(lib), tokens);
    var first := ParsePower(lib, tokens);
    if !first.Ok? { return first; }
    var left, rest := first.value, first.rest;
    while |rest| > 0
      invariant |rest| < |tokens|
      invariant TermParse(Reals(lib), tokens) == TermLoop(Reals(lib), left, rest)
      decreases |rest|
    {
      TermLoopStep(Reals(lib), left, rest);
      var typ := rest[0];
      if typ != Star && typ != Slash && typ != Percent { break; }
      var next := ParsePower(lib, rest[1..]);
      if !next.Ok? { return next; }
      var right := next.value;
      rest := next.rest;
      if typ == Star { Product(lib, left, right); }
      if typ == Star {
        left := left * right;
      } else if typ == Slash {
        if right == 0.0 { return Err(DivisionByZero); }
        left := left / right;
      } else {
        if right == 0.0 { return Err(ModuloByZero); }
        if Truncated(right) == 0 { return Panic; }
        left := Remainder(Truncated(left), Truncated(right)) as real;
      }
    }
    TermLoopStep(Reals(lib), left, rest);
    return Ok(left, rest);
  }

  method ParsePower(lib: Library, tokens: seq<Token>) returns (r: Parsed<real>)
    ensures r == PowerParse(Reals(lib), tokens)
    decreases |tokens|, 3
  {
    hide SumParse, SumLoop, TermParse, TermLoop, PowerParse, UnaryParse, PrimaryParse;
    PowerStart(Reals(lib), tokens);
    var first := ParseUnary(lib, tokens);
    if !first.Ok? { return first; }
    var left, rest := first.value, first.rest;
    if |rest| > 0 && rest[0] == StarStar {
      var next := ParsePower(lib, rest[1..]);
      if !next.Ok? { return next; }
      rest := next.rest;
      left := lib.pow(left, next.value);
    }
    return Ok(left, rest);
  }

  method ParseUnary(lib: Library, tokens: seq<Token>) returns (r: Parsed<real>)
    ensures r == UnaryParse(Reals(lib), tokens)
    decreases |tokens|, 2
  {
    if |tokens| == 0 { return Err(UnexpectedEnd); }
    if tokens[0] == Minus {
      var operand := ParseUnary(lib, tokens[1..]);
      if !operand.Ok? { return operand; }
      return Ok(-operand.value, operand.rest);
    }
    if tokens[0] == Plus {
      r := ParseUnary(lib, tokens[1..]);
      return;
    }
    r := ParsePrimary(lib, tokens);
  }

  method ParsePrimary(lib: Library, tokens: seq<Token>) returns (r: Parsed<real>)
    ensures r == PrimaryParse(Reals(lib), tokens)
    decreases |tokens|, 1
  {
    if |tokens| == 0 { return Err(UnexpectedEnd); }
    match tokens[0] {
      case Number(x) =>
        return Ok(x, tokens[1..]);
      case Open =>
        var inner := ParseAddSub(lib, tokens[1..]);
        if !inner.Ok? { return inner; }
        if |inner.rest| == 0 || inner.rest[0] != Close { return Err(MissingClose); }
        return Ok(inner.value, inner.rest[1..]);
      case Func(name) =>
        if |tokens| == 1 || tokens[1] != Open { return Err(ExpectedOpen); }
        var arg := ParseAddSub(lib, tokens[2..]);
        if !arg.Ok? { return arg; }
        if |arg.rest| == 0 || arg.rest[0] != Close { return Err(MissingClose); }
        if !KnownFunction(name) { return Err(UnknownFunction); }
        return Ok(lib.call(name, arg.value), arg.rest[1..]);
      case _ =>
        return Err(UnexpectedToken);
    }
  }

  lemma {:induction false} NumIsUnary(x: real)
    ensures IsUnary(Num(x))
  {
  }

  /** Subtraction groups to the left, powers to the right, and a sign binds tighter than a power. */
  lemma {:induction false} Precedence(lib: Library, x: real, y: real, z: real)
    ensures Parse(Reals(lib), [Number(x), Minus, Number(y), Minus, Number(z)]) == Value((x - y) - z)
    ensures Parse(Reals(lib), [Number(x), StarStar, Number(y), StarStar, Number(z)]) == Value(lib.pow(x, lib.pow(y, z)))
    ensures Parse(Reals(lib), [Minus, Number(x), StarStar, Number(y)]) == Value(lib.pow(-x, y))
    ensures Parse(Reals(lib), [Number(x), Minus, Number(y), Star, Number(z)]) == Value(x - y * z)
  {
    var a := Reals(lib);
    hide Parse;
    var nx, ny, nz := Num(x), Num(y), Num(z);
    Leaves(x, y, z);
    ParseComplete(a, Bin(Sub, Bin(Sub, nx, ny), nz));
    ParseComplete(a, Bin(Power, nx, Bin(Power, ny, nz)));
    ParseComplete(a, Bin(Power, Neg(nx), ny));
    ParseComplete(a, Bin(Sub, nx, Bin(Times, ny, nz)));
    assert Yield(Bin(Sub, Bin(Sub, nx, ny), nz)) == [Number(x), Minus, Number(y), Minus, Number(z)];
    assert Yield(Bin(Power, nx, Bin(Power, ny, nz))) == [Number(x), StarStar, Number(y), StarStar, Number(z)];
    assert Yield(Bin(Power, Neg(nx), ny)) == [Minus, Number(x), StarStar, Number(y)];
    assert Yield(Bin(Sub, nx, Bin(Times, ny, nz))) == [Number(x), Minus, Number(y), Star, Number(z)];
  }

  lemma {:induction false} Leaves(x: real, y: real, z: real)
    ensures IsSum(Bin(Sub, Bin(Sub, Num(x), Num(y)), Num(z)))
    ensures IsSum(Bin(Power, Num(x), Bin(Power, Num(y), Num(z))))
    ensures IsSum(Bin(Power, Neg(Num(x)), Num(y)))
    ensures IsSum(Bin(Sub, Num(x), Bin(Times, Num(y), Num(z))))
    ensures IsSum(Bin(Rem, Num(x), Num(y)))
  {
    NumIsUnary(x);
    NumIsUnary(y);
    NumIsUnary(z);
    UnaryIsPower(Num(x));
    UnaryIsPower(Num(y));
    UnaryIsPower(Num(z));
    assert IsPower(Bin(Power, Num(y), Num(z)));
    PowerIsTerm(Bin(Power, Num(x), Bin(Power, Num(y), Num(z))));
    TermIsSum(Bin(Power, Num(x), Bin(Power, Num(y), Num(z))));
    assert IsUnary(Neg(Num(x)));
    PowerIsTerm(Bin(Power, Neg(Num(x)), Num(y)));
    TermIsSum(Bin(Power, Neg(Num(x)), Num(y)));
  }

  /** The guard of `%` tests the divisor before it is truncated: a divisor between -1 and 1 that is
      not zero passes the guard and faults. */
  lemma {:induction false} RemainderPanicsIff(lib: Library, x: real, y: real)
    ensures Parse(Reals(lib), [Number(x), Percent, Number(y)]) == Panics <==> y != 0.0 && -1.0 < y < 1.0
    ensures Parse(Reals(lib), [Number(x), Percent, Number(y)]) == Fails(ModuloByZero) <==> y == 0.0
  {
    hide Parse;
    Leaves(x, y, x);
    ParseComplete(Reals(lib), Bin(Rem, Num(x), Num(y)));
    assert Yield(Bin(Rem, Num(x), Num(y))) == [Number(x), Percent, Number(y)];
  }

  // ---------------------------------------------------------------- arithmetic

  /** A sum in brackets. */
  function InBrackets(ts: seq<Token>): seq<Token> { [Open] + ts + [Close] }

  /** A derivation of an accepted list. */
  lemma {:induction false} Derived(lib: Library, ts: seq<Token>, x: real) returns (t: Tree)
    requires Parse(Reals(lib), ts) == Value(x)
    ensures IsSum(t) && Yield(t) == ts && Eval(Reals(lib), t) == Value(x)
  {
    hide SumParse, IsSum, Eval, Reals;
    t := SumSound(Reals(lib), ts);
    assert Yield(t) + [] == Yield(t);
  }

  lemma {:induction false} GroupsOperate(l: Tree, r: Tree, op: Op)
    requires IsSum(l) && IsSum(r)
    ensures IsSum(Bin(op, Group(l), Group(r)))
    ensures Yield(Bin(op, Group(l), Group(r))) == InBrackets(Yield(l)) + [Sign(op)] + InBrackets(Yield(r))
  {
    hide IsSum, Yield;
    GroupIsUnary(l);
    GroupIsUnary(r);
    OperandsFit(Group(l), op, Group(r));
    YieldOf(Group(l), op, Group(r));
    YieldOfGroup(l);
    YieldOfGroup(r);
  }

  lemma {:induction false} GroupIsUnary(t: Tree)
    requires IsSum(t)
    ensures IsUnary(Group(t)) && IsPower(Group(t)) && IsTerm(Group(t)) && IsSum(Group(t))
  {
    hide IsSum;
    assert IsPrimary(Group(t));
    UnaryIsPower(Group(t));
  }

  lemma {:induction false} OperandsFit(l: Tree, op: Op, r: Tree)
    requires IsUnary(l) && IsPower(l) && IsTerm(l) && IsSum(l)
    requires IsUnary(r) && IsPower(r) && IsTerm(r) && IsSum(r)
    ensures IsSum(Bin(op, l, r))
  {
    hide IsUnary;
    if op == Power {
      assert IsPower(Bin(op, l, r));
      PowerIsTerm(Bin(op, l, r));
    }
    if op != Add && op != Sub {
      assert IsTerm(Bin(op, l, r));
      TermIsSum(Bin(op, l, r));
    }
  }

  lemma {:induction false} YieldOf(l: Tree, op: Op, r: Tree)
    ensures Yield(Bin(op, l, r)) == Yield(l) + [Sign(op)] + Yield(r)
  {
  }

  lemma {:induction false} YieldOfGroup(t: Tree)
    ensures Yield(Group(t)) == InBrackets(Yield(t))
  {
  }

  /** What the operators compute, for any two expressions that have a value. A quotient is the number that gives the
      dividend back. A remainder is that of the truncated numbers, with the sign of the dividend. */
  lemma {:induction false} Arithmetic(lib: Library, l: seq<Token>, r: seq<Token>, x: real, y: real)
    requires Parse(Reals(lib), l) == Value(x) && Parse(Reals(lib), r) == Value(y)
    ensures Parse(Reals(lib), InBrackets(l) + [Plus] + InBrackets(r)) == Value(x + y)
    ensures Parse(Reals(lib), InBrackets(l) + [Minus] + InBrackets(r)) == Value(x - y)
    ensures Parse(Reals(lib), InBrackets(l) + [Star] + InBrackets(r)) == Value(x * y)
    ensures Parse(Reals(lib), InBrackets(l) + [StarStar] + InBrackets(r)) == Value(lib.pow(x, y))
    ensures var q := Parse(Reals(lib), InBrackets(l) + [Slash] + InBrackets(r));
      if y == 0.0 then q == Fails(DivisionByZero) else q.Value? && GivesBack(q.v, y, x)
    ensures var m := Parse(Reals(lib), InBrackets(l) + [Percent] + InBrackets(r));
      if y == 0.0 then m == Fails(ModuloByZero)
      else if -1.0 < y < 1.0 then m == Panics
      else exists rem: int :: m == Value(rem as real) && LeavesRemainder(x, y, rem)
  {
    hide Parse, Reals, InBrackets, IsSum, Yield, Eval;
    var t := Derived(lib, l, x);
    var u := Derived(lib, r, y);
    OperatesOn(lib, t, u, Add, x, y);
    OperatesOn(lib, t, u, Sub, x, y);
    OperatesOn(lib, t, u, Times, x, y);
    OperatesOn(lib, t, u, Power, x, y);
    OperatesOn(lib, t, u, Over, x, y);
    OperatesOn(lib, t, u, Rem, x, y);
    hide Combined, LeavesRemainder, GivesBack;
    OperationsAre(lib, x, y);
  }

  lemma {:induction false} TimesIs(lib: Library, x: real, y: real)
    ensures Combined(lib, Times, x, y) == Value(x * y)
  {
  }

  lemma {:induction false} OperationsAre(lib: Library, x: real, y: real)
    ensures Combined(lib, Add, x, y) == Value(x + y) && Combined(lib, Sub, x, y) == Value(x - y)
    ensures Combined(lib, Times, x, y) == Value(x * y) && Combined(lib, Power, x, y) == Value(lib.pow(x, y))
    ensures var q := Combined(lib, Over, x, y);
      if y == 0.0 then q == Fails(DivisionByZero) else q.Value? && GivesBack(q.v, y, x)
    ensures var m := Combined(lib, Rem, x, y);
      if y == 0.0 then m == Fails(ModuloByZero)
      else if -1.0 < y < 1.0 then m == Panics
      else exists rem: int :: m == Value(rem as real) && LeavesRemainder(x, y, rem)
  {
    hide LeavesRemainder, Remainder, GivesBack;
    TimesIs(lib, x, y);
    if y != 0.0 {
      QuotientGivesBack(x, y);
      if y >= 1.0 || y <= -1.0 { RemainderLeft(x, y); }
    }
  }

  predicate GivesBack(q: real, y: real, x: real) { q * y == x }

  lemma {:induction false} QuotientGivesBack(x: real, y: real)
    requires y != 0.0
    ensures GivesBack(x / y, y, x)
  {
  }

  lemma {:induction false} OperatesOn(lib: Library, l: Tree, r: Tree, op: Op, x: real, y: real)
    requires IsSum(l) && IsSum(r) && Eval(Reals(lib), l) == Value(x) && Eval(Reals(lib), r) == Value(y)
    ensures Parse(Reals(lib), InBrackets(Yield(l)) + [Sign(op)] + InBrackets(Yield(r))) == Combined(lib, op, x, y)
  {
    hide Parse, InBrackets, IsSum, Yield, Combined;
    GroupsOperate(l, r, op);
    ParseComplete(Reals(lib), Bin(op, Group(l), Group(r)));
  }

  /** The number without its fraction. */
  ghost predicate IsTruncated(n: int, x: real) {
    if x >= 0.0 then n as real <= x < n as real + 1.0 else n as real - 1.0 < x <= n as real
  }

  /** The remainder that the division of the truncated numbers leaves. */
  ghost predicate LeavesRemainder(x: real, y: real, rem: int) {
    exists n: int, d: int, q: int :: IsTruncated(n, x) && IsTruncated(d, y) && LeavesRest(n, d, q, rem)
  }

  /** `n` is `q` times `d` and the rest, which is smaller than `d` and has the sign of `n`. */
  predicate LeavesRest(n: int, d: int, q: int, rem: int) {
    && n == q * d + rem
    && (if d < 0 then d < rem < -d else -d < rem < d)
    && (if n < 0 then rem <= 0 else rem >= 0)
  }

  lemma {:induction false} SignedProduct(negative: bool, d: int, q: int)
    ensures var b, s := if d < 0 then -d else d, if negative == (d < 0) then q else -q;
      s * d == if negative then -(q * b) else q * b
  {
  }

  lemma {:induction false} RemainderLeft(x: real, y: real)
    requires Truncated(y) != 0
    ensures LeavesRemainder(x, y, Remainder(Truncated(x), Truncated(y)))
  {
    var n, d := Truncated(x), Truncated(y);
    var a, b := if n < 0 then -n else n, if d < 0 then -d else d;
    var q := a / b;
    assert a == q * b + a % b;
    var s := if (n < 0) == (d < 0) then q else -q;
    SignedProduct(n < 0, d, q);
    assert LeavesRest(n, d, s, Remainder(n, d));
    assert IsTruncated(n, x) && IsTruncated(d, y);
  }

  /** Numbers are themselves; brackets, a plus sign and two minus signs change nothing, whatever follows; the known
      functions are applied, and no other. */
  lemma {:induction false} SignsAndCalls(lib: Library, ts: seq<Token>, x: real, name: string)
    ensures Parse(Reals(lib), [Number(x)]) == Value(x)
    ensures Parse(Reals(lib), [Minus, Number(x)]) == Value(-x)
    ensures Parse(Reals(lib), [Plus] + ts) == Parse(Reals(lib), ts)
    ensures Parse(Reals(lib), [Minus, Minus] + ts) == Parse(Reals(lib), ts)
    ensures Parse(Reals(lib), ts) == Value(x) ==> Parse(Reals(lib), InBrackets(ts)) == Value(x)
    ensures Parse(Reals(lib), ts) == Value(x) ==>
      Parse(Reals(lib), [Func(name)] + InBrackets(ts)) ==
        if name in {"sin", "cos", "tan", "sqrt", "abs", "round", "floor", "ceil"} then Value(lib.call(name, x))
        else Fails(UnknownFunction)
  {
    hide Parse, InBrackets, IsSum;
    var a := Reals(lib);
    NumIsUnary(x);
    UnaryIsPower(Num(x));
    ParseComplete(a, Num(x));
    assert IsUnary(Neg(Num(x)));
    UnaryIsPower(Neg(Num(x)));
    ParseComplete(a, Neg(Num(x)));
    assert Yield(Neg(Num(x))) == [Minus, Number(x)];
    SignsFallAway(lib, ts);
    if Parse(a, ts) == Value(x) {
      var t := Derived(lib, ts, x);
      GroupIsUnary(t);
      ParseComplete(a, Group(t));
      YieldOfGroup(t);
      CallIsSum(name, t);
      ParseComplete(a, Call(name, t));
    }
  }

  lemma {:induction false} CallIsSum(name: string, t: Tree)
    requires IsSum(t)
    ensures IsSum(Call(name, t)) && Yield(Call(name, t)) == [Func(name)] + InBrackets(Yield(t))
  {
    hide IsSum;
    assert IsPrimary(Call(name, t)) && IsUnary(Call(name, t));
    UnaryIsPower(Call(name, t));
    assert [Func(name), Open] + Yield(t) + [Close] == [Func(name)] + InBrackets(Yield(t));
  }

  lemma {:induction false} SignsFallAway(lib: Library, ts: seq<Token>)
    ensures Parse(Reals(lib), [Plus] + ts) == Parse(Reals(lib), ts)
    ensures Parse(Reals(lib), [Minus, Minus] + ts) == Parse(Reals(lib), ts)
  {
    hide SumParse;
    assert ([Plus] + ts)[1..] == ts && ([Minus, Minus] + ts)[1..] == [Minus] + ts && ([Minus] + ts)[1..] == ts;
    FrontFallsAway(lib, [Plus], ts);
    FrontFallsAway(lib, [Minus, Minus], ts);
  }

  lemma {:induction false} FrontFallsAway(lib: Library, signs: seq<Token>, ts: seq<Token>)
    requires UnaryParse(Reals(lib), signs + ts) == UnaryParse(Reals(lib), ts)
    ensures SumParse(Reals(lib), signs + ts) == SumParse(Reals(lib), ts)
  {
    hide SumParse, SumLoop, TermParse, TermLoop, PowerParse, UnaryParse, PrimaryParse, Reals;
    PowerStart(Reals(lib), signs + ts);
    PowerStart(Reals(lib), ts);
    TermStart(Reals(lib), signs + ts);
    TermStart(Reals(lib), ts);
    SumStart(Reals(lib), signs + ts);
    SumStart(Reals(lib), ts);
  }

  /** Three numbers with two operators between them: the right pair goes together exactly if its operator binds tighter,
      powers over products over sums, or if both are powers. */
  lemma {:induction false} Grouping(lib: Library, x: real, y: real, z: real, s: Token, t: Token)
    requires s in {Plus, Minus, Star, Slash, Percent, StarStar} && t in {Plus, Minus, Star, Slash, Percent, StarStar}
    ensures var right := t == StarStar || (t in {Star, Slash, Percent} && s in {Plus, Minus});
      Parse(Reals(lib), [Number(x), s, Number(y), t, Number(z)]) ==
        if right then Parse(Reals(lib), [Number(x), s, Open, Number(y), t, Number(z), Close])
        else Parse(Reals(lib), [Open, Number(x), s, Number(y), Close, t, Number(z)])
  {
    hide Parse, IsSum, IsTerm, IsPower, IsUnary, Combined, Applied, Yield;
    var a := Reals(lib);
    var p, q := OperatorOf(s), OperatorOf(t);
    var nx, ny, nz := Num(x), Num(y), Num(z);
    YieldOfNumber(x);
    YieldOfNumber(z);
    ThreeNumbers(x, p, y, q, z);
    if t == StarStar || (t in {Star, Slash, Percent} && s in {Plus, Minus}) {
      var flat, grouped := Bin(p, nx, Bin(q, ny, nz)), Bin(p, nx, Group(Bin(q, ny, nz)));
      YieldOf(nx, p, Bin(q, ny, nz));
      YieldOf(nx, p, Group(Bin(q, ny, nz)));
      YieldOfTwo(y, q, z);
      assert [Number(x)] + [s] + [Number(y), t, Number(z)] == [Number(x), s, Number(y), t, Number(z)];
      assert [Number(x)] + [s] + ([Open] + [Number(y), t, Number(z)] + [Close]) ==
        [Number(x), s, Open, Number(y), t, Number(z), Close];
      ParseComplete(a, flat);
      ParseComplete(a, grouped);
      GroupEval(lib, Bin(q, ny, nz));
    } else {
      var flat, grouped := Bin(q, Bin(p, nx, ny), nz), Bin(q, Group(Bin(p, nx, ny)), nz);
      YieldOf(Bin(p, nx, ny), q, nz);
      YieldOf(Group(Bin(p, nx, ny)), q, nz);
      YieldOfTwo(x, p, y);
      assert [Number(x), s, Number(y)] + [t] + [Number(z)] == [Number(x), s, Number(y), t, Number(z)];
      assert [Open] + [Number(x), s, Number(y)] + [Close] + [t] + [Number(z)] ==
        [Open, Number(x), s, Number(y), Close, t, Number(z)];
      ParseComplete(a, flat);
      ParseComplete(a, grouped);
      GroupEval(lib, Bin(p, nx, ny));
    }
  }

  lemma {:induction false} YieldOfNumber(x: real)
    ensures Yield(Num(x)) == [Number(x)]
  {
  }

  lemma {:induction false} YieldOfTwo(x: real, op: Op, y: real)
    ensures Yield(Bin(op, Num(x), Num(y))) == [Number(x), Sign(op), Number(y)]
    ensures Yield(Group(Bin(op, Num(x), Num(y)))) == [Open] + [Number(x), Sign(op), Number(y)] + [Close]
  {
    YieldOf(Num(x), op, Num(y));
    YieldOfGroup(Bin(op, Num(x), Num(y)));
  }

  lemma {:induction false} GroupEval(lib: Library, t: Tree)
    ensures Eval(Reals(lib), Group(t)) == Eval(Reals(lib), t)
  {
  }

  function OperatorOf(t: Token): (op: Op)
    requires t in {Plus, Minus, Star, Slash, Percent, StarStar}
    ensures Sign(op) == t
  {
    if t == StarStar then Power else OpOf(t)
  }

  lemma {:induction false} ThreeNumbers(x: real, p: Op, y: real, q: Op, z: real)
    ensures if q == Power || ((q == Times || q == Over || q == Rem) && (p == Add || p == Sub)) then
        IsSum(Bin(p, Num(x), Bin(q, Num(y), Num(z)))) && IsSum(Bin(p, Num(x), Group(Bin(q, Num(y), Num(z)))))
      else
        IsSum(Bin(q, Bin(p, Num(x), Num(y)), Num(z))) && IsSum(Bin(q, Group(Bin(p, Num(x), Num(y))), Num(z)))
  {
    hide IsUnary;
    NumFits(x);
    NumFits(y);
    NumFits(z);
    OperandsFit(Num(x), p, Num(y));
    OperandsFit(Num(y), q, Num(z));
    GroupIsUnary(Bin(p, Num(x), Num(y)));
    GroupIsUnary(Bin(q, Num(y), Num(z)));
    OperandsFit(Num(x), p, Group(Bin(q, Num(y), Num(z))));
    OperandsFit(Group(Bin(p, Num(x), Num(y))), q, Num(z));
    NumbersNest(x, p, y, q, z);
  }

  lemma {:induction false} NumFits(x: real)
    ensures IsUnary(Num(x)) && IsPower(Num(x)) && IsTerm(Num(x)) && IsSum(Num(x))
  {
    NumIsUnary(x);
    UnaryIsPower(Num(x));
  }

  lemma {:induction false} NumbersNest(x: real, p: Op, y: real, q: Op, z: real)
    requires IsUnary(Num(x)) && IsPower(Num(x)) && IsTerm(Num(x)) && IsSum(Num(x))
    requires IsUnary(Num(y)) && IsPower(Num(y)) && IsTerm(Num(y)) && IsSum(Num(y))
    requires IsUnary(Num(z)) && IsPower(Num(z)) && IsTerm(Num(z)) && IsSum(Num(z))
    ensures if q == Power || ((q == Times || q == Over || q == Rem) && (p == Add || p == Sub)) then
        IsSum(Bin(p, Num(x), Bin(q, Num(y), Num(z))))
      else IsSum(Bin(q, Bin(p, Num(x), Num(y)), Num(z)))
  {
    hide IsUnary;
    var left, right := Bin(p, Num(x), Num(y)), Bin(q, Num(y), Num(z));
    assert p == Power ==> IsPower(left) && IsTerm(left) by { if p == Power { PowerIsTerm(left); } }
    assert p != Add && p != Sub ==> IsTerm(left);
    assert q == Power ==> IsPower(right) && IsTerm(right) by { if q == Power { PowerIsTerm(right); } }
    assert q != Add && q != Sub ==> IsTerm(right);
    if q == Power && p == Power { PowerIsTerm(Bin(p, Num(x), right)); }
    if q == Power && p != Add && p != Sub { TermIsSum(Bin(p, Num(x), right)); }
    OperandsFit(Num(x), p, Num(y));
    if q != Power && q != Add && q != Sub && p != Add && p != Sub {
      assert IsTerm(Bin(q, left, Num(z)));
      TermIsSum(Bin(q, left, Num(z)));
    }
  }

  /** What is refused, and why. */
  lemma {:induction false} Refusals(lib: Library, ts: seq<Token>, rest: seq<Token>, x: real, name: string)
    ensures Parse(Reals(lib), []) == Fails(UnexpectedEnd)
    ensures rest != [] && rest[0] in {Star, Slash, Percent, StarStar, Close, Comma} ==>
      Parse(Reals(lib), rest) == Fails(UnexpectedToken)
    ensures (rest == [] || rest[0] != Open) ==> Parse(Reals(lib), [Func(name)] + rest) == Fails(ExpectedOpen)
    ensures Parse(Reals(lib), ts) == Value(x) ==>
      && Parse(Reals(lib), ts + [Close] + rest) == Fails(TrailingToken)
      && Parse(Reals(lib), [Open] + ts) == Fails(MissingClose)
      && Parse(Reals(lib), [Func(name), Open] + ts) == Fails(MissingClose)
      && Parse(Reals(lib), ts + [Plus]) == Fails(UnexpectedEnd)
  {
    hide SumParse, IsSum;
    var a := Reals(lib);
    RefusedAtOnce(a, []);
    RefusedAtOnce(a, rest);
    assert ([Func(name)] + rest)[1..] == rest;
    RefusedAtOnce(a, [Func(name)] + rest);
    if Parse(a, ts) == Value(x) {
      var t := Derived(lib, ts, x);
      RefusedBehind(lib, t, x, rest, name);
    }
  }

  lemma {:induction false} RefusedAtOnce<V>(a: Algebra<V>, ts: seq<Token>)
    ensures (ts == [] || (ts[0] != Plus && ts[0] != Minus)) && !PrimaryParse(a, ts).Ok? ==>
      SumParse(a, ts) == PrimaryParse(a, ts)
  {
    hide SumParse, SumLoop, TermParse, TermLoop, PowerParse, PrimaryParse;
    SumStart(a, ts);
    TermStart(a, ts);
    PowerStart(a, ts);
    if ts == [] { NothingIsRefused(a); }
  }

  lemma {:induction false} NothingIsRefused<V>(a: Algebra<V>)
    ensures PrimaryParse(a, []) == Err(UnexpectedEnd)
  {
  }

  lemma {:induction false} RefusedBehind(lib: Library, t: Tree, x: real, rest: seq<Token>, name: string)
    requires IsSum(t) && Eval(Reals(lib), t) == Value(x)
    ensures Parse(Reals(lib), Yield(t) + [Close] + rest) == Fails(TrailingToken)
    ensures Parse(Reals(lib), [Open] + Yield(t)) == Fails(MissingClose)
    ensures Parse(Reals(lib), [Func(name), Open] + Yield(t)) == Fails(MissingClose)
    ensures Parse(Reals(lib), Yield(t) + [Plus]) == Fails(UnexpectedEnd)
  {
    hide SumParse, SumLoop, TermParse, TermLoop, PowerParse, IsSum, Eval, Yield, Reals;
    var a, ts := Reals(lib), Yield(t);
    assert ts + [Close] + rest == ts + ([Close] + rest) && ts + [] == ts;
    SumComplete(a, t, [Close] + rest);
    SumLoopStep(a, x, [Close] + rest);
    SumComplete(a, t, []);
    SumLoopStep(a, x, []);
    assert ([Open] + ts)[1..] == ts && ([Func(name), Open] + ts)[2..] == ts;
    RefusedAtOnce(a, [Open] + ts);
    RefusedAtOnce(a, [Func(name), Open] + ts);
    SumComplete(a, t, [Plus]);
    SumLoopStep(a, x, [Plus]);
    assert [Plus][1..] == [];
    RefusedAtOnce(a, []);
    TermStart(a, []);
    PowerStart(a, []);
    NothingIsRefused(a);
  }
}
