/** What short texts mean (sections 2.5 and 2.8 of the Lua 5.1 Reference Manual), operator by operator
    and without the parser's tables. */
module Meaning {
  import opened Wrappers
  import opened LuaVM
  import opened Grammar
  import opened Parsing
  import opened Statements

  type Text = seq<Token>

  /** How tight a binary operator binds: `or`, `and`, comparisons, `..`, `+` and `-`, `*`, `/` and
      `%`, then the prefix operators, then `^`. */
  function Tightness(op: BinOp): nat {
    match op
    case OR => 1
    case AND => 2
    case CONCAT => 4
    case Arith(ADD) => 5
    case Arith(SUB) => 5
    case Arith(POW) => 8
    case Arith(_) => 6
    case _ => 3
  }

  const PREFIX_TIGHTNESS: nat := 7

  /** Whether f, on the left, takes the operand between f and g. */
  predicate TakesMiddle(f: BinOp, g: BinOp) {
    Tightness(f) > Tightness(g) || (Tightness(f) == Tightness(g) && f != CONCAT && f != Arith(POW))
  }

  /** The text has exactly one grouped tree, and it is x; the parser reads it whole. */
  ghost predicate Denotes(ts: Text, scope: Scope, x: Expr) {
    && ParseSub(ts, scope, 0, 0) == Some((x, |ts|))
    && Grouped(x) && Spells(x, ts, scope)
    && forall y :: ReturnText([KRETURN] + ts, scope, y) <==> y == x
  }

  /** A text with no operator outside parentheses. */
  ghost predicate Primary(ts: Text, scope: Scope, x: Expr) { Denotes(ts, scope, x) && !x.EBin? && !x.EUn? }

  lemma IsDenoted(ts: Text, scope: Scope, x: Expr)
    requires Grouped(x) && Spells(x, ts, scope)
    ensures Denotes(ts, scope, x)
  {
    hide Grouped, Spells, ParseSub;
    assert ts[0..] == ts;
    ParseWhole(ts, scope, x, 0);
    assert ([KRETURN] + ts)[1..] == ts;
    forall y | ReturnText([KRETURN] + ts, scope, y) ensures y == x { Unambiguous(x, y, ts, scope); }
  }

  // ----- operands -----

  /** What a name stands for, in a function called with those arguments. */
  predicate NameValue(v: Var, name: string, p: Prims, args: seq<Value>, res: Result) {
    match v
    case Local(r) => 0 <= r < |args| && res == Ok(args[r])
    case Upval(i) => res == Ok(p.upval(i))
    case Global => res == p.global(Str(name))
  }

  predicate TokenValue(t: Token, scope: Scope, p: Prims, args: seq<Value>, res: Result) {
    match t
    case NUMBER(n) => res == Ok(Number(n))
    case STRING(s) => res == Ok(Str(s))
    case KNIL => res == Ok(Nil)
    case KTRUE => res == Ok(Boolean(true))
    case KFALSE => res == Ok(Boolean(false))
    case NAME(name) => NameValue(scope(name), name, p, args, res)
    case _ => false
  }

  /** A constant or a name, with its value. */
  lemma OneToken(t: Token, scope: Scope, p: Prims, args: seq<Value>, res: Result)
    requires TokenValue(t, scope, p, args, res)
    ensures Leaf(t, scope).Some? && Primary([t], scope, Leaf(t, scope).value)
    ensures Eval(Leaf(t, scope).value, p, args) == res
  {
    IsDenoted([t], scope, Leaf(t, scope).value);
  }

  lemma Parenthesized(ts: Text, scope: Scope, x: Expr)
    requires Denotes(ts, scope, x)
    ensures Primary([LPAREN] + ts + [RPAREN], scope, EParen(x))
    ensures forall p, args :: Eval(EParen(x), p, args) == Eval(x, p, args)
  {
    hide Spells, ReturnText, ParseSub;
    var toks := [LPAREN] + ts + [RPAREN];
    assert toks[1..|toks| - 1] == ts && toks[0..|toks|] == toks;
    SpellsParen(x, toks, 0, |toks|, scope);
    IsDenoted(toks, scope, EParen(x));
  }

  // ----- operators -----

  lemma Joined(a: Text, x: Expr, f: BinOp, b: Text, y: Expr, scope: Scope)
    requires Spells(x, a, scope) && Spells(y, b, scope)
    ensures Spells(EBin(f, x, y), a + [OPERATOR(f)] + b, scope)
  {
    hide Spells;
    var ts := a + [OPERATOR(f)] + b;
    assert ts[..|a|] == a && ts[|a| + 1..] == b;
    SpellsParts(f, x, y, ts, |a|, scope);
  }

  /** `a f b` */
  lemma Infix(a: Text, x: Expr, f: BinOp, b: Text, y: Expr, scope: Scope)
    requires Primary(a, scope, x) && Primary(b, scope, y)
    ensures Denotes(a + [OPERATOR(f)] + b, scope, EBin(f, x, y))
  {
    hide Spells, ReturnText, ParseSub;
    Joined(a, x, f, b, y, scope);
    IsDenoted(a + [OPERATOR(f)] + b, scope, EBin(f, x, y));
  }

  /** Of two operators around an operand, the left one groups. */
  lemma LeftFirst(x: Expr, f: BinOp, y: Expr, g: BinOp, z: Expr)
    requires Grouped(x) && Grouped(y) && Grouped(z) && TakesMiddle(f, g)
    requires !x.EBin? && !x.EUn? && !y.EBin? && !y.EUn? && !z.EBin? && !z.EUn?
    ensures Grouped(EBin(g, EBin(f, x, y), z))
  {
    assert Grouped(EBin(f, x, y)) && RightOpen(y, Priority(g).0);
  }

  lemma RightFirst(x: Expr, f: BinOp, y: Expr, g: BinOp, z: Expr)
    requires Grouped(x) && Grouped(y) && Grouped(z) && !TakesMiddle(f, g)
    requires !x.EBin? && !x.EUn? && !y.EBin? && !y.EUn? && !z.EBin? && !z.EUn?
    ensures Grouped(EBin(f, x, EBin(g, y, z)))
  {
    assert Grouped(EBin(g, y, z)) && LeftOpen(y, Priority(f).1);
  }

  /** `a f b g c`: the operand in the middle goes to the operator that binds tighter; of equal ones to
      the left one, but to the right one for `..` and `^`. */
  lemma TwoOperators(a: Text, x: Expr, f: BinOp, b: Text, y: Expr, g: BinOp, c: Text, z: Expr, scope: Scope)
    requires Primary(a, scope, x) && Primary(b, scope, y) && Primary(c, scope, z)
    ensures Denotes(a + [OPERATOR(f)] + b + [OPERATOR(g)] + c, scope,
      if TakesMiddle(f, g) then EBin(g, EBin(f, x, y), z) else EBin(f, x, EBin(g, y, z)))
  {
    hide Spells, ReturnText, ParseSub, TakesMiddle, Grouped;
    var ts := a + [OPERATOR(f)] + b + [OPERATOR(g)] + c;
    if TakesMiddle(f, g) {
      Joined(a, x, f, b, y, scope);
      Joined(a + [OPERATOR(f)] + b, EBin(f, x, y), g, c, z, scope);
      LeftFirst(x, f, y, g, z);
      IsDenoted(ts, scope, EBin(g, EBin(f, x, y), z));
    } else {
      Joined(b, y, g, c, z, scope);
      Joined(a, x, f, b + [OPERATOR(g)] + c, EBin(g, y, z), scope);
      RightFirst(x, f, y, g, z);
      assert ts == a + [OPERATOR(f)] + (b + [OPERATOR(g)] + c);
      IsDenoted(ts, scope, EBin(f, x, EBin(g, y, z)));
    }
  }

  /** The three prefix operators. */
  predicate IsPrefix(u: Token, op: UnOp) {
    || (u == KNOT && op == NOT)
    || (u == HASH && op == UNARY(LEN))
    || (u == OPERATOR(Arith(SUB)) && op == UNARY(UNM))
  }

  lemma Prefixed(u: Token, op: UnOp, ts: Text, x: Expr, scope: Scope)
    requires IsPrefix(u, op) && Spells(x, ts, scope)
    ensures Spells(EUn(op, x), [u] + ts, scope)
  {
    hide Spells;
    assert ([u] + ts)[1..] == ts;
    SpellsUn(op, x, [u] + ts, scope);
  }

  /** `u a` */
  lemma Prefix(u: Token, op: UnOp, a: Text, x: Expr, scope: Scope)
    requires IsPrefix(u, op) && Primary(a, scope, x)
    ensures Denotes([u] + a, scope, EUn(op, x))
  {
    hide Spells, ReturnText, ParseSub;
    Prefixed(u, op, a, x, scope);
    IsDenoted([u] + a, scope, EUn(op, x));
  }

  lemma PrefixFirst(op: UnOp, x: Expr, f: BinOp, y: Expr)
    requires Grouped(x) && Grouped(y) && !x.EBin? && !x.EUn? && !y.EBin? && !y.EUn?
    ensures Grouped(if PREFIX_TIGHTNESS > Tightness(f) then EBin(f, EUn(op, x), y) else EUn(op, EBin(f, x, y)))
  {
    assert Grouped(EUn(op, x)) && Grouped(EBin(f, x, y)) && RightOpen(x, Priority(f).0);
    assert LeftOpen(x, UNARY_PRIORITY);
  }

  /** `u a f b`: a prefix operator binds tighter than every binary operator but `^`. */
  lemma PrefixThenOperator(u: Token, op: UnOp, a: Text, x: Expr, f: BinOp, b: Text, y: Expr, scope: Scope)
    requires IsPrefix(u, op) && Primary(a, scope, x) && Primary(b, scope, y)
    ensures Denotes([u] + a + [OPERATOR(f)] + b, scope,
      if PREFIX_TIGHTNESS > Tightness(f) then EBin(f, EUn(op, x), y) else EUn(op, EBin(f, x, y)))
  {
    hide Spells, ReturnText, ParseSub, Grouped;
    var ts := [u] + a + [OPERATOR(f)] + b;
    PrefixFirst(op, x, f, y);
    if PREFIX_TIGHTNESS > Tightness(f) {
      Prefixed(u, op, a, x, scope);
      Joined([u] + a, EUn(op, x), f, b, y, scope);
      IsDenoted(ts, scope, EBin(f, EUn(op, x), y));
    } else {
      Joined(a, x, f, b, y, scope);
      Prefixed(u, op, a + [OPERATOR(f)] + b, EBin(f, x, y), scope);
      assert ts == [u] + (a + [OPERATOR(f)] + b);
      IsDenoted(ts, scope, EUn(op, EBin(f, x, y)));
    }
  }

  /** `a f u b`: after a binary operator a prefix operator takes the operand that follows it. */
  lemma OperatorThenPrefix(a: Text, x: Expr, f: BinOp, u: Token, op: UnOp, b: Text, y: Expr, scope: Scope)
    requires IsPrefix(u, op) && Primary(a, scope, x) && Primary(b, scope, y)
    ensures Denotes(a + [OPERATOR(f)] + [u] + b, scope, EBin(f, x, EUn(op, y)))
  {
    hide Spells, ReturnText, ParseSub;
    Prefixed(u, op, b, y, scope);
    Joined(a, x, f, [u] + b, EUn(op, y), scope);
    assert a + [OPERATOR(f)] + [u] + b == a + [OPERATOR(f)] + ([u] + b);
    IsDenoted(a + [OPERATOR(f)] + [u] + b, scope, EBin(f, x, EUn(op, y)));
  }

  // ----- every tree -----

  /** No operator on the right edge of x leaves its operand to an f that follows. */
  predicate KeepsRight(x: Expr, f: BinOp) {
    match x
    case EBin(g, _, r) => TakesMiddle(g, f) && KeepsRight(r, f)
    case EUn(_, e) => PREFIX_TIGHTNESS > Tightness(f) && KeepsRight(e, f)
    case _ => true
  }

  /** No operator on the left edge of x leaves its operand to an f before it. */
  predicate KeepsLeft(x: Expr, f: BinOp) {
    x.EBin? ==> !TakesMiddle(f, x.op) && KeepsLeft(x.l, f)
  }

  predicate KeepsPrefix(x: Expr) {
    x.EBin? ==> Tightness(x.op) > PREFIX_TIGHTNESS && KeepsPrefix(x.l)
  }

  /** Wherever two operators meet, the operand between them belongs to the one that takes it. */
  predicate ByTightness(x: Expr) {
    match x
    case EParen(e) => ByTightness(e)
    case EUn(_, e) => ByTightness(e) && KeepsPrefix(e)
    case EBin(f, l, r) => ByTightness(l) && ByTightness(r) && KeepsRight(l, f) && KeepsLeft(r, f)
    case _ => true
  }

  /** The priority table says what the manual says, for every tree. */
  lemma {:induction false} TableIsManual(x: Expr)
    ensures Grouped(x) <==> ByTightness(x)
  {
    match x
    case EParen(e) => TableIsManual(e);
    case EUn(_, e) =>
      TableIsManual(e);
      PrefixEdge(e);
    case EBin(f, l, r) =>
      TableIsManual(l);
      TableIsManual(r);
      RightEdge(l, f);
      LeftEdge(r, f);
    case _ =>
  }

  lemma {:induction false} RightEdge(x: Expr, f: BinOp)
    ensures RightOpen(x, Priority(f).0) <==> KeepsRight(x, f)
  {
    match x
    case EBin(_, _, r) => RightEdge(r, f);
    case EUn(_, e) => RightEdge(e, f);
    case _ =>
  }

  lemma {:induction false} LeftEdge(x: Expr, f: BinOp)
    ensures LeftOpen(x, Priority(f).1) <==> KeepsLeft(x, f)
  {
    if x.EBin? { LeftEdge(x.l, f); }
  }

  lemma {:induction false} PrefixEdge(x: Expr)
    ensures LeftOpen(x, UNARY_PRIORITY) <==> KeepsPrefix(x)
  {
    if x.EBin? { PrefixEdge(x.l); }
  }

  // ----- values -----

  /** Only nil and false are false, and the second operand counts only when the first does not decide. */
  lemma ShortCircuit(x: Expr, y: Expr, p: Prims, args: seq<Value>)
    ensures Eval(x, p, args) in {Ok(Nil), Ok(Boolean(false))} ==>
      Eval(EBin(AND, x, y), p, args) == Eval(x, p, args) && Eval(EBin(OR, x, y), p, args) == Eval(y, p, args)
    ensures Eval(x, p, args) == Err ==>
      Eval(EBin(AND, x, y), p, args) == Err && Eval(EBin(OR, x, y), p, args) == Err
    ensures Eval(x, p, args) !in {Ok(Nil), Ok(Boolean(false)), Err} ==>
      Eval(EBin(AND, x, y), p, args) == Eval(y, p, args) && Eval(EBin(OR, x, y), p, args) == Eval(x, p, args)
    ensures Eval(x, p, args).Ok? ==>
      Eval(EUn(NOT, x), p, args) == Ok(Boolean(Eval(x, p, args) in {Ok(Nil), Ok(Boolean(false))}))
  {
  }

  /** The others evaluate both operands, the left one first. */
  lemma BothOperands(f: BinOp, x: Expr, y: Expr, p: Prims, args: seq<Value>, a: Value, b: Value)
    requires Eval(x, p, args) == Ok(a) && Eval(y, p, args) == Ok(b) && f != AND && f != OR
    ensures Eval(EBin(f, x, y), p, args) ==
      match f
      case Arith(op) => p.arith(op, a, b)
      case CONCAT => p.concat(a, b)
      case EQ => (match p.eq(a, b) case Raise => Err case Answer(t) => Ok(Boolean(t)))
      case NE => (match p.eq(a, b) case Raise => Err case Answer(t) => Ok(Boolean(!t)))
      case LT => (match p.lt(a, b) case Raise => Err case Answer(t) => Ok(Boolean(t)))
      case LE => (match p.le(a, b) case Raise => Err case Answer(t) => Ok(Boolean(t)))
      case GT => (match p.lt(b, a) case Raise => Err case Answer(t) => Ok(Boolean(t)))
      case GE => (match p.le(b, a) case Raise => Err case Answer(t) => Ok(Boolean(t)))
  {
  }
}
