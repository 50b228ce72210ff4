/** Expressions as token sequences: what a tree spells, and how the priority
    table of lparser.c groups operators. */
module Grammar {
  import opened Wrappers
  import opened LuaVM

  /** SUFFIX stands for `.`, `[`, `:` and `{`, which carry on a primary expression; VALUE starts
      `...` or a function.  OTHER is any token with no place in an expression. */
  datatype Token =
    | NUMBER(n: int) | STRING(s: string) | NAME(name: string)
    | KNIL | KTRUE | KFALSE | KNOT | HASH | LPAREN | RPAREN
    | OPERATOR(op: BinOp) | SUFFIX | VALUE | KRETURN | KIF | KTHEN | KEND | OTHER | EOS

  /** What singlevar makes of a name. */
  datatype Var = Local(reg: int) | Upval(idx: nat) | Global

  type Scope = string -> Var

  /** The prefix operator a token stands for: `-` is also a binary operator. */
  function UnOpOf(t: Token): Option<UnOp> {
    match t
    case KNOT => Some(NOT)
    case HASH => Some(UNARY(LEN))
    case OPERATOR(op) => if op == Arith(SUB) then Some(UNARY(UNM)) else None
    case _ => None
  }

  function BinOpOf(t: Token): Option<BinOp> {
    if t.OPERATOR? then Some(t.op) else None
  }

  /** The expression a single token denotes. */
  function Leaf(t: Token, scope: Scope): Option<Expr> {
    match t
    case NUMBER(n) => Some(ENum(n))
    case STRING(s) => Some(EStr(s))
    case KNIL => Some(ENil)
    case KTRUE => Some(ETrue)
    case KFALSE => Some(EFalse)
    case NAME(n) =>
      (match scope(n)
       case Local(r) => if r >= 0 then Some(ELocal(r)) else None
       case Upval(i) => Some(EUpval(i))
       case Global => Some(EGlobal(n)))
    case _ => None
  }

  /** The tokens ts are the text of x. */
  ghost predicate Spells(x: Expr, ts: seq<Token>, scope: Scope) {
    match x
    case EParen(e) => |ts| >= 2 && ts[0] == LPAREN && ts[|ts| - 1] == RPAREN && Spells(e, ts[1..|ts| - 1], scope)
    case EUn(op, e) => |ts| >= 1 && UnOpOf(ts[0]) == Some(op) && Spells(e, ts[1..], scope)
    case EBin(op, l, r) => exists i :: SplitAt(ts, i, op) && Spells(l, ts[..i], scope) && Spells(r, ts[i + 1..], scope)
    case _ => |ts| == 1 && Leaf(ts[0], scope) == Some(x)
  }

  predicate SplitAt(ts: seq<Token>, i: int, op: BinOp) {
    0 <= i < |ts| && ts[i] == OPERATOR(op)
  }

  const UNARY_PRIORITY: int := 8

  /** The priority table: left and right priority of each binary operator. */
  function Priority(op: BinOp): (int, int) {
    match op
    case Arith(ADD) => (6, 6)
    case Arith(SUB) => (6, 6)
    case Arith(MUL) => (7, 7)
    case Arith(DIV) => (7, 7)
    case Arith(MOD) => (7, 7)
    case Arith(POW) => (10, 9)
    case CONCAT => (5, 4)
    case NE => (3, 3)
    case EQ => (3, 3)
    case LT => (3, 3)
    case LE => (3, 3)
    case GT => (3, 3)
    case GE => (3, 3)
    case AND => (2, 2)
    case OR => (1, 1)
  }

  /** The operators on the left edge of x take x's first operand from what comes before. */
  predicate LeftOpen(x: Expr, limit: int) {
    x.EBin? ==> Priority(x.op).0 > limit && LeftOpen(x.l, limit)
  }

  /** No operator on the right edge of x would take a following operator of left priority p. */
  predicate RightOpen(x: Expr, p: int) {
    match x
    case EBin(op, l, r) => p <= Priority(op).1 && RightOpen(r, p)
    case EUn(op, e) => p <= UNARY_PRIORITY && RightOpen(e, p)
    case _ => true
  }

  /** Every operator has the operands its priority gives it. */
  predicate Grouped(x: Expr) {
    match x
    case EParen(e) => Grouped(e)
    case EUn(op, e) => Grouped(e) && LeftOpen(e, UNARY_PRIORITY)
    case EBin(op, l, r) => Grouped(l) && Grouped(r) && RightOpen(l, Priority(op).0) && LeftOpen(r, Priority(op).1)
    case _ => true
  }

  /** The next token cannot extend x, read with the given limit. */
  predicate Stops(x: Expr, t: Token, limit: int) {
    BinOpOf(t).Some? ==> Priority(t.op).0 <= limit && RightOpen(x, Priority(t.op).0)
  }

  // ----- spelling a tree from its parts -----

  lemma SpellsUn(op: UnOp, x: Expr, ts: seq<Token>, scope: Scope)
    requires |ts| >= 1 && UnOpOf(ts[0]) == Some(op) && Spells(x, ts[1..], scope)
    ensures Spells(EUn(op, x), ts, scope)
  {
  }

  lemma SpellsBin(op: BinOp, l: Expr, r: Expr, toks: seq<Token>, a: int, m: int, b: int, scope: Scope)
    requires 0 <= a <= m < b <= |toks| && toks[m] == OPERATOR(op)
    requires Spells(l, toks[a..m], scope) && Spells(r, toks[m + 1..b], scope)
    ensures Spells(EBin(op, l, r), toks[a..b], scope)
  {
    hide Spells;
    var ts, i := toks[a..b], m - a;
    assert ts[..i] == toks[a..m];
    assert ts[i + 1..] == toks[m + 1..b];
    SpellsParts(op, l, r, ts, i, scope);
  }

  lemma SpellsParts(op: BinOp, l: Expr, r: Expr, ts: seq<Token>, i: int, scope: Scope)
    requires SplitAt(ts, i, op) && Spells(l, ts[..i], scope) && Spells(r, ts[i + 1..], scope)
    ensures Spells(EBin(op, l, r), ts, scope)
  {
  }

  lemma SpellsParen(x: Expr, toks: seq<Token>, a: int, b: int, scope: Scope)
    requires 0 <= a && a + 2 <= b <= |toks| && toks[a] == LPAREN && toks[b - 1] == RPAREN
    requires Spells(x, toks[a + 1..b - 1], scope)
    ensures Spells(EParen(x), toks[a..b], scope)
  {
    var ts := toks[a..b];
    var mid := ts[1..|ts| - 1];
    assert |ts| == b - a && |mid| == b - a - 2;
    assert forall i :: 0 <= i < |mid| ==> mid[i] == ts[i + 1] == toks[a + 1..b - 1][i];
    assert mid == toks[a + 1..b - 1];
  }
}
