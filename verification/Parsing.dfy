/** The expression parser as a function (lparser.c: subexpr), the trees it yields and what they cost. */
module Parsing {
  import opened Wrappers
  import opened LuaVM
  import opened Limits
  import opened Grammar

  function TokenAt(toks: seq<Token>, p: nat): Token {
    if p < |toks| then toks[p] else EOS
  }

  /** A variable or a parenthesis followed by t is a call or an index, which this model leaves out. */
  predicate Continues(t: Token) { t.LPAREN? || t.STRING? || t.SUFFIX? }

  /** simpleexp */
  function ParseSimple(toks: seq<Token>, scope: Scope, p: nat): (r: Option<(Expr, nat)>)
    requires p <= |toks|
    ensures r.Some? ==> p < r.value.1 <= |toks|
    decreases |toks| - p, 0
  {
    var t := TokenAt(toks, p);
    if t.LPAREN? then
      match ParseSub(toks, scope, p + 1, 0)
      case None => None
      case Some((e, q)) =>
        if TokenAt(toks, q).RPAREN? && !Continues(TokenAt(toks, q + 1)) then Some((EParen(e), q + 1)) else None
    else if Leaf(t, scope).None? || (t.NAME? && Continues(TokenAt(toks, p + 1))) then None
    else Some((Leaf(t, scope).value, p + 1))
  }

  /** The first operand of subexpr. */
  function ParseOperand(toks: seq<Token>, scope: Scope, p: nat): (r: Option<(Expr, nat)>)
    requires p <= |toks|
    ensures r.Some? ==> p < r.value.1 <= |toks|
    decreases |toks| - p, 1
  {
    match UnOpOf(TokenAt(toks, p))
    case None => ParseSimple(toks, scope, p)
    case Some(op) =>
      match ParseSub(toks, scope, p + 1, UNARY_PRIORITY)
      case None => None
      case Some((e, q)) => Some((EUn(op, e), q))
  }

  /** The loop of subexpr, with x read so far. */
  function ParseLoop(toks: seq<Token>, scope: Scope, x: Expr, q: nat, limit: int): (r: Option<(Expr, nat)>)
    requires q <= |toks|
    ensures r.Some? ==> q <= r.value.1 <= |toks|
    decreases |toks| - q, 0
  {
    match BinOpOf(TokenAt(toks, q))
    case None => Some((x, q))
    case Some(op) =>
      if Priority(op).0 <= limit then Some((x, q))
      else
        match ParseSub(toks, scope, q + 1, Priority(op).1)
        case None => None
        case Some((y, q2)) => ParseLoop(toks, scope, EBin(op, x, y), q2, limit)
  }

  /** subexpr: the tree at p whose operators bind tighter than limit, and where it ends. */
  function ParseSub(toks: seq<Token>, scope: Scope, p: nat, limit: int): (r: Option<(Expr, nat)>)
    requires p <= |toks|
    ensures r.Some? ==> p < r.value.1 <= |toks|
    decreases |toks| - p, 2
  {
    match ParseOperand(toks, scope, p)
    case None => None
    case Some((x, q)) => ParseLoop(toks, scope, x, q, limit)
  }

  // ----- the parser finds every tree -----

  /** After x at q the parser reads on as if it had just read x. */
  predicate MayFollow(x: Expr, t: Token) {
    && !Continues(t)
    && (BinOpOf(t).Some? ==> RightOpen(x, Priority(t.op).0))
  }

  /** A grouped tree spelled at p is read whole. */
  lemma {:induction false} Climb(toks: seq<Token>, scope: Scope, x: Expr, p: nat, q: nat, limit: int)
    requires p <= q <= |toks| && Grouped(x) && LeftOpen(x, limit) && Spells(x, toks[p..q], scope)
    requires MayFollow(x, TokenAt(toks, q))
    ensures ParseSub(toks, scope, p, limit) == ParseLoop(toks, scope, x, q, limit)
    decreases x
  {
    hide Spells, ParseSub, ParseLoop, ParseOperand, ParseSimple, Priority;
    match x
    case EParen(e) =>
      InParens(toks, scope, e, p, q);
      AlwaysOpen(e);
      Climb(toks, scope, e, p + 1, q - 1, 0);
      ReadParens(toks, scope, e, p, q, limit);
    case EUn(op, e) =>
      AfterPrefix(toks, scope, op, e, p, q);
      Climb(toks, scope, e, p + 1, q, UNARY_PRIORITY);
      ReadUnary(toks, scope, op, e, p, q, limit);
    case EBin(op, l, r) =>
      var m := Middle(toks, scope, op, l, r, p, q);
      Climb(toks, scope, l, p, m, limit);
      Climb(toks, scope, r, m + 1, q, Priority(op).1);
      ReadBinary(toks, scope, op, l, r, p, m, q, limit);
    case _ =>
      OneToken(toks, scope, x, p, q);
      LeafAlone(toks, scope, x, p);
      OperandFirst(toks, scope, x, p, q, limit);
  }

  lemma OperandFirst(toks: seq<Token>, scope: Scope, x: Expr, p: nat, q: nat, limit: int)
    requires p <= |toks| && ParseOperand(toks, scope, p) == Some((x, q))
    ensures q <= |toks| && ParseSub(toks, scope, p, limit) == ParseLoop(toks, scope, x, q, limit)
  {
  }

  /** The loop ends at once when the next token cannot extend e. */
  lemma LoopEnds(toks: seq<Token>, scope: Scope, e: Expr, q: nat, limit: int)
    requires q <= |toks|
    requires BinOpOf(TokenAt(toks, q)).Some? ==> Priority(TokenAt(toks, q).op).0 <= limit
    ensures ParseLoop(toks, scope, e, q, limit) == Some((e, q))
  {
  }

  lemma ReadParens(toks: seq<Token>, scope: Scope, e: Expr, p: nat, q: nat, limit: int)
    requires p + 2 <= q <= |toks| && toks[p] == LPAREN && toks[q - 1] == RPAREN && !Continues(TokenAt(toks, q))
    requires ParseSub(toks, scope, p + 1, 0) == ParseLoop(toks, scope, e, q - 1, 0)
    ensures ParseSub(toks, scope, p, limit) == ParseLoop(toks, scope, EParen(e), q, limit)
  {
    hide ParseSub, ParseLoop;
    LoopEnds(toks, scope, e, q - 1, 0);
    assert ParseOperand(toks, scope, p) == Some((EParen(e), q));
    OperandFirst(toks, scope, EParen(e), p, q, limit);
  }

  lemma ReadUnary(toks: seq<Token>, scope: Scope, op: UnOp, e: Expr, p: nat, q: nat, limit: int)
    requires p < q <= |toks| && UnOpOf(toks[p]) == Some(op) && MayFollow(EUn(op, e), TokenAt(toks, q))
    requires ParseSub(toks, scope, p + 1, UNARY_PRIORITY) == ParseLoop(toks, scope, e, q, UNARY_PRIORITY)
    ensures ParseSub(toks, scope, p, limit) == ParseLoop(toks, scope, EUn(op, e), q, limit)
  {
    hide ParseSub, ParseLoop;
    LoopEnds(toks, scope, e, q, UNARY_PRIORITY);
    OperandFirst(toks, scope, EUn(op, e), p, q, limit);
  }

  lemma ReadBinary(toks: seq<Token>, scope: Scope, op: BinOp, l: Expr, r: Expr, p: nat, m: nat, q: nat, limit: int)
    requires p <= m < q <= |toks| && toks[m] == OPERATOR(op) && Priority(op).0 > limit
    requires MayFollow(EBin(op, l, r), TokenAt(toks, q))
    requires ParseSub(toks, scope, p, limit) == ParseLoop(toks, scope, l, m, limit)
    requires ParseSub(toks, scope, m + 1, Priority(op).1) == ParseLoop(toks, scope, r, q, Priority(op).1)
    ensures ParseSub(toks, scope, p, limit) == ParseLoop(toks, scope, EBin(op, l, r), q, limit)
  {
    hide ParseSub;
    LoopEnds(toks, scope, r, q, Priority(op).1);
  }

  lemma AfterPrefix(toks: seq<Token>, scope: Scope, op: UnOp, e: Expr, p: nat, q: nat)
    requires p <= q <= |toks| && Spells(EUn(op, e), toks[p..q], scope)
    ensures p < q && UnOpOf(toks[p]) == Some(op) && Spells(e, toks[p + 1..q], scope)
  {
    assert toks[p..q][0] == toks[p] && toks[p..q][1..] == toks[p + 1..q];
  }

  lemma OneToken(toks: seq<Token>, scope: Scope, x: Expr, p: nat, q: nat)
    requires p <= q <= |toks| && Spells(x, toks[p..q], scope) && !x.EParen? && !x.EUn? && !x.EBin?
    ensures q == p + 1 && Leaf(toks[p], scope) == Some(x)
  {
    assert toks[p..q][0] == toks[p];
  }

  lemma InnerSlice(toks: seq<Token>, p: nat, q: nat)
    requires p + 2 <= q <= |toks|
    ensures toks[p..q][1..|toks[p..q]| - 1] == toks[p + 1..q - 1]
  {
    var ts, mid := toks[p..q], toks[p..q][1..q - p - 1];
    assert |mid| == q - p - 2;
    forall i | 0 <= i < |mid| ensures mid[i] == toks[p + 1 + i] { assert mid[i] == ts[i + 1]; }
  }

  lemma InParens(toks: seq<Token>, scope: Scope, e: Expr, p: nat, q: nat)
    requires p <= q <= |toks| && Spells(EParen(e), toks[p..q], scope)
    ensures p + 2 <= q && toks[p] == LPAREN && toks[q - 1] == RPAREN && Spells(e, toks[p + 1..q - 1], scope)
  {
    var ts := toks[p..q];
    assert |ts| >= 2 && ts[0] == toks[p] && ts[|ts| - 1] == toks[q - 1];
    InnerSlice(toks, p, q);
  }

  lemma Middle(toks: seq<Token>, scope: Scope, op: BinOp, l: Expr, r: Expr, p: nat, q: nat) returns (m: nat)
    requires p <= q <= |toks| && Spells(EBin(op, l, r), toks[p..q], scope)
    ensures p <= m < q && toks[m] == OPERATOR(op) && Spells(l, toks[p..m], scope) && Spells(r, toks[m + 1..q], scope)
  {
    var ts := toks[p..q];
    var i := BinaryParts(ts, scope, op, l, r);
    m := p + i;
    hide Spells;
    PartSlices(toks, p, q, i);
  }

  lemma PartSlices(toks: seq<Token>, p: nat, q: nat, i: nat)
    requires p <= q <= |toks| && i < q - p
    ensures var ts := toks[p..q];
      ts[i] == toks[p + i] && ts[..i] == toks[p..p + i] && ts[i + 1..] == toks[p + i + 1..q]
  {
  }

  lemma BinaryParts(ts: seq<Token>, scope: Scope, op: BinOp, l: Expr, r: Expr) returns (i: nat)
    requires Spells(EBin(op, l, r), ts, scope)
    ensures SplitAt(ts, i, op) && Spells(l, ts[..i], scope) && Spells(r, ts[i + 1..], scope)
  {
    var j :| SplitAt(ts, j, op) && Spells(l, ts[..j], scope) && Spells(r, ts[j + 1..], scope);
    i := j;
  }

  /** No operand but a leaf starts with its token. */
  lemma LeafAlone(toks: seq<Token>, scope: Scope, x: Expr, p: nat)
    requires p < |toks| && Leaf(toks[p], scope) == Some(x) && !Continues(TokenAt(toks, p + 1))
    ensures ParseOperand(toks, scope, p) == Some((x, p + 1))
  {
  }

  lemma {:induction false} AlwaysOpen(x: Expr)
    ensures LeftOpen(x, 0)
  {
    if x.EBin? { AlwaysOpen(x.l); }
  }

  /** The text of a grouped tree parses as that tree. */
  lemma ParseWhole(toks: seq<Token>, scope: Scope, x: Expr, p: nat)
    requires p <= |toks| && Grouped(x) && Spells(x, toks[p..], scope)
    ensures ParseSub(toks, scope, p, 0) == Some((x, |toks|))
  {
    AlwaysOpen(x);
    assert toks[p..] == toks[p..|toks|];
    Climb(toks, scope, x, p, |toks|, 0);
  }

  /** The priorities leave no choice: a text has at most one grouped tree. */
  lemma Unambiguous(x: Expr, y: Expr, ts: seq<Token>, scope: Scope)
    requires Spells(x, ts, scope) && Spells(y, ts, scope) && Grouped(x) && Grouped(y)
    ensures x == y
  {
    assert ts[0..] == ts;
    ParseWhole(ts, scope, x, 0);
    ParseWhole(ts, scope, y, 0);
  }

  // ----- what a tree costs -----

  function Max(a: int, b: int): int { if a < b then b else a }

  /** Room enough to compile x: instructions, constants, and registers above the first free one. */
  function Needs(x: Expr): (u: Use)
    ensures u.code >= 0 && u.consts >= 1 && u.regs >= 0
  {
    match x
    case EParen(e) => Use(Needs(e).code + 1, Needs(e).consts, Needs(e).regs)
    case EUn(_, e) => Use(Needs(e).code + 11, Needs(e).consts + 1, Max(Needs(e).regs, 2))
    case EBin(_, l, r) =>
      Use(Needs(l).code + Needs(r).code + 44, Needs(l).consts + Needs(r).consts + 5, Max(Max(Needs(l).regs, 1 + Needs(r).regs), 5))
    case _ => Use(0, 1, 0)
  }

  /** How deep subexpr calls itself to read x. */
  function Levels(x: Expr): nat {
    match x
    case EParen(e) => 1 + Levels(e)
    case EUn(_, e) => 1 + Levels(e)
    case EBin(_, l, r) => Max(Levels(l), 1 + Levels(r))
    case _ => 0
  }

  /** What a text of n tokens can cost. */
  lemma {:induction false} TextCosts(x: Expr, ts: seq<Token>, scope: Scope)
    requires Spells(x, ts, scope)
    ensures |ts| >= 1 && Levels(x) < |ts|
    ensures Needs(x).code <= 44 * (|ts| - 1) && Needs(x).consts <= 5 * |ts| && Needs(x).regs <= 5 + Levels(x)
  {
    match x
    case EParen(e) => TextCosts(e, ts[1..|ts| - 1], scope);
    case EUn(op, e) => TextCosts(e, ts[1..], scope);
    case EBin(op, l, r) =>
      var i := BinaryParts(ts, scope, op, l, r);
      TextCosts(l, ts[..i], scope);
      TextCosts(r, ts[i + 1..], scope);
    case _ =>
  }

  /** x fails to compile, with u in use at syntax level `level`, only because it is too big. */
  predicate TooBig(st: Status, u: Use, level: int, x: Expr) {
    Explained(st, u, Needs(x)) || (st == Failed(TooManyLevels) && level + Levels(x) > LUAI_MAXCCALLS)
  }

  /** What compiling x has used. */
  predicate Costs(u: Use, u2: Use, x: Expr) {
    u2.code <= u.code + Needs(x).code && u2.consts <= u.consts + Needs(x).consts && u2.regs <= u.regs + 1
  }

  /** z costs at least what x costs. */
  predicate Covers(z: Expr, x: Expr) {
    && Needs(x).code <= Needs(z).code && Needs(x).consts <= Needs(z).consts && Needs(x).regs <= Needs(z).regs
    && Levels(x) <= Levels(z)
  }

  /** Reading on only adds to the tree. */
  lemma {:induction false} LoopCovers(toks: seq<Token>, scope: Scope, x: Expr, q: nat, limit: int)
    requires q <= |toks|
    ensures var r := ParseLoop(toks, scope, x, q, limit); r.Some? ==> Covers(r.value.0, x)
    decreases |toks| - q
  {
    match BinOpOf(TokenAt(toks, q))
    case None =>
    case Some(op) =>
      if Priority(op).0 > limit {
        match ParseSub(toks, scope, q + 1, Priority(op).1)
        case None =>
        case Some((y, q2)) => LoopCovers(toks, scope, EBin(op, x, y), q2, limit);
      }
  }

  /** A failure is explained by the size of the tree that is there, if one is. */
  ghost predicate Explains(st: Status, u: Use, level: int, parse: Option<(Expr, nat)>) {
    parse.Some? ==> TooBig(st, u, level, parse.value.0)
  }

  /** The tree that the loop goes on to covers the operand it reads next. */
  ghost predicate GoesOn(parse: Option<(Expr, nat)>, op: BinOp, x: Expr, step: Option<(Expr, nat)>) {
    parse.Some? ==> step.Some? && Covers(parse.value.0, EBin(op, x, step.value.0))
  }

  lemma NextStep(toks: seq<Token>, scope: Scope, op: BinOp, x: Expr, q: nat, limit: int)
    requires q < |toks| && toks[q] == OPERATOR(op) && Priority(op).0 > limit
    ensures GoesOn(ParseLoop(toks, scope, x, q, limit), op, x, ParseSub(toks, scope, q + 1, Priority(op).1))
    ensures var step := ParseSub(toks, scope, q + 1, Priority(op).1);
      step.Some? ==> ParseLoop(toks, scope, x, q, limit) == ParseLoop(toks, scope, EBin(op, x, step.value.0), step.value.1, limit)
  {
    var step := ParseSub(toks, scope, q + 1, Priority(op).1);
    if step.Some? { LoopCovers(toks, scope, EBin(op, x, step.value.0), step.value.1, limit); }
  }

  /** A failure between the operands, with u1 in use after the first. */
  lemma InfixTooBig(u0: Use, u1: Use, level: int, op: BinOp, x: Expr, parse: Option<(Expr, nat)>,
      step: Option<(Expr, nat)>)
    requires Costs(u0, u1, x) && GoesOn(parse, op, x, step)
    ensures forall st: Status :: Explained(st, u1, Use(20, 2, 2)) ==> Explains(st, u0, level, parse)
  {
  }

  /** A failure in the second operand, which starts with u2 in use. */
  lemma RightTooBig(u0: Use, u1: Use, u2: Use, level: int, op: BinOp, x: Expr, parse: Option<(Expr, nat)>,
      step: Option<(Expr, nat)>)
    requires Costs(u0, u1, x) && GoesOn(parse, op, x, step) && Spent(u1, u2, Use(20, 2, 2)) && u2.regs <= u0.regs + 1
    ensures forall st: Status :: Explains(st, u2, level + 1, step) ==> Explains(st, u0, level, parse)
  {
  }

  /** A failure after both operands. */
  lemma PosfixTooBig(u0: Use, u1: Use, u2: Use, u3: Use, level: int, op: BinOp, x: Expr, y: Expr, q: nat,
      parse: Option<(Expr, nat)>)
    requires Costs(u0, u1, x) && GoesOn(parse, op, x, Some((y, q))) && Spent(u1, u2, Use(20, 2, 2))
    requires u2.regs <= u0.regs + 1
    requires Costs(u2, u3, y)
    ensures forall st: Status :: Explained(st, u3, Use(24, 3, 3)) ==> Explains(st, u0, level, parse)
    ensures forall u4 :: Spent(u3, u4, Use(24, 3, 3)) && u4.regs <= u0.regs + 1 ==> Costs(u0, u4, EBin(op, x, y))
  {
  }

  lemma FirstTooBig(toks: seq<Token>, scope: Scope, p: nat, limit: int, u: Use, level: int)
    requires p <= |toks|
    ensures forall st: Status :: Explains(st, u, level, ParseOperand(toks, scope, p)) ==>
      Explains(st, u, level, ParseSub(toks, scope, p, limit))
  {
    var first := ParseOperand(toks, scope, p);
    if first.Some? { LoopCovers(toks, scope, first.value.0, first.value.1, limit); }
  }

  /** A failure before or after the operand of op. */
  lemma UnaryTooBig(u0: Use, level: int, op: UnOp, step: Option<(Expr, nat)>, parse: Option<(Expr, nat)>)
    requires parse == match step case None => None case Some((e, q)) => Some((EUn(op, e), q))
    ensures forall st: Status :: Explains(st, u0, level + 1, step) ==> Explains(st, u0, level, parse)
    ensures step.Some? ==> forall st: Status, u1 :: Costs(u0, u1, step.value.0) && Explained(st, u1, Use(11, 1, 1)) ==>
      Explains(st, u0, level, parse)
    ensures step.Some? ==> forall u1, u2 ::
      Costs(u0, u1, step.value.0) && Spent(u1, u2, Use(11, 1, 1)) && u2.regs <= u0.regs + 1 ==>
        Costs(u0, u2, parse.value.0)
  {
  }
}
