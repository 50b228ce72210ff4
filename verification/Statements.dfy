/** Whole functions (lparser.c: retstat, cond, ifstat, chunk, close_func) and what the machine does with them. */
module Statements {
  import opened Wrappers
  import opened LuaVM
  import opened JumpLists
  import opened CodeSem
  import opened ExprSpec
  import opened ExprOps
  import opened Lcode
  import opened Limits
  import opened Operators
  import opened Grammar
  import opened Parsing
  import opened Lparser
  import opened Machine

  const FINAL_RETURN: Instruction := Instruction(OP_RETURN, 0, 1, 0)

  // ----- return -----

  /** The code from o's start to q puts o's value into register reg, on every input, and
      keeps the registers below; then it returns that register. */
  ghost predicate Returning(o: Origin, s: Snap, q: int, reg: int) {
    && Pc0(o) <= q && |s.code| == q + 1 && s.code[q] == Instruction(OP_RETURN, reg, 2, 0) && s.J == []
    && PrefixOk(o.base, s)
    && forall K: seq<Value>, R: Regs :: Ready0(o, s, K, R) ==>
         Yields(Run(s.code, K, o.p, {}, q, Pc0(o), R), R, o.base.fr, reg, Eval(o.x, o.p, R[..o.nact]))
  }

  /** What `return x` needs on top of x. */
  function ReturnNeeds(x: Expr): Use { Use(Needs(x).code + 11, Needs(x).consts + 1, Max(Needs(x).regs, 2)) }

  /** `return x` fails, with u in use at syntax level `level`, only because x is too big. */
  ghost predicate ReturnExplained(st: Status, u: Use, level: int, parse: Option<(Expr, nat)>) {
    parse.Some? ==>
      || Explained(st, u, ReturnNeeds(parse.value.0))
      || (st == Failed(TooManyLevels) && level + 1 + Levels(parse.value.0) > LUAI_MAXCCALLS)
  }

  lemma ReturnTooBig(u: Use, level: int, parse: Option<(Expr, nat)>)
    ensures forall st: Status :: Explains(st, u, level + 1, parse) ==> ReturnExplained(st, u, level, parse)
    ensures parse.Some? ==> forall st: Status, u1: Use, need: Use ::
      (Costs(u, u1, parse.value.0) && Explained(st, u1, need) && need.code <= 11 && need.consts <= 1 && need.regs <= 1
       ==> ReturnExplained(st, u, level, parse))
  {
  }

  /** retstat, where a single value is returned. */
  method RetOne(ls: LexState) returns (st: Status, ghost x: Expr, ghost first: int)
    requires ls.Valid() && ls.Current() == KRETURN
    modifies ls, ls.fs
    ensures ReturnExplained(st, old(ls.fs.Usage()), old(ls.level), ParseSub(ls.toks, ls.scope, old(ls.pos) + 1, 0))
    ensures st.Fine? ==>
      && ls.Valid() && ls.level == old(ls.level) && old(ls.pos) + 1 < ls.pos
      && Spent(old(ls.fs.Usage()), ls.fs.Usage(), ReturnNeeds(x))
      && ParseSub(ls.toks, ls.scope, old(ls.pos) + 1, 0) == Some((x, ls.pos))
      && Grouped(x) && Spells(x, ls.toks[old(ls.pos) + 1..ls.pos], ls.scope)
      && Returning(ls.OriginOf(old(ls.fs.Snapshot()), x), ls.fs.Snapshot(), |ls.fs.code| - 1, first)
  {
    hide Compiled, Spells, Costs, Explained, Explains, ReturnExplained, Returning, FoldSound, ParseSub, Parsed;
    ghost var s0, u0, level := ls.fs.Snapshot(), ls.fs.Usage(), ls.level;
    x, first := ENil, 0;
    ls.Next();
    ReturnTooBig(u0, level, ParseSub(ls.toks, ls.scope, ls.pos, 0));
    var v, op;
    ghost var T, F;
    v, op, x, T, F :- ls.Subexpr(0);
    ghost var u1 := ls.fs.Usage();
    ParsedCompiled(ls.OriginOf(s0, x), ls.fs.Snapshot(), v, T, F);
    var e :- ls.fs.Exp2AnyReg(v, ls.OriginOf(s0, x), T, F);
    ghost var s := ls.fs.Snapshot();
    ExplainedLater(u1, ls.fs.Usage(), Use(10, 1, 1), Use(1, 0, 0));
    first := e.info;
    var _ :- Ret(ls.fs, e.info, 1);
    EndsReturning(ls.OriginOf(s0, x), s, e, ls.fs.Snapshot());
    ReturnSpent(u0, u1, ls.fs.Usage(), x);
    return Fine, x, first;
  }

  lemma ExplainedLater(u: Use, u1: Use, spent: Use, need: Use)
    requires Spent(u, u1, spent)
    ensures forall st: Status :: Explained(st, u1, need) ==>
      Explained(st, u, Use(spent.code + need.code, spent.consts + need.consts, spent.regs + need.regs))
  {
  }

  lemma ReturnSpent(u: Use, u1: Use, u2: Use, x: Expr)
    requires Costs(u, u1, x) && Spent(u1, u2, Use(11, 1, 1))
    ensures Spent(u, u2, ReturnNeeds(x))
  {
  }

  /** luaK_ret */
  method Ret(fs: FuncState, first: int, nret: int) returns (st: Status, pc: int)
    requires fs.Valid()
    modifies fs
    ensures Explained(st, old(fs.Usage()), Use(1, 0, 0))
    ensures st.Fine? ==> Spent(old(fs.Usage()), fs.Usage(), Use(1, 0, 0))
    ensures st.Fine? ==>
      && fs.Valid() && Emitted(old(fs.Snapshot()), fs.Snapshot(), [Instruction(OP_RETURN, first, nret + 1, 0)])
      && fs.Snapshot() == old(fs.Snapshot()).(code := fs.code, J := [])
  {
    ghost var s := fs.Snapshot();
    pc :- fs.Emit(Instruction(OP_RETURN, first, nret + 1, 0));
    EmitWF(s, fs.Snapshot(), [Instruction(OP_RETURN, first, nret + 1, 0)]);
    return Fine, pc;
  }

  lemma EndsReturning(o: Origin, s: Snap, e: ExpDesc, s2: Snap)
    requires Compiled(o, s, e, [], []) && e.k.VNONRELOC? && Emitted(s, s2, [Instruction(OP_RETURN, e.info, 2, 0)])
    ensures Returning(o, s2, |s.code|, e.info) && |s2.code| == |s.code| + 1
  {
    var ins := [Instruction(OP_RETURN, e.info, 2, 0)];
    assert Core(o, s, e, [], []);
    assert PrefixOk(o.base, s2) by { EmitPrefix(o, s, s2, ins); }
    hide Yields, Compiled, PrefixOk, Core, Run, Ready0;
    forall K: seq<Value>, R: Regs | Ready0(o, s2, K, R)
      ensures Yields(Run(s2.code, K, o.p, {}, |s.code|, Pc0(o), R), R, o.base.fr, e.info, Eval(o.x, o.p, R[..o.nact]))
    {
      ValueRun(o, s, e, s2, ins, K, R);
    }
  }

  lemma ReturningKept(o: Origin, s: Snap, s2: Snap, q: int, reg: int)
    requires Returning(o, s, q, reg) && s2 == s.(fr := s2.fr, lt := s2.lt) && s.lt <= s2.lt
    ensures Returning(o, s2, q, reg)
  {
    hide Run, Yields;
    forall K: seq<Value>, R: Regs | Ready0(o, s2, K, R)
      ensures Yields(Run(s2.code, K, o.p, {}, q, Pc0(o), R), R, o.base.fr, reg, Eval(o.x, o.p, R[..o.nact]))
    {
      assert Ready0(o, s, K, R);
    }
  }

  /** `return x` as a whole chunk fails only because x is too big. */
  ghost predicate ChunkExplained(st: Status, u: Use, level: int, toks: seq<Token>, scope: Scope, p: nat) {
    p < |toks| && toks[p] == KRETURN ==>
      || ReturnExplained(st, u, level + 1, ParseSub(toks, scope, p + 1, 0))
      || (st == Failed(TooManyLevels) && level + 1 > LUAI_MAXCCALLS)
  }

  /** chunk, when its last statement, `return e`, is its only one. */
  method Chunk(ls: LexState) returns (st: Status, ghost x: Expr, ghost first: int)
    requires ls.Valid()
    modifies ls, ls.fs
    ensures ChunkExplained(st, old(ls.fs.Usage()), old(ls.level), ls.toks, ls.scope, old(ls.pos))
    ensures st.Fine? ==>
      && ls.Valid() && ls.level == old(ls.level) && old(ls.pos) + 1 < ls.pos && ls.toks[old(ls.pos)] == KRETURN
      && Spent(old(ls.fs.Usage()), ls.fs.Usage(), ReturnNeeds(x)) && ls.fs.freereg == ls.fs.nactvar
      && ParseSub(ls.toks, ls.scope, old(ls.pos) + 1, 0) == Some((x, ls.pos))
      && Grouped(x) && Spells(x, ls.toks[old(ls.pos) + 1..ls.pos], ls.scope)
      && Returning(ls.OriginOf(old(ls.fs.Snapshot()), x), ls.fs.Snapshot(), |ls.fs.code| - 1, first)
  {
    hide Spells, ReturnExplained, Returning, FoldSound, ParseSub, Grouped, SnapOk, Needs;
    ghost var s0 := ls.fs.Snapshot();
    x, first := ENil, 0;
    :- ls.EnterLevel();
    if ls.Current() != KRETURN {
      return Failed(NotModelled), x, first;
    }
    x, first :- RetOne(ls);
    ghost var s := ls.fs.Snapshot();
    ls.fs.FreeAll();
    ReturningKept(ls.OriginOf(s0, x), s, ls.fs.Snapshot(), |ls.fs.code| - 1, first);
    ls.LeaveLevel();
    return Fine, x, first;
  }

  /** A call: the function's constants, and a frame whose registers above the arguments luaD_precall has cleared. */
  ghost predicate CallInput(k: seq<Value>, K: seq<Value>, R: Regs, params: int, stack: int) {
    k <= K && |R| >= stack && forall r :: 0 <= r < |R| && params <= r ==> R[r] == Nil
  }

  lemma CallReady(o: Origin, s: Snap, K: seq<Value>, R: Regs)
    requires o.base.code == [] && CallInput(s.k, K, R, o.nact, s.ms) && 0 <= o.nact <= s.ms
    ensures Ready0(o, s, K, R)
  {
  }

  /** Runs that stay in the same code are the same. */
  lemma RunKept(c1: Code, c2: Code, K: seq<Value>, p: Prims, lo: int, hi: int, R: Regs)
    requires 0 <= lo <= hi <= |c1| && hi <= |c2| && forall i :: lo <= i < hi ==> c1[i] == c2[i]
    ensures Run(c1, K, p, {}, hi, lo, R) == Run(c2, K, p, {}, hi, lo, R)
  {
    RunSim(c1, c2, K, p, {}, {}, lo, hi, lo, R);
  }

  /** x fits a function with that many parameters, as its returned value. */
  predicate SmallEnough(x: Expr, params: int) {
    && Affordable(Use(0, 0, params), Use(ReturnNeeds(x).code + 1, ReturnNeeds(x).consts, ReturnNeeds(x).regs))
    && 2 + Levels(x) <= LUAI_MAXCCALLS
  }

  /** toks is `return y`. */
  ghost predicate ReturnText(toks: seq<Token>, scope: Scope, y: Expr) {
    |toks| > 0 && toks[0] == KRETURN && Grouped(y) && Spells(y, toks[1..], scope)
  }

  /** luaD_precall: the arguments, and nil in the registers above them. */
  function Frame(args: seq<Value>, size: nat): (R: Regs)
    requires |args| <= size
    ensures |R| == size && R[..|args|] == args && forall r :: |args| <= r < size ==> R[r] == Nil
  {
    args + seq(size - |args|, _ => Nil)
  }

  /** The machine, started at the first instruction, returns those values. */
  ghost predicate Returns(code: Code, K: seq<Value>, p: Prims, R: Regs, vs: seq<Value>) {
    exists n: nat :: Steps(code, K, p, n, 0, R) == Returned(vs)
  }

  /** It returns the value of res, or raises an error when res is one. */
  ghost predicate Gives(code: Code, K: seq<Value>, p: Prims, R: Regs, res: Result) {
    match res
    case Ok(v) => Returns(code, K, p, R, [v])
    case Err => Raises(code, K, p, 0, R)
  }

  /** Called with any arguments the function returns the value of y, or raises y's error. */
  ghost predicate ReturnsValue(code: Code, k: seq<Value>, stack: int, p: Prims, params: int, y: Expr) {
    && 0 <= params <= stack < 250
    && forall K: seq<Value>, args: seq<Value>, size: nat :: k <= K && |args| == params && stack <= size ==>
         Gives(code, K, p, Frame(args, size), Eval(y, p, args))
  }

  /** From the RETURN of a register on. */
  lemma DeliversGives(code: Code, K: seq<Value>, p: Prims, R: Regs, q: int, n: int, reg: int, res: Result)
    requires Delivers(code, K, p, 0, R, q, n, reg, res)
    requires 0 <= q < |code| && code[q] == Instruction(OP_RETURN, reg, 2, 0)
    ensures Gives(code, K, p, R, res)
  {
    match res
    case Err =>
    case Ok(v) =>
      var R' :| Reaches(code, K, p, 0, R, q, R') && Kept(R, R', n) && InReg(R', reg) && R'[reg] == v;
      assert R'[reg..reg + 1] == [v];
      ReachesReturn(code, K, p, R, q, R', [v]);
  }

  lemma ReachesReturn(code: Code, K: seq<Value>, p: Prims, R: Regs, q: int, R': Regs, vs: seq<Value>)
    requires Reaches(code, K, p, 0, R, q, R') && 0 <= q < |code| && Step(code, K, p, q, R') == Returned(vs)
    ensures Returns(code, K, p, R, vs)
  {
    var a: nat :| Steps(code, K, p, a, 0, R) == Next(q, R');
    MoreSteps(code, K, p, a, 1, 0, R);
    assert Steps(code, K, p, 1, q, R') == Returned(vs);
    assert Steps(code, K, p, a + 1, 0, R) == Returned(vs);
  }

  /** The function `return e` (main or body, close_func).  Nothing but the text of a grouped tree
      compiles, and the code returns that tree's value; any that is small enough does compile. */
  method CompileReturn(toks: seq<Token>, params: nat, scope: Scope, prims: Prims) returns (st: Status, code: Code,
      k: seq<Value>, stack: int)
    requires params <= 200 && FoldSound(prims)
    requires forall n :: scope(n).Local? ==> 0 <= scope(n).reg < params
    ensures st.Fine? ==> exists y :: ReturnText(toks, scope, y)
    ensures st.Fine? ==> forall y :: ReturnText(toks, scope, y) ==> ReturnsValue(code, k, stack, prims, params, y)
    ensures forall y :: ReturnText(toks, scope, y) && SmallEnough(y, params) ==> st.Fine?
    ensures forall y :: ReturnText(toks, scope, y) && |toks| <= 40 ==> st.Fine?
    ensures forall y ::
      ReturnText(toks, scope, y) && |toks| <= 2900 && Levels(y) <= 190 && params + Levels(y) <= 240 ==> st.Fine?
  {
    hide Delivers, Spells, Returning, ParseSub, ChunkExplained, Yields, Ready0, Grouped;
    code, k, stack := [], [], 0;
    var fs := new FuncState(params, prims);
    var ls := new LexState(toks, scope, fs);
    ghost var s0 := fs.Snapshot();
    ReturnWhole(toks, scope, params);
    SmallReturns(toks, scope, params);
    ghost var x, first;
    x, first :- Chunk(ls);
    if ls.Current() != EOS || ls.pos < |toks| {
      return Failed(Expected("<eof>")), code, k, stack;
    }
    ghost var s := fs.Snapshot();
    var _ :- Ret(fs, 0, 0);
    code, k, stack := fs.code, fs.k, fs.maxstacksize;
    assert ls.toks[1..ls.pos] == toks[1..];
    ReturnDelivers(ls.OriginOf(s0, x), s, code, first);
    assert ReturnText(toks, scope, x);
    OnlyTree(toks, scope, x);
    ReturnCalled(ls.OriginOf(s0, x), s, code, first, k, stack);
    return Fine, code, k, stack;
  }

  lemma SmallReturns(toks: seq<Token>, scope: Scope, params: nat)
    requires params <= 200
    ensures forall y :: ReturnText(toks, scope, y) && |toks| <= 40 ==> SmallEnough(y, params)
    ensures forall y ::
      ReturnText(toks, scope, y) && |toks| <= 2900 && Levels(y) <= 190 && params + Levels(y) <= 240
      ==> SmallEnough(y, params)
  {
    hide Spells, Needs, Levels, Grouped;
    forall y | ReturnText(toks, scope, y)
      ensures |toks| <= 40 ==> SmallEnough(y, params)
      ensures |toks| <= 2900 && Levels(y) <= 190 && params + Levels(y) <= 240 ==> SmallEnough(y, params)
    {
      TextCosts(y, toks[1..], scope);
    }
  }

  lemma OnlyTree(toks: seq<Token>, scope: Scope, x: Expr)
    requires ReturnText(toks, scope, x)
    ensures forall y :: ReturnText(toks, scope, y) ==> y == x
  {
    hide Spells, Grouped;
    forall y | ReturnText(toks, scope, y) ensures y == x { Unambiguous(x, y, toks[1..], scope); }
  }

  lemma ReturnCalled(o: Origin, s: Snap, code: Code, first: int, k: seq<Value>, stack: int)
    requires o.base.code == [] && k == s.k && stack == s.ms && 0 <= o.nact == o.base.fr <= stack < 250
    requires |code| > 1 && code[|code| - 2..] == [Instruction(OP_RETURN, first, 2, 0), FINAL_RETURN]
    requires forall K: seq<Value>, R: Regs :: Ready0(o, s, K, R) ==>
      Delivers(code, K, o.p, 0, R, |code| - 2, o.nact, first, Eval(o.x, o.p, R[..o.nact]))
    ensures ReturnsValue(code, k, stack, o.p, o.nact, o.x)
  {
    hide Delivers, Ready0, Eval, Gives;
    assert code[|code| - 2] == code[|code| - 2..][0];
    forall K: seq<Value>, args: seq<Value>, size: nat | k <= K && |args| == o.nact && stack <= size
      ensures Gives(code, K, o.p, Frame(args, size), Eval(o.x, o.p, args))
    {
      CallReady(o, s, K, Frame(args, size));
      DeliversGives(code, K, o.p, Frame(args, size), |code| - 2, o.nact, first, Eval(o.x, o.p, args));
    }
  }

  lemma ReturnDelivers(o: Origin, s: Snap, c: Code, first: int)
    requires Returning(o, s, |s.code| - 1, first) && c == Discharge(s.code, s.J) + [FINAL_RETURN]
    ensures |c| > 1 && c[|c| - 2..] == [Instruction(OP_RETURN, first, 2, 0), FINAL_RETURN]
    ensures forall K: seq<Value>, R: Regs :: Ready0(o, s, K, R) ==>
      Delivers(c, K, o.p, Pc0(o), R, |c| - 2, o.base.fr, first, Eval(o.x, o.p, R[..o.nact]))
  {
    EmptyPatch(s.code, 0, 0, 0);
    assert c == s.code + [FINAL_RETURN];
    hide Run, Yields, Delivers, Ready0, PrefixOk;
    forall K: seq<Value>, R: Regs | Ready0(o, s, K, R)
      ensures Delivers(c, K, o.p, Pc0(o), R, |c| - 2, o.base.fr, first, Eval(o.x, o.p, R[..o.nact]))
    {
      RunKept(s.code, c, K, o.p, Pc0(o), |c| - 2, R);
      YieldsDelivers(c, K, o.p, Pc0(o), R, |c| - 2, o.base.fr, first, Eval(o.x, o.p, R[..o.nact]));
    }
  }

  /** A small tree that is there is no reason to fail. */
  lemma ReturnWhole(toks: seq<Token>, scope: Scope, params: nat)
    ensures forall y :: ReturnText(toks, scope, y) ==> ParseSub(toks, scope, 1, 0) == Some((y, |toks|))
    ensures forall y, st: Status ::
      ReturnText(toks, scope, y) && SmallEnough(y, params) && ChunkExplained(st, Use(0, 0, params), 0, toks, scope, 0)
      ==> st.Fine?
  {
    hide ParseSub, Spells, Grouped;
    forall y | ReturnText(toks, scope, y) ensures ParseSub(toks, scope, 1, 0) == Some((y, |toks|)) {
      ParseWhole(toks, scope, y, 1);
    }
  }

  // ----- if -----

  function CondNeeds(x: Expr): Use { Use(Needs(x).code + 7, Needs(x).consts + 1, Max(Needs(x).regs, 2)) }

  ghost predicate CondExplained(st: Status, u: Use, level: int, parse: Option<(Expr, nat)>) {
    parse.Some? ==>
      || Explained(st, u, CondNeeds(parse.value.0))
      || (st == Failed(TooManyLevels) && level + 1 + Levels(parse.value.0) > LUAI_MAXCCALLS)
  }

  lemma CondTooBig(u: Use, level: int, parse: Option<(Expr, nat)>)
    ensures forall st: Status :: Explains(st, u, level + 1, parse) ==> CondExplained(st, u, level, parse)
    ensures parse.Some? ==> forall st: Status, u1: Use ::
      (Costs(u, u1, parse.value.0) && Explained(st, u1, Use(7, 1, 1)) ==> CondExplained(st, u, level, parse))
    ensures parse.Some? ==> forall u1: Use, u2: Use ::
      (Costs(u, u1, parse.value.0) && Spent(u1, u2, Use(7, 1, 1)) ==> Spent(u, u2, CondNeeds(parse.value.0)))
  {
  }

  /** cond: the code falls through when the condition is true and leaves through the list f otherwise. */
  method Cond(ls: LexState) returns (st: Status, f: int, ghost x: Expr, ghost x': Expr, ghost e: ExpDesc,
      ghost X: seq<int>)
    requires ls.Valid()
    modifies ls, ls.fs
    ensures CondExplained(st, old(ls.fs.Usage()), old(ls.level), ParseSub(ls.toks, ls.scope, old(ls.pos), 0))
    ensures st.Fine? ==>
      && ls.Valid() && ls.level == old(ls.level) && old(ls.pos) < ls.pos
      && Spent(old(ls.fs.Usage()), ls.fs.Usage(), CondNeeds(x))
      && ParseSub(ls.toks, ls.scope, old(ls.pos), 0) == Some((x, ls.pos))
      && Grouped(x) && Spells(x, ls.toks[old(ls.pos)..ls.pos], ls.scope)
      && (x' == x || x' == FalseForNil(x))
      && Branched(ls.OriginOf(old(ls.fs.Snapshot()), x'), ls.fs.Snapshot(), e, X, true)
      && Chain(ls.fs.code, f, X) && ls.fs.freereg == old(ls.fs.freereg)
  {
    hide Compiled, Spells, Branched, Explained, Explains, CondExplained, Costs, Spent, FoldSound, Grouped, ParseSub,
      Parsed;
    ghost var s0, u0 := ls.fs.Snapshot(), ls.fs.Usage();
    f, x, x', e, X := NO_JUMP, ENil, ENil, ExpDesc(VNIL, 0, 0, NO_JUMP, NO_JUMP), [];
    CondTooBig(u0, ls.level, ParseSub(ls.toks, ls.scope, ls.pos, 0));
    var v, op;
    ghost var T, F;
    v, op, x, T, F :- ls.Subexpr(0);
    x' := x;
    ParsedEither(ls.OriginOf(s0, x), ls.fs.Snapshot(), v, T, F);
    if v.k.VNIL? {
      v := v.(k := VFALSE);
      x' := FalseForNil(x);
    }
    var b;
    b, X :- ls.fs.GoIfTrue(v, ls.OriginOf(s0, x'), T, F);
    e := b;
    BranchChain(ls.OriginOf(s0, x'), ls.fs.Snapshot(), e, X);
    return Fine, b.f, x, x', e, X;
  }

  lemma ParsedEither(o: Origin, s: Snap, e: ExpDesc, T: seq<int>, F: seq<int>)
    requires Parsed(o, s, e, T, F)
    ensures Compiled(o, s, e, T, F)
    ensures e.k.VNIL? ==> Compiled(o.(x := FalseForNil(o.x)), s, e.(k := VFALSE), T, F)
  {
  }

  lemma BranchChain(o: Origin, s: Snap, e: ExpDesc, X: seq<int>)
    requires Branched(o, s, e, X, true)
    ensures Chain(s.code, e.f, X) && s.fr == o.base.fr
  {
  }

  /** A condition decides as its expression does, also when its final nil was compiled as false. */
  lemma CondRuns(o: Origin, x: Expr, s: Snap, e: ExpDesc, X: seq<int>, q: int, c2: Code, K: seq<Value>, R: Regs)
    requires o.x == x || o.x == FalseForNil(x)
    requires Branched(o, s, e, X, true) && Resolved(s, X, q, c2) && Ready0(o, s, K, R)
    ensures Decides(Run(c2, K, o.p, {}, |s.code|, Pc0(o), R), Run(c2, K, o.p, {}, q, Pc0(o), R), R, o.base.fr, true, Eval(x, o.p, R[..o.nact]))
  {
    hide Branched, Resolved, Eval, Run;
    BranchDecides(o, s, e, X, true, q, c2, K, R);
    FalseForNilTruth(x, o.p, R[..o.nact]);
  }

  // ----- if cond then return e end -----

  /** Between the branch at s1 and the return at s2 the jumps to here have been fixed,
      and nothing else of the branch changed. */
  lemma BlockPrefix(o1: Origin, s1: Snap, e1: ExpDesc, X: seq<int>, o2: Origin, s2: Snap, q: int, reg: int)
    requires Branched(o1, s1, e1, X, true) && o2.base == s1 && Returning(o2, s2, q, reg) && o1.base.code == []
    ensures |s1.code| <= q && s2.code[..|s1.code|] == Discharge(s1.code, s1.J) && s1.k <= s2.k && s1.ms <= s2.ms
    ensures forall j :: j in X ==> j < |s1.code|
  {
    hide Run, Yields, WF, Ready0, BranchAt;
    assert Extend(s1, LastB(s2.code, |s1.code|)) == s1.code;
    forall j | j in X ensures j < |s1.code| { ChainMember(s1.code, e1.f, X, j); }
  }

  /** Wherever the statement is, the exits of the condition are still a list after the block. */
  lemma BlockList(o1: Origin, s1: Snap, e1: ExpDesc, X: seq<int>, o2: Origin, s2: Snap, q: int, reg: int)
    requires Branched(o1, s1, e1, X, true) && o2.base == s1 && Returning(o2, s2, q, reg)
    ensures Chain(s2.code, e1.f, X) && s2.J == []
  {
    hide Run, Yields, WF, Ready0, BranchAt;
    var m := |s1.code|;
    if m == Pc0(o1) {
      EmptyChain(s2.code);
    } else {
      assert Extend(s1, LastB(s2.code, m)) == s1.code;
      forall j | j in X ensures 0 <= j < m && s2.code[j] == s1.code[j] {
        ChainMember(s1.code, e1.f, X, j);
        assert j !in s1.J;
        assert s2.code[j] == s2.code[..m][j] == PatchedAt(s1.code, s1.J, j, m, NO_REG, m);
      }
      ChainKeep(s1.code, s2.code, e1.f, X);
    }
  }

  /** The code of `if c then return x end` once the exits of c have been sent to the final return. */
  lemma IfCode(o1: Origin, s1: Snap, e1: ExpDesc, X: seq<int>, o2: Origin, s2: Snap, reg: int, code: Code)
    requires Branched(o1, s1, e1, X, true) && o2.base == s1 && Returning(o2, s2, |s2.code| - 1, reg)
    requires o1.base.code == []
    requires code == Discharge(s2.code, X) + [FINAL_RETURN]
    ensures |s1.code| < |s2.code| && Resolved(s1, X, |s2.code|, code)
    ensures forall i :: |s1.code| <= i < |s2.code| ==> code[i] == s2.code[i]
  {
    hide Run, Yields, WF, Ready0, BranchAt, Branched, Returning;
    var m, q := |s1.code|, |s2.code|;
    BlockPrefix(o1, s1, e1, X, o2, s2, q - 1, reg);
    var d := Discharge(s1.code, s1.J);
    forall i | 0 <= i < q ensures code[i] == PatchedAt(s2.code, X, i, q, NO_REG, q) {
      assert code[i] == Discharge(s2.code, X)[i];
    }
    forall i | 0 <= i < m ensures code[..m][i] == PatchList(d, X, q, NO_REG, q)[i] {
      assert s2.code[i] == s2.code[..m][i] == d[i];
      assert i + 1 < m ==> s2.code[i + 1] == s2.code[..m][i + 1] == d[i + 1];
      assert i > 0 ==> s2.code[i - 1] == s2.code[..m][i - 1] == d[i - 1];
    }
    assert code[..m] == PatchList(d, X, q, NO_REG, q);
  }

  /** The conditional return: the value of x, or no value when the condition does not hold. */
  ghost predicate IfReturns(code: Code, K: seq<Value>, p: Prims, R: Regs, n: int, reg: int, c: Result, x: Result) {
    match c
    case Err => Raises(code, K, p, 0, R)
    case Ok(v) =>
      if Falsy(v) then exists R' :: Reaches(code, K, p, 0, R, |code| - 1, R') && Kept(R, R', n)
      else Delivers(code, K, p, 0, R, |code| - 2, n, reg, x)
  }

  /** The state of the machine when it enters the block. */
  lemma BlockReady(o1: Origin, s1: Snap, e1: ExpDesc, X: seq<int>, o2: Origin, s2: Snap, reg: int, K: seq<Value>,
      R: Regs, R1: Regs)
    requires Branched(o1, s1, e1, X, true) && o2 == Origin(s1, o1.nact, o1.p, o2.x)
    requires Returning(o2, s2, |s2.code| - 1, reg)
    requires o1.base.code == [] && CallInput(s2.k, K, R, o1.nact, s2.ms) && |R1| == |R| && (s1.code == [] ==> R1 == R)
    ensures Ready0(o1, s1, K, R) && Ready0(o2, s2, K, R1) && 0 <= o1.nact <= |R|
  {
    hide Run, Yields, WF, BranchAt, Eval, PatchList;
    var m := |s1.code|;
    BlockPrefix(o1, s1, e1, X, o2, s2, |s2.code| - 1, reg);
    if m > 0 {
      assert s2.code[m - 1] == s2.code[..m][m - 1] == Discharge(s1.code, s1.J)[m - 1];
      PatchedJump(s1.code, s1.J, m - 1, m);
    }
  }

  lemma PatchedJump(code: Code, s: seq<int>, i: int, q: int)
    requires 0 <= i < |code| && code[i].op.OP_JMP?
    ensures PatchList(code, s, q, NO_REG, q)[i].op.OP_JMP?
  {
  }

  lemma IfRuns(o1: Origin, c: Expr, s1: Snap, e1: ExpDesc, X: seq<int>, o2: Origin, s2: Snap, reg: int, code: Code,
      K: seq<Value>, R: Regs)
    requires o1.x == c || o1.x == FalseForNil(c)
    requires Branched(o1, s1, e1, X, true) && o2 == Origin(s1, o1.nact, o1.p, o2.x)
    requires Returning(o2, s2, |s2.code| - 1, reg)
    requires o1.base.code == [] && code == Discharge(s2.code, X) + [FINAL_RETURN] && o1.nact == o1.base.fr == s1.fr
    requires CallInput(s2.k, K, R, o1.nact, s2.ms)
    ensures IfReturns(code, K, o1.p, R, o1.nact, reg, Eval(c, o1.p, R[..o1.nact]), Eval(o2.x, o1.p, R[..o1.nact]))
  {
    hide Run, Yields, WF, Branched, Returning, Resolved, Eval, PrefixOk, Ready0, Delivers, Reaches, Raises;
    var m, q, n := |s1.code|, |s2.code|, o1.nact;
    IfCode(o1, s1, e1, X, o2, s2, reg, code);
    BlockReady(o1, s1, e1, X, o2, s2, reg, K, R, R);
    CondRuns(o1, c, s1, e1, X, q, code, K, R);
    RunReaches(code, K, o1.p, m, 0, R);
    RunReaches(code, K, o1.p, q, 0, R);
    var res := Eval(c, o1.p, R[..n]);
    if res.Ok? && !Falsy(res.v) {
      var R1 := Run(code, K, o1.p, {}, m, 0, R).regs;
      BlockRuns(o1, s1, e1, X, o2, s2, reg, code, K, R, R1);
    }
  }

  lemma YieldsAt(o: Origin, s: Snap, q: int, reg: int, K: seq<Value>, R: Regs)
    requires Returning(o, s, q, reg) && Ready0(o, s, K, R)
    ensures 0 <= o.nact <= |R| && Pc0(o) <= q < |s.code|
    ensures Yields(Run(s.code, K, o.p, {}, q, Pc0(o), R), R, o.base.fr, reg, Eval(o.x, o.p, R[..o.nact]))
  {
    hide Run, Yields, PrefixOk;
  }

  lemma BlockRuns(o1: Origin, s1: Snap, e1: ExpDesc, X: seq<int>, o2: Origin, s2: Snap, reg: int, code: Code,
      K: seq<Value>, R: Regs, R1: Regs)
    requires Branched(o1, s1, e1, X, true) && o2 == Origin(s1, o1.nact, o1.p, o2.x)
    requires Returning(o2, s2, |s2.code| - 1, reg)
    requires o1.base.code == [] && code == Discharge(s2.code, X) + [FINAL_RETURN] && o1.nact == o1.base.fr == s1.fr
    requires CallInput(s2.k, K, R, o1.nact, s2.ms) && Kept(R, R1, o1.nact)
    requires Run(code, K, o1.p, {}, |s1.code|, 0, R) == Fall(R1)
    ensures Delivers(code, K, o1.p, 0, R, |code| - 2, o1.nact, reg, Eval(o2.x, o1.p, R[..o1.nact]))
  {
    hide Run, Yields, WF, Branched, Returning, Resolved, Eval, PrefixOk, Ready0, Delivers, Reaches, Raises, Discharge;
    var m, q, n := |s1.code|, |s2.code|, o1.nact;
    RunEnd(code, K, o1.p, {}, 0, R);
    IfCode(o1, s1, e1, X, o2, s2, reg, code);
    BlockReady(o1, s1, e1, X, o2, s2, reg, K, R, R1);
    assert R1[..n] == R[..n];
    YieldsAt(o2, s2, q - 1, reg, K, R1);
    RunKept(s2.code, code, K, o1.p, m, q - 1, R1);
    YieldsDelivers(code, K, o1.p, m, R1, q - 1, n, reg, Eval(o2.x, o1.p, R[..n]));
    RunReaches(code, K, o1.p, m, 0, R);
    DeliversLater(code, K, o1.p, 0, R, m, R1, q - 1, n, reg, Eval(o2.x, o1.p, R[..n]));
  }

  /** toks has `if c then return x end` at p0, with `then` at p and `end` at q. */
  ghost predicate IfText(toks: seq<Token>, scope: Scope, c: Expr, x: Expr, p0: nat, p: nat, q: nat) {
    && p0 < p && p + 2 <= q < |toks|
    && toks[p0] == KIF && toks[p] == KTHEN && toks[p + 1] == KRETURN && toks[q] == KEND
    && Grouped(c) && Spells(c, toks[p0 + 1..p], scope) && Grouped(x) && Spells(x, toks[p + 2..q], scope)
  }

  /** The two expressions, and where `then` and `end` are. */
  function ParseIf(toks: seq<Token>, scope: Scope, p0: nat): Option<(Expr, Expr, nat, nat)> {
    if !TokenAt(toks, p0).KIF? then None
    else
      match ParseSub(toks, scope, p0 + 1, 0)
      case None => None
      case Some((c, p)) =>
        if !TokenAt(toks, p).KTHEN? || !TokenAt(toks, p + 1).KRETURN? then None
        else
          match ParseSub(toks, scope, p + 2, 0)
          case None => None
          case Some((x, q)) => if TokenAt(toks, q).KEND? then Some((c, x, p, q)) else None
  }

  lemma IfParses(toks: seq<Token>, scope: Scope, c: Expr, x: Expr, p0: nat, p: nat, q: nat)
    requires IfText(toks, scope, c, x, p0, p, q)
    ensures ParseIf(toks, scope, p0) == Some((c, x, p, q))
  {
    hide Spells, Grouped, ParseSub, ParseLoop;
    AlwaysOpen(c);
    AlwaysOpen(x);
    Climb(toks, scope, c, p0 + 1, p, 0);
    LoopEnds(toks, scope, c, p, 0);
    Climb(toks, scope, x, p + 2, q, 0);
    LoopEnds(toks, scope, x, q, 0);
  }

  function IfNeeds(c: Expr, x: Expr): Use {
    Use(CondNeeds(c).code + ReturnNeeds(x).code + 1, CondNeeds(c).consts + ReturnNeeds(x).consts, Max(CondNeeds(c).regs, ReturnNeeds(x).regs))
  }

  ghost predicate IfExplained(st: Status, u: Use, level: int, parse: Option<(Expr, Expr, nat, nat)>) {
    parse.Some? ==>
      var (c, x, _, _) := parse.value;
      || Explained(st, u, IfNeeds(c, x))
      || (st == Failed(TooManyLevels) && (level + 1 + Levels(c) > LUAI_MAXCCALLS || level + 2 + Levels(x) > LUAI_MAXCCALLS))
  }

  /** A failure in the condition, in the block or behind it. */
  lemma IfTooBig(toks: seq<Token>, scope: Scope, p0: nat, u: Use, level: int)
    requires p0 < |toks| && toks[p0] == KIF
    ensures var parse, cond := ParseIf(toks, scope, p0), ParseSub(toks, scope, p0 + 1, 0);
      && (parse.None? ==> forall st: Status :: IfExplained(st, u, level, parse))
      && (forall st: Status :: CondExplained(st, u, level, cond) ==> IfExplained(st, u, level, parse))
      && (cond.Some? ==> forall st: Status, u1: Use ::
            Spent(u, u1, CondNeeds(cond.value.0)) && u1.regs <= u.regs && ChunkExplained(st, u1, level, toks, scope, cond.value.1 + 1)
            ==> IfExplained(st, u, level, parse))
  {
    hide ParseSub, Needs, Levels, Spent;
    var parse, cond := ParseIf(toks, scope, p0), ParseSub(toks, scope, p0 + 1, 0);
    if parse.Some? {
      var (c, x, p, q) := parse.value;
      assert ParseSub(toks, scope, p + 2, 0) == Some((x, q));
      forall st: Status, u1: Use | Spent(u, u1, CondNeeds(c)) && u1.regs <= u.regs && ChunkExplained(st, u1, level, toks, scope, p + 1)
        ensures IfExplained(st, u, level, parse)
      {
        if Explained(st, u1, ReturnNeeds(x)) { LaterTooBig(st, u, u1, CondNeeds(c), ReturnNeeds(x), 1); }
      }
    }
  }

  lemma LaterTooBig(st: Status, u: Use, u1: Use, spent: Use, need: Use, extra: nat)
    requires Spent(u, u1, spent) && u1.regs <= u.regs && Explained(st, u1, need)
    ensures Explained(st, u, Use(spent.code + need.code + extra, spent.consts + need.consts, Max(spent.regs, need.regs)))
  {
  }

  lemma EndTooBig(u: Use, u1: Use, u2: Use, c: Expr, x: Expr)
    requires Spent(u, u1, CondNeeds(c)) && Spent(u1, u2, ReturnNeeds(x)) && u2.regs <= u.regs
    ensures forall st: Status :: Explained(st, u2, Use(1, 0, 0)) ==> Explained(st, u, IfNeeds(c, x))
    ensures forall u3 :: Spent(u2, u3, Use(1, 0, 0)) ==> Spent(u, u3, IfNeeds(c, x))
  {
  }

  /** What ifstat has made of the two expressions. */
  ghost predicate IfDone(o1: Origin, c: Expr, s1: Snap, e: ExpDesc, X: seq<int>, o2: Origin, s2: Snap, first: int) {
    && (o1.x == c || o1.x == FalseForNil(c)) && Branched(o1, s1, e, X, true)
    && o2 == Origin(s1, o1.nact, o1.p, o2.x) && Returning(o2, s2, |s2.code| - 1, first)
  }

  /** leaveblock, then the exits of the condition come here. */
  method LeaveIf(fs: FuncState, f: int, ghost X: seq<int>) returns (st: Status)
    requires fs.Valid() && Chain(fs.code, f, X) && fs.J == []
    modifies fs
    ensures Explained(st, old(fs.Usage()), Use(1, 0, 0))
    ensures st.Fine? ==> Spent(old(fs.Usage()), fs.Usage(), Use(1, 0, 0))
    ensures st.Fine? ==>
      && fs.Valid() && fs.Snapshot() == old(fs.Snapshot()).(J := X, lt := fs.lasttarget)
      && old(fs.lasttarget) <= fs.lasttarget
  {
    st := Fine;
    ghost var s := fs.Snapshot();
    forall j | j in X ensures 0 <= j < |fs.code| && fs.code[j].op.OP_JMP? { ChainMember(fs.code, f, X, j); }
    assert [] + X == X;
    :- fs.PatchToHere(f, X);
  }

  /** With both expressions read, only the `end` is open. */
  lemma IfRead(toks: seq<Token>, scope: Scope, p0: nat, c: Expr, p: nat, x: Expr, q: nat, u: Use, level: int)
    requires p0 < |toks| && toks[p0] == KIF && ParseSub(toks, scope, p0 + 1, 0) == Some((c, p))
    requires p + 1 < |toks| && toks[p] == KTHEN && toks[p + 1] == KRETURN
    requires ParseSub(toks, scope, p + 2, 0) == Some((x, q))
    ensures ParseIf(toks, scope, p0) == if TokenAt(toks, q).KEND? then Some((c, x, p, q)) else None
    ensures forall st: Status :: Explained(st, u, IfNeeds(c, x)) || !TokenAt(toks, q).KEND? ==>
      IfExplained(st, u, level, ParseIf(toks, scope, p0))
  {
    hide ParseSub;
  }

  /** test_then_block, where the block returns a value. */
  method TestThenBlock(ls: LexState) returns (st: Status, f: int, ghost c: Expr, ghost c': Expr, ghost x: Expr,
      ghost p: nat, ghost s1: Snap, ghost e: ExpDesc, ghost X: seq<int>, ghost first: int)
    requires ls.Valid() && ls.Current() == KIF && ls.fs.freereg == ls.fs.nactvar
    modifies ls, ls.fs
    ensures st.Failed? ==> IfExplained(st, old(ls.fs.Usage()), old(ls.level), ParseIf(ls.toks, ls.scope, old(ls.pos)))
    ensures st.Fine? ==>
      && ls.Valid() && ls.level == old(ls.level) && old(ls.pos) < p && p + 2 <= ls.pos && ls.toks[p] == KTHEN
      && ls.toks[p + 1] == KRETURN
      && ParseSub(ls.toks, ls.scope, old(ls.pos) + 1, 0) == Some((c, p))
      && ParseSub(ls.toks, ls.scope, p + 2, 0) == Some((x, ls.pos))
      && Grouped(c) && Spells(c, ls.toks[old(ls.pos) + 1..p], ls.scope) && Grouped(x)
      && Spells(x, ls.toks[p + 2..ls.pos], ls.scope)
    ensures st.Fine? ==>
      && (forall st': Status :: Explained(st', ls.fs.Usage(), Use(1, 0, 0)) ==>
        Explained(st', old(ls.fs.Usage()), IfNeeds(c, x)))
      && (forall u :: Spent(ls.fs.Usage(), u, Use(1, 0, 0)) ==> Spent(old(ls.fs.Usage()), u, IfNeeds(c, x)))
    ensures st.Fine? ==>
      && IfDone(ls.OriginOf(old(ls.fs.Snapshot()), c'), c, s1, e, X, ls.OriginOf(s1, x), ls.fs.Snapshot(), first)
      && s1.fr == ls.fs.nactvar && ls.fs.J == [] && Chain(ls.fs.code, f, X)
  {
    hide Spells, Returning, ParseSub, ParseIf, ChunkExplained, CondExplained, IfExplained, Grouped, Branched,
      Explained, Spent, FoldSound, SnapOk;
    f, c, c', x, p, s1, e, X, first :=
      NO_JUMP, ENil, ENil, ENil, 0, ls.fs.Snapshot(), ExpDesc(VNIL, 0, 0, NO_JUMP, NO_JUMP), [], 0;
    ghost var s0, p0, u0 := ls.fs.Snapshot(), ls.pos, ls.fs.Usage();
    IfTooBig(ls.toks, ls.scope, p0, u0, ls.level);
    ls.Next();
    f, c, c', e, X :- Cond(ls);
    s1, p := ls.fs.Snapshot(), ls.pos;
    ghost var u1 := ls.fs.Usage();
    NoThen(ls.toks, ls.scope, p0, c, p);
    if ls.Current() != KTHEN {
      st := Failed(Expected("then"));
      return;
    }
    ls.Next();
    x, first :- Chunk(ls);
    ghost var s2 := ls.fs.Snapshot();
    EndTooBig(u0, u1, ls.fs.Usage(), c, x);
    BlockList(ls.OriginOf(s0, c'), s1, e, X, ls.OriginOf(s1, x), s2, |s2.code| - 1, first);
    st := Fine;
  }

  lemma NoThen(toks: seq<Token>, scope: Scope, p0: nat, c: Expr, p: nat)
    requires p0 < |toks| && ParseSub(toks, scope, p0 + 1, 0) == Some((c, p))
    ensures !TokenAt(toks, p).KTHEN? ==> ParseIf(toks, scope, p0).None?
  {
    hide ParseSub;
  }

  /** Nothing depends on the last target that leaving the block sets. */
  lemma DoneKept(o1: Origin, c: Expr, s1: Snap, e: ExpDesc, X: seq<int>, o2: Origin, s2: Snap, s3: Snap, first: int)
    requires IfDone(o1, c, s1, e, X, o2, s2, first) && s3 == s2.(lt := s3.lt) && s2.lt <= s3.lt
    ensures IfDone(o1, c, s1, e, X, o2, s3, first)
  {
    hide Branched, Returning;
    ReturningKept(o2, s2, s3, |s2.code| - 1, first);
  }

  /** ifstat, for a single test and a block that returns a value. */
  method IfStat(ls: LexState) returns (st: Status, ghost c: Expr, ghost c': Expr, ghost x: Expr, ghost p: nat,
      ghost s1: Snap, ghost e: ExpDesc, ghost X: seq<int>, ghost first: int)
    requires ls.Valid() && ls.Current() == KIF && ls.fs.freereg == ls.fs.nactvar
    modifies ls, ls.fs
    ensures st.Failed? ==> IfExplained(st, old(ls.fs.Usage()), old(ls.level), ParseIf(ls.toks, ls.scope, old(ls.pos)))
    ensures st.Fine? ==>
      && ls.Valid() && ls.level == old(ls.level) && ls.pos > 0
      && IfText(ls.toks, ls.scope, c, x, old(ls.pos), p, ls.pos - 1)
      && ParseIf(ls.toks, ls.scope, old(ls.pos)) == Some((c, x, p, ls.pos - 1))
      && Spent(old(ls.fs.Usage()), ls.fs.Usage(), IfNeeds(c, x))
    ensures st.Fine? ==>
      && IfDone(ls.OriginOf(old(ls.fs.Snapshot()), c'), c, s1, e, X, ls.OriginOf(s1, x), ls.fs.Snapshot().(J := []), first)
      && s1.fr == ls.fs.nactvar && ls.fs.J == X
  {
    hide Spells, Returning, ParseSub, ParseIf, IfExplained, Grouped, Branched, Explained, Spent, FoldSound, SnapOk,
      IfNeeds, Chain, IfDone;
    c, c', x, p, s1, e, X, first := ENil, ENil, ENil, 0, ls.fs.Snapshot(), ExpDesc(VNIL, 0, 0, NO_JUMP, NO_JUMP), [], 0;
    ghost var s0, p0, u0, level := ls.fs.Snapshot(), ls.pos, ls.fs.Usage(), ls.level;
    var f;
    f, c, c', x, p, s1, e, X, first :- TestThenBlock(ls);
    ghost var s2 := ls.fs.Snapshot();
    IfRead(ls.toks, ls.scope, p0, c, p, x, ls.pos, u0, level);
    :- LeaveIf(ls.fs, f, X);
    DoneKept(ls.OriginOf(s0, c'), c, s1, e, X, ls.OriginOf(s1, x), s2, ls.fs.Snapshot().(J := []), first);
    if ls.Current() != KEND {
      st := Failed(Expected("end"));
      return;
    }
    ls.Next();
    return Fine, c, c', x, p, s1, e, X, first;
  }

  /** toks is `if c then return x end`. */
  ghost predicate IfFunction(toks: seq<Token>, scope: Scope, c: Expr, x: Expr, p: nat) {
    |toks| > 0 && IfText(toks, scope, c, x, 0, p, |toks| - 1)
  }

  predicate SmallIf(c: Expr, x: Expr, params: int) {
    && Affordable(Use(0, 0, params), Use(IfNeeds(c, x).code + 1, IfNeeds(c, x).consts, IfNeeds(c, x).regs))
    && 2 + Levels(c) <= LUAI_MAXCCALLS && 3 + Levels(x) <= LUAI_MAXCCALLS
  }

  /** The machine raises c's error, returns nothing when c is false, and gives x otherwise. */
  ghost predicate GivesIf(code: Code, K: seq<Value>, p: Prims, R: Regs, c: Result, x: Result) {
    match c
    case Err => Raises(code, K, p, 0, R)
    case Ok(v) => if v == Nil || v == Boolean(false) then Returns(code, K, p, R, []) else Gives(code, K, p, R, x)
  }

  /** Called with any arguments the function returns the value of x if c is true, and no value otherwise;
      an error of the one evaluated is raised. */
  ghost predicate ReturnsIf(code: Code, k: seq<Value>, stack: int, p: Prims, params: int, c: Expr, x: Expr) {
    && 0 <= params <= stack < 250
    && forall K: seq<Value>, args: seq<Value>, size: nat :: k <= K && |args| == params && stack <= size ==>
         GivesIf(code, K, p, Frame(args, size), Eval(c, p, args), Eval(x, p, args))
  }

  lemma IfReturnsGives(code: Code, K: seq<Value>, p: Prims, R: Regs, n: int, reg: int, c: Result, x: Result)
    requires |code| > 1 && code[|code| - 2] == Instruction(OP_RETURN, reg, 2, 0) && code[|code| - 1] == FINAL_RETURN
    requires IfReturns(code, K, p, R, n, reg, c, x)
    ensures GivesIf(code, K, p, R, c, x)
  {
    hide Delivers, Gives, Reaches, Returns;
    if c.Ok? && Falsy(c.v) {
      var R' :| Reaches(code, K, p, 0, R, |code| - 1, R') && Kept(R, R', n);
      assert R'[0..0] == [];
      ReachesReturn(code, K, p, R, |code| - 1, R', []);
    } else if c.Ok? {
      DeliversGives(code, K, p, R, |code| - 2, n, reg, x);
    }
  }

  lemma IfCalled(code: Code, k: seq<Value>, stack: int, p: Prims, params: int, first: int, c: Expr, x: Expr)
    requires |code| > 1 && code[|code| - 2] == Instruction(OP_RETURN, first, 2, 0) && code[|code| - 1] == FINAL_RETURN
    requires 0 <= params <= stack < 250
    requires forall K: seq<Value>, R: Regs :: CallInput(k, K, R, params, stack) ==>
      IfReturns(code, K, p, R, params, first, Eval(c, p, R[..params]), Eval(x, p, R[..params]))
    ensures ReturnsIf(code, k, stack, p, params, c, x)
  {
    hide IfReturns, GivesIf, Eval;
    forall K: seq<Value>, args: seq<Value>, size: nat | k <= K && |args| == params && stack <= size
      ensures GivesIf(code, K, p, Frame(args, size), Eval(c, p, args), Eval(x, p, args))
    {
      assert CallInput(k, K, Frame(args, size), params, stack);
      IfReturnsGives(code, K, p, Frame(args, size), params, first, Eval(c, p, args), Eval(x, p, args));
    }
  }

  /** The function `if c then return x end`.  Nothing else compiles, and the code does what those two
      trees say; any such text that is small enough does compile. */
  method CompileIf(toks: seq<Token>, params: nat, scope: Scope, prims: Prims)
    returns (st: Status, code: Code, k: seq<Value>, stack: int)
    requires params <= 200 && FoldSound(prims)
    requires forall n :: scope(n).Local? ==> 0 <= scope(n).reg < params
    ensures st.Fine? ==> exists c, x, p: nat :: IfFunction(toks, scope, c, x, p)
    ensures st.Fine? ==>
      forall c, x, p: nat :: IfFunction(toks, scope, c, x, p) ==> ReturnsIf(code, k, stack, prims, params, c, x)
    ensures forall c, x, p: nat :: IfFunction(toks, scope, c, x, p) && SmallIf(c, x, params) ==> st.Fine?
    ensures forall c, x, p: nat :: IfFunction(toks, scope, c, x, p) && |toks| <= 40 ==> st.Fine?
    ensures forall c, x, p: nat :: IfFunction(toks, scope, c, x, p) && |toks| <= 2900 ==>
      (Max(Levels(c), Levels(x)) <= 190 && params + Max(Levels(c), Levels(x)) <= 240 ==> st.Fine?)
  {
    hide Spells, Returning, ParseSub, ParseIf, IfExplained, Grouped, IfReturns, Explained, Spent, IfDone, IfText,
      FoldSound, CallInput, SmallIf;
    code, k, stack := [], [], 0;
    var fs := new FuncState(params, prims);
    var ls := new LexState(toks, scope, fs);
    ghost var s0 := fs.Snapshot();
    IfWhole(toks, scope, params);
    SmallIfs(toks, scope, params);
    st := ls.EnterLevel();
    if ls.Current() != KIF {
      return Failed(NotModelled), code, k, stack;
    }
    ghost var c, c', x, p: nat, s1, e, X, first;
    c, c', x, p, s1, e, X, first :- IfStat(ls);
    if ls.pos < |toks| {
      return Failed(Expected("<eof>")), code, k, stack;
    }
    ghost var s2 := fs.Snapshot().(J := []);
    var _ :- Ret(fs, 0, 0);
    code, k, stack := fs.code, fs.k, fs.maxstacksize;
    IfEnds(ls.OriginOf(s0, c'), c, s1, e, X, ls.OriginOf(s1, x), s2, first, code);
    IfCalled(code, k, stack, prims, params, first, c, x);
    assert IfFunction(toks, scope, c, x, p);
    return Fine, code, k, stack;
  }

  lemma SmallIfs(toks: seq<Token>, scope: Scope, params: nat)
    requires params <= 200
    ensures forall c, x, p: nat :: IfFunction(toks, scope, c, x, p) && |toks| <= 40 ==> SmallIf(c, x, params)
    ensures forall c, x, p: nat :: IfFunction(toks, scope, c, x, p) && |toks| <= 2900 ==>
      (Max(Levels(c), Levels(x)) <= 190 && params + Max(Levels(c), Levels(x)) <= 240 ==> SmallIf(c, x, params))
  {
    hide Spells, Needs, Levels, Grouped;
    forall c, x, p: nat | IfFunction(toks, scope, c, x, p)
      ensures |toks| <= 40 ==> SmallIf(c, x, params)
      ensures |toks| <= 2900 && Max(Levels(c), Levels(x)) <= 190 && params + Max(Levels(c), Levels(x)) <= 240 ==>
        SmallIf(c, x, params)
    {
      TextCosts(c, toks[1..p], scope);
      TextCosts(x, toks[p + 2..|toks| - 1], scope);
    }
  }

  lemma IfWhole(toks: seq<Token>, scope: Scope, params: nat)
    ensures forall c, x, p: nat :: IfFunction(toks, scope, c, x, p) ==>
      toks[0] == KIF && ParseIf(toks, scope, 0) == Some((c, x, p, |toks| - 1))
    ensures forall c, x, p: nat, st: Status ::
      (IfFunction(toks, scope, c, x, p) && SmallIf(c, x, params) && IfExplained(st, Use(0, 0, params), 1, ParseIf(toks, scope, 0)) ==> st.Fine?)
    ensures forall c, x, p: nat, u: Use, st: Status ::
      (IfFunction(toks, scope, c, x, p) && SmallIf(c, x, params) && Spent(Use(0, 0, params), u, IfNeeds(c, x)) && Explained(st, u, Use(1, 0, 0)) ==> st.Fine?)
  {
    hide ParseIf, Needs;
    forall c, x, p: nat | IfFunction(toks, scope, c, x, p)
      ensures ParseIf(toks, scope, 0) == Some((c, x, p, |toks| - 1))
    {
      IfParses(toks, scope, c, x, 0, p, |toks| - 1);
    }
  }

  lemma IfEnds(o1: Origin, c: Expr, s1: Snap, e: ExpDesc, X: seq<int>, o2: Origin, s2: Snap, first: int, code: Code)
    requires IfDone(o1, c, s1, e, X, o2, s2, first)
    requires o1.base.code == [] && code == Discharge(s2.code, X) + [FINAL_RETURN] && o1.nact == o1.base.fr == s1.fr
    ensures |code| > 1 && code[|code| - 2] == Instruction(OP_RETURN, first, 2, 0) && code[|code| - 1] == FINAL_RETURN
    ensures forall K: seq<Value>, R: Regs :: CallInput(s2.k, K, R, o1.nact, s2.ms) ==>
      IfReturns(code, K, o1.p, R, o1.nact, first, Eval(c, o1.p, R[..o1.nact]), Eval(o2.x, o1.p, R[..o1.nact]))
  {
    IfCode(o1, s1, e, X, o2, s2, first, code);
    hide IfReturns, Branched, Returning, Eval;
    forall K: seq<Value>, R: Regs | CallInput(s2.k, K, R, o1.nact, s2.ms)
      ensures IfReturns(code, K, o1.p, R, o1.nact, first, Eval(c, o1.p, R[..o1.nact]), Eval(o2.x, o1.p, R[..o1.nact]))
    {
      IfRuns(o1, c, s1, e, X, o2, s2, first, code, K, R);
    }
  }
}
