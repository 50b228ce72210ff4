/** The expression parser (lparser.c), which drives the code generator in one pass. */
module Lparser {
  import opened Wrappers
  import opened LuaVM
  import opened JumpLists
  import opened CodeSem
  import opened ExprSpec
  import opened ExprOps
  import opened Lcode
  import opened Operators
  import opened Grammar
  import opened Limits
  import opened Parsing

  /** e is the descriptor simpleexp gives to the leaf x. */
  predicate LeafDesc(x: Expr, e: ExpDesc, k: seq<Value>, nact: int) {
    && e.t == NO_JUMP && e.f == NO_JUMP
    && match x
       case ENil => e.k.VNIL?
       case ETrue => e.k.VTRUE?
       case EFalse => e.k.VFALSE?
       case ENum(n) => e.k.VKNUM? && e.nval == n
       case EStr(s) => e.k.VK? && 0 <= e.info < |k| && k[e.info] == Str(s)
       case ELocal(r) => e.k.VLOCAL? && e.info == r && r < nact
       case EUpval(i) => e.k.VUPVAL? && e.info == i
       case EGlobal(s) => e.k.VGLOBAL? && 0 <= e.info < |k| && k[e.info] == Str(s)
       case _ => false
  }

  lemma LeafCompiled(o: Origin, s: Snap, e: ExpDesc)
    requires SnapOk(o.base) && s == o.base.(k := s.k) && o.base.k <= s.k && 0 <= o.nact <= o.base.fr
    requires LeafDesc(o.x, e, s.k, o.nact)
    ensures Parsed(o, s, e, [], [])
  {
    LeafCompiled1(o, s, e);
    if e.k.VNIL? {
      LeafCompiled1(o.(x := EFalse), s, e.(k := VFALSE));
    }
  }

  lemma LeafCompiled1(o: Origin, s: Snap, e: ExpDesc)
    requires SnapOk(o.base) && s == o.base.(k := s.k) && o.base.k <= s.k && 0 <= o.nact <= o.base.fr
    requires LeafDesc(o.x, e, s.k, o.nact)
    ensures Compiled(o, s, e, [], [])
  {
    var n := |s.code|;
    assert Core(o, s, e, [], []) by {
      EmptyChain(s.code);
      ExtendNeutral(o.base);
      assert s.code[..n] == s.code;
    }
    hide Core, SnapOk, PrefixOk;
    forall K: seq<Value>, R: Regs, b: int ensures SemAt(o, s, e, [], [], K, R, b) {
      if Input(o, s, Extend(s, b), K, R, b) {
        RunEnd(Extend(s, b), K, o.p, Pend([], [], s.J), n, R);
        assert s.k <= K;
      }
    }
  }

  lemma ParenCompiled(o: Origin, x: Expr, s: Snap, e: ExpDesc, T: seq<int>, F: seq<int>)
    requires Compiled(o.(x := x), s, e, T, F) && o.x == EParen(x)
    ensures Compiled(o, s, e, T, F)
  {
    hide Run;
    forall K: seq<Value>, R: Regs, b: int ensures SemAt(o, s, e, T, F, K, R, b) {
      assert SemAt(o.(x := x), s, e, T, F, K, R, b);
    }
  }

  ghost function UseOf(s: Snap): Use { Use(|s.code|, |s.k|, s.fr) }

  lemma CompiledRegs(o: Origin, s: Snap, e: ExpDesc, T: seq<int>, F: seq<int>)
    requires Compiled(o, s, e, T, F)
    ensures o.base.fr <= s.fr <= o.base.fr + 1
  {
    hide Sem;
  }

  lemma ParsedRegs(o: Origin, s: Snap, e: ExpDesc, T: seq<int>, F: seq<int>)
    requires Parsed(o, s, e, T, F)
    ensures o.base.fr <= s.fr <= o.base.fr + 1
  {
    hide Compiled;
    CompiledRegs(o, s, e, T, F);
  }

  lemma ParsedCompiled(o: Origin, s: Snap, e: ExpDesc, T: seq<int>, F: seq<int>)
    requires Parsed(o, s, e, T, F)
    ensures Compiled(o, s, e, T, F)
  {
  }

  lemma InfixedRegs(op: BinOp, o: Origin, s: Snap, e: ExpDesc, X: seq<int>)
    requires Infixed(op, o, s, e, X)
    ensures s.fr <= o.base.fr + 1
  {
    hide Sem, Core;
  }

  class LexState {
    const toks: seq<Token>
    const scope: Scope
    const fs: FuncState
    var pos: nat
    var level: nat

    constructor (toks: seq<Token>, scope: Scope, fs: FuncState)
      requires fs.Valid() && FoldSound(fs.prims)
      requires forall n :: scope(n).Local? ==> 0 <= scope(n).reg < fs.nactvar
      ensures Valid() && this.toks == toks && this.scope == scope && this.fs == fs && pos == 0 && level == 0
    {
      this.toks, this.scope, this.fs := toks, scope, fs;
      pos, level := 0, 0;
    }

    ghost predicate Valid()
      reads this, fs
    {
      && fs.Valid() && FoldSound(fs.prims) && pos <= |toks|
      && forall n :: scope(n).Local? ==> 0 <= scope(n).reg < fs.nactvar
    }

    function Current(): Token
      reads `pos
    {
      if pos < |toks| then toks[pos] else EOS
    }

    /** luaX_next */
    method Next()
      modifies `pos
      ensures pos == if old(pos) < |toks| then old(pos) + 1 else old(pos)
    {
      if pos < |toks| {
        pos := pos + 1;
      }
    }

    /** enterlevel */
    method EnterLevel() returns (st: Status)
      modifies `level
      ensures level == old(level) + 1 && (st.Fine? <==> level <= 200)
      ensures st.Failed? ==> st.error == TooManyLevels
    {
      level := level + 1;
      if level > LUAI_MAXCCALLS {
        return Failed(TooManyLevels);
      }
      return Fine;
    }

    /** leavelevel */
    method LeaveLevel()
      requires level > 0
      modifies `level
      ensures level == old(level) - 1
    {
      level := level - 1;
    }

    ghost function OriginOf(s: Snap, x: Expr): Origin {
      Origin(s, fs.nactvar, fs.prims, x)
    }

    method SingleVar(name: string) returns (st: Status, v: ExpDesc)
      requires Valid() && Current() == NAME(name)
      modifies fs
      ensures Explained(st, old(fs.Usage()), Use(0, 1, 0))
      ensures st.Fine? ==> Spent(old(fs.Usage()), fs.Usage(), Use(0, 1, 0))
      ensures st.Fine? ==>
        && Valid() && Leaf(NAME(name), scope).Some?
        && Parsed(OriginOf(old(fs.Snapshot()), Leaf(NAME(name), scope).value), fs.Snapshot(), v, [], [])
    {
      hide Compiled, Core;
      ghost var s := fs.Snapshot();
      v := ExpDesc(VGLOBAL, NO_REG, 0, NO_JUMP, NO_JUMP);
      match scope(name) {
        case Local(r) => v := ExpDesc(VLOCAL, r, 0, NO_JUMP, NO_JUMP);
        case Upval(i) => v := ExpDesc(VUPVAL, i, 0, NO_JUMP, NO_JUMP);
        case Global =>
          var info :- fs.AddK(Str(name));
          v := ExpDesc(VGLOBAL, info, 0, NO_JUMP, NO_JUMP);
      }
      LeafCompiled(OriginOf(s, Leaf(NAME(name), scope).value), fs.Snapshot(), v);
      return Fine, v;
    }

    method PrefixExp() returns (st: Status, v: ExpDesc, ghost x: Expr, ghost T: seq<int>, ghost F: seq<int>)
      requires Valid() && (Current().LPAREN? || Current().NAME?)
      modifies this, fs
      ensures st.Fine? ==> Costs(old(fs.Usage()), fs.Usage(), x)
      ensures st.Fine? && !Continues(Current()) ==> ParseSimple(toks, scope, old(pos)) == Some((x, pos))
      ensures st.Fine? && Continues(Current()) ==> ParseSimple(toks, scope, old(pos)) == None
      ensures Explains(st, old(fs.Usage()), old(level), ParseSimple(toks, scope, old(pos)))
      ensures st.Fine? ==>
        && Valid() && old(pos) < pos && level == old(level)
        && Spells(x, toks[old(pos)..pos], scope) && Grouped(x) && !x.EBin? && !x.EUn?
        && Parsed(OriginOf(old(fs.Snapshot()), x), fs.Snapshot(), v, T, F)
      decreases |toks| - pos, 0
    {
      hide Compiled, Core;
      v, x, T, F := ExpDesc(VNIL, 0, 0, NO_JUMP, NO_JUMP), ENil, [], [];
      match Current() {
        case LPAREN =>
          v, x, T, F :- Parenthesized();
          return Fine, v, x, T, F;
        case NAME(name) =>
          v :- SingleVar(name);
          Next();
          return Fine, v, Leaf(NAME(name), scope).value, [], [];
      }
    }

    method Parenthesized() returns (st: Status, v: ExpDesc, ghost x: Expr, ghost T: seq<int>, ghost F: seq<int>)
      requires Valid() && Current().LPAREN?
      modifies this, fs
      ensures st.Fine? ==> Costs(old(fs.Usage()), fs.Usage(), x)
      ensures st.Fine? && !Continues(Current()) ==> ParseSimple(toks, scope, old(pos)) == Some((x, pos))
      ensures st.Fine? && Continues(Current()) ==> ParseSimple(toks, scope, old(pos)) == None
      ensures Explains(st, old(fs.Usage()), old(level), ParseSimple(toks, scope, old(pos)))
      ensures st.Fine? ==>
        && Valid() && old(pos) < pos && level == old(level)
        && Spells(x, toks[old(pos)..pos], scope) && Grouped(x) && !x.EBin? && !x.EUn?
        && Parsed(OriginOf(old(fs.Snapshot()), x), fs.Snapshot(), v, T, F)
      decreases |toks| - pos, -1
    {
      hide Compiled, Core, Spells, FoldSound, Parsed;
      v, x, T, F := ExpDesc(VNIL, 0, 0, NO_JUMP, NO_JUMP), ENil, [], [];
      ghost var s0, p0 := fs.Snapshot(), pos;
      Next();
      var op;
      v, op, x, T, F :- Subexpr(0);
      if Current() != RPAREN {
        return Failed(Expected(")")), v, x, T, F;
      }
      Next();
      SpellsParen(x, toks, p0, pos, scope);
      v :- ParenClosed(v, OriginOf(s0, EParen(x)), x, T, F);
      ParsedRegs(OriginOf(s0, EParen(x)), fs.Snapshot(), v, T, F);
      return Fine, v, EParen(x), T, F;
    }

    /** What prefixexp does after the closing parenthesis. */
    method ParenClosed(v0: ExpDesc, ghost o: Origin, ghost x: Expr, ghost T: seq<int>,
        ghost F: seq<int>) returns (st: Status, v: ExpDesc)
      requires Valid() && o.x == EParen(x) && Parsed(o.(x := x), fs.Snapshot(), v0, T, F)
      modifies fs
      ensures Explained(st, old(fs.Usage()), Use(1, 0, 0))
      ensures st.Fine? ==> Spent(old(fs.Usage()), fs.Usage(), Use(1, 0, 0))
      ensures st.Fine? ==> Valid() && Parsed(o, fs.Snapshot(), v, T, F)
    {
      hide Sem, Core, KindOk;
      v :- fs.DischargeVars(v0, o.(x := x), T, F, fs.freereg);
      ParenCompiled(o, x, fs.Snapshot(), v, T, F);
      if v.k.VNIL? {
        var x' := FalseForNil(x);
        ParenCompiled(o.(x := EParen(x')), x', fs.Snapshot(), v.(k := VFALSE), T, F);
      }
      return Fine, v;
    }

    /** simpleexp and primaryexp, without calls, indexing, constructors, functions and `...` */
    method SimpleExp() returns (st: Status, v: ExpDesc, ghost x: Expr, ghost T: seq<int>, ghost F: seq<int>)
      requires Valid()
      modifies this, fs
      ensures st.Fine? ==> Costs(old(fs.Usage()), fs.Usage(), x)
      ensures st.Fine? ==> ParseSimple(toks, scope, old(pos)) == Some((x, pos))
      ensures Explains(st, old(fs.Usage()), old(level), ParseSimple(toks, scope, old(pos)))
      ensures st.Fine? ==>
        && Valid() && old(pos) < pos && level == old(level)
        && Spells(x, toks[old(pos)..pos], scope) && Grouped(x) && !x.EBin? && !x.EUn?
        && Parsed(OriginOf(old(fs.Snapshot()), x), fs.Snapshot(), v, T, F)
      decreases |toks| - pos, 1
    {
      hide Compiled, Core;
      v, x, T, F := ExpDesc(VNIL, 0, 0, NO_JUMP, NO_JUMP), ENil, [], [];
      var t := Current();
      if t.LPAREN? || t.NAME? {
        v, x, T, F :- PrefixExp();
        if Continues(Current()) {
          return Failed(NotModelled), v, x, T, F;
        }
        return Fine, v, x, T, F;
      }
      v, x :- Literal(t);
      return Fine, v, x, [], [];
    }

    /** simpleexp on a single token. */
    method Literal(t: Token) returns (st: Status, v: ExpDesc, ghost x: Expr)
      requires Valid() && t == Current() && !t.LPAREN? && !t.NAME?
      modifies this, fs
      ensures st.Fine? ==> Costs(old(fs.Usage()), fs.Usage(), x)
      ensures st.Fine? ==> ParseSimple(toks, scope, old(pos)) == Some((x, pos))
      ensures Explains(st, old(fs.Usage()), old(level), ParseSimple(toks, scope, old(pos)))
      ensures st.Fine? ==>
        && Valid() && pos == old(pos) + 1 && level == old(level)
        && Spells(x, toks[old(pos)..pos], scope) && Grouped(x) && !x.EBin? && !x.EUn?
        && Parsed(OriginOf(old(fs.Snapshot()), x), fs.Snapshot(), v, [], [])
    {
      hide Compiled, Core, FoldSound;
      v, x := ExpDesc(VNIL, 0, 0, NO_JUMP, NO_JUMP), ENil;
      ghost var s0 := fs.Snapshot();
      match t {
        case NUMBER(n) => v := ExpDesc(VKNUM, 0, n, NO_JUMP, NO_JUMP);
        case STRING(str) =>
          var info :- fs.AddK(Str(str));
          v := ExpDesc(VK, info, 0, NO_JUMP, NO_JUMP);
        case KNIL => v := ExpDesc(VNIL, 0, 0, NO_JUMP, NO_JUMP);
        case KTRUE => v := ExpDesc(VTRUE, 0, 0, NO_JUMP, NO_JUMP);
        case KFALSE => v := ExpDesc(VFALSE, 0, 0, NO_JUMP, NO_JUMP);
        case SUFFIX => return Failed(NotModelled), v, x;
        case VALUE => return Failed(NotModelled), v, x;
        case _ => return Failed(UnexpectedSymbol), v, x;
      }
      x := Leaf(t, scope).value;
      LeafCompiled(OriginOf(s0, x), fs.Snapshot(), v);
      Next();
      return Fine, v, x;
    }

    /** subexpr: reads the longest expression whose operators bind tighter than limit,
        and returns the first operator it leaves. */
    method Subexpr(limit: int) returns (st: Status, v: ExpDesc, op: Option<BinOp>, ghost x: Expr, ghost T: seq<int>,
        ghost F: seq<int>)
      requires Valid()
      modifies this, fs
      ensures st.Fine? ==> ParseSub(toks, scope, old(pos), limit) == Some((x, pos))
      ensures st.Fine? ==> Costs(old(fs.Usage()), fs.Usage(), x)
      ensures Explains(st, old(fs.Usage()), old(level) + 1, ParseSub(toks, scope, old(pos), limit))
      ensures st.Fine? ==>
        && Valid() && old(pos) < pos && level == old(level)
        && Spells(x, toks[old(pos)..pos], scope) && Grouped(x) && LeftOpen(x, limit)
        && op == BinOpOf(Current()) && Stops(x, Current(), limit)
        && Parsed(OriginOf(old(fs.Snapshot()), x), fs.Snapshot(), v, T, F)
      decreases |toks| - pos, 2
    {
      hide Parsed, Core, Spells, Needs, Levels, FoldSound, Grouped;
      v, op, x, T, F := ExpDesc(VNIL, 0, 0, NO_JUMP, NO_JUMP), None, ENil, [], [];
      ghost var s0, p0, level0, u0 := fs.Snapshot(), pos, level, fs.Usage();
      :- EnterLevel();
      FirstTooBig(toks, scope, p0, limit, u0, level);
      v, x, T, F :- Operand1();
      op := BinOpOf(Current());
      while op.Some? && Priority(op.value).0 > limit
        invariant Valid() && p0 < pos && level == level0 + 1
        invariant Spells(x, toks[p0..pos], scope) && Grouped(x) && LeftOpen(x, limit)
        invariant op == BinOpOf(Current()) && (op.Some? ==> RightOpen(x, Priority(op.value).0))
        invariant Parsed(OriginOf(s0, x), fs.Snapshot(), v, T, F)
        invariant ParseSub(toks, scope, p0, limit) == ParseLoop(toks, scope, x, pos, limit) && Costs(u0, fs.Usage(), x)
        decreases |toks| - pos
      {
        v, op, x, T, F :- Extend1(op.value, v, s0, u0, p0, limit, x, T, F);
      }
      LeaveLevel();
      return Fine, v, op, x, T, F;
    }

    /** The first operand: a prefix operator with its operand, or a simple expression. */
    method Operand1() returns (st: Status, v: ExpDesc, ghost x: Expr, ghost T: seq<int>, ghost F: seq<int>)
      requires Valid()
      modifies this, fs
      ensures st.Fine? ==> ParseOperand(toks, scope, old(pos)) == Some((x, pos))
      ensures st.Fine? ==> Costs(old(fs.Usage()), fs.Usage(), x)
      ensures Explains(st, old(fs.Usage()), old(level), ParseOperand(toks, scope, old(pos)))
      ensures st.Fine? ==>
        && Valid() && old(pos) < pos && level == old(level)
        && Spells(x, toks[old(pos)..pos], scope) && Grouped(x) && !x.EBin?
        && (BinOpOf(Current()).Some? ==> RightOpen(x, Priority(Current().op).0))
        && Parsed(OriginOf(old(fs.Snapshot()), x), fs.Snapshot(), v, T, F)
      decreases |toks| - pos, 2, 0
    {
      hide Core, Compiled, Costs, Explains, Explained, Spent, Spells, FoldSound;
      var uop := UnOpOf(Current());
      if uop.Some? {
        v, x, T, F := ExpDesc(VNIL, 0, 0, NO_JUMP, NO_JUMP), ENil, [], [];
        ghost var s0, p0 := fs.Snapshot(), pos;
        Next();
        UnaryTooBig(fs.Usage(), level, uop.value, ParseSub(toks, scope, pos, UNARY_PRIORITY),
          ParseOperand(toks, scope, p0));
        var op;
        v, op, x, T, F :- Subexpr(UNARY_PRIORITY);
        ParsedCompiled(OriginOf(s0, x), fs.Snapshot(), v, T, F);
        v, T, F :- Prefix(fs, uop.value, v, OriginOf(s0, EUn(uop.value, x)), x, T, F);
        CompiledRegs(OriginOf(s0, EUn(uop.value, x)), fs.Snapshot(), v, T, F);
        assert toks[p0..pos][1..] == toks[p0 + 1..pos];
        SpellsUn(uop.value, x, toks[p0..pos], scope);
        return Fine, v, EUn(uop.value, x), T, F;
      } else {
        st, v, x, T, F := SimpleExp();
      }
    }

    /** One turn of subexpr's loop: an operator and its right operand. */
    method Extend1(op: BinOp, v0: ExpDesc, ghost s0: Snap, ghost u0: Use, ghost p0: nat, ghost limit: int,
        ghost x0: Expr, ghost T0: seq<int>, ghost F0: seq<int>)
      returns (st: Status, v: ExpDesc, nextop: Option<BinOp>, ghost x: Expr, ghost T: seq<int>, ghost F: seq<int>)
      requires Valid() && p0 < pos && Current() == OPERATOR(op) && Priority(op).0 > limit
      requires Spells(x0, toks[p0..pos], scope) && Grouped(x0) && LeftOpen(x0, limit) && RightOpen(x0, Priority(op).0)
      requires Parsed(OriginOf(s0, x0), fs.Snapshot(), v0, T0, F0)
      requires u0 == UseOf(s0) && Costs(u0, fs.Usage(), x0)
      modifies this, fs
      ensures st.Fine? ==>
        pos <= |toks| && ParseLoop(toks, scope, x0, old(pos), limit) == ParseLoop(toks, scope, x, pos, limit)
      ensures st.Fine? ==> Costs(u0, fs.Usage(), x)
      ensures Explains(st, u0, old(level), ParseLoop(toks, scope, x0, old(pos), limit))
      ensures st.Fine? ==>
        && Valid() && old(pos) < pos && level == old(level)
        && Spells(x, toks[p0..pos], scope) && Grouped(x) && LeftOpen(x, limit)
        && nextop == BinOpOf(Current()) && (nextop.Some? ==> RightOpen(x, Priority(nextop.value).0))
        && Parsed(OriginOf(s0, x), fs.Snapshot(), v, T, F)
      decreases |toks| - pos, 2, 0
    {
      hide Core, Compiled, Spells, Costs, Explains, Explained, Spent, GoesOn, Parsed, FoldSound, ParseLoop, ParseSub,
        Infixed;
      v, nextop, x, T, F := v0, None, x0, T0, F0;
      ghost var m, u1, parse, step :=
        pos, fs.Usage(), ParseLoop(toks, scope, x0, pos, limit), ParseSub(toks, scope, pos + 1, Priority(op).1);
      NextStep(toks, scope, op, x0, m, limit);
      Next();
      ghost var X: seq<int>;
      ParsedCompiled(OriginOf(s0, x0), fs.Snapshot(), v0, T0, F0);
      InfixTooBig(u0, u1, level, op, x0, parse, step);
      v, X :- Infix(fs, op, v0, OriginOf(s0, x0), T0, F0);
      InfixedRegs(op, OriginOf(s0, x0), fs.Snapshot(), v, X);
      v, nextop, x, T, F :- RightOperand(op, v, s0, u0, u1, p0, limit, x0, X, parse);
      return Fine, v, nextop, x, T, F;
    }

    /** The right operand of op, whose left operand luaK_infix has dealt with, and luaK_posfix. */
    method RightOperand(op: BinOp, v1: ExpDesc, ghost s0: Snap, ghost u0: Use, ghost u1: Use, ghost p0: nat,
        ghost limit: int, ghost x0: Expr, ghost X: seq<int>, ghost parse: Option<(Expr, nat)>)
      returns (st: Status, v: ExpDesc, nextop: Option<BinOp>, ghost x: Expr, ghost T: seq<int>, ghost F: seq<int>)
      requires Valid() && p0 < pos && toks[pos - 1] == OPERATOR(op) && Priority(op).0 > limit
      requires Spells(x0, toks[p0..pos - 1], scope) && Grouped(x0) && LeftOpen(x0, limit)
      requires RightOpen(x0, Priority(op).0)
      requires Infixed(op, OriginOf(s0, x0), fs.Snapshot(), v1, X)
      requires Costs(u0, u1, x0) && Spent(u1, fs.Usage(), Use(20, 2, 2)) && fs.freereg <= u0.regs + 1
      requires s0.fr <= u0.regs
      requires GoesOn(parse, op, x0, ParseSub(toks, scope, pos, Priority(op).1))
      modifies this, fs
      ensures st.Fine? ==>
        x.EBin? && x.op == op && x.l == x0 && ParseSub(toks, scope, old(pos), Priority(op).1) == Some((x.r, pos))
      ensures st.Fine? ==> Costs(u0, fs.Usage(), x)
      ensures Explains(st, u0, old(level), parse)
      ensures st.Fine? ==>
        && Valid() && old(pos) < pos && level == old(level)
        && Spells(x, toks[p0..pos], scope) && Grouped(x) && LeftOpen(x, limit)
        && nextop == BinOpOf(Current()) && (nextop.Some? ==> RightOpen(x, Priority(nextop.value).0))
        && Parsed(OriginOf(s0, x), fs.Snapshot(), v, T, F)
      decreases |toks| - pos, 3
    {
      hide Core, Compiled, Spells, Costs, Explains, Explained, Spent, GoesOn, Parsed, FoldSound, ParseLoop, ParseSub,
        Infixed;
      v, nextop, x, T, F := v1, None, x0, [], [];
      ghost var m, s1, y, T2, F2, u2 := pos - 1, fs.Snapshot(), ENil, [], [], fs.Usage();
      RightTooBig(u0, u1, u2, level, op, x0, parse, ParseSub(toks, scope, pos, Priority(op).1));
      var v2;
      v2, nextop, y, T2, F2 :- Subexpr(Priority(op).1);
      PosfixTooBig(u0, u1, u2, fs.Usage(), level, op, x0, y, pos, parse);
      v, T, F :- Posfix(fs, op, v1, v2, OriginOf(s0, EBin(op, x0, y)), x0, y, s1, X, T2, F2);
      ParsedRegs(OriginOf(s0, EBin(op, x0, y)), fs.Snapshot(), v, T, F);
      SpellsBin(op, x0, y, toks, p0, m, pos, scope);
      return Fine, v, nextop, EBin(op, x0, y), T, F;
    }
  }
}
