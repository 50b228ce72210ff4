/** The operators of the code generator (lcode.c: codearith, codecomp, luaK_prefix, luaK_infix, luaK_posfix). */
module Operators {
  import opened Wrappers
  import opened LuaVM
  import opened JumpLists
  import opened CodeSem
  import opened ExprSpec
  import opened ExprOps
  import opened ExprSeq
  import opened ExprAndOr
  import opened ExprBoth
  import opened ExprEmit
  import opened ExprArith
  import opened ExprConcat
  import opened Lcode
  import opened Limits

  /** isnumeral */
  predicate IsNumeral(e: ExpDesc) { e.k.VKNUM? && e.t == NO_JUMP && e.f == NO_JUMP }

  predicate IsTemp(e: ExpDesc, nact: int) { e.k.VNONRELOC? && e.info >= nact }

  function Count(b: bool): int { if b then 1 else 0 }

  /** The temporaries of two operands are the registers from fr0 up to fr. */
  predicate Stacked(eL: ExpDesc, eR: ExpDesc, fr0: int, nact: int, fr: int) {
    && 0 <= nact <= fr0 && fr <= MAXSTACK
    && fr == fr0 + Count(IsTemp(eL, nact)) + Count(IsTemp(eR, nact))
    && (IsTemp(eL, nact) ==> fr0 <= eL.info < fr)
    && (IsTemp(eR, nact) ==> fr0 <= eR.info < fr)
    && (IsTemp(eL, nact) && IsTemp(eR, nact) ==> eL.info != eR.info)
    && (eL.k.VNONRELOC? ==> 0 <= eL.info) && (eR.k.VNONRELOC? ==> 0 <= eR.info)
  }

  lemma OperandsStacked(o: Origin, l: Expr, r: Expr, s1: Snap, e1: ExpDesc, s2: Snap, e2: ExpDesc)
    requires Operand(o.(x := l), s1, e1) && Operand(Origin(s1, o.nact, o.p, r), s2, e2) && s2.ms <= MAXSTACK
    ensures Stacked(e1, e2, o.base.fr, o.nact, s2.fr)
    ensures IsTemp(e1, o.nact) ==> e1.info == o.base.fr
  {
    hide Sem;
  }

  /** luaK_exp2RK on the left operand, once the right operand is ready: a numeral
      becomes a constant, or is loaded on top of the stack; anything else stays. */
  method LeftRK(fs: FuncState, e0: ExpDesc, ghost o: Origin, ghost l: Expr, ghost r: Expr,
      ghost eR: ExpDesc) returns (st: Status, rk: int, e: ExpDesc)
    requires fs.Valid() && o.nact == fs.nactvar && Both(o, l, r, fs.Snapshot(), e0, eR)
    requires Stacked(e0, eR, o.base.fr, o.nact, fs.freereg)
    modifies fs
    ensures Explained(st, old(fs.Usage()), Use(1, 1, 1))
    ensures st.Fine? ==> Spent(old(fs.Usage()), fs.Usage(), Use(1, 1, 1))
    ensures st.Fine? ==>
      && fs.Valid() && Both(o, l, r, fs.Snapshot(), e, eR) && !e.k.VKNUM? && rk == RKOf(e)
      && Stacked(e, eR, o.base.fr, o.nact, fs.freereg)
      && (!e0.k.VKNUM? ==> e == e0 && fs.Snapshot() == old(fs.Snapshot()))
    ensures st.Fine? && e0.k.VKNUM? && e.k.VK? ==> 256 <= rk <= 511
  {
    hide Run, Core, BothAt, SnapOk, Chain;
    rk, e := 0, e0;
    if e0.k.VKNUM? {
      if |fs.k| <= MAXINDEXRK {
        ghost var s := fs.Snapshot();
        var info;
        st, info := fs.AddK(Number(e0.nval));
        e := e0.(k := VK, info := info);
        BothConst(o, l, r, s, e0, eR, fs.Snapshot(), e);
        assert SnapOk(fs.Snapshot()) by { MoreConstants(s, fs.Snapshot()); }
        return Fine, info + BITRK, e;
      }
      e :- LoadLeft(fs, e0, o, l, r, eR);
    }
    return Fine, RKOf(e), e;
  }

  lemma MoreConstants(s: Snap, s2: Snap)
    requires SnapOk(s) && s2 == s.(k := s2.k)
    ensures SnapOk(s2)
  {
  }

  /** The left numeral goes to the next free register. */
  method LoadLeft(fs: FuncState, e0: ExpDesc, ghost o: Origin, ghost l: Expr, ghost r: Expr,
      ghost eR: ExpDesc) returns (st: Status, e: ExpDesc)
    requires fs.Valid() && Both(o, l, r, fs.Snapshot(), e0, eR) && e0.k.VKNUM?
    requires Stacked(e0, eR, o.base.fr, o.nact, fs.freereg) && o.nact == fs.nactvar
    modifies fs
    ensures Explained(st, old(fs.Usage()), Use(1, 1, 1))
    ensures st.Fine? ==> Spent(old(fs.Usage()), fs.Usage(), Use(1, 1, 1))
    ensures st.Fine? ==>
      && fs.Valid() && Both(o, l, r, fs.Snapshot(), e, eR) && e.k.VNONRELOC?
      && Stacked(e, eR, o.base.fr, o.nact, fs.freereg)
  {
    hide Run, BothAt, WF, Emitted, Explained, Spent;
    ghost var s := fs.Snapshot();
    e := e0;
    assert s.fr <= s.ms && Core(o, s, NoLists, [], []);
    hide Core, SnapOk;
    var info :- LoadNumber(fs, e0.nval);
    e := ExpDesc(VNONRELOC, fs.freereg - 1, e0.nval, NO_JUMP, NO_JUMP);
    BothLoad(o, l, r, s, e0, eR, Instruction(OP_LOADK, s.fr, info, 0), fs.Snapshot(), e);
    return Fine, e;
  }

  /** A number goes to a new register. */
  method LoadNumber(fs: FuncState, n: int) returns (st: Status, info: int)
    requires fs.Valid()
    modifies fs
    ensures Explained(st, old(fs.Usage()), Use(1, 1, 1))
    ensures st.Fine? ==> Spent(old(fs.Usage()), fs.Usage(), Use(1, 1, 1))
    ensures st.Fine? ==>
      && fs.Valid() && fs.freereg == old(fs.freereg) + 1 && 0 <= info < |fs.k| && fs.k[info] == Number(n)
      && Emitted(old(fs.Snapshot()), fs.Snapshot(), [Instruction(OP_LOADK, fs.freereg - 1, info, 0)])
  {
    hide WF;
    info := 0;
    ghost var s := fs.Snapshot();
    :- fs.ReserveRegs(1);
    info :- fs.AddK(Number(n));
    var _ :- fs.Emit(Instruction(OP_LOADK, fs.freereg - 1, info, 0));
    EmitWF(s, fs.Snapshot(), [Instruction(OP_LOADK, fs.freereg - 1, info, 0)]);
    EmptyChain(fs.code);
    return Fine, info;
  }

  /** constfolding for a binary operator */
  function ConstFolding(p: Prims, op: ArithOp, e1: ExpDesc, e2: ExpDesc): Option<int> {
    if !IsNumeral(e1) || !IsNumeral(e2) then None else Fold(p, op, e1.nval, e2.nval)
  }

  /** What luaK_infix leaves: for `and` and `or` a branch on the first operand, for `..` a
      register on top of the stack, for the others an operand (a numeral may wait, so that it can be folded). */
  ghost predicate Infixed(op: BinOp, oA: Origin, s: Snap, e: ExpDesc, X: seq<int>) {
    if op.AND? then Branched(oA, s, e, X, true)
    else if op.OR? then Branched(oA, s, e, X, false)
    else if op.CONCAT? then OnTop(oA, s, e)
    else
      && e.t == NO_JUMP && e.f == NO_JUMP && Operand(oA, s, e)
      && (e.k.VKNUM? ==> op.Arith? && EndsInJump(s, Pc0(oA)))
  }

  /** codearith on two operands */
  method CodeArith(fs: FuncState, op: ArithOp, e1: ExpDesc, e2: ExpDesc, ghost o: Origin, ghost l: Expr, ghost r: Expr,
      ghost s1: Snap, ghost T: seq<int>, ghost F: seq<int>)
    returns (st: Status, e: ExpDesc)
    requires fs.Valid() && o.nact == fs.nactvar && o.p == fs.prims && FoldSound(o.p) && o.x == EBin(Arith(op), l, r)
    requires Infixed(Arith(op), o.(x := l), s1, e1, []) && Compiled(Origin(s1, o.nact, o.p, r), fs.Snapshot(), e2, T, F)
    modifies fs
    ensures Explained(st, old(fs.Usage()), Use(22, 3, 3))
    ensures st.Fine? ==> Spent(old(fs.Usage()), fs.Usage(), Use(22, 3, 3))
    ensures st.Fine? ==>
      fs.Valid() && Compiled(o, fs.Snapshot(), e, [], []) && e.t == NO_JUMP && e.f == NO_JUMP && !e.k.VNIL?
  {
    hide Run, Core, Sem, BothAt, KindOk;
    e := e1;
    var folded := ConstFolding(fs.prims, op, e1, e2);
    if folded.Some? {
      FoldedPair(o, l, r, op, s1, e1, fs.Snapshot(), e2, T, F, e1.(nval := folded.value));
      return Fine, e1.(nval := folded.value);
    }
    var o1, o2, e1', e2' :- OperandsRK(fs, e1, e2, o, l, r, s1, T, F);
    e :- EmitArith(fs, op, o1, o2, e1', e2', o, l, r);
    return Fine, e;
  }

  /** Both operands as RK operands, the right one first.  codecomp takes the left one first,
      which makes no difference: luaK_infix has settled it already. */
  method OperandsRK(fs: FuncState, e1: ExpDesc, e2: ExpDesc, ghost o: Origin, ghost l: Expr, ghost r: Expr,
      ghost s1: Snap, ghost T: seq<int>, ghost F: seq<int>)
    returns (st: Status, o1: int, o2: int, e1': ExpDesc, e2': ExpDesc)
    requires fs.Valid() && o.nact == fs.nactvar
    requires Operand(o.(x := l), s1, e1) && Compiled(Origin(s1, o.nact, o.p, r), fs.Snapshot(), e2, T, F)
    modifies fs
    ensures Explained(st, old(fs.Usage()), Use(21, 3, 3))
    ensures st.Fine? ==> Spent(old(fs.Usage()), fs.Usage(), Use(21, 3, 3))
    ensures st.Fine? ==>
      && fs.Valid() && Both(o, l, r, fs.Snapshot(), e1', e2') && !e1'.k.VKNUM? && !e2'.k.VKNUM?
      && o1 == RKOf(e1') && o2 == RKOf(e2') && Stacked(e1', e2', o.base.fr, o.nact, fs.freereg)
    ensures st.Fine? && !e1.k.VKNUM? && IsTemp(e1', o.nact) ==> e1'.info == o.base.fr
  {
    hide Run, Core, Sem, BothAt, KindOk, Chain, SnapOk;
    o1, o2, e1', e2' := 0, 0, e1, e2;
    o2, e2' :- fs.Exp2RK(e2, Origin(s1, o.nact, o.p, r), T, F);
    BothSeq(o, l, r, s1, e1, fs.Snapshot(), e2');
    assert fs.maxstacksize <= MAXSTACK && fs.freereg <= fs.maxstacksize by { StackBound(fs); }
    OperandsStacked(o, l, r, s1, e1, fs.Snapshot(), e2');
    o1, e1' :- LeftRK(fs, e1, o, l, r, e2');
    return Fine, o1, o2, e1', e2';
  }

  lemma StackBound(fs: FuncState)
    requires fs.Valid()
    ensures fs.freereg <= fs.maxstacksize < MAXSTACK
  {
  }

  /** The operand in the higher register is freed first. */
  method FreeOperands(fs: FuncState, o1: int, o2: int, e1: ExpDesc, e2: ExpDesc, ghost fr0: int)
    requires o1 == RKOf(e1) && o2 == RKOf(e2) && Stacked(e1, e2, fr0, fs.nactvar, fs.freereg)
    requires (e1.k.VK? ==> 0 <= e1.info) && (e2.k.VK? ==> 0 <= e2.info) && (e1.k.VK? || e1.k.VNONRELOC?)
    requires (e2.k.VK? || e2.k.VNONRELOC?)
    modifies fs`freereg
    ensures fs.freereg == fr0
  {
    if o1 > o2 {
      fs.FreeExp(e1);
      fs.FreeExp(e2);
    } else {
      fs.FreeExp(e2);
      fs.FreeExp(e1);
    }
  }

  method EmitArith(fs: FuncState, op: ArithOp, o1: int, o2: int, e1: ExpDesc, e2: ExpDesc, ghost o: Origin,
      ghost l: Expr, ghost r: Expr) returns (st: Status, e: ExpDesc)
    requires fs.Valid() && o.nact == fs.nactvar && o.x == EBin(Arith(op), l, r)
    requires Both(o, l, r, fs.Snapshot(), e1, e2) && !e1.k.VKNUM? && !e2.k.VKNUM?
    requires o1 == RKOf(e1) && o2 == RKOf(e2) && Stacked(e1, e2, o.base.fr, o.nact, fs.freereg)
    modifies fs
    ensures Explained(st, old(fs.Usage()), Use(1, 0, 0))
    ensures st.Fine? ==> Spent(old(fs.Usage()), fs.Usage(), Use(1, 0, 0))
    ensures st.Fine? ==>
      fs.Valid() && Compiled(o, fs.Snapshot(), e, [], []) && e.t == NO_JUMP && e.f == NO_JUMP && !e.k.VNIL?
  {
    hide Run, BothAt, Core, WF, Computes;
    e := e1;
    ghost var s := fs.Snapshot();
    FreeOperands(fs, o1, o2, e1, e2, o.base.fr);
    NactBound(o, s);
    ghost var i := Instruction(OP_ARITH(op), 0, RKOf(e1), RKOf(e2));
    var info :- fs.Emit(Instruction(OP_ARITH(op), 0, o1, o2));
    e := ExpDesc(VRELOCABLE, info, e1.nval, NO_JUMP, NO_JUMP);
    EmitWF(s, fs.Snapshot(), [i]);
    ReadyArith(o, l, r, op, s, e1, e2, fs.k);
    EmitCompute(o, s, NoLists, [], [], i, fs.Snapshot(), e);
    EmptyChain(fs.code);
    return Fine, e;
  }

  lemma FoldedPair(o: Origin, l: Expr, r: Expr, op: ArithOp, s1: Snap, e1: ExpDesc, s2: Snap, e2: ExpDesc, T: seq<int>,
      F: seq<int>, e: ExpDesc)
    requires FoldSound(o.p) && o.x == EBin(Arith(op), l, r)
    requires Infixed(Arith(op), o.(x := l), s1, e1, []) && Compiled(Origin(s1, o.nact, o.p, r), s2, e2, T, F)
    requires IsNumeral(e1) && IsNumeral(e2) && Fold(o.p, op, e1.nval, e2.nval) == Some(e.nval) && IsNumeral(e)
    ensures Compiled(o, s2, e, [], [])
  {
    hide Sem, WF, PrefixOk;
    var oB := Origin(s1, o.nact, o.p, r);
    ListHeads(oB, s2, e2, T, F);
    RegOperand(oB, s2, e2);
    BothSeq(o, l, r, s1, e1, s2, e2);
    NumeralsEnd(o, l, r, s1, e1, s2, e2);
    Folded(o, l, r, op, s2, e1, e2, e);
  }

  lemma NextIsTop(fs: FuncState, o: Origin, e: ExpDesc)
    requires fs.Valid() && fs.InReg(o, e) && e.info == o.base.fr == fs.freereg - 1 && o.nact == fs.nactvar
    ensures OnTop(o, fs.Snapshot(), e)
  {
    RegOperand(o, fs.Snapshot(), e);
  }

  /** luaK_posfix for `..`: a concatenation on the right is extended by the left operand. */
  method CodeConcat(fs: FuncState, e1: ExpDesc, e2: ExpDesc, ghost o: Origin, ghost l: Expr, ghost r: Expr,
      ghost s1: Snap, ghost T: seq<int>, ghost F: seq<int>)
    returns (st: Status, e: ExpDesc)
    requires fs.Valid() && o.nact == fs.nactvar && o.x == EBin(CONCAT, l, r) && OnTop(o.(x := l), s1, e1)
    requires Compiled(Origin(s1, o.nact, o.p, r), fs.Snapshot(), e2, T, F)
    modifies fs
    ensures Explained(st, old(fs.Usage()), Use(22, 3, 3))
    ensures st.Fine? ==> Spent(old(fs.Usage()), fs.Usage(), Use(22, 3, 3))
    ensures st.Fine? ==>
      fs.Valid() && Compiled(o, fs.Snapshot(), e, [], []) && e.t == NO_JUMP && e.f == NO_JUMP && !e.k.VNIL?
  {
    hide Compiled, OnTop, Run;
    e := e1;
    ghost var oB := Origin(s1, o.nact, o.p, r);
    var v :- fs.Exp2Val(e2, oB, T, F);
    if v.k.VRELOCABLE? {
      OpenLast(oB, fs.Snapshot(), v);
      if fs.code[v.info].op.OP_CONCAT? {
        ghost var s2 := fs.Snapshot();
        MergeFrees(o, l, r, s1, e1, s2, v);
        fs.FreeExp(e1);
        fs.code := fs.code[v.info := fs.code[v.info].(b := e1.info)];
        e := ExpDesc(VRELOCABLE, v.info, e1.nval, NO_JUMP, NO_JUMP);
        MergeConcat(o, l, r, s1, e1, s2, v, fs.Snapshot(), e);
        MergeValid(o, fs.Snapshot(), e);
        EmptyChain(fs.code);
        return Fine, e;
      }
    }
    var v' :- fs.Exp2NextReg(v, oB, [], []);
    e :- EmitConcat(fs, e1, v', o, l, r, s1);
    return Fine, e;
  }

  method EmitConcat(fs: FuncState, e1: ExpDesc, e2: ExpDesc, ghost o: Origin, ghost l: Expr, ghost r: Expr,
      ghost s1: Snap) returns (st: Status, e: ExpDesc)
    requires fs.Valid() && o.nact == fs.nactvar && o.x == EBin(CONCAT, l, r) && OnTop(o.(x := l), s1, e1)
    requires fs.InReg(Origin(s1, o.nact, o.p, r), e2) && e2.info == s1.fr == fs.freereg - 1
    modifies fs
    ensures Explained(st, old(fs.Usage()), Use(1, 0, 0))
    ensures st.Fine? ==> Spent(old(fs.Usage()), fs.Usage(), Use(1, 0, 0))
    ensures st.Fine? ==>
      fs.Valid() && Compiled(o, fs.Snapshot(), e, [], []) && e.t == NO_JUMP && e.f == NO_JUMP && !e.k.VNIL?
  {
    hide Run, BothAt, Core, WF, Computes, Sem, KindOk;
    e := e1;
    ghost var s := fs.Snapshot();
    RegOperand(Origin(s1, o.nact, o.p, r), s, e2);
    BothSeq(o, l, r, s1, e1, s, e2);
    NactBound(o, s);
    fs.FreeExp(e2);
    fs.FreeExp(e1);
    ghost var i := Instruction(OP_CONCAT, 0, e1.info, e2.info);
    var info :- fs.Emit(Instruction(OP_CONCAT, 0, e1.info, e2.info));
    e := ExpDesc(VRELOCABLE, info, e1.nval, NO_JUMP, NO_JUMP);
    EmitWF(s, fs.Snapshot(), [i]);
    ReadyConcat(o, l, r, s, e1, e2, fs.k);
    EmitCompute(o, s, NoLists, [], [], i, fs.Snapshot(), e);
    EmptyChain(fs.code);
    return Fine, e;
  }

  /** codecomp */
  method CodeComp(fs: FuncState, op: OpCode, cond0: int, e1: ExpDesc, e2: ExpDesc, ghost bop: BinOp, ghost o: Origin,
      ghost l: Expr, ghost r: Expr, ghost s1: Snap, ghost T: seq<int>, ghost F: seq<int>)
    returns (st: Status, e: ExpDesc)
    requires fs.Valid() && o.nact == fs.nactvar && IsCompareOp(bop) && o.x == EBin(bop, l, r)
    requires (op, cond0) == CompareOp(bop)
    requires Infixed(bop, o.(x := l), s1, e1, []) && Compiled(Origin(s1, o.nact, o.p, r), fs.Snapshot(), e2, T, F)
    modifies fs
    ensures Explained(st, old(fs.Usage()), Use(24, 3, 3))
    ensures st.Fine? ==> Spent(old(fs.Usage()), fs.Usage(), Use(24, 3, 3))
    ensures st.Fine? ==>
      fs.Valid() && Compiled(o, fs.Snapshot(), e, [], []) && e.t == NO_JUMP && e.f == NO_JUMP && !e.k.VNIL?
  {
    hide Run, Core, Sem, BothAt, KindOk, Chain, WF, Compiled, Stacked;
    e := e1;
    var cond := cond0;
    var o1, o2, e1', e2' :- OperandsRK(fs, e1, e2, o, l, r, s1, T, F);
    ghost var s := fs.Snapshot();
    FreeBoth(fs, e1', e2', o.base.fr);
    if cond == 0 && op != OP_EQ {
      o1, o2 := o2, o1;
      cond := 1;
    }
    assert Instruction(op, cond, o1, o2) == CompareInstr(bop, RKOf(e1'), RKOf(e2'));
    e :- EmitComp(fs, Instruction(op, cond, o1, o2), bop, e1', e2', o, l, r, s);
    return Fine, e;
  }

  /** The right operand is freed first. */
  method FreeBoth(fs: FuncState, e1: ExpDesc, e2: ExpDesc, ghost fr0: int)
    requires Stacked(e1, e2, fr0, fs.nactvar, fs.freereg) && (IsTemp(e1, fs.nactvar) ==> e1.info == fr0)
    modifies fs`freereg
    ensures fs.freereg == fr0 <= old(fs.freereg)
  {
    fs.FreeExp(e2);
    fs.FreeExp(e1);
  }

  /** condjump for a comparison whose operands have just been freed */
  method EmitComp(fs: FuncState, i: Instruction, ghost bop: BinOp, e1: ExpDesc, ghost e2: ExpDesc, ghost o: Origin,
      ghost l: Expr, ghost r: Expr, ghost s: Snap) returns (st: Status, e: ExpDesc)
    requires SnapOk(s) && Chain(fs.code, fs.jpc, fs.J) && fs.ConstantsOk() && fs.Snapshot() == s.(fr := o.base.fr)
    requires s.ms < MAXSTACK
    requires o.nact == fs.nactvar && IsCompareOp(bop) && o.x == EBin(bop, l, r)
    requires Both(o, l, r, s, e1, e2) && !e1.k.VKNUM? && !e2.k.VKNUM? && i == CompareInstr(bop, RKOf(e1), RKOf(e2))
    modifies fs
    ensures Explained(st, old(fs.Usage()), Use(3, 0, 0))
    ensures st.Fine? ==> Spent(old(fs.Usage()), fs.Usage(), Use(3, 0, 0))
    ensures st.Fine? ==>
      fs.Valid() && Compiled(o, fs.Snapshot(), e, [], []) && e.t == NO_JUMP && e.f == NO_JUMP && !e.k.VNIL?
  {
    hide Run, BothAt, WF, CompareInstr;
    e := e1;
    ghost var ins := [i, Instruction(OP_JMP, 0, NO_JUMP, 0)];
    assert 0 <= o.base.fr <= s.fr <= s.ms;
    hide Core;
    var info :- fs.CondJump(i);
    e := ExpDesc(VJMP, info, e1.nval, NO_JUMP, NO_JUMP);
    EmitWF(s, fs.Snapshot(), ins);
    EmitCompare(o, l, r, bop, s, e1, e2, fs.Snapshot(), e);
    EmptyChain(fs.code);
    NactBound(o, s);
    return Fine, e;
  }

  lemma NactBound(o: Origin, s: Snap)
    requires Core(o, s, NoLists, [], [])
    ensures 0 <= o.nact <= o.base.fr
  {
  }

  /** The opcode and sense luaK_posfix passes to codecomp. */
  function CompareOp(op: BinOp): (OpCode, int)
    requires IsCompareOp(op)
  {
    match op
    case EQ => (OP_EQ, 1)
    case NE => (OP_EQ, 0)
    case LT => (OP_LT, 1)
    case LE => (OP_LE, 1)
    case GT => (OP_LT, 0)
    case GE => (OP_LE, 0)
  }

  // ----- `falses' are all equal in a condition -----

  /** x with the nil it may end in replaced by false. */
  function FalseForNil(x: Expr): Expr {
    match x
    case ENil => EFalse
    case EParen(e) => EParen(FalseForNil(e))
    case EBin(op, l, r) => if op.AND? || op.OR? then EBin(op, l, FalseForNil(r)) else x
    case _ => x
  }

  /** Replacing that nil changes no truth value and no error. */
  lemma {:induction false} FalseForNilTruth(x: Expr, p: Prims, locals: seq<Value>)
    ensures Eval(x, p, locals).Ok? == Eval(FalseForNil(x), p, locals).Ok?
    ensures Eval(x, p, locals).Ok? ==> Falsy(Eval(x, p, locals).v) == Falsy(Eval(FalseForNil(x), p, locals).v)
  {
    match x
    case EParen(e) => FalseForNilTruth(e, p, locals);
    case EBin(op, l, r) => FalseForNilTruth(r, p, locals);
    case _ =>
  }

  /** A compiled expression; one that ends in nil may also end in false. */
  ghost predicate Parsed(o: Origin, s: Snap, e: ExpDesc, T: seq<int>, F: seq<int>) {
    && Compiled(o, s, e, T, F)
    && (e.k.VNIL? ==> Compiled(o.(x := FalseForNil(o.x)), s, e.(k := VFALSE), T, F))
  }

  /** luaK_prefix */
  method Prefix(fs: FuncState, op: UnOp, e0: ExpDesc, ghost o: Origin, ghost l: Expr, ghost T0: seq<int>,
      ghost F0: seq<int>)
    returns (st: Status, e: ExpDesc, ghost T: seq<int>, ghost F: seq<int>)
    requires fs.Valid() && o.nact == fs.nactvar && o.p == fs.prims && FoldSound(o.p) && o.x == EUn(op, l)
    requires Compiled(o.(x := l), fs.Snapshot(), e0, T0, F0)
    modifies fs
    ensures Explained(st, old(fs.Usage()), Use(11, 1, 1))
    ensures st.Fine? ==> Spent(old(fs.Usage()), fs.Usage(), Use(11, 1, 1))
    ensures st.Fine? ==> fs.Valid() && Compiled(o, fs.Snapshot(), e, T, F) && !e.k.VNIL?
  {
    hide Run, Core, Sem, KindOk;
    e, T, F := e0, [], [];
    match op {
      case NOT =>
        e :- fs.CodeNot(e0, o, l, T0, F0);
        return Fine, e, F0, T0;
      case UNARY(u) =>
        if u.UNM? && IsNumeral(e0) {
          ListHeads(o.(x := l), fs.Snapshot(), e0, T0, F0);
          e := e0.(nval := fs.prims.foldUnm(e0.nval));
          FoldedUnary(o, l, fs.Snapshot(), e0, e);
          return Fine, e, [], [];
        }
        e :- fs.Exp2AnyReg(e0, o.(x := l), T0, F0);
        e :- CodeUnary(fs, u, e, o, l);
        return Fine, e, [], [];
    }
  }

  /** codearith on one operand in a register */
  method CodeUnary(fs: FuncState, u: UnaryOp, e0: ExpDesc, ghost o: Origin, ghost l: Expr) returns (st: Status,
      e: ExpDesc)
    requires fs.Valid() && o.nact == fs.nactvar && o.x == EUn(UNARY(u), l) && fs.InReg(o.(x := l), e0)
    modifies fs
    ensures Explained(st, old(fs.Usage()), Use(1, 0, 0))
    ensures st.Fine? ==> Spent(old(fs.Usage()), fs.Usage(), Use(1, 0, 0))
    ensures st.Fine? ==>
      fs.Valid() && Compiled(o, fs.Snapshot(), e, [], []) && e.t == NO_JUMP && e.f == NO_JUMP && !e.k.VNIL?
  {
    hide Run, Core, Sem, KindOk;
    e := e0;
    ghost var s := fs.Snapshot();
    TempOnTop(o.(x := l), s, e0, [], []);
    RegOperand(o.(x := l), s, e0);
    fs.FreeExp(e0);
    ghost var i := Instruction(OP_UNARY(u), 0, e0.info, 0);
    var info :- fs.Emit(Instruction(OP_UNARY(u), 0, e0.info, 0));
    e := ExpDesc(VRELOCABLE, info, e0.nval, NO_JUMP, NO_JUMP);
    EmitWF(s, fs.Snapshot(), [i]);
    ReadyUnary(o, l, u, s, e0, fs.k);
    EmitCompute(o, s, NoLists, [], [], i, fs.Snapshot(), e);
    return Fine, e;
  }

  /** luaK_infix */
  method Infix(fs: FuncState, op: BinOp, v: ExpDesc, ghost oA: Origin, ghost T: seq<int>,
      ghost F: seq<int>) returns (st: Status, e: ExpDesc, ghost X: seq<int>)
    requires fs.Valid() && oA.nact == fs.nactvar && Compiled(oA, fs.Snapshot(), v, T, F)
    modifies fs
    ensures Explained(st, old(fs.Usage()), Use(20, 2, 2))
    ensures st.Fine? ==> Spent(old(fs.Usage()), fs.Usage(), Use(20, 2, 2))
    ensures st.Fine? ==> fs.Valid() && Infixed(op, oA, fs.Snapshot(), e, X)
  {
    hide Run, Core, Sem, Branched;
    e, X := v, [];
    match op {
      case AND => e, X :- fs.GoIfTrue(v, oA, T, F);
      case OR => e, X :- fs.GoIfFalse(v, oA, T, F);
      case Arith(_) =>
        if IsNumeral(v) {
          ListHeads(oA, fs.Snapshot(), v, T, F);
          RegOperand(oA, fs.Snapshot(), v);
        } else {
          var _, e' :- fs.Exp2RK(v, oA, T, F);
          e := e';
        }
      case CONCAT =>
        var e' :- fs.Exp2NextReg(v, oA, T, F);
        e := e';
        NextIsTop(fs, oA, e);
      case _ =>
        var _, e' :- fs.Exp2RK(v, oA, T, F);
        e := e';
    }
    return Fine, e, X;
  }

  /** luaK_posfix */
  method Posfix(fs: FuncState, op: BinOp, e1: ExpDesc, e2: ExpDesc, ghost o: Origin, ghost l: Expr, ghost r: Expr,
      ghost s1: Snap, ghost X: seq<int>, ghost T2: seq<int>, ghost F2: seq<int>)
    returns (st: Status, e: ExpDesc, ghost T: seq<int>, ghost F: seq<int>)
    requires fs.Valid() && o.nact == fs.nactvar && o.p == fs.prims && FoldSound(o.p) && o.x == EBin(op, l, r)
    requires Infixed(op, o.(x := l), s1, e1, X)
    requires Parsed(Origin(s1, o.nact, o.p, r), fs.Snapshot(), e2, T2, F2)
    modifies fs
    ensures Explained(st, old(fs.Usage()), Use(24, 3, 3))
    ensures st.Fine? ==> Spent(old(fs.Usage()), fs.Usage(), Use(24, 3, 3))
    ensures st.Fine? ==> fs.Valid() && Parsed(o, fs.Snapshot(), e, T, F)
  {
    hide Run, Core, Sem, Branched, Operand, KindOk, EndsInJump;
    e, T, F := e1, [], [];
    match op {
      case AND => e, T, F :- Join(fs, true, e1, e2, o, l, r, s1, X, T2, F2);
      case OR => e, T, F :- Join(fs, false, e1, e2, o, l, r, s1, X, T2, F2);
      case Arith(aop) => e :- CodeArith(fs, aop, e1, e2, o, l, r, s1, T2, F2);
      case CONCAT => e :- CodeConcat(fs, e1, e2, o, l, r, s1, T2, F2);
      case EQ => e :- CodeComp(fs, OP_EQ, 1, e1, e2, op, o, l, r, s1, T2, F2);
      case NE => e :- CodeComp(fs, OP_EQ, 0, e1, e2, op, o, l, r, s1, T2, F2);
      case LT => e :- CodeComp(fs, OP_LT, 1, e1, e2, op, o, l, r, s1, T2, F2);
      case LE => e :- CodeComp(fs, OP_LE, 1, e1, e2, op, o, l, r, s1, T2, F2);
      case GT => e :- CodeComp(fs, OP_LT, 0, e1, e2, op, o, l, r, s1, T2, F2);
      case GE => e :- CodeComp(fs, OP_LE, 0, e1, e2, op, o, l, r, s1, T2, F2);
    }
    return Fine, e, T, F;
  }

  /** luaK_posfix for `and` (sense) and `or`: the first operand's exits join the second's. */
  method Join(fs: FuncState, sense: bool, e1: ExpDesc, e2: ExpDesc, ghost o: Origin, ghost l: Expr, ghost r: Expr,
      ghost s1: Snap, ghost X: seq<int>, ghost T2: seq<int>, ghost F2: seq<int>)
    returns (st: Status, e: ExpDesc, ghost T: seq<int>, ghost F: seq<int>)
    requires fs.Valid() && o.nact == fs.nactvar && o.x == EBin(if sense then AND else OR, l, r)
    requires Branched(o.(x := l), s1, e1, X, sense)
    requires Parsed(Origin(s1, o.nact, o.p, r), fs.Snapshot(), e2, T2, F2)
    modifies fs
    ensures Explained(st, old(fs.Usage()), Use(2, 0, 0))
    ensures st.Fine? ==> Spent(old(fs.Usage()), fs.Usage(), Use(2, 0, 0))
    ensures st.Fine? ==> fs.Valid() && Parsed(o, fs.Snapshot(), e, T, F)
  {
    hide Run, Sem, KindOk, EndsInJump, PrefixOk, WF;
    ghost var oB := Origin(s1, o.nact, o.p, r);
    T, F := if sense then T2 else T2 + X, if sense then F2 + X else F2;
    e :- fs.DischargeVars(e2, oB, T2, F2, fs.freereg);
    ghost var s2, ev := fs.Snapshot(), e;
    ghost var L := if sense then F2 else T2;
    JoinLists(o, l, r, sense, s1, e1, X, s2, ev, T2, F2, fs.jpc);
    if sense {
      var f :- fs.Concat(e.f, e1.f, F2, X);
      e := e.(f := f);
    } else {
      var t :- fs.Concat(e.t, e1.t, T2, X);
      e := e.(t := t);
    }
    Joined(o, l, r, sense, s1, e1, X, s2, ev, T2, F2, fs.Snapshot(), e, T, F);
    return Fine, e, T, F;
  }

  lemma Joined(o: Origin, l: Expr, r: Expr, sense: bool, s1: Snap, e1: ExpDesc, X: seq<int>, s2: Snap, e2: ExpDesc,
      T2: seq<int>, F2: seq<int>,
               s3: Snap, e3: ExpDesc, T3: seq<int>, F3: seq<int>)
    requires o.x == EBin(if sense then AND else OR, l, r) && Branched(o.(x := l), s1, e1, X, sense)
    requires Parsed(Origin(s1, o.nact, o.p, r), s2, e2, T2, F2)
    requires AndOrStep(sense, X, if sense then e1.f else e1.t, s2, e2, T2, F2, s3, e3)
    requires AndOrLists(sense, X, T2, F2, T3, F3)
    ensures Parsed(o, s3, e3, T3, F3)
  {
    hide Compiled, Branched;
    AndOr(o, l, r, sense, s1, e1, X, s2, e2, T2, F2, s3, e3, T3, F3);
    if e3.k.VNIL? {
      var r' := FalseForNil(r);
      AndOr(o.(x := EBin(o.x.op, l, r')), l, r', sense, s1, e1, X, s2, e2.(k := VFALSE), T2, F2, s3, e3.(k := VFALSE),
        T3, F3);
    }
  }

  lemma JoinLists(o: Origin, l: Expr, r: Expr, sense: bool, s1: Snap, e1: ExpDesc, X: seq<int>, s2: Snap, e2: ExpDesc,
      T2: seq<int>, F2: seq<int>, jpc: int)
    requires Branched(o.(x := l), s1, e1, X, sense)
    requires Compiled(Origin(s1, o.nact, o.p, r), s2, e2, T2, F2) && Chain(s2.code, jpc, s2.J)
    ensures var L, hL, hX := if sense then F2 else T2, if sense then e2.f else e2.t, if sense then e1.f else e1.t;
      && Chain(s2.code, hL, L) && Chain(s2.code, hX, X) && Disjoint(L, X)
      && Chain(Link(s2.code, L, hX), jpc, s2.J) && WF(Link(s2.code, L, hX))
      && forall j :: j in s2.J ==> Link(s2.code, L, hX)[j].op.OP_JMP?
  {
    var oB := Origin(s1, o.nact, o.p, r);
    var L, hL, hX := if sense then F2 else T2, if sense then e2.f else e2.t, if sense then e1.f else e1.t;
    hide Sem, BranchAt, KindOk;
    EndFromKind(oB, s2, e2, T2, F2);
    BranchFirst(o, l, s1, e1, X, sense);
    assert Second(o, s1, oB, s2, e2, T2, F2, s2);
    assert Chain(s1.code, hX, X);
    assert Disjoint(L, X) by { ListsApart(o, s1, X, oB, s2, e2, T2, F2); }
    FirstListKept(o, s1, X, hX, oB, s2, e2, T2, F2);
    hide Branched, First, PrefixOk, EndOk, Second;
    LinkKeeps(s2.code, hL, L, hX, jpc, s2.J, |s1.code|, L);
    LinkWF(s2.code, L, hX);
    LinkJumps(s2.code, L, hX);
  }

  lemma LinkJumps(code: Code, s: seq<int>, h: int)
    ensures |Link(code, s, h)| == |code|
    ensures forall j :: 0 <= j < |code| && code[j].op.OP_JMP? ==> Link(code, s, h)[j].op.OP_JMP?
  {
  }

  /** The lists of the two operands lie in different parts of the code. */
  lemma ListsApart(o: Origin, s1: Snap, X: seq<int>, oB: Origin, s2: Snap, e2: ExpDesc, T2: seq<int>, F2: seq<int>)
    requires First(o, s1, X) && Second(o, s1, oB, s2, e2, T2, F2, s2)
    ensures Disjoint(T2, X) && Disjoint(F2, X)
  {
    hide PrefixOk, WF, EndOk;
  }
}
