/** Instructions emitted for a value: loads, unary operators, arithmetic, comparisons. */
module ExprEmit {
  import opened Wrappers
  import opened LuaVM
  import opened JumpLists
  import opened CodeSem
  import opened ExprSpec
  import opened ExprOps
  import opened ExprBoth

  /** i computes what e describes, given at least the constants k. */
  ghost predicate Realizes(e: ExpDesc, i: Instruction, k: seq<Value>, p: Prims) {
    forall K: seq<Value>, R: Regs, res: Result ::
      k <= K && Describes(e, K, p, R, res) ==> Computes(i, K, p, R) == Some(res)
  }

  lemma ReadySettled(o: Origin, s: Snap, e: ExpDesc, T: seq<int>, F: seq<int>, i: Instruction, k2: seq<Value>)
    requires Core(o, s, e, T, F) && Sem(o, s, e, T, F) && !e.k.VRELOCABLE? && !e.k.VJMP?
    requires IsCompute(i) && Realizes(e, i, k2, o.p)
    ensures Ready(o, s, e, T, F, i, k2)
  {
    hide Run, Core, Eval, Computes, Describes;
    ExtendNeutral(s);
    forall K: seq<Value>, R: Regs ensures ReadyAt(o, s, e, T, F, i, k2, K, R) {
      assert SemAt(o, s, e, T, F, K, R, NeutralB(s));
    }
  }

  /** A unary operator on an operand in a register. */
  lemma ReadyUnary(o: Origin, l: Expr, u: UnaryOp, s: Snap, e: ExpDesc, k2: seq<Value>)
    requires o.x == EUn(UNARY(u), l) && Operand(o.(x := l), s, e) && e.k.VNONRELOC?
    ensures Ready(o, s, NoLists, [], [], Instruction(OP_UNARY(u), 0, e.info, 0), k2)
  {
    hide Run, WF, PrefixOk;
    ExtendNeutral(s);
    var i := Instruction(OP_UNARY(u), 0, e.info, 0);
    forall K: seq<Value>, R: Regs ensures ReadyAt(o, s, NoLists, [], [], i, k2, K, R) {
      assert SemAt(o.(x := l), s, e, [], [], K, R, NeutralB(s));
      assert ToSet([]) + ToSet([]) + ToSet(s.J) == Pend([], [], s.J);
    }
  }

  /** The RK operand that stands for an operand descriptor. */
  function RKOf(e: ExpDesc): int { if e.k.VK? then e.info + BITRK else e.info }

  lemma RKValue(e: ExpDesc, k: seq<Value>, K: seq<Value>, p: Prims, R: Regs, res: Result)
    requires Describes(e, K, p, R, res) && (e.k.VK? || e.k.VNONRELOC?) && k <= K
    requires e.k.VNONRELOC? ==> e.info < BITRK
    ensures InRK(K, R, RKOf(e)) && res == Ok(RK(K, R, RKOf(e)))
  {
  }

  /** Constants from 256 on, registers below 250: the two do not meet. */
  lemma RKRange(o: Origin, s: Snap, e: ExpDesc)
    requires Operand(o, s, e) && !e.k.VKNUM? && s.ms < 250
    ensures if e.k.VK? then RKOf(e) == 256 + e.info else 0 <= RKOf(e) < 250
  {
    hide Sem, WF, Chain, PrefixOk;
  }

  lemma ReadyArith(o: Origin, l: Expr, r: Expr, op: ArithOp, s: Snap, eL: ExpDesc, eR: ExpDesc, k2: seq<Value>)
    requires o.x == EBin(Arith(op), l, r) && Both(o, l, r, s, eL, eR)
    requires !eL.k.VKNUM? && !eR.k.VKNUM?
    ensures Ready(o, s, NoLists, [], [], Instruction(OP_ARITH(op), 0, RKOf(eL), RKOf(eR)), k2)
  {
    hide Run, WF, PrefixOk;
    ExtendNeutral(s);
    var i := Instruction(OP_ARITH(op), 0, RKOf(eL), RKOf(eR));
    forall K: seq<Value>, R: Regs ensures ReadyAt(o, s, NoLists, [], [], i, k2, K, R) {
      if Input(o, s, s.code, K, R, NeutralB(s)) {
        assert BothAt(o, l, r, s, eL, eR, K, R, NeutralB(s));
        assert ToSet([]) + ToSet([]) + ToSet(s.J) == ToSet(s.J);
        var out := Run(s.code, K, o.p, ToSet(s.J), |s.code|, Pc0(o), R);
        if out.Fall? || out.Exit? {
          RKValue(eL, s.k, K, o.p, out.regs, Eval(l, o.p, R[..o.nact]));
          RKValue(eR, s.k, K, o.p, out.regs, Eval(r, o.p, R[..o.nact]));
        }
      }
    }
  }

  /** The comparison instruction codecomp emits: its opcode, sense and operands. */
  function CompareInstr(op: BinOp, o1: int, o2: int): Instruction
    requires IsCompareOp(op)
  {
    match op
    case EQ => Instruction(OP_EQ, 1, o1, o2)
    case NE => Instruction(OP_EQ, 0, o1, o2)
    case LT => Instruction(OP_LT, 1, o1, o2)
    case LE => Instruction(OP_LE, 1, o1, o2)
    case GT => Instruction(OP_LT, 1, o2, o1)
    case GE => Instruction(OP_LE, 1, o2, o1)
  }

  predicate IsCompareOp(op: BinOp) { !op.Arith? && !op.CONCAT? && !op.AND? && !op.OR? }

  lemma CompareBranch(op: BinOp, eL: ExpDesc, eR: ExpDesc, k: seq<Value>, K: seq<Value>, p: Prims, R: Regs, a: Value,
      b: Value)
    requires IsCompareOp(op) && k <= K
    requires Describes(eL, K, p, R, Ok(a)) && (eL.k.VK? || eL.k.VNONRELOC?) && (eL.k.VNONRELOC? ==> eL.info < BITRK)
    requires Describes(eR, K, p, R, Ok(b)) && (eR.k.VK? || eR.k.VNONRELOC?) && (eR.k.VNONRELOC? ==> eR.info < BITRK)
    ensures var res := EvalBin(op, p, a, b);
      && BranchOf(CompareInstr(op, RKOf(eL), RKOf(eR)), K, p, R) == BranchFor(res)
      && (res.Ok? ==> res.v.Boolean?)
  {
    RKValue(eL, k, K, p, R, Ok(a));
    RKValue(eR, k, K, p, R, Ok(b));
  }

  lemma EmitCompareAt(o: Origin, l: Expr, r: Expr, op: BinOp, s: Snap, eL: ExpDesc, eR: ExpDesc, s2: Snap, e2: ExpDesc,
      K: seq<Value>, R: Regs, b: int)
    requires o.x == EBin(op, l, r) && IsCompareOp(op) && Both(o, l, r, s, eL, eR) && !eL.k.VKNUM? && !eR.k.VKNUM?
    requires Emitted(s, s2, [CompareInstr(op, RKOf(eL), RKOf(eR)), Instruction(OP_JMP, 0, NO_JUMP, 0)])
    requires e2.k.VJMP? && e2.info == |s.code| + 1
    requires Input(o, s2, Extend(s2, b), K, R, b)
    ensures SemAt(o, s2, e2, [], [], K, R, b)
  {
    hide Run, WF, PrefixOk, BranchOf, CompareInstr, EvalBin, Describes, Chain;
    var ins := [CompareInstr(op, RKOf(eL), RKOf(eR)), Instruction(OP_JMP, 0, NO_JUMP, 0)];
    var m := |s.code|;
    InputBack(o, s, s2, ins, K, R, b);
    ExtendNeutral(s);
    assert BothAt(o, l, r, s, eL, eR, K, R, NeutralB(s));
    var out := Run(s.code, K, o.p, ToSet(s.J), m, Pc0(o), R);
    assert {} + ToSet(s.J) == ToSet(s.J);
    assert Pend([], [], s2.J) == {};
    assert s2.code[m] == ins[0] && s2.code[m + 1] == ins[1] && Extend(s2, b) == s2.code;
    EmitRun(o, s, {}, s2, ins, b, {}, m, K, R);
    if out.Fall? || out.Exit? {
      RunEnd(Extend(s2, b), K, o.p, {}, m, out.regs);
      CompareBranch(op, eL, eR, s.k, K, o.p, out.regs, Eval(l, o.p, R[..o.nact]).v, Eval(r, o.p, R[..o.nact]).v);
    }
  }

  lemma EmitCompare(o: Origin, l: Expr, r: Expr, op: BinOp, s: Snap, eL: ExpDesc, eR: ExpDesc, s2: Snap, e2: ExpDesc)
    requires o.x == EBin(op, l, r) && IsCompareOp(op) && Both(o, l, r, s, eL, eR) && !eL.k.VKNUM? && !eR.k.VKNUM?
    requires Emitted(s, s2, [CompareInstr(op, RKOf(eL), RKOf(eR)), Instruction(OP_JMP, 0, NO_JUMP, 0)])
    requires e2.k.VJMP? && e2.info == |s.code| + 1 && e2.t == NO_JUMP && e2.f == NO_JUMP && s2.fr == o.base.fr
    ensures Compiled(o, s2, e2, [], [])
  {
    var ins := [CompareInstr(op, RKOf(eL), RKOf(eR)), Instruction(OP_JMP, 0, NO_JUMP, 0)];
    EmitCore(o, s, NoLists, [], [], s2, e2, ins);
    assert s2.code[|s.code|] == ins[0] && s2.code[|s.code| + 1] == ins[1];
    hide Core, Run, Input;
    forall K: seq<Value>, R: Regs, b: int ensures SemAt(o, s2, e2, [], [], K, R, b) {
      if Input(o, s2, Extend(s2, b), K, R, b) {
        EmitCompareAt(o, l, r, op, s, eL, eR, s2, e2, K, R, b);
      }
    }
  }
}
