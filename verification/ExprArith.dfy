/** Constant folding, and the left operand's constant entered after the right operand's code. */
module ExprArith {
  import opened Wrappers
  import opened LuaVM
  import opened JumpLists
  import opened CodeSem
  import opened ExprSpec
  import opened ExprLemmas
  import opened ExprOps
  import opened ExprSeq
  import opened ExprAndOr
  import opened ExprBoth

  /** A numeral is the constant it was entered as. */
  lemma NumeralIsConst(e: ExpDesc, e2: ExpDesc, k2: seq<Value>, K: seq<Value>, p: Prims, R: Regs, res: Result)
    requires Describes(e, K, p, R, res) && e.k.VKNUM? && k2 <= K
    requires e2.k.VK? && 0 <= e2.info < |k2| && k2[e2.info] == Number(e.nval)
    ensures Describes(e2, K, p, R, res)
  {
    assert K[e2.info] == k2[e2.info];
  }

  lemma ConstOut(o: Origin, l: Expr, r: Expr, cx: Code, lt: int, J: seq<int>, eL: ExpDesc, eR: ExpDesc, k2: seq<Value>,
      e2: ExpDesc, K: seq<Value>, R: Regs, out: Outcome)
    requires 0 <= o.nact <= |R| && BothGood(o, l, r, cx, lt, J, eL, eR, K, R, out) && eL.k.VKNUM? && k2 <= K
    requires e2.k.VK? && 0 <= e2.info < |k2| && k2[e2.info] == Number(eL.nval)
    ensures BothGood(o, l, r, cx, lt, J, e2, eR, K, R, out)
  {
    hide Eval, Describes, Kept, Entry;
    if out.Fall? || out.Exit? {
      NumeralIsConst(eL, e2, k2, K, o.p, out.regs, Eval(l, o.p, R[..o.nact]));
    }
  }

  lemma BothConstAt(o: Origin, l: Expr, r: Expr, s: Snap, eL: ExpDesc, eR: ExpDesc, s2: Snap, e2: ExpDesc,
      K: seq<Value>, R: Regs, b: int)
    requires Both(o, l, r, s, eL, eR) && eL.k.VKNUM?
    requires s2 == s.(k := s2.k) && s.k <= s2.k
    requires e2.k.VK? && 0 <= e2.info < |s2.k| && s2.k[e2.info] == Number(eL.nval)
    ensures BothAt(o, l, r, s2, e2, eR, K, R, b)
  {
    hide Run, Core, BothGood, Entry;
    assert BothAt(o, l, r, s, eL, eR, K, R, b);
    var out := Run(Extend(s2, b), K, o.p, ToSet(s2.J), |s2.code|, Pc0(o), R);
    if Input(o, s2, Extend(s2, b), K, R, b) {
      ConstOut(o, l, r, Extend(s2, b), s2.lt, s2.J, eL, eR, s2.k, e2, K, R, out);
    }
  }

  /** Entering the left numeral as a constant. */
  lemma BothConst(o: Origin, l: Expr, r: Expr, s: Snap, eL: ExpDesc, eR: ExpDesc, s2: Snap, e2: ExpDesc)
    requires Both(o, l, r, s, eL, eR) && eL.k.VKNUM?
    requires s2 == s.(k := s2.k) && s.k <= s2.k
    requires e2.k.VK? && 0 <= e2.info < |s2.k| && s2.k[e2.info] == Number(eL.nval)
    ensures Both(o, l, r, s2, e2, eR)
  {
    assert Core(o, s2, NoLists, [], []);
    hide Core, BothAt;
    forall K: seq<Value>, R: Regs, b: int ensures BothAt(o, l, r, s2, e2, eR, K, R, b) {
      BothConstAt(o, l, r, s, eL, eR, s2, e2, K, R, b);
    }
  }

  /** Loading the left numeral into the next register, when the constants are out of reach. */
  lemma BothLoadAt(o: Origin, l: Expr, r: Expr, s: Snap, eL: ExpDesc, eR: ExpDesc, i: Instruction, s2: Snap,
      e2: ExpDesc, K: seq<Value>, R: Regs, b: int)
    requires Both(o, l, r, s, eL, eR) && eL.k.VKNUM? && Emitted(s, s2, [i])
    requires i.op.OP_LOADK? && i.a == s.fr && s2.fr == s.fr + 1 && 0 <= i.b < |s2.k| && s2.k[i.b] == Number(eL.nval)
    requires e2.k.VNONRELOC? && e2.info == s.fr
    requires Input(o, s2, Extend(s2, b), K, R, b)
    ensures BothAt(o, l, r, s2, e2, eR, K, R, b)
  {
    hide Run, WF, PrefixOk, Eval, BothGood;
    var m := |s.code|;
    InputBack(o, s, s2, [i], K, R, b);
    ExtendNeutral(s);
    assert BothAt(o, l, r, s, eL, eR, K, R, NeutralB(s));
    var out := Run(s.code, K, o.p, ToSet(s.J), m, Pc0(o), R);
    BothRuns(o, l, r, s.code, s.lt, s.J, eL, eR, K, R, out);
    assert {} + ToSet(s.J) == ToSet(s.J);
    assert ToSet(s2.J) == {};
    assert s2.code[m] == i && Extend(s2, b) == s2.code;
    EmitRun(o, s, {}, s2, [i], b, {}, m + 1, K, R);
    LoadOut(o, l, r, s, eL, eR, i, s2, e2, K, R, out);
  }

  lemma BothRuns(o: Origin, l: Expr, r: Expr, cx: Code, lt: int, J: seq<int>, eL: ExpDesc, eR: ExpDesc, K: seq<Value>,
      R: Regs, out: Outcome)
    requires 0 <= o.nact <= |R| && BothGood(o, l, r, cx, lt, J, eL, eR, K, R, out)
    ensures !out.Wrong?
  {
  }

  lemma LoadOut(o: Origin, l: Expr, r: Expr, s: Snap, eL: ExpDesc, eR: ExpDesc, i: Instruction, s2: Snap, e2: ExpDesc,
      K: seq<Value>, R: Regs, out: Outcome)
    requires 0 <= o.nact <= |R| && 0 <= o.base.fr <= s.fr < |R| && InUse(eR, s.fr, s.k) && eL.k.VKNUM?
    requires i.op.OP_LOADK? && i.a == s.fr && 0 <= i.b < |s2.k| && s2.k[i.b] == Number(eL.nval) && s2.k <= K
    requires e2.k.VNONRELOC? && e2.info == s.fr
    requires |s2.code| == |s.code| + 1 && s2.code[|s.code|] == i && s2.J == []
    requires BothGood(o, l, r, s.code, s.lt, s.J, eL, eR, K, R, out)
    ensures BothGood(o, l, r, s2.code, s2.lt, s2.J, e2, eR, K, R, Onward(s2.code, K, o.p, {}, |s2.code|, |s.code|, s.J, out))
  {
    hide Run, Eval;
    if out.Fall? || out.Exit? {
      LastCompute(s2.code, K, o.p, {}, out.regs);
      assert K[i.b] == s2.k[i.b];
    }
  }

  lemma BothLoad(o: Origin, l: Expr, r: Expr, s: Snap, eL: ExpDesc, eR: ExpDesc, i: Instruction, s2: Snap, e2: ExpDesc)
    requires Both(o, l, r, s, eL, eR) && eL.k.VKNUM? && Emitted(s, s2, [i])
    requires i.op.OP_LOADK? && i.a == s.fr && s2.fr == s.fr + 1 && 0 <= i.b < |s2.k| && s2.k[i.b] == Number(eL.nval)
    requires e2.k.VNONRELOC? && e2.info == s.fr
    ensures Both(o, l, r, s2, e2, eR)
  {
    EmitCore(o, s, NoLists, [], [], s2, NoLists, [i]);
    hide Core, Run, Input, BothGood;
    forall K: seq<Value>, R: Regs, b: int ensures BothAt(o, l, r, s2, e2, eR, K, R, b) {
      if Input(o, s2, Extend(s2, b), K, R, b) {
        BothLoadAt(o, l, r, s, eL, eR, i, s2, e2, K, R, b);
      }
    }
  }

  /** Two undecided numerals leave code that ends in a jump, if any. */
  lemma NumeralsEnd(o: Origin, l: Expr, r: Expr, s1: Snap, e1: ExpDesc, s2: Snap, e2: ExpDesc)
    requires Operand(o.(x := l), s1, e1) && Operand(Origin(s1, o.nact, o.p, r), s2, e2)
    requires EndsInJump(s1, Pc0(o)) && EndsInJump(s2, |s1.code|)
    ensures EndsInJump(s2, Pc0(o))
  {
    var oB := Origin(s1, o.nact, o.p, r);
    OperandFirst(o, l, s1, e1);
    OpSecond(o, s1, oB, s2, e2);
    hide Operand;
    if |s2.code| <= |s1.code| {
      SeqPrefix(o, s1, oB, s2, e2, [], [], s2, 0);
      JumpKept(o, s1, [], oB, s2, e2, [], [], s2);
    }
  }

  /** Folding two numerals. */
  lemma Folded(o: Origin, l: Expr, r: Expr, op: ArithOp, s: Snap, eL: ExpDesc, eR: ExpDesc, e: ExpDesc)
    requires o.x == EBin(Arith(op), l, r) && FoldSound(o.p) && Both(o, l, r, s, eL, eR) && eL.k.VKNUM? && eR.k.VKNUM?
    requires e.k.VKNUM? && Fold(o.p, op, eL.nval, eR.nval) == Some(e.nval) && e.t == NO_JUMP && e.f == NO_JUMP
    requires s.fr == o.base.fr && EndsInJump(s, Pc0(o))
    ensures Compiled(o, s, e, [], [])
  {
    hide Run;
    assert Core(o, s, e, [], []);
    hide Core;
    forall K: seq<Value>, R: Regs, b: int ensures SemAt(o, s, e, [], [], K, R, b) {
      assert BothAt(o, l, r, s, eL, eR, K, R, b);
      assert Pend([], [], s.J) == ToSet(s.J);
    }
  }

  /** Folding the negation of a numeral. */
  lemma FoldedUnary(o: Origin, l: Expr, s: Snap, e: ExpDesc, e2: ExpDesc)
    requires o.x == EUn(UNARY(UNM), l) && FoldSound(o.p) && Compiled(o.(x := l), s, e, [], []) && e.k.VKNUM?
    requires e2 == e.(nval := o.p.foldUnm(e.nval))
    ensures Compiled(o, s, e2, [], [])
  {
    hide Run;
    forall K: seq<Value>, R: Regs, b: int ensures SemAt(o, s, e2, [], [], K, R, b) {
      assert SemAt(o.(x := l), s, e, [], [], K, R, b);
    }
  }
}
