/** Operators that need both operands at once: arithmetic and comparisons. */
module ExprBoth {
  import opened LuaVM
  import opened JumpLists
  import opened CodeSem
  import opened ExprSpec
  import opened ExprOps
  import opened ExprSeq
  import opened ExprAndOr

  /** luaK_exp2RK's result, or a numeral that is left for later: no exits, and a
      value that is a constant or sits in a register. */
  ghost predicate Operand(o: Origin, s: Snap, e: ExpDesc) {
    && Core(o, s, e, [], []) && OperandKind(o.base.fr, o.nact, s.k, s.fr, e)
    && Sem(o, s, e, [], [])
  }

  predicate OperandKind(fr0: int, nact: int, k: seq<Value>, fr: int, e: ExpDesc) {
    match e.k
    case VK => 0 <= e.info < |k| && fr == fr0
    case VKNUM => fr == fr0
    case VNONRELOC => if fr == fr0 then 0 <= e.info < nact else e.info == fr0 && fr == fr0 + 1
    case _ => false
  }

  ghost predicate BothGood(o: Origin, l: Expr, r: Expr, cx: Code, lt: int, J: seq<int>, eL: ExpDesc, eR: ExpDesc,
      K: seq<Value>, R: Regs, out: Outcome)
    requires 0 <= o.nact <= |R|
  {
    var resL, resR := Eval(l, o.p, R[..o.nact]), Eval(r, o.p, R[..o.nact]);
    match out
    case Fall(R') =>
      && Kept(R, R', o.base.fr) && Entry(cx, |cx|, lt, o.nact, R')
      && resL.Ok? && resR.Ok? && Describes(eL, K, o.p, R', resL) && Describes(eR, K, o.p, R', resR)
    case Exit(j, R', tested) =>
      && Kept(R, R', o.base.fr) && j in J
      && resL.Ok? && resR.Ok? && Describes(eL, K, o.p, R', resL) && Describes(eR, K, o.p, R', resR)
    case Error => resL == Err || resR == Err
    case Wrong => false
  }

  ghost predicate BothAt(o: Origin, l: Expr, r: Expr, s: Snap, eL: ExpDesc, eR: ExpDesc, K: seq<Value>, R: Regs,
      b: int) {
    var cx := Extend(s, b);
    Input(o, s, cx, K, R, b) ==>
      BothGood(o, l, r, cx, s.lt, s.J, eL, eR, K, R, Run(cx, K, o.p, ToSet(s.J), |cx|, Pc0(o), R))
  }

  /** A descriptor without lists. */
  const NoLists: ExpDesc := ExpDesc(VKNUM, 0, 0, NO_JUMP, NO_JUMP)

  predicate InUse(e: ExpDesc, fr: int, k: seq<Value>) {
    && (e.k.VK? || e.k.VKNUM? || e.k.VNONRELOC?)
    && (e.k.VNONRELOC? ==> 0 <= e.info < fr) && (e.k.VK? ==> 0 <= e.info < |k|)
  }

  /** Both operands are ready, the left one untouched by the code of the right one. */
  ghost predicate Both(o: Origin, l: Expr, r: Expr, s: Snap, eL: ExpDesc, eR: ExpDesc) {
    && Core(o, s, NoLists, [], [])
    && InUse(eL, s.fr, s.k) && InUse(eR, s.fr, s.k)
    && forall K: seq<Value>, R: Regs, b: int :: BothAt(o, l, r, s, eL, eR, K, R, b)
  }

  lemma OperandFirst(o: Origin, l: Expr, s1: Snap, e1: ExpDesc)
    requires Operand(o.(x := l), s1, e1)
    ensures First(o, s1, [])
  {
  }

  lemma OperandStays(e: ExpDesc, K: seq<Value>, p: Prims, R: Regs, R': Regs, n: int, res: Result)
    requires Describes(e, K, p, R, res) && Kept(R, R', n)
    requires (e.k.VK? || e.k.VKNUM? || (e.k.VNONRELOC? && 0 <= e.info < n))
    ensures Describes(e, K, p, R', res)
  {
  }

  lemma KeptTrans(R: Regs, R1: Regs, R2: Regs, n: int, m: int)
    requires Kept(R, R1, n) && Kept(R1, R2, m) && n <= m
    ensures Kept(R, R2, n)
  {
  }

  lemma BothCore(o: Origin, l: Expr, r: Expr, s1: Snap, e1: ExpDesc, s2: Snap, e2: ExpDesc)
    requires Operand(o.(x := l), s1, e1) && Operand(Origin(s1, o.nact, o.p, r), s2, e2)
    ensures Core(o, s2, NoLists, [], []) && s1.fr <= s2.fr && s1.k <= s2.k
  {
    hide PrefixOk, WF, Sem;
    var oB := Origin(s1, o.nact, o.p, r);
    OperandFirst(o, l, s1, e1);
    OpSecond(o, s1, oB, s2, e2);
    SeqPrefixOk(o, s1, [], oB, s2, e2, [], [], s2);
    SeqPrefix(o, s1, oB, s2, e2, [], [], s2, 0);
    SeqFacts(o, s1, oB, s2, e2, [], [], s2, 0);
  }

  lemma OpSecond(o: Origin, s1: Snap, oB: Origin, s2: Snap, e2: ExpDesc)
    requires Operand(oB, s2, e2) && oB.base == s1 && oB.nact == o.nact && oB.p == o.p
    ensures Second(o, s1, oB, s2, e2, [], [], s2)
  {
  }

  lemma BothSeqAt(o: Origin, l: Expr, r: Expr, s1: Snap, e1: ExpDesc, s2: Snap, e2: ExpDesc, K: seq<Value>, R: Regs,
      b: int)
    requires Operand(o.(x := l), s1, e1) && Operand(Origin(s1, o.nact, o.p, r), s2, e2)
    requires Input(o, s2, Extend(s2, b), K, R, b)
    ensures BothAt(o, l, r, s2, e1, e2, K, R, b)
  {
    hide Run, WF, PrefixOk, Eval;
    var oA, oB, m, b1 := o.(x := l), Origin(s1, o.nact, o.p, r), |s1.code|, SeqB(s1, s2, b);
    OperandFirst(o, l, s1, e1);
    OpSecond(o, s1, oB, s2, e2);
    SeqInput(o, s1, [], oB, s2, e2, [], [], s2, K, R, b);
    assert SemAt(oA, s1, e1, [], [], K, R, b1);
    assert Pend([], [], s1.J) == ToSet([]) + ToSet(s1.J) == ToSet(s1.J);
    var out := Run(Extend(s1, b1), K, o.p, ToSet([]) + ToSet(s1.J), m, Pc0(o), R);
    SeqRun(o, s1, [], oB, s2, e2, [], [], s2, K, R, b);
    assert ToSet([]) + Pend([], [], s2.J) == ToSet(s2.J) == Pend([], [], s2.J);
    if out.Fall? || out.Exit? {
      BothTail(o, l, r, s1, e1, s2, e2, K, R, b, out);
    }
  }

  lemma BothTail(o: Origin, l: Expr, r: Expr, s1: Snap, e1: ExpDesc, s2: Snap, e2: ExpDesc, K: seq<Value>, R: Regs,
      b: int, out: Outcome)
    requires Operand(o.(x := l), s1, e1) && Operand(Origin(s1, o.nact, o.p, r), s2, e2)
    requires Input(o, s2, Extend(s2, b), K, R, b)
    requires Good(o.(x := l), Extend(s1, SeqB(s1, s2, b)), s1.lt, s1.J, e1, [], [], K, R, out)
    requires (out.Fall? || out.Exit?)
    ensures BothGood(o, l, r, Extend(s2, b), s2.lt, s2.J, e1, e2, K, R,
                     SeqOut(Extend(s2, b), K, o.p, ToSet(s2.J), |s2.code|, |s1.code|, |s2.code| > |s1.code|, s1.J, out))
  {
    hide Run, WF, PrefixOk, KindOk, Eval, Chain;
    var oB, m := Origin(s1, o.nact, o.p, r), |s1.code|;
    var R1 := out.regs;
    OpSecond(o, s1, oB, s2, e2);
    KeptLocals(R, R1, o.base.fr, o.nact);
    SecondInput(o, s1, oB, s2, e2, [], [], s2, K, R, R1, b);
    assert SemAt(oB, s2, e2, [], [], K, R1, b);
    assert Pend([], [], s2.J) == ToSet(s2.J);
    var outB := Run(Extend(s2, b), K, o.p, ToSet(s2.J), |s2.code|, m, R1);
    if outB.Fall? || outB.Exit? {
      KeptTrans(R, R1, outB.regs, o.base.fr, s1.fr);
      OperandStays(e1, K, o.p, R1, outB.regs, s1.fr, Eval(l, o.p, R[..o.nact]));
    }
    if out.Exit? && |s2.code| <= m {
      SeqPrefix(o, s1, oB, s2, e2, [], [], s2, b);
      RunEnd(Extend(s2, b), K, o.p, ToSet(s2.J), m, R1);
    }
  }

  lemma BothSeq(o: Origin, l: Expr, r: Expr, s1: Snap, e1: ExpDesc, s2: Snap, e2: ExpDesc)
    requires Operand(o.(x := l), s1, e1) && Operand(Origin(s1, o.nact, o.p, r), s2, e2)
    ensures Both(o, l, r, s2, e1, e2)
  {
    BothCore(o, l, r, s1, e1, s2, e2);
    hide Core, Sem, Input, Run, BothGood;
    forall K: seq<Value>, R: Regs, b: int ensures BothAt(o, l, r, s2, e1, e2, K, R, b) {
      if Input(o, s2, Extend(s2, b), K, R, b) {
        BothSeqAt(o, l, r, s1, e1, s2, e2, K, R, b);
      }
    }
  }
}
