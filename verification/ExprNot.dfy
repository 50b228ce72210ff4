/** codenot: the value is negated, the exit lists change roles, and no exit may
    carry a value any more. */
module ExprNot {
  import opened LuaVM
  import opened JumpLists
  import opened CodeSem
  import opened ExprSpec
  import opened ExprOps

  /** The code once removevalues has run over both lists. */
  function Clean(code: Code, T: seq<int>, F: seq<int>): (r: Code)
    ensures |r| == |code|
  {
    RemoveList(RemoveList(code, T), F)
  }

  lemma CleanAt(code: Code, T: seq<int>, F: seq<int>, i: int)
    requires 0 <= i < |code|
    ensures Clean(code, T, F)[i] ==
      if (i + 1 in T || i + 1 in F) && i + 1 < |code| && code[i].op.OP_TESTSET? then PatchedTest(code[i], NO_REG) else code[i]
  {
    assert RemoveList(code, T)[i] == RemovedAt(code, T, i);
  }

  lemma CleanSim(code: Code, T: seq<int>, F: seq<int>, P: set<int>, lo: int)
    requires 0 <= lo <= |code|
    requires forall j :: j in T || j in F ==> j in P
    requires forall j :: j in P && 0 <= j < |code| ==> code[j].op.OP_JMP?
    ensures CodeSim(code, Clean(code, T, F), P, lo, |code|)
  {
    forall i | lo <= i < |code| ensures SimAt(code, Clean(code, T, F), P, i) {
      CleanAt(code, T, F, i);
    }
  }

  lemma CleanChain(code: Code, T: seq<int>, F: seq<int>, h: int, s: seq<int>, pc0: int)
    requires Chain(code, h, s)
    ensures Chain(Clean(code, T, F), h, s)
    ensures ExitList(code, pc0, s) ==> ExitList(Clean(code, T, F), pc0, s)
  {
    forall i | i in s && 0 <= i < |code| ensures Clean(code, T, F)[i] == code[i] {
      ChainMember(code, h, s, i);
      CleanAt(code, T, F, i);
    }
    ChainKeep(code, Clean(code, T, F), h, s);
    if ExitList(code, pc0, s) {
      forall j | j in s ensures IsTest(Clean(code, T, F)[j - 1].op) {
        CleanAt(code, T, F, j - 1);
      }
    }
  }

  lemma CleanWF(code: Code, T: seq<int>, F: seq<int>)
    requires WF(code)
    ensures WF(Clean(code, T, F))
  {
    var c := Clean(code, T, F);
    forall i | 0 <= i < |c| && IsTest(c[i].op) ensures i + 1 < |c| && c[i + 1].op.OP_JMP? {
      CleanAt(code, T, F, i);
      assert IsTest(code[i].op);
      CleanAt(code, T, F, i + 1);
    }
  }

  /** The state and descriptor with values removed and the lists exchanged. */
  function Cleaned(s: Snap, T: seq<int>, F: seq<int>): Snap { s.(code := Clean(s.code, T, F)) }

  function Swapped(e: ExpDesc): ExpDesc { e.(t := e.f, f := e.t) }

  lemma CleanCore(o: Origin, s: Snap, e: ExpDesc, T: seq<int>, F: seq<int>)
    requires Core(o, s, e, T, F)
    ensures Core(o, Cleaned(s, T, F), Swapped(e), F, T)
  {
    hide Clean;
    var c, pc0 := Clean(s.code, T, F), Pc0(o);
    CleanChain(s.code, T, F, e.t, T, pc0);
    CleanChain(s.code, T, F, e.f, F, pc0);
    CleanWF(s.code, T, F);
    forall j | j in s.J ensures c[j].op.OP_JMP? {
      CleanAt(s.code, T, F, j);
    }
    forall i | 0 <= i < pc0 ensures c[i] == s.code[i] {
      CleanAt(s.code, T, F, i);
    }
    assert c[..pc0] == s.code[..pc0];
  }

  /** The exits of the cleaned code: plain booleans, negated. */
  ghost predicate NotGood(o: Origin, cx: Code, lt: int, J: seq<int>, e: ExpDesc, T: seq<int>, F: seq<int>,
      K: seq<Value>, R: Regs, out: Outcome)
    requires 0 <= o.nact <= |R|
  {
    var res := Eval(o.x, o.p, R[..o.nact]);
    match out
    case Fall(R') => Kept(R, R', o.base.fr) && FallOk(o, cx, lt, e, K, R', res)
    case Exit(j, R', tested) =>
      && Kept(R, R', o.base.fr)
      && (|| (tested && j in T && 0 < j < |cx| && !cx[j - 1].op.OP_TESTSET? && res.Ok? && !Falsy(res.v))
          || (tested && j in F && 0 < j < |cx| && !cx[j - 1].op.OP_TESTSET? && res.Ok? && Falsy(res.v))
          || (j in J && Describes(e, K, o.p, R', res)))
    case Error => res == Err
    case Wrong => false
  }

  lemma CleanRun(o: Origin, s: Snap, e: ExpDesc, T: seq<int>, F: seq<int>, K: seq<Value>, R: Regs)
    requires Core(o, s, e, T, F) && EndOk(o, s, e) && Sem(o, s, e, T, F)
    requires Input(o, Cleaned(s, T, F), Clean(s.code, T, F), K, R, NeutralB(s))
    ensures NotGood(o, Clean(s.code, T, F), s.lt, s.J, e, T, F, K, R,
                    Run(Clean(s.code, T, F), K, o.p, Pend(T, F, s.J), End(e, |s.code|), Pc0(o), R))
  {
    hide Run, Eval, PrefixOk, Clean, WF;
    var c, P, pc0, end := Clean(s.code, T, F), Pend(T, F, s.J), Pc0(o), End(e, |s.code|);
    ExtendNeutral(s);
    if pc0 > 0 { CleanAt(s.code, T, F, pc0 - 1); }
    assert SemAt(o, s, e, T, F, K, R, NeutralB(s));
    forall j | j in P ensures s.code[j].op.OP_JMP? { PendJump2(o, s, e, T, F, j); }
    CleanSim(s.code, T, F, P, pc0);
    RunSim(s.code, c, K, o.p, P, P, pc0, end, pc0, R);
    var out := Run(s.code, K, o.p, P, end, pc0, R);
    NotGoodFrom(o, s, e, T, F, K, R, out);
  }

  lemma PendJump2(o: Origin, s: Snap, e: ExpDesc, T: seq<int>, F: seq<int>, i: int)
    requires Core(o, s, e, T, F) && i in Pend(T, F, s.J)
    ensures 0 <= i < |s.code| && s.code[i].op.OP_JMP?
  {
    if i in T || i in F {
      OpenIsJump(o, s, e, T, F, i);
    }
  }

  lemma NotGoodFrom(o: Origin, s: Snap, e: ExpDesc, T: seq<int>, F: seq<int>, K: seq<Value>, R: Regs, out: Outcome)
    requires Core(o, s, e, T, F) && EndOk(o, s, e) && 0 <= o.nact <= |R|
    requires Good(o, s.code, s.lt, s.J, e, T, F, K, R, out)
    ensures NotGood(o, Clean(s.code, T, F), s.lt, s.J, e, T, F, K, R, out)
  {
    hide Eval, PrefixOk, WF, Clean, Describes;
    var c, n := Clean(s.code, T, F), |s.code|;
    if out.Exit? && (out.j in T || out.j in F) {
      CleanAt(s.code, T, F, out.j - 1);
    }
    if out.Fall? {
      if e.k.VRELOCABLE? {
        OpenNotLast(o, s, e, T, F, n - 1);
        CleanAt(s.code, T, F, n - 1);
      } else if e.k.VJMP? {
        CleanAt(s.code, T, F, n - 2);
      } else if n > 0 {
        CleanAt(s.code, T, F, n - 1);
      }
    }
  }

  lemma OpenNotLast(o: Origin, s: Snap, e: ExpDesc, T: seq<int>, F: seq<int>, i: int)
    requires Core(o, s, e, T, F) && i == |s.code| - 1
    ensures i + 1 !in T && i + 1 !in F
  {
  }

  // ----- the three cases of codenot -----

  /** The constant that codenot turns a constant into. */
  function NotKind(k: Kind): Kind { if k.VNIL? || k.VFALSE? then VTRUE else VFALSE }

  predicate IsConst(k: Kind) { k.VNIL? || k.VFALSE? || k.VTRUE? || k.VK? || k.VKNUM? }

  lemma NotConstAt(o: Origin, l: Expr, s: Snap, e: ExpDesc, T: seq<int>, F: seq<int>, e2: ExpDesc, K: seq<Value>,
      R: Regs, b: int)
    requires o.x == EUn(NOT, l) && Compiled(o.(x := l), s, e, T, F) && IsConst(e.k)
    requires e2.k == NotKind(e.k)
    requires Input(o, Cleaned(s, T, F), Extend(Cleaned(s, T, F), b), K, R, b)
    ensures SemAt(o, Cleaned(s, T, F), e2, F, T, K, R, b)
  {
    hide Run, PrefixOk, WF, Clean, Chain, Disjoint, ExitList, In;
    var oA, s2, n := o.(x := l), Cleaned(s, T, F), |s.code|;
    assert Pend(T, F, s.J) == Pend(F, T, s.J);
    assert e.k.VK? && s.k <= K ==> K[e.info] == s.k[e.info];
    if n == Pc0(o) {
      assert Clean(s.code, [], []) == s.code by { CleanEmpty(s.code); }
      assert SemAt(oA, s, e, T, F, K, R, b);
    } else {
      CleanAt(s.code, T, F, n - 1);
      assert Extend(s2, b) == s2.code && Extend(s2, NeutralB(s)) == s2.code;
      CleanRun(oA, s, e, T, F, K, R);
    }
  }

  lemma CleanEmpty(code: Code)
    ensures Clean(code, [], []) == code
  {
    EmptyPatch(code, 0, 0, 0);
  }

  lemma NotConst(o: Origin, l: Expr, s: Snap, e: ExpDesc, T: seq<int>, F: seq<int>, e2: ExpDesc)
    requires o.x == EUn(NOT, l) && Compiled(o.(x := l), s, e, T, F) && IsConst(e.k)
    requires e2 == Swapped(e).(k := NotKind(e.k))
    ensures Compiled(o, Cleaned(s, T, F), e2, F, T)
  {
    var s2 := Cleaned(s, T, F);
    CleanCore(o.(x := l), s, e, T, F);
    assert EndsInJump(s2, Pc0(o)) by {
      if |s.code| > Pc0(o) { CleanAt(s.code, T, F, |s.code| - 1); }
    }
    hide Run, Input, Sem, Clean;
    forall K: seq<Value>, R: Regs, b: int ensures SemAt(o, s2, e2, F, T, K, R, b) {
      if Input(o, s2, Extend(s2, b), K, R, b) {
        NotConstAt(o, l, s, e, T, F, e2, K, R, b);
      }
    }
  }

  /** A value in a register: the cleaned code is ready for NOT. */
  lemma NotReady(o: Origin, l: Expr, s: Snap, e: ExpDesc, T: seq<int>, F: seq<int>, k2: seq<Value>)
    requires o.x == EUn(NOT, l) && Compiled(o.(x := l), s, e, T, F) && e.k.VNONRELOC?
    ensures Ready(o, Cleaned(s, T, F), Swapped(e), F, T, Instruction(OP_NOT, 0, e.info, 0), k2)
  {
    var oA, s2, i := o.(x := l), Cleaned(s, T, F), Instruction(OP_NOT, 0, e.info, 0);
    CleanCore(oA, s, e, T, F);
    assert Core(o, s2, Swapped(e), F, T);
    hide Run, Core, Clean, NotGood, ReadyGood, Input, EndOk, Sem;
    assert ToSet(F) + ToSet(T) + ToSet(s.J) == Pend(T, F, s.J);
    forall K: seq<Value>, R: Regs ensures ReadyAt(o, s2, Swapped(e), F, T, i, k2, K, R) {
      if Input(o, s2, s2.code, K, R, NeutralB(s2)) {
        NotReadyRun(o, l, s, e, T, F, K, R);
      }
    }
  }

  lemma NotReadyRun(o: Origin, l: Expr, s: Snap, e: ExpDesc, T: seq<int>, F: seq<int>, K: seq<Value>, R: Regs)
    requires o.x == EUn(NOT, l) && Compiled(o.(x := l), s, e, T, F) && e.k.VNONRELOC?
    requires var s2 := Cleaned(s, T, F); Input(o, s2, s2.code, K, R, NeutralB(s2))
    ensures 0 <= o.nact <= |R|
    ensures var s2 := Cleaned(s, T, F);
      ReadyGood(o, s2, Swapped(e), F, T, Instruction(OP_NOT, 0, e.info, 0), K, R, Run(s2.code, K, o.p, Pend(T, F, s.J), |s2.code|, Pc0(o), R))
  {
    hide Run, Core, Clean, NotGood, ReadyGood, KindOk;
    var oA, s2 := o.(x := l), Cleaned(s, T, F);
    assert EndOk(oA, s, e);
    assert Input(oA, s2, s2.code, K, R, NeutralB(s)) by {
      SameInput(o, oA, s2, s2.code, K, R, NeutralB(s2), NeutralB(s));
    }
    hide EndOk;
    CleanRun(oA, s, e, T, F, K, R);
    NotReadyOut(o, l, s, e, T, F, K, R, Run(s2.code, K, o.p, Pend(T, F, s.J), |s.code|, Pc0(o), R));
  }

  /** On code as it stands the widening does not matter. */
  lemma SameInput(o: Origin, oA: Origin, s: Snap, cx: Code, K: seq<Value>, R: Regs, b: int, b2: int)
    requires Input(o, s, cx, K, R, b) && cx == s.code && oA == o.(x := oA.x)
    ensures Input(oA, s, cx, K, R, b2)
  {
  }

  lemma NotReadyOut(o: Origin, l: Expr, s: Snap, e: ExpDesc, T: seq<int>, F: seq<int>, K: seq<Value>, R: Regs,
      out: Outcome)
    requires o.x == EUn(NOT, l) && e.k.VNONRELOC? && 0 <= o.nact <= |R|
    requires NotGood(o.(x := l), Clean(s.code, T, F), s.lt, s.J, e, T, F, K, R, out)
    ensures ReadyGood(o, Cleaned(s, T, F), Swapped(e), F, T, Instruction(OP_NOT, 0, e.info, 0), K, R, out)
  {
    hide Clean, Entry;
  }

  /** Cleaning commutes with discharging: the two patches touch different instructions. */
  lemma CleanDischarge(o: Origin, s: Snap, e: ExpDesc, T: seq<int>, F: seq<int>)
    requires Core(o, s, e, T, F)
    ensures Clean(Discharge(s.code, s.J), T, F) == Discharge(Clean(s.code, T, F), s.J)
  {
    var d, c := Discharge(s.code, s.J), Clean(s.code, T, F);
    forall i | 0 <= i < |s.code| ensures Clean(d, T, F)[i] == Discharge(c, s.J)[i] {
      CleanAt(d, T, F, i);
      CleanAt(s.code, T, F, i);
      assert d[i] == PatchedAt(s.code, s.J, i, |s.code|, NO_REG, |s.code|);
      assert Discharge(c, s.J)[i] == PatchedAt(c, s.J, i, |s.code|, NO_REG, |s.code|);
    }
  }

  /** The comparison with its sense inverted. */
  function Inverted(i: Instruction): Instruction { i.(a := if i.a == 0 then 1 else 0) }

  lemma NotJumpAt(o: Origin, l: Expr, s: Snap, e: ExpDesc, T: seq<int>, F: seq<int>, s2: Snap, e2: ExpDesc,
      K: seq<Value>, R: Regs, b: int)
    requires o.x == EUn(NOT, l) && Compiled(o.(x := l), s, e, T, F) && e.k.VJMP?
    requires e2 == Swapped(e)
    requires var c := Clean(s.code, T, F);
      s2 == s.(code := c[|s.code| - 2 := Inverted(c[|s.code| - 2])])
    requires Input(o, s2, Extend(s2, b), K, R, b)
    ensures SemAt(o, s2, e2, F, T, K, R, b)
  {
    hide Run, Clean, BranchOf, Core, KindOk, NotGood, Good, Sem, WF;
    var oA, c, n, pc0 := o.(x := l), Clean(s.code, T, F), |s.code|, Pc0(o);
    JumpShape(oA, s, e, T, F);
    CleanAt(s.code, T, F, n - 2);
    CleanAt(s.code, T, F, n - 1);
    assert Extend(s2, b) == s2.code;
    assert pc0 > 0 ==> s2.code[pc0 - 1] == c[pc0 - 1];
    assert Input(oA, Cleaned(s, T, F), c, K, R, NeutralB(s));
    CleanRun(oA, s, e, T, F, K, R);
    hide Input, Extend;
    var P := Pend(T, F, s.J);
    assert Pend(F, T, s.J) == P;
    forall j | j in P ensures c[j].op.OP_JMP? {
      PendJump2(oA, s, e, T, F, j);
      CleanAt(s.code, T, F, j);
    }
    forall i | pc0 <= i < n - 2 ensures SimAt(c, s2.code, P, i) { }
    RunSim(c, s2.code, K, o.p, P, P, pc0, n - 2, pc0, R);
    NotJumpOut(o, l, s, e, T, F, c, s2, e2, K, R, Run(c, K, o.p, P, n - 2, pc0, R));
  }

  lemma JumpShape(o: Origin, s: Snap, e: ExpDesc, T: seq<int>, F: seq<int>)
    requires Core(o, s, e, T, F) && KindOk(o, s, e, T, F) && e.k.VJMP?
    ensures EndOk(o, s, e) && s.J == [] && e.info == |s.code| - 1 && |s.code| - 2 >= Pc0(o) && 0 <= o.nact <= s.ms
    ensures IsCompare(s.code[|s.code| - 2].op) && 0 <= s.code[|s.code| - 2].a <= 1 && s.code[|s.code| - 1].op.OP_JMP?
    ensures forall j :: j in T || j in F ==> 0 < j < |s.code| && j != |s.code| - 1
  {
  }

  lemma NotJumpOut(o: Origin, l: Expr, s: Snap, e: ExpDesc, T: seq<int>, F: seq<int>, c: Code, s2: Snap, e2: ExpDesc,
      K: seq<Value>, R: Regs, out: Outcome)
    requires o.x == EUn(NOT, l) && e.k.VJMP? && e2 == Swapped(e) && e.info == |s.code| - 1 && |c| == |s.code| >= 2
    requires 0 <= o.nact <= |R| && s.J == []
    requires s2.code == c[|c| - 2 := Inverted(c[|c| - 2])] && s2.lt == s.lt && s2.J == s.J
    requires IsCompare(c[|c| - 2].op) && 0 <= c[|c| - 2].a <= 1
    requires forall j :: j in T || j in F ==> 0 < j < |c| && j != |c| - 1
    requires NotGood(o.(x := l), c, s.lt, s.J, e, T, F, K, R, out)
    ensures Good(o, s2.code, s2.lt, s2.J, e2, F, T, K, R, out)
  {
    hide BranchOf, Entry;
    if out.Fall? {
      InvertedBranch(c[|c| - 2], K, o.p, out.regs, Eval(l, o.p, R[..o.nact]));
    }
  }

  lemma InvertedBranch(i: Instruction, K: seq<Value>, p: Prims, R: Regs, res: Result)
    requires IsCompare(i.op) && 0 <= i.a <= 1 && BranchOf(i, K, p, R) == BranchFor(res) && (res.Ok? ==> res.v.Boolean?)
    ensures BranchOf(Inverted(i), K, p, R) == BranchFor(match res case Err => Err case Ok(v) => Ok(Boolean(Falsy(v))))
  {
  }

  lemma NotJump(o: Origin, l: Expr, s: Snap, e: ExpDesc, T: seq<int>, F: seq<int>, s2: Snap, e2: ExpDesc)
    requires o.x == EUn(NOT, l) && Compiled(o.(x := l), s, e, T, F) && e.k.VJMP?
    requires e2 == Swapped(e)
    requires var c := Clean(s.code, T, F);
      s2 == s.(code := c[|s.code| - 2 := Inverted(c[|s.code| - 2])])
    ensures Compiled(o, s2, e2, F, T)
  {
    NotJumpCore(o, l, s, e, T, F, s2, e2);
    hide Run, Input, Sem, Clean, Core;
    forall K: seq<Value>, R: Regs, b: int ensures SemAt(o, s2, e2, F, T, K, R, b) {
      if Input(o, s2, Extend(s2, b), K, R, b) {
        NotJumpAt(o, l, s, e, T, F, s2, e2, K, R, b);
      }
    }
  }

  lemma NotJumpCore(o: Origin, l: Expr, s: Snap, e: ExpDesc, T: seq<int>, F: seq<int>, s2: Snap, e2: ExpDesc)
    requires Core(o.(x := l), s, e, T, F) && KindOk(o.(x := l), s, e, T, F) && e.k.VJMP? && e2 == Swapped(e)
    requires var c := Clean(s.code, T, F);
      s2 == s.(code := c[|s.code| - 2 := Inverted(c[|s.code| - 2])])
    ensures Core(o, s2, e2, F, T) && KindOk(o, s2, e2, F, T)
  {
    hide Clean, WF, PrefixOk, Sem;
    var n, oA := |s.code|, o.(x := l);
    var c := Clean(s.code, T, F);
    JumpShape(oA, s, e, T, F);
    CleanCore(oA, s, e, T, F);
    CleanAt(s.code, T, F, n - 2);
    CleanAt(s.code, T, F, n - 1);
    InvertWF(c, s2.code, n - 2);
    NotJumpLists(oA, s, e, T, F, s2);
    InvertPrefix(o, Cleaned(s, T, F), s2);
    NotJumpKind(o, l, s, e, T, F, c, s2, e2);
  }

  lemma NotJumpKind(o: Origin, l: Expr, s: Snap, e: ExpDesc, T: seq<int>, F: seq<int>, c: Code, s2: Snap, e2: ExpDesc)
    requires KindOk(o.(x := l), s, e, T, F) && e.k.VJMP? && e2 == Swapped(e) && |c| == |s.code| >= 2
    requires s2 == s.(code := c[|c| - 2 := Inverted(c[|c| - 2])]) && c[|c| - 2] == s.code[|c| - 2]
    requires c[|c| - 1] == s.code[|c| - 1]
    ensures KindOk(o, s2, e2, F, T)
  {
  }

  lemma NotJumpLists(o: Origin, s: Snap, e: ExpDesc, T: seq<int>, F: seq<int>, s2: Snap)
    requires Core(o, s, e, T, F) && KindOk(o, s, e, T, F) && e.k.VJMP?
    requires var c := Clean(s.code, T, F); |c| >= 2 && s2.code == c[|c| - 2 := Inverted(c[|c| - 2])]
    ensures Chain(s2.code, e.t, T) && Chain(s2.code, e.f, F)
    ensures ExitList(s2.code, Pc0(o), T) && ExitList(s2.code, Pc0(o), F)
  {
    hide Clean, PrefixOk;
    var c, n := Clean(s.code, T, F), |s.code|;
    JumpShape(o, s, e, T, F);
    CleanCore(o, s, e, T, F);
    forall j | (j in T || j in F) && 0 <= j < n ensures s2.code[j] == c[j] && j != n - 2 {
      OpenIsJump(o, s, e, T, F, j);
      CleanAt(s.code, T, F, j);
    }
    CleanAt(s.code, T, F, n - 2);
    ChainKeep(c, s2.code, e.t, T);
    ChainKeep(c, s2.code, e.f, F);
  }

  lemma InvertPrefix(o: Origin, s: Snap, s2: Snap)
    requires PrefixOk(o.base, s) && |s.code| >= 2 && Pc0(o) <= |s.code| - 2
    requires s2 == s.(code := s.code[|s.code| - 2 := Inverted(s.code[|s.code| - 2])])
    ensures PrefixOk(o.base, s2)
  {
    assert s2.code[..Pc0(o)] == s.code[..Pc0(o)];
  }

  lemma InvertWF(c: Code, c2: Code, h: int)
    requires WF(c) && 0 <= h < |c| && IsCompare(c[h].op) && c2 == c[h := Inverted(c[h])]
    ensures WF(c2)
  {
    forall i | 0 <= i < |c2| && IsTest(c2[i].op) ensures i + 1 < |c2| && c2[i + 1].op.OP_JMP? {
      assert IsTest(c[i].op);
    }
  }
}
