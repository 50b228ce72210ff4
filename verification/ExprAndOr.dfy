/** luaK_posfix on `and` and `or`, and on the operators that need both operands. */
module ExprAndOr {
  import opened LuaVM
  import opened JumpLists
  import opened CodeSem
  import opened ExprSpec
  import opened ExprOps
  import opened ExprSeq

  // ----- structure -----

  /** A prefix kept by the first piece and then by the second is kept. */
  lemma SeqPrefixOk(o: Origin, s1: Snap, X: seq<int>, oB: Origin, s2: Snap, e2: ExpDesc, T2: seq<int>, F2: seq<int>,
      s3: Snap)
    requires First(o, s1, X) && Second(o, s1, oB, s2, e2, T2, F2, s3)
    requires o.base.fr <= s1.fr
    ensures PrefixOk(o.base, s3)
  {
    hide Second, WF, Discharge;
    var pc0, m := Pc0(o), |s1.code|;
    var nb := NeutralB(s3);
    ExtendNeutral(s3);
    SeqPrefix(o, s1, oB, s2, e2, T2, F2, s3, nb);
    SeqFacts(o, s1, oB, s2, e2, T2, F2, s3, nb);
    var b1 := SeqB(s1, s3, nb);
    assert s3.code[..pc0] == s3.code[..m][..pc0];
    if m > pc0 {
      PrefixNoTest(o, s1);
      assert Extend(s1, b1)[..pc0] == s1.code[..pc0];
      DischargePrefixX(s1, b1, pc0);
    } else {
      assert s1.code == s1.code[..pc0] && s3.code[..m] == s3.code[..pc0];
      EmptyFirst(o.base, s1, s3, b1);
    }
  }

  /** When the first piece is empty, widening it is widening what came before. */
  lemma EmptyFirst(base: Snap, s1: Snap, s3: Snap, b1: int)
    requires |base.code| == |s1.code| <= |s3.code| && PrefixOk(base, s1) && base.fr <= s1.fr && s1.k <= s3.k
    requires s1.ms <= s3.ms && s1.lt <= s3.lt
    requires SnapOk(base) && SnapOk(s1)
    requires s3.code[..|s1.code|] == Before(s1, |s3.code| > |s1.code|, b1)
    requires |s1.code| > 0 && !(|s3.code| > |s1.code| && s1.J != []) ==> b1 == s3.code[|s1.code| - 1].b
    requires Extend(s1, b1) == s1.code || b1 < s3.ms
    requires |s3.code| == |s1.code| ==> s3.J == s1.J
    ensures PrefixOk(base, s3)
  {
    var m := |base.code|;
    assert s1.code[..m] == s1.code;
    ExtendTwice(base, s1, b1);
    if m > 0 {
      assert s3.code[m - 1] == s3.code[..m][m - 1];
      if s1.J != [] {
        assert Extend(base, LastB(s3.code, m)) == base.code;
      } else {
        EmptyPatch(Extend(s1, b1), m, NO_REG, m);
      }
    }
  }

  lemma DischargePrefixX(s: Snap, b: int, pc0: int)
    requires SnapOk(s) && 0 <= pc0 < |s.code| && In(s.J, pc0, |s.code|)
    requires pc0 > 0 ==> !IsTest(s.code[pc0 - 1].op)
    ensures Discharge(Extend(s, b), s.J)[..pc0] == s.code[..pc0]
  {
  }

  lemma ExtendTwice(base: Snap, s: Snap, b: int)
    requires s.code == Extend(base, NeutralB(s)) && base.lt <= s.lt && base.fr <= s.fr
    ensures Extend(s, b) == s.code || Extend(s, b) == Extend(base, b)
  {
  }

  // ----- meaning -----

  /** What the first piece leaves behind is an input of the second. */
  lemma SecondInput(o: Origin, s1: Snap, oB: Origin, s2: Snap, e2: ExpDesc, T2: seq<int>, F2: seq<int>, s3: Snap,
      K: seq<Value>, R: Regs, R1: Regs, b: int)
    requires SnapOk(s1) && Second(o, s1, oB, s2, e2, T2, F2, s3)
    requires Input(o, s3, Extend(s3, b), K, R, b) && |R1| == |R|
    requires s1.lt < |s1.code| ==> Entry(Extend(s1, SeqB(s1, s3, b)), |s1.code|, s1.lt, o.nact, R1)
    ensures Input(oB, s2, Extend(s2, b), K, R1, b)
  {
    hide WF;
    var m := |s1.code|;
    SeqPrefix(o, s1, oB, s2, e2, T2, F2, s3, b);
    SecondExtend(o, s1, oB, s2, e2, T2, F2, s3, b);
    if m > 0 && s1.lt < m {
      assert s1.J == [];
      EmptyPatch(Extend(s1, SeqB(s1, s3, b)), m, NO_REG, m);
      assert Extend(s3, b)[m - 1] == Extend(s3, b)[..m][m - 1];
    }
  }

  /** The linked code is widened where the unlinked code is. */
  lemma SecondExtend(o: Origin, s1: Snap, oB: Origin, s2: Snap, e2: ExpDesc, T2: seq<int>, F2: seq<int>, s3: Snap,
      b: int)
    requires Second(o, s1, oB, s2, e2, T2, F2, s3)
    ensures Extend(s3, b) == s3.code ==> Extend(s2, b) == s2.code
    ensures |Extend(s3, b)| == |Extend(s2, b)|
    ensures forall i :: 0 <= i < |s3.code| && i !in T2 && i !in F2 ==> Extend(s3, b)[i] == Extend(s2, b)[i]
  {
    var n := |s3.code|;
    if n > 0 && (n - 1 in T2 || n - 1 in F2) {
      OpenIsJump(oB, s2, e2, T2, F2, n - 1);
    }
  }

  ghost predicate AndOrLists(sense: bool, X: seq<int>, T2: seq<int>, F2: seq<int>, T3: seq<int>, F3: seq<int>) {
    if sense then T3 == T2 && F3 == F2 + X else T3 == T2 + X && F3 == F2
  }

  ghost predicate SameValue(e: ExpDesc, e': ExpDesc) {
    e.k == e'.k && e.info == e'.info && e.nval == e'.nval
  }

  /** The instructions that matter to the outcome are the same with and without the links. */
  ghost predicate SameTests(c1: Code, c2: Code, e: ExpDesc, T: seq<int>, F: seq<int>) {
    && |c1| == |c2|
    && (forall j :: (j in T || j in F) && 0 < j < |c1| ==> c1[j - 1] == c2[j - 1])
    && (e.k.VRELOCABLE? && 0 <= e.info < |c1| ==> c1[e.info] == c2[e.info])
    && (e.k.VJMP? && 0 < e.info <= |c1| ==> c1[e.info - 1] == c2[e.info - 1])
    && (|c1| > 0 && c2[|c1| - 1].op.OP_LOADNIL? ==> c1[|c1| - 1] == c2[|c1| - 1])
  }

  lemma SecondSameTests(o: Origin, s1: Snap, oB: Origin, s2: Snap, e2: ExpDesc, T2: seq<int>, F2: seq<int>, s3: Snap,
      b: int)
    requires Second(o, s1, oB, s2, e2, T2, F2, s3)
    ensures SameTests(Extend(s2, b), Extend(s3, b), e2, T2, F2)
  {
    hide Second, Core, EndOk, LinksOnly, Extend;
    SecondExtend(o, s1, oB, s2, e2, T2, F2, s3, b);
    SecondParts(o, s1, oB, s2, e2, T2, F2, s3);
    LastLinked(s2, T2, F2, s3, b);
    TestsFrom(oB, s2, e2, T2, F2, Extend(s2, b), Extend(s3, b));
  }

  lemma TestsFrom(oB: Origin, s2: Snap, e2: ExpDesc, T2: seq<int>, F2: seq<int>, c2: Code, c3: Code)
    requires Core(oB, s2, e2, T2, F2) && EndOk(oB, s2, e2) && |c2| == |s2.code| && |c3| == |s2.code|
    requires forall i :: 0 <= i < |c3| && i !in T2 && i !in F2 ==> c3[i] == c2[i]
    requires var n := |c3|; n > 0 && c3[n - 1].op.OP_LOADNIL? ==> n - 1 !in T2 && n - 1 !in F2
    ensures SameTests(c2, c3, e2, T2, F2)
  {
    hide Core, EndOk;
    forall j | j in T2 || j in F2 ensures 0 < j < |c2| && c2[j - 1] == c3[j - 1] {
      ListTest(oB, s2, e2, T2, F2, j);
      NotOpen(oB, s2, e2, T2, F2, j - 1);
    }
    EndTest(oB, s2, e2);
    if e2.k.VRELOCABLE? { NotOpen(oB, s2, e2, T2, F2, e2.info); }
    if e2.k.VJMP? { NotOpen(oB, s2, e2, T2, F2, e2.info - 1); }
  }

  /** A list that runs up to the end of the code leaves no LOADNIL there. */
  lemma LastLinked(s2: Snap, T2: seq<int>, F2: seq<int>, s3: Snap, b: int)
    requires LinksOnly(s2.code, s3.code, ToSet(T2) + ToSet(F2))
    ensures var n := |s3.code|; n > 0 && Extend(s3, b)[n - 1].op.OP_LOADNIL? ==> n - 1 !in T2 && n - 1 !in F2
  {
    var n := |s3.code|;
    if n > 0 && (n - 1 in T2 || n - 1 in F2) {
      LinkedJump(s2.code, s3.code, ToSet(T2) + ToSet(F2), n - 1);
    }
  }

  lemma SecondParts(o: Origin, s1: Snap, oB: Origin, s2: Snap, e2: ExpDesc, T2: seq<int>, F2: seq<int>, s3: Snap)
    requires Second(o, s1, oB, s2, e2, T2, F2, s3)
    ensures Core(oB, s2, e2, T2, F2) && EndOk(oB, s2, e2) && LinksOnly(s2.code, s3.code, ToSet(T2) + ToSet(F2))
    ensures |s3.code| == |s2.code|
  {
  }

  lemma ListTest(o: Origin, s: Snap, e: ExpDesc, T: seq<int>, F: seq<int>, j: int)
    requires Core(o, s, e, T, F) && (j in T || j in F)
    ensures 0 < j < |s.code| && IsTest(s.code[j - 1].op)
  {
  }

  lemma EndTest(o: Origin, s: Snap, e: ExpDesc)
    requires EndOk(o, s, e)
    ensures e.k.VRELOCABLE? ==> 0 <= e.info == |s.code| - 1 && !s.code[e.info].op.OP_JMP?
    ensures e.k.VJMP? ==> 1 <= e.info == |s.code| - 1 && !s.code[e.info - 1].op.OP_JMP?
  {
  }

  lemma LinkedJump(c1: Code, c2: Code, P: set<int>, i: int)
    requires LinksOnly(c1, c2, P) && i in P && 0 <= i < |c1|
    ensures c2[i].op.OP_JMP?
  {
  }

  lemma NotOpen(o: Origin, s: Snap, e: ExpDesc, T: seq<int>, F: seq<int>, i: int)
    requires Core(o, s, e, T, F) && 0 <= i < |s.code| && !s.code[i].op.OP_JMP?
    ensures i !in T && i !in F
  {
    if i in T || i in F {
      OpenIsJump(o, s, e, T, F, i);
    }
  }

  /** A good outcome of the second piece is a good outcome of the whole. */
  lemma LiftGood(o: Origin, oB: Origin, cxB: Code, cx: Code, lt: int, J: seq<int>, e2: ExpDesc, T2: seq<int>,
      F2: seq<int>,
                 e: ExpDesc, T: seq<int>, F: seq<int>, K: seq<Value>, R: Regs, R1: Regs, out: Outcome)
    requires oB.nact == o.nact && oB.p == o.p && oB.base.fr == o.base.fr && 0 <= o.nact <= o.base.fr
    requires Kept(R, R1, o.base.fr) && Eval(o.x, o.p, R[..o.nact]) == Eval(oB.x, o.p, R1[..o.nact])
    requires SameTests(cxB, cx, e2, T2, F2) && SameValue(e2, e)
    requires (forall j :: j in T2 ==> j in T) && (forall j :: j in F2 ==> j in F)
    requires Good(oB, cxB, lt, J, e2, T2, F2, K, R1, out)
    ensures Good(o, cx, lt, J, e, T, F, K, R, out)
  {
    hide Eval, BranchOf, Computes;
  }

  lemma KeptLocals(R: Regs, R1: Regs, n: int, nact: int)
    requires Kept(R, R1, n) && 0 <= nact <= n
    ensures R1[..nact] == R[..nact]
  {
  }

  lemma AndOrOut(o: Origin, l: Expr, r: Expr, sense: bool, s1: Snap, e1: ExpDesc, X: seq<int>, s2: Snap, e2: ExpDesc,
      T2: seq<int>, F2: seq<int>,
                 s3: Snap, e3: ExpDesc, T3: seq<int>, F3: seq<int>, K: seq<Value>, R: Regs, b: int, out: Outcome)
    requires o.x == EBin(if sense then AND else OR, l, r)
    requires Branched(o.(x := l), s1, e1, X, sense)
    requires var oB := Origin(s1, o.nact, o.p, r);
      Compiled(oB, s2, e2, T2, F2) && Second(o, s1, oB, s2, e2, T2, F2, s3)
    requires SameValue(e2, e3) && AndOrLists(sense, X, T2, F2, T3, F3)
    requires Input(o, s3, Extend(s3, b), K, R, b)
    requires BranchGood(o.(x := l), Extend(s1, SeqB(s1, s3, b)), s1.lt, s1.J, X, sense, R, out)
    ensures Good(o, Extend(s3, b), s3.lt, s3.J, e3, T3, F3, K, R,
                 SeqOut(Extend(s2, b), K, o.p, Pend(T2, F2, s2.J), End(e2, |s2.code|), |s1.code|, |s3.code| > |s1.code|, s1.J, out))
  {
    hide Run, WF, PrefixOk, Good, Second, Compiled, Branched, Input, AndOrLists, Extend, SeqOut;
    var oB, m := Origin(s1, o.nact, o.p, r), |s1.code|;
    var cB, PB, end, grown := Extend(s2, b), Pend(T2, F2, s2.J), End(e2, |s2.code|), |s3.code| > m;
    InputBounds(o, s3, Extend(s3, b), K, R, b);
    SeqOutCases(cB, K, o.p, PB, end, m, grown, s1.J, out);
    if out.Fall? || (out.Exit? && out.j in s1.J) {
      AndOrBoth(o, l, r, sense, s1, e1, X, s2, e2, T2, F2, s3, e3, T3, F3, K, R, b, out);
    } else if out.Exit? {
      BranchFirst(o, l, s1, e1, X, sense);
      ShortCircuit(o, l, r, sense, s1, X, oB, s2, e2, T2, F2, s3, e3, T3, F3, K, R, b, out);
    } else {
      ErrorGood(o, Extend(s3, b), s3.lt, s3.J, e3, T3, F3, K, R);
    }
  }

  lemma InputBounds(o: Origin, s: Snap, cx: Code, K: seq<Value>, R: Regs, b: int)
    requires Input(o, s, cx, K, R, b)
    ensures 0 <= o.nact <= s.ms <= |R|
  {
  }

  lemma SeqOutCases(cB: Code, K: seq<Value>, p: Prims, PB: set<int>, end: int, m: int, grown: bool, J: seq<int>,
      out: Outcome)
    ensures out.Fall? || (out.Exit? && out.j in J && grown) ==>
      SeqOut(cB, K, p, PB, end, m, grown, J, out) == Run(cB, K, p, PB, end, m, out.regs)
    ensures !out.Fall? && !(out.Exit? && out.j in J && grown) ==> SeqOut(cB, K, p, PB, end, m, grown, J, out) == out
  {
    hide Run;
  }

  /** The second operand is evaluated, and its value is that of the whole. */
  lemma AndOrBoth(o: Origin, l: Expr, r: Expr, sense: bool, s1: Snap, e1: ExpDesc, X: seq<int>, s2: Snap, e2: ExpDesc,
      T2: seq<int>, F2: seq<int>,
                  s3: Snap, e3: ExpDesc, T3: seq<int>, F3: seq<int>, K: seq<Value>, R: Regs, b: int, out: Outcome)
    requires o.x == EBin(if sense then AND else OR, l, r)
    requires Branched(o.(x := l), s1, e1, X, sense)
    requires var oB := Origin(s1, o.nact, o.p, r);
      Compiled(oB, s2, e2, T2, F2) && Second(o, s1, oB, s2, e2, T2, F2, s3)
    requires SameValue(e2, e3) && AndOrLists(sense, X, T2, F2, T3, F3)
    requires Input(o, s3, Extend(s3, b), K, R, b) && 0 <= o.nact <= |R|
    requires BranchGood(o.(x := l), Extend(s1, SeqB(s1, s3, b)), s1.lt, s1.J, X, sense, R, out)
    requires out.Fall? || (out.Exit? && out.j in s1.J)
    ensures var outB := Run(Extend(s2, b), K, o.p, Pend(T2, F2, s2.J), End(e2, |s2.code|), |s1.code|, out.regs);
      && Good(o, Extend(s3, b), s3.lt, s3.J, e3, T3, F3, K, R, outB)
      && (out.Exit? && |s3.code| <= |s1.code| ==> Good(o, Extend(s3, b), s3.lt, s3.J, e3, T3, F3, K, R, out))
  {
    hide Run, WF, PrefixOk, Good, BranchGood, Sem, KindOk, EndOk, Second, Input, Extend, SeqB, Entry, BranchAt;
    var oB, m, R1 := Origin(s1, o.nact, o.p, r), |s1.code|, out.regs;
    BranchValue(o, l, s1, e1, X, sense, Extend(s1, SeqB(s1, s3, b)), R, out);
    assert 0 <= o.nact <= o.base.fr && s1.fr == o.base.fr && SnapOk(s1);
    hide Core, Branched, SnapOk;
    KeptLocals(R, R1, o.base.fr, o.nact);
    SecondInput(o, s1, oB, s2, e2, T2, F2, s3, K, R, R1, b);
    var outB := Run(Extend(s2, b), K, o.p, Pend(T2, F2, s2.J), End(e2, |s2.code|), m, R1);
    SecondGood(oB, s2, e2, T2, F2, K, R1, b);
    SecondSameTests(o, s1, oB, s2, e2, T2, F2, s3, b);
    SecondKeeps(o, s1, oB, s2, e2, T2, F2, s3);
    BinaryValue(o, l, r, sense, R, R1);
    LiftGood(o, oB, Extend(s2, b), Extend(s3, b), s3.lt, s3.J, e2, T2, F2, e3, T3, F3, K, R, R1, outB);
    if out.Exit? && |s3.code| <= m {
      NotGrown(o, s1, oB, s2, e2, T2, F2, s3, b);
      RunEnd(Extend(s2, b), K, o.p, Pend(T2, F2, s2.J), m, R1);
      FallToExit(o, Extend(s3, b), s3.lt, s3.J, e3, T3, F3, K, R, out.j, R1, out.tested);
    }
  }

  lemma BinaryValue(o: Origin, l: Expr, r: Expr, sense: bool, R: Regs, R1: Regs)
    requires o.x == EBin(if sense then AND else OR, l, r) && 0 <= o.nact <= |R| && |R1| == |R|
    requires R1[..o.nact] == R[..o.nact]
    requires var res := Eval(l, o.p, R[..o.nact]); res.Ok? && Falsy(res.v) != sense
    ensures Eval(o.x, o.p, R[..o.nact]) == Eval(r, o.p, R1[..o.nact])
  {
  }

  lemma SecondKeeps(o: Origin, s1: Snap, oB: Origin, s2: Snap, e2: ExpDesc, T2: seq<int>, F2: seq<int>, s3: Snap)
    requires Second(o, s1, oB, s2, e2, T2, F2, s3)
    ensures s3.J == s2.J && s3.lt == s2.lt
  {
  }

  lemma NotGrown(o: Origin, s1: Snap, oB: Origin, s2: Snap, e2: ExpDesc, T2: seq<int>, F2: seq<int>, s3: Snap, b: int)
    requires SnapOk(s1) && Second(o, s1, oB, s2, e2, T2, F2, s3) && |s3.code| <= |s1.code|
    ensures |s3.code| == |s1.code| && s3.J == s1.J && T2 == [] && F2 == [] && End(e2, |s2.code|) == |s1.code|
    ensures !e2.k.VRELOCABLE? && !e2.k.VJMP?
  {
    SeqPrefix(o, s1, oB, s2, e2, T2, F2, s3, b);
  }

  lemma SecondGood(o: Origin, s: Snap, e: ExpDesc, T: seq<int>, F: seq<int>, K: seq<Value>, R: Regs, b: int)
    requires Compiled(o, s, e, T, F) && Input(o, s, Extend(s, b), K, R, b)
    ensures 0 <= o.nact <= |R|
    ensures Good(o, Extend(s, b), s.lt, s.J, e, T, F, K, R, Run(Extend(s, b), K, o.p, Pend(T, F, s.J), End(e, |s.code|), Pc0(o), R))
  {
    hide Run, Good, Core, KindOk;
    assert SemAt(o, s, e, T, F, K, R, b);
    assert |Extend(s, b)| == |s.code|;
  }

  /** The first operand does not decide: its registers go on into the second. */
  lemma BranchValue(o: Origin, l: Expr, s1: Snap, e1: ExpDesc, X: seq<int>, sense: bool, cx: Code, R: Regs,
      out: Outcome)
    requires Branched(o.(x := l), s1, e1, X, sense) && 0 <= o.nact <= |R| && |cx| == |s1.code|
    requires BranchGood(o.(x := l), cx, s1.lt, s1.J, X, sense, R, out) && (out.Fall? || (out.Exit? && out.j in s1.J))
    ensures var res := Eval(l, o.p, R[..o.nact]); res.Ok? && Falsy(res.v) != sense
    ensures Kept(R, out.regs, o.base.fr) && (s1.lt < |s1.code| ==> Entry(cx, |s1.code|, s1.lt, o.nact, out.regs))
  {
    hide Eval, WF, PrefixOk, Chain, Entry;
    assert out.Exit? ==> s1.J != [] && s1.lt == |s1.code|;
    assert Disjoint(X, s1.J);
  }

  lemma ErrorGood(o: Origin, cx: Code, lt: int, J: seq<int>, e: ExpDesc, T: seq<int>, F: seq<int>, K: seq<Value>,
      R: Regs)
    requires 0 <= o.nact <= |R| && Eval(o.x, o.p, R[..o.nact]) == Err
    ensures Good(o, cx, lt, J, e, T, F, K, R, Error)
  {
  }

  /** A value that needs no code is as good at a jump to here as at the end. */
  lemma FallToExit(o: Origin, cx: Code, lt: int, J: seq<int>, e: ExpDesc, T: seq<int>, F: seq<int>, K: seq<Value>,
      R: Regs, j: int, R1: Regs, tested: bool)
    requires 0 <= o.nact <= |R| && !e.k.VRELOCABLE? && !e.k.VJMP? && j in J
    requires Good(o, cx, lt, J, e, T, F, K, R, Fall(R1))
    ensures Good(o, cx, lt, J, e, T, F, K, R, Exit(j, R1, tested))
  {
  }

  /** The first operand decides. */
  lemma ShortCircuit(o: Origin, l: Expr, r: Expr, sense: bool, s1: Snap, X: seq<int>, oB: Origin, s2: Snap,
      e2: ExpDesc, T2: seq<int>, F2: seq<int>,
                     s3: Snap, e3: ExpDesc, T3: seq<int>, F3: seq<int>, K: seq<Value>, R: Regs, b: int, out: Outcome)
    requires o.x == EBin(if sense then AND else OR, l, r) && 0 <= o.nact <= |R|
    requires First(o, s1, X) && Second(o, s1, oB, s2, e2, T2, F2, s3)
    requires AndOrLists(sense, X, T2, F2, T3, F3)
    requires out.Exit? && out.j !in s1.J
    requires BranchGood(o.(x := l), Extend(s1, SeqB(s1, s3, b)), s1.lt, s1.J, X, sense, R, out)
    ensures Good(o, Extend(s3, b), s3.lt, s3.J, e3, T3, F3, K, R, out)
  {
    hide WF, PrefixOk, Core, EndOk, Second;
    var j, m, b1 := out.j, |s1.code|, SeqB(s1, s3, b);
    SeqPrefix(o, s1, oB, s2, e2, T2, F2, s3, b);
    assert Extend(s3, b)[j - 1] == Extend(s3, b)[..m][j - 1];
    var cx1 := Extend(s1, b1);
    assert cx1[j - 1] == s1.code[j - 1] by {
      assert !s1.code[j - 1].op.OP_LOADNIL?;
    }
    assert !s1.code[j - 1].op.OP_JMP?;
    assert j - 1 !in s1.J;
    assert Extend(s3, b)[j - 1] == cx1[j - 1];
  }

  lemma AndOrAt(o: Origin, l: Expr, r: Expr, sense: bool, s1: Snap, e1: ExpDesc, X: seq<int>, s2: Snap, e2: ExpDesc,
      T2: seq<int>, F2: seq<int>,
                s3: Snap, e3: ExpDesc, T3: seq<int>, F3: seq<int>, K: seq<Value>, R: Regs, b: int)
    requires o.x == EBin(if sense then AND else OR, l, r)
    requires Branched(o.(x := l), s1, e1, X, sense)
    requires var oB := Origin(s1, o.nact, o.p, r);
      Compiled(oB, s2, e2, T2, F2) && Second(o, s1, oB, s2, e2, T2, F2, s3)
    requires SameValue(e2, e3) && AndOrLists(sense, X, T2, F2, T3, F3)
    requires Input(o, s3, Extend(s3, b), K, R, b)
    ensures SemAt(o, s3, e3, T3, F3, K, R, b)
  {
    hide Run, Eval, WF, PrefixOk, Good, BranchGood, SnapOk, KindOk, Sem, Second, First, Chain, SeqOut;
    var oA, oB := o.(x := l), Origin(s1, o.nact, o.p, r);
    var m, b1 := |s1.code|, SeqB(s1, s3, b);
    BranchFirst(o, l, s1, e1, X, sense);
    SeqInput(o, s1, X, oB, s2, e2, T2, F2, s3, K, R, b);
    assert BranchAt(oA, s1, X, sense, K, R, b1);
    var out := Run(Extend(s1, b1), K, o.p, ToSet(X) + ToSet(s1.J), m, Pc0(o), R);
    BranchNotWrong(oA, Extend(s1, b1), s1.lt, s1.J, X, sense, R, out);
    SeqRun(o, s1, X, oB, s2, e2, T2, F2, s3, K, R, b);
    SecondKeeps(o, s1, oB, s2, e2, T2, F2, s3);
    SecondParts(o, s1, oB, s2, e2, T2, F2, s3);
    assert Pend(T3, F3, s3.J) == ToSet(X) + Pend(T2, F2, s2.J);
    assert End(e3, |Extend(s3, b)|) == End(e2, |s2.code|);
    AndOrOut(o, l, r, sense, s1, e1, X, s2, e2, T2, F2, s3, e3, T3, F3, K, R, b, out);
  }

  lemma BranchNotWrong(o: Origin, cx: Code, lt: int, J: seq<int>, X: seq<int>, sense: bool, R: Regs, out: Outcome)
    requires 0 <= o.nact <= |R| && BranchGood(o, cx, lt, J, X, sense, R, out)
    ensures !out.Wrong?
  {
  }

  lemma BranchFirst(o: Origin, l: Expr, s1: Snap, e1: ExpDesc, X: seq<int>, sense: bool)
    requires Branched(o.(x := l), s1, e1, X, sense)
    ensures First(o, s1, X)
  {
    var oA := o.(x := l);
    forall j | j in X
      ensures Pc0(o) < j < |s1.code| && s1.code[j].op.OP_JMP? && IsTest(s1.code[j - 1].op) && j !in s1.J
    {
      OpenIsJump(oA, s1, e1, if sense then [] else X, if sense then X else [], j);
    }
  }

  // ----- the lists of the whole -----

  /** The jumps that leave the first piece are untouched by the second. */
  lemma FirstListKept(o: Origin, s1: Snap, X: seq<int>, h: int, oB: Origin, s2: Snap, e2: ExpDesc, T2: seq<int>,
      F2: seq<int>)
    requires First(o, s1, X) && Second(o, s1, oB, s2, e2, T2, F2, s2)
    requires Chain(s1.code, h, X)
    ensures Chain(s2.code, h, X) && ExitList(s2.code, Pc0(o), X)
  {
    hide Core, EndOk, PrefixOk;
    var m, nb := |s1.code|, NeutralB(s2);
    ExtendNeutral(s2);
    SeqPrefix(o, s1, oB, s2, e2, T2, F2, s2, nb);
    var b1 := SeqB(s1, s2, nb);
    forall j | j in X ensures s2.code[j] == s1.code[j] && s2.code[j - 1] == s1.code[j - 1] {
      assert s2.code[j] == s2.code[..m][j] && s2.code[j - 1] == s2.code[..m][j - 1];
      assert Extend(s1, b1)[j] == s1.code[j] && Extend(s1, b1)[j - 1] == s1.code[j - 1];
      assert !s1.code[j - 1].op.OP_JMP? && j - 1 !in s1.J;
    }
    ChainKeep(s1.code, s2.code, h, X);
  }

  lemma LinkKeeps(code: Code, h1: int, s1: seq<int>, h2: int, h: int, s: seq<int>, pc0: int, U: seq<int>)
    requires Chain(code, h1, s1) && Chain(code, h, s) && Disjoint(s, s1)
    requires ExitList(code, pc0, U) && WF(code)
    ensures Chain(Link(code, s1, h2), h, s) && ExitList(Link(code, s1, h2), pc0, U)
  {
    if |s1| > 0 {
      assert s1[|s1| - 1] in s1;
      ChainMember(code, h1, s1, s1[|s1| - 1]);
    }
    ChainKeep(code, Link(code, s1, h2), h, s);
  }

  lemma LinkLinksOnly(code: Code, h1: int, s1: seq<int>, h2: int, P: set<int>)
    requires Chain(code, h1, s1)
    requires forall j :: j in s1 ==> j in P
    requires forall j :: j in P && 0 <= j < |code| ==> code[j].op.OP_JMP?
    ensures LinksOnly(code, Link(code, s1, h2), P)
  {
    if |s1| > 0 {
      assert s1[|s1| - 1] in s1;
      ChainMember(code, h1, s1, s1[|s1| - 1]);
    }
  }

  /** luaK_posfix for `and` and `or`: the new state and descriptor. */
  ghost predicate AndOrStep(sense: bool, X: seq<int>, hX: int, s2: Snap, e2: ExpDesc, T2: seq<int>, F2: seq<int>,
      s3: Snap, e3: ExpDesc) {
    var L, hL := if sense then F2 else T2, if sense then e2.f else e2.t;
    var h := if |L| == 0 then hX else hL;
    && s3 == s2.(code := Link(s2.code, L, hX))
    && e3 == if sense then e2.(f := h) else e2.(t := h)
  }

  lemma AndOrChains(o: Origin, s1: Snap, X: seq<int>, hX: int, sense: bool, oB: Origin, s2: Snap, e2: ExpDesc,
      T2: seq<int>, F2: seq<int>,
                    s3: Snap, e3: ExpDesc, T3: seq<int>, F3: seq<int>)
    requires First(o, s1, X) && Second(o, s1, oB, s2, e2, T2, F2, s2) && Chain(s1.code, hX, X)
    requires AndOrStep(sense, X, hX, s2, e2, T2, F2, s3, e3)
    requires AndOrLists(sense, X, T2, F2, T3, F3)
    ensures Chain(s3.code, e3.t, T3) && Chain(s3.code, e3.f, F3) && Disjoint(T3, F3)
    ensures ExitList(s3.code, Pc0(o), T3) && ExitList(s3.code, Pc0(o), F3) && WF(s3.code)
  {
    hide EndOk, PrefixOk, Extend, Discharge, Link;
    var pc0 := Pc0(o);
    var L, hL, U, hU :=
      if sense then F2 else T2, if sense then e2.f else e2.t, if sense then T2 else F2, if sense then e2.t else e2.f;
    FirstListKept(o, s1, X, hX, oB, s2, e2, T2, F2);
    assert Disjoint(L, X) && Disjoint(U, L) && Disjoint(U, X);
    LinkChain(s2.code, hL, L, hX, X);
    LinkKeeps(s2.code, hL, L, hX, hU, U, pc0, T2);
    LinkKeeps(s2.code, hL, L, hX, hU, U, pc0, F2);
    LinkKeeps(s2.code, hL, L, hX, hU, U, pc0, X);
  }

  lemma AndOrCore(o: Origin, l: Expr, r: Expr, sense: bool, s1: Snap, e1: ExpDesc, X: seq<int>, s2: Snap, e2: ExpDesc,
      T2: seq<int>, F2: seq<int>,
                  s3: Snap, e3: ExpDesc, T3: seq<int>, F3: seq<int>)
    requires Branched(o.(x := l), s1, e1, X, sense)
    requires Compiled(Origin(s1, o.nact, o.p, r), s2, e2, T2, F2)
    requires AndOrStep(sense, X, if sense then e1.f else e1.t, s2, e2, T2, F2, s3, e3)
    requires AndOrLists(sense, X, T2, F2, T3, F3)
    ensures Core(o, s3, e3, T3, F3)
    ensures Second(o, s1, Origin(s1, o.nact, o.p, r), s2, e2, T2, F2, s3)
  {
    var oB := Origin(s1, o.nact, o.p, r);
    EndFromKind(oB, s2, e2, T2, F2);
    hide Sem, KindOk, EndOk, PrefixOk, Extend, Discharge, Link, Chain, WF;
    BranchFirst(o, l, s1, e1, X, sense);
    AndOrSecond(o, s1, oB, s2, e2, T2, F2, if sense then F2 else T2, if sense then e2.f else e2.t,
      if sense then e1.f else e1.t, s3);
    AndOrChains(o, s1, X, if sense then e1.f else e1.t, sense, oB, s2, e2, T2, F2, s3, e3, T3, F3);
    SeqPrefixOk(o, s1, X, oB, s2, e2, T2, F2, s3);
    AndOrJ(o, s1, X, oB, s2, e2, T2, F2, s3);
    AndOrSnap(o, s1, oB, s2, e2, T2, F2, s3);
  }

  lemma AndOrSnap(o: Origin, s1: Snap, oB: Origin, s2: Snap, e2: ExpDesc, T2: seq<int>, F2: seq<int>, s3: Snap)
    requires Second(o, s1, oB, s2, e2, T2, F2, s3) && WF(s3.code) && s3.ms == s2.ms
    ensures SnapOk(s3)
  {
    hide WF, PrefixOk, EndOk;
    forall j | j in s3.J ensures 0 <= j < |s3.code| && s3.code[j].op.OP_JMP? {
      assert s2.code[j].op.OP_JMP?;
    }
  }

  lemma EndFromKind(o: Origin, s: Snap, e: ExpDesc, T: seq<int>, F: seq<int>)
    requires KindOk(o, s, e, T, F)
    ensures EndOk(o, s, e)
  {
  }

  lemma AndOrSecond(o: Origin, s1: Snap, oB: Origin, s2: Snap, e2: ExpDesc, T2: seq<int>, F2: seq<int>, L: seq<int>,
      hL: int, hX: int, s3: Snap)
    requires oB.base == s1 && oB.nact == o.nact && oB.p == o.p
    requires Core(oB, s2, e2, T2, F2) && EndOk(oB, s2, e2)
    requires (L == T2 && hL == e2.t) || (L == F2 && hL == e2.f)
    requires s3 == s2.(code := Link(s2.code, L, hX))
    ensures Second(o, s1, oB, s2, e2, T2, F2, s3) && Second(o, s1, oB, s2, e2, T2, F2, s2)
  {
    hide EndOk, PrefixOk, WF;
    var P := ToSet(T2) + ToSet(F2);
    forall j | j in P ensures s2.code[j].op.OP_JMP? {
      OpenIsJump(oB, s2, e2, T2, F2, j);
    }
    LinkLinksOnly(s2.code, hL, L, hX, P);
  }

  lemma AndOrJ(o: Origin, s1: Snap, X: seq<int>, oB: Origin, s2: Snap, e2: ExpDesc, T2: seq<int>, F2: seq<int>,
      s3: Snap)
    requires First(o, s1, X) && Second(o, s1, oB, s2, e2, T2, F2, s3)
    ensures |s3.code| > Pc0(o) ==> In(s3.J, Pc0(o), |s3.code|)
    ensures Disjoint(X, s3.J) && Disjoint(T2, s3.J) && Disjoint(F2, s3.J)
    ensures |s3.code| == Pc0(o) ==> X == [] && T2 == [] && F2 == []
  {
    SeqPrefix(o, s1, oB, s2, e2, T2, F2, s3, 0);
    assert |X| > 0 ==> X[0] in X && Pc0(o) < X[0] < |s1.code|;
  }

  lemma AndOrKind(o: Origin, l: Expr, r: Expr, sense: bool, s1: Snap, e1: ExpDesc, X: seq<int>, s2: Snap, e2: ExpDesc,
      T2: seq<int>, F2: seq<int>,
                  s3: Snap, e3: ExpDesc, T3: seq<int>, F3: seq<int>)
    requires Branched(o.(x := l), s1, e1, X, sense)
    requires Compiled(Origin(s1, o.nact, o.p, r), s2, e2, T2, F2)
    requires Second(o, s1, Origin(s1, o.nact, o.p, r), s2, e2, T2, F2, s3)
    requires AndOrStep(sense, X, if sense then e1.f else e1.t, s2, e2, T2, F2, s3, e3)
    requires AndOrLists(sense, X, T2, F2, T3, F3)
    ensures KindOk(o, s3, e3, T3, F3)
  {
    hide Core, Sem, Second, Link, Branched, KindOk, AndOrLists;
    var oB := Origin(s1, o.nact, o.p, r);
    BranchFirst(o, l, s1, e1, X, sense);
    BranchEnds(o, l, s1, e1, X, sense);
    if e2.k.VRELOCABLE? || e2.k.VJMP? {
      AndOrOpen(o, s1, X, oB, s2, e2, T2, F2, s3, e3, T3, F3) by { JoinedLists(o, s1, X, oB, sense, s2, e2, T2, F2, s3, T3, F3); }
    } else {
      AndOrEnds(o, s1, X, oB, s2, e2, T2, F2, s3);
      AndOrValue(o, s1, oB, s2, e2, T2, F2, s3, e3, T3, F3);
    }
  }

  lemma JoinedLists(o: Origin, s1: Snap, X: seq<int>, oB: Origin, sense: bool, s2: Snap, e2: ExpDesc, T2: seq<int>,
      F2: seq<int>, s3: Snap, T3: seq<int>, F3: seq<int>)
    requires First(o, s1, X) && AndOrLists(sense, X, T2, F2, T3, F3)
    ensures forall j :: j in T3 || j in F3 ==> j in T2 || j in F2 || j < |s1.code|
  {
    hide PrefixOk, WF;
  }

  /** A comparison or relocatable second operand stays one. */
  lemma AndOrOpen(o: Origin, s1: Snap, X: seq<int>, oB: Origin, s2: Snap, e2: ExpDesc, T2: seq<int>, F2: seq<int>,
      s3: Snap, e3: ExpDesc, T3: seq<int>, F3: seq<int>)
    requires First(o, s1, X) && Second(o, s1, oB, s2, e2, T2, F2, s3) && KindOk(oB, s2, e2, T2, F2)
    requires Pc0(oB) == |s1.code|
    requires (e2.k.VRELOCABLE? || e2.k.VJMP?) && SameValue(e2, e3) && s3.J == s2.J && s3.fr == s2.fr
    requires s1.fr == o.base.fr && oB.base == s1
    requires forall j :: j in T3 || j in F3 ==> j in T2 || j in F2 || j < |s1.code|
    ensures KindOk(o, s3, e3, T3, F3)
  {
    hide First, Second, Core, EndOk, LinksOnly, WF, Chain;
    SecondParts(o, s1, oB, s2, e2, T2, F2, s3);
    FirstStart(o, s1, X);
    UndecidedKept(oB, s2, e2, T2, F2, s3);
    LastKept(oB, s2, e2, T2, F2, s3);
  }

  lemma FirstStart(o: Origin, s1: Snap, X: seq<int>)
    requires First(o, s1, X)
    ensures Pc0(o) <= |s1.code|
  {
  }

  /** The open jump of a comparison is in no list, so it has not been linked. */
  lemma LastKept(oB: Origin, s2: Snap, e2: ExpDesc, T2: seq<int>, F2: seq<int>, s3: Snap)
    requires KindOk(oB, s2, e2, T2, F2) && LinksOnly(s2.code, s3.code, ToSet(T2) + ToSet(F2)) && |s3.code| == |s2.code|
    ensures e2.k.VJMP? ==> s3.code[|s2.code| - 1] == s2.code[|s2.code| - 1]
  {
  }

  /** Where the joined code ends. */
  lemma AndOrEnds(o: Origin, s1: Snap, X: seq<int>, oB: Origin, s2: Snap, e2: ExpDesc, T2: seq<int>, F2: seq<int>,
      s3: Snap)
    requires First(o, s1, X) && Second(o, s1, oB, s2, e2, T2, F2, s3) && EndsInJump(s1, Pc0(o))
    ensures EndsInJump(s2, |s1.code|) ==> EndsInJump(s3, Pc0(o))
  {
    SecondParts(o, s1, oB, s2, e2, T2, F2, s3);
    FirstStart(o, s1, X);
    SeqPrefix(o, s1, oB, s2, e2, T2, F2, s3, 0) by { FirstSnap(o, s1, X); }
    hide Core, EndOk;
    if |s3.code| == |s1.code| {
      JumpKept(o, s1, X, oB, s2, e2, T2, F2, s3);
    } else {
      hide First, Second;
      LastJumpKept(s2, T2, F2, s3);
    }
  }

  lemma FirstSnap(o: Origin, s1: Snap, X: seq<int>)
    requires First(o, s1, X)
    ensures SnapOk(s1)
  {
  }

  lemma AndOrValue(o: Origin, s1: Snap, oB: Origin, s2: Snap, e2: ExpDesc, T2: seq<int>, F2: seq<int>, s3: Snap,
      e3: ExpDesc, T3: seq<int>, F3: seq<int>)
    requires KindOk(oB, s2, e2, T2, F2) && oB.base == s1 && oB.nact == o.nact && s1.fr == o.base.fr
    requires !e2.k.VRELOCABLE? && !e2.k.VJMP? && SameValue(e2, e3) && s3.k == s2.k && s3.fr == s2.fr
    requires EndsInJump(s2, |s1.code|) ==> EndsInJump(s3, Pc0(o))
    ensures KindOk(o, s3, e3, T3, F3)
  {
    hide EndsInJump;
  }

  lemma BranchEnds(o: Origin, l: Expr, s1: Snap, e1: ExpDesc, X: seq<int>, sense: bool)
    requires Branched(o.(x := l), s1, e1, X, sense)
    ensures s1.fr == o.base.fr && EndsInJump(s1, Pc0(o))
  {
  }

  lemma LastJumpKept(s2: Snap, T2: seq<int>, F2: seq<int>, s3: Snap)
    requires LinksOnly(s2.code, s3.code, ToSet(T2) + ToSet(F2)) && |s2.code| > 0
    ensures s2.code[|s2.code| - 1].op.OP_JMP? ==> s3.code[|s2.code| - 1].op.OP_JMP?
  {
  }

  lemma JumpKept(o: Origin, s1: Snap, X: seq<int>, oB: Origin, s2: Snap, e2: ExpDesc, T2: seq<int>, F2: seq<int>,
      s3: Snap)
    requires First(o, s1, X) && Second(o, s1, oB, s2, e2, T2, F2, s3)
    requires |s3.code| == |s1.code| && EndsInJump(s1, Pc0(o))
    ensures EndsInJump(s3, Pc0(o))
  {
    hide Core, EndOk, PrefixOk, WF;
    var n, nb := |s3.code|, NeutralB(s3);
    ExtendNeutral(s3);
    SeqPrefix(o, s1, oB, s2, e2, T2, F2, s3, nb);
    assert s3.code == s3.code[..n];
  }

  lemma UndecidedKept(oB: Origin, s2: Snap, e2: ExpDesc, T2: seq<int>, F2: seq<int>, s3: Snap)
    requires Core(oB, s2, e2, T2, F2) && KindOk(oB, s2, e2, T2, F2) && (e2.k.VRELOCABLE? || e2.k.VJMP?)
    requires LinksOnly(s2.code, s3.code, ToSet(T2) + ToSet(F2))
    ensures s3.code[|s3.code| - 1] == s2.code[|s2.code| - 1]
    ensures e2.k.VJMP? ==> s3.code[|s3.code| - 2] == s2.code[|s2.code| - 2]
  {
    var n := |s2.code|;
    if e2.k.VJMP? {
      NotOpen(oB, s2, e2, T2, F2, n - 2);
    } else {
      NotOpen(oB, s2, e2, T2, F2, n - 1);
    }
  }

  /** `l and r`, `l or r`: the second operand's descriptor, with the first one's exits added. */
  lemma AndOr(o: Origin, l: Expr, r: Expr, sense: bool, s1: Snap, e1: ExpDesc, X: seq<int>, s2: Snap, e2: ExpDesc,
      T2: seq<int>, F2: seq<int>,
              s3: Snap, e3: ExpDesc, T3: seq<int>, F3: seq<int>)
    requires o.x == EBin(if sense then AND else OR, l, r)
    requires Branched(o.(x := l), s1, e1, X, sense)
    requires Compiled(Origin(s1, o.nact, o.p, r), s2, e2, T2, F2)
    requires AndOrStep(sense, X, if sense then e1.f else e1.t, s2, e2, T2, F2, s3, e3)
    requires AndOrLists(sense, X, T2, F2, T3, F3)
    ensures Compiled(o, s3, e3, T3, F3)
  {
    AndOrCore(o, l, r, sense, s1, e1, X, s2, e2, T2, F2, s3, e3, T3, F3);
    AndOrKind(o, l, r, sense, s1, e1, X, s2, e2, T2, F2, s3, e3, T3, F3);
    hide Core, KindOk, Branched, Compiled, Input, Run, Good, Second;
    forall K: seq<Value>, R: Regs, b: int ensures SemAt(o, s3, e3, T3, F3, K, R, b) {
      if Input(o, s3, Extend(s3, b), K, R, b) {
        AndOrAt(o, l, r, sense, s1, e1, X, s2, e2, T2, F2, s3, e3, T3, F3, K, R, b);
      }
    }
  }
}
