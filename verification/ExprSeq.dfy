/** Two pieces of code one after the other. */
module ExprSeq {
  import opened LuaVM
  import opened JumpLists
  import opened CodeSem
  import opened ExprSpec
  import opened ExprLemmas
  import opened ExprOps

  /** c2 is c1 except for the links of pending jumps. */
  ghost predicate LinksOnly(c1: Code, c2: Code, P: set<int>) {
    && |c1| == |c2|
    && forall i :: 0 <= i < |c1| ==> if i in P then c1[i].op.OP_JMP? && c2[i].op.OP_JMP? else c1[i] == c2[i]
  }

  lemma LinksSim(c1: Code, c2: Code, P: set<int>, lo: int, hi: int)
    requires LinksOnly(c1, c2, P) && 0 <= lo <= hi <= |c1|
    ensures CodeSim(c1, c2, P, lo, hi)
  {
    forall i | lo <= i < hi ensures SimAt(c1, c2, P, i) { }
  }

  /** The structure of the first piece: it ends at s1 with the pending lists X and s1.J. */
  ghost predicate First(o: Origin, s1: Snap, X: seq<int>) {
    && Pc0(o) <= |s1.code| && SnapOk(o.base) && SnapOk(s1) && PrefixOk(o.base, s1) && 0 <= o.nact <= s1.ms
    && (forall j :: j in X ==>
      Pc0(o) < j < |s1.code| && s1.code[j].op.OP_JMP? && IsTest(s1.code[j - 1].op) && j !in s1.J)
    && (|s1.code| > Pc0(o) ==> In(s1.J, Pc0(o), |s1.code|))
  }

  /** The second piece starts where the first one ends; s3 is its end, with some links redirected. */
  ghost predicate Second(o: Origin, s1: Snap, oB: Origin, s2: Snap, e2: ExpDesc, T2: seq<int>, F2: seq<int>, s3: Snap) {
    && oB.base == s1 && oB.nact == o.nact && oB.p == o.p
    && Core(oB, s2, e2, T2, F2) && EndOk(oB, s2, e2)
    && LinksOnly(s2.code, s3.code, ToSet(T2) + ToSet(F2))
    && s3.J == s2.J && s3.lt == s2.lt && s3.fr == s2.fr && s2.k <= s3.k && s2.ms <= s3.ms
  }

  /** How far the second piece, or what follows, has widened the LOADNIL that ends the first. */
  function SeqB(s1: Snap, s3: Snap, b: int): int {
    if |s3.code| > |s1.code| then LastB(s3.code, |s1.code|)
    else if |s3.code| == |s1.code| then LastB(Extend(s3, b), |s1.code|)
    else 0
  }

  /** Whether grown or not, the first piece sits discharged, or as it was, in the whole. */
  lemma SeqPrefix(o: Origin, s1: Snap, oB: Origin, s2: Snap, e2: ExpDesc, T2: seq<int>, F2: seq<int>, s3: Snap, b: int)
    requires SnapOk(s1) && Second(o, s1, oB, s2, e2, T2, F2, s3)
    ensures var m := |s1.code|;
      && m <= |s3.code|
      && Extend(s3, b)[..m] == Before(s1, |s3.code| > m, SeqB(s1, s3, b))
      && (|s3.code| == m ==> s3.J == s1.J && T2 == [] && F2 == [])
  {
    var m := |s1.code|;
    forall j | j in T2 || j in F2 ensures m < j { }
    if |s3.code| > m {
      assert s3.code[..m] == s2.code[..m];
      assert Extend(s3, b)[..m] == s3.code[..m];
      assert m > 0 ==> s3.code[m - 1] == s2.code[m - 1];
    } else {
      assert s3.code == s2.code == s2.code[..m];
      assert Extend(s3, b)[..m] == Extend(s3, b);
    }
  }

  lemma SeqInput(o: Origin, s1: Snap, X: seq<int>, oB: Origin, s2: Snap, e2: ExpDesc, T2: seq<int>, F2: seq<int>,
      s3: Snap, K: seq<Value>, R: Regs, b: int)
    requires First(o, s1, X) && Second(o, s1, oB, s2, e2, T2, F2, s3)
    requires Input(o, s3, Extend(s3, b), K, R, b)
    ensures var b1 := SeqB(s1, s3, b); Input(o, s1, Extend(s1, b1), K, R, b1)
  {
    hide Core, EndOk, WF;
    var m, b1, pc0 := |s1.code|, SeqB(s1, s3, b), Pc0(o);
    SeqFacts(o, s1, oB, s2, e2, T2, F2, s3, b);
    SeqPrefix(o, s1, oB, s2, e2, T2, F2, s3, b);
    if pc0 > 0 {
      PrefixNoTest(o, s1);
      assert Extend(s3, b)[pc0 - 1] == Extend(s3, b)[..m][pc0 - 1];
    }
  }

  lemma SeqFacts(o: Origin, s1: Snap, oB: Origin, s2: Snap, e2: ExpDesc, T2: seq<int>, F2: seq<int>, s3: Snap, b: int)
    requires SnapOk(s1) && Second(o, s1, oB, s2, e2, T2, F2, s3)
    ensures var b1 := SeqB(s1, s3, b);
      && s1.k <= s3.k && s1.ms <= s3.ms && s1.lt <= s3.lt
      && (Extend(s1, b1) == s1.code || b1 < s3.ms || (b1 == b && Extend(s3, b) != s3.code))
  {
    var m := |s1.code|;
    if m > 0 {
      assert |s3.code| > m ==> s3.code[m - 1] == s2.code[m - 1] by {
        forall j | j in T2 || j in F2 ensures m < j { }
      }
    }
  }

  /** Where the run goes: falling out of the first piece, and its jumps to here,
      lead into the second; its other exits stay exits. */
  function SeqOut(cB: Code, K: seq<Value>, p: Prims, PB: set<int>, end: int, m: int, grown: bool, J: seq<int>,
      out: Outcome): Outcome {
    match out
    case Fall(R) => Run(cB, K, p, PB, end, m, R)
    case Exit(j, R, tested) => if j in J && grown then Run(cB, K, p, PB, end, m, R) else out
    case _ => out
  }

  lemma SeqRun(o: Origin, s1: Snap, X: seq<int>, oB: Origin, s2: Snap, e2: ExpDesc, T2: seq<int>, F2: seq<int>,
      s3: Snap, K: seq<Value>, R: Regs, b: int)
    requires First(o, s1, X) && Second(o, s1, oB, s2, e2, T2, F2, s3)
    requires !Run(Extend(s1, SeqB(s1, s3, b)), K, o.p, ToSet(X) + ToSet(s1.J), |s1.code|, Pc0(o), R).Wrong?
    ensures var m, PB, end := |s1.code|, Pend(T2, F2, s2.J), End(e2, |s2.code|);
      Run(Extend(s3, b), K, o.p, ToSet(X) + PB, end, Pc0(o), R)
      == SeqOut(Extend(s2, b), K, o.p, PB, end, m, |s3.code| > m, s1.J,
                Run(Extend(s1, SeqB(s1, s3, b)), K, o.p, ToSet(X) + ToSet(s1.J), m, Pc0(o), R))
  {
    hide Run;
    var m, PB, end, pc0 := |s1.code|, Pend(T2, F2, s2.J), End(e2, |s2.code|), Pc0(o);
    var cx1, cx3, P3 := Extend(s1, SeqB(s1, s3, b)), Extend(s3, b), ToSet(X) + PB;
    var out := Run(cx1, K, o.p, ToSet(X) + ToSet(s1.J), m, pc0, R);
    SeqPrefix(o, s1, oB, s2, e2, T2, F2, s3, b);
    if |s3.code| > m {
      SeqGrown(o, s1, X, oB, s2, e2, T2, F2, s3, K, R, b);
      if out.Fall? || (out.Exit? && out.j in s1.J) {
        SeqTail(o, s1, X, oB, s2, e2, T2, F2, s3, K, out.regs, b);
      }
    } else {
      assert cx3 == cx3[..m] == cx1 && end == m;
      assert P3 == ToSet(X) + ToSet(s1.J);
      if out.Fall? {
        RunEnd(Extend(s2, b), K, o.p, PB, m, out.regs);
      }
    }
  }

  lemma SeqGrown(o: Origin, s1: Snap, X: seq<int>, oB: Origin, s2: Snap, e2: ExpDesc, T2: seq<int>, F2: seq<int>,
      s3: Snap, K: seq<Value>, R: Regs, b: int)
    requires First(o, s1, X) && Second(o, s1, oB, s2, e2, T2, F2, s3) && |s3.code| > |s1.code|
    requires !Run(Extend(s1, SeqB(s1, s3, b)), K, o.p, ToSet(X) + ToSet(s1.J), |s1.code|, Pc0(o), R).Wrong?
    ensures var m, P3, end := |s1.code|, ToSet(X) + Pend(T2, F2, s2.J), End(e2, |s2.code|);
      Run(Extend(s3, b), K, o.p, P3, end, Pc0(o), R)
      == Onward(Extend(s3, b), K, o.p, P3, end, m, s1.J,
                Run(Extend(s1, SeqB(s1, s3, b)), K, o.p, ToSet(X) + ToSet(s1.J), m, Pc0(o), R))
  {
    hide Run, WF, PrefixOk, Chain;
    var m, end, pc0 := |s1.code|, End(e2, |s2.code|), Pc0(o);
    var cx1, cx3, P3 := Extend(s1, SeqB(s1, s3, b)), Extend(s3, b), ToSet(X) + Pend(T2, F2, s2.J);
    SeqPrefix(o, s1, oB, s2, e2, T2, F2, s3, b);
    var d := Discharge(cx1, s1.J);
    forall i | pc0 <= i < m ensures SimAt(d, cx3, ToSet(X), i) {
      assert cx3[i] == cx3[..m][i] == d[i];
    }
    assert forall j :: pc0 <= j < m ==> (j in P3 <==> j in ToSet(X));
    OnwardRun(cx1, s1.J, cx3, ToSet(X), ToSet(X) + ToSet(s1.J), P3, pc0, end, K, o.p, R);
  }

  /** From m on, the whole behaves like the second piece alone. */
  lemma SeqTail(o: Origin, s1: Snap, X: seq<int>, oB: Origin, s2: Snap, e2: ExpDesc, T2: seq<int>, F2: seq<int>,
      s3: Snap, K: seq<Value>, R: Regs, b: int)
    requires First(o, s1, X) && Second(o, s1, oB, s2, e2, T2, F2, s3)
    ensures var PB, end := Pend(T2, F2, s2.J), End(e2, |s2.code|);
      Run(Extend(s3, b), K, o.p, ToSet(X) + PB, end, |s1.code|, R) == Run(Extend(s2, b), K, o.p, PB, end, |s1.code|, R)
  {
    hide Run, WF, PrefixOk, Chain;
    var m, PB, end := |s1.code|, Pend(T2, F2, s2.J), End(e2, |s2.code|);
    var cxB, cx3 := Extend(s2, b), Extend(s3, b);
    forall i | m <= i < end ensures SimAt(cxB, cx3, PB, i) {
      PendJump(oB, s2, e2, T2, F2, i);
    }
    RunSim(cxB, cx3, K, o.p, PB, ToSet(X) + PB, m, end, m, R);
  }

  lemma PendJump(o: Origin, s: Snap, e: ExpDesc, T: seq<int>, F: seq<int>, i: int)
    requires Core(o, s, e, T, F)
    ensures i in Pend(T, F, s.J) ==> 0 <= i < |s.code| && s.code[i].op.OP_JMP?
  {
    if i in T || i in F {
      OpenIsJump(o, s, e, T, F, i);
    }
  }
}
