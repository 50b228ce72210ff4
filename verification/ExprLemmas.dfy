/** How the meaning of a piece of code carries over when more code is emitted. */
module ExprLemmas {
  import opened LuaVM
  import opened JumpLists
  import opened CodeSem
  import opened ExprSpec

  lemma {:induction false} ExitFacts(code: Code, K: seq<Value>, p: Prims, P: set<int>, end: int, pc: int, R: Regs)
    ensures var o := Run(code, K, p, P, end, pc, R);
      o.Exit? ==> && 0 <= pc <= o.j < end <= |code| && o.j in P
                  && (o.tested ==> pc < o.j && IsTest(code[o.j - 1].op))
                  && (!o.tested ==> code[o.j].op.OP_JMP?)
    decreases end - pc
  {
    if 0 <= pc < end <= |code| {
      if IsTest(code[pc].op) {
        match BranchOf(code[pc], K, p, R)
        case Skipped => ExitFacts(code, K, p, P, end, pc + 2, R);
        case Taken =>
          if pc + 1 !in P {
            match TakeBranch(code, pc, R)
            case Next(q, R') => if q > pc + 1 { ExitFacts(code, K, p, P, end, q, R'); }
            case _ =>
          }
        case _ =>
      } else if !(code[pc].op.OP_JMP? && pc in P) {
        match Step(code, K, p, pc, R)
        case Next(q, R') => if q > pc { ExitFacts(code, K, p, P, end, q, R'); }
        case _ =>
      }
    }
  }

  /** Discharging J, then patching only jumps in TF, is a patch of TF and J together. */
  lemma DischargeSim(cx: Code, J: seq<int>, c2: Code, TF: set<int>, P1: set<int>, lo: int, m: int)
    requires CodeSim(Discharge(cx, J), c2, TF, lo, m) && m == |cx|
    requires forall x :: x in P1 <==> x in TF || x in J
    requires forall x :: x in J ==> x !in TF && 0 <= x < |cx| && cx[x].op.OP_JMP?
    ensures CodeSim(cx, c2, P1, lo, m)
  {
    var d := Discharge(cx, J);
    forall i | lo <= i < m ensures SimAt(cx, c2, P1, i) {
      assert SimAt(d, c2, TF, i);
      assert d[i] == PatchedAt(cx, J, i, |cx|, NO_REG, |cx|);
    }
  }

  /** A discharged jump goes to the end of the old code and stores nothing on the way. */
  lemma DischargedInstr(cx: Code, J: seq<int>, c2: Code, TF: set<int>, lo: int, j: int)
    requires CodeSim(Discharge(cx, J), c2, TF, lo, |cx|)
    requires j in J && j !in TF && lo <= j < |cx| && cx[j].op.OP_JMP?
    ensures c2[j].op.OP_JMP? && Dest(c2, j) == |cx|
    ensures lo < j && IsTest(cx[j - 1].op) && j - 1 !in J ==> !c2[j - 1].op.OP_TESTSET?
  {
    var d, m := Discharge(cx, J), |cx|;
    assert SimAt(d, c2, TF, j) && d[j] == PatchedAt(cx, J, j, m, NO_REG, m);
    if lo < j && IsTest(cx[j - 1].op) {
      assert SimAt(d, c2, TF, j - 1) && d[j - 1] == PatchedAt(cx, J, j - 1, m, NO_REG, m);
    }
  }

  /** Where a run of a first piece of code goes once the code goes on at m. */
  function Onward(c2: Code, K: seq<Value>, p: Prims, P2: set<int>, end: int, m: int, J: seq<int>,
      out: Outcome): Outcome {
    match out
    case Fall(R) => Run(c2, K, p, P2, end, m, R)
    case Exit(j, R, tested) => if j in J then Run(c2, K, p, P2, end, m, R) else out
    case _ => out
  }

  lemma RunFromEnd(cx: Code, c2: Code, K: seq<Value>, p: Prims, P1: set<int>, P2: set<int>, m: int, end: int, lo: int,
      R: Regs)
    requires lo >= m && !Run(cx, K, p, P1, m, lo, R).Wrong?
    ensures lo == m && Run(cx, K, p, P1, m, lo, R) == Fall(R)
  {
  }

  /** Running on after a discharge: falling out and leaving through J are the same. */
  lemma OnwardRun(cx: Code, J: seq<int>, c2: Code, TF: set<int>, P1: set<int>, P2: set<int>, lo: int, end: int,
      K: seq<Value>, p: Prims, R: Regs)
    requires CodeSim(Discharge(cx, J), c2, TF, lo, |cx|) && |cx| <= end <= |c2|
    requires forall x :: x in P1 <==> x in TF || x in J
    requires forall x :: x in J ==> x !in TF && 0 <= x < |cx| && cx[x].op.OP_JMP?
    requires forall j :: lo <= j < |cx| ==> (j in P2 <==> j in TF)
    requires !Run(cx, K, p, P1, |cx|, lo, R).Wrong?
    ensures Run(c2, K, p, P2, end, lo, R) == Onward(c2, K, p, P2, end, |cx|, J, Run(cx, K, p, P1, |cx|, lo, R))
  {
    hide Run, Discharge;
    var m := |cx|;
    var out := Run(cx, K, p, P1, m, lo, R);
    if lo >= m {
      RunFromEnd(cx, c2, K, p, P1, P2, m, end, lo, R);
    }
    if lo < m {
      DischargeSim(cx, J, c2, TF, P1, lo, m);
      Advance(cx, c2, K, p, P1, P2, lo, m, end, R);
      ExitFacts(cx, K, p, P1, m, lo, R);
      if out.Exit? && out.j in J {
        DischargedInstr(cx, J, c2, TF, lo, out.j);
      }
    }
  }

}
