/** What the emitted code does when the machine of LuaVM.dfy runs it. */
module Machine {
  import opened LuaVM
  import opened JumpLists
  import opened CodeSem
  import opened ExprSpec
  import opened ExprLemmas
  import opened ExprOps
  import opened Lcode

  ghost predicate Reaches(code: Code, K: seq<Value>, p: Prims, pc: int, R: Regs, q: int, R': Regs) {
    exists n: nat :: Steps(code, K, p, n, pc, R) == Next(q, R')
  }

  ghost predicate Raises(code: Code, K: seq<Value>, p: Prims, pc: int, R: Regs) {
    exists n: nat :: Steps(code, K, p, n, pc, R) == Raised
  }

  /** The machine reaches q with the value of res in register reg and the first n
      registers as they were; or it raises an error, when res is one. */
  ghost predicate Delivers(code: Code, K: seq<Value>, p: Prims, pc: int, R: Regs, q: int, n: int, reg: int,
      res: Result) {
    match res
    case Ok(v) => exists R' :: Reaches(code, K, p, pc, R, q, R') && Kept(R, R', n) && InReg(R', reg) && R'[reg] == v
    case Err => Raises(code, K, p, pc, R)
  }

  /** The machine reaches `yes` or `no` as res is true or false. */
  ghost predicate Chooses(code: Code, K: seq<Value>, p: Prims, pc: int, R: Regs, yes: int, no: int, n: int,
      res: Result) {
    match res
    case Ok(v) => exists R' :: Reaches(code, K, p, pc, R, if Falsy(v) then no else yes, R') && Kept(R, R', n)
    case Err => Raises(code, K, p, pc, R)
  }

  /** Registers and constants the emitted code may be run with. */
  ghost predicate Ready0(o: Origin, s: Snap, K: seq<Value>, R: Regs) {
    && s.k <= K && 0 <= o.nact <= s.ms <= |R|
    && Entry(s.code, Pc0(o), o.base.lt, o.nact, R)
  }

  lemma RunReaches(code: Code, K: seq<Value>, p: Prims, end: int, pc: int, R: Regs)
    ensures var out := Run(code, K, p, {}, end, pc, R);
      && (out.Fall? ==> Reaches(code, K, p, pc, R, end, out.regs))
      && (out.Error? ==> Raises(code, K, p, pc, R))
  {
    var n := RunIsVM(code, K, p, end, pc, R);
  }

  /** The run ends with the value of res in register reg and the first n registers as they
      were; or it raises an error, when res is one. */
  ghost predicate Yields(out: Outcome, R: Regs, n: int, reg: int, res: Result) {
    match res
    case Ok(v) => out.Fall? && Kept(R, out.regs, n) && InReg(out.regs, reg) && out.regs[reg] == v
    case Err => out.Error?
  }

  /** Once another instruction follows, the code of an expression yields its value. */
  lemma ValueRun(o: Origin, s: Snap, e: ExpDesc, s2: Snap, ins: seq<Instruction>, K: seq<Value>, R: Regs)
    requires Compiled(o, s, e, [], []) && e.k.VNONRELOC? && Emitted(s, s2, ins) && Ready0(o, s2, K, R)
    ensures Yields(Run(s2.code, K, o.p, {}, |s.code|, Pc0(o), R), R, o.base.fr, e.info, Eval(o.x, o.p, R[..o.nact]))
  {
    hide Run, WF, PrefixOk, Eval, KindOk, Good, Yields;
    var m, nb := |s.code|, NeutralB(s2);
    ExtendNeutral(s2);
    ExtendNeutral(s);
    InputBack(o, s, s2, ins, K, R, nb);
    assert SemAt(o, s, e, [], [], K, R, NeutralB(s));
    var out := Run(s.code, K, o.p, Pend([], [], s.J), m, Pc0(o), R);
    assert Good(o, s.code, s.lt, s.J, e, [], [], K, R, out);
    GoodNotWrong(o, s.code, s.lt, s.J, e, K, R, out);
    assert {} + ToSet(s.J) == Pend([], [], s.J);
    EmitRun(o, s, {}, s2, ins, nb, {}, m, K, R);
    if out.Fall? || (out.Exit? && out.j in s.J) {
      RunEnd(s2.code, K, o.p, {}, m, out.regs);
    }
    YieldsFrom(o, s, e, K, R, out, Run(s2.code, K, o.p, {}, m, Pc0(o), R));
  }

  lemma GoodNotWrong(o: Origin, cx: Code, lt: int, J: seq<int>, e: ExpDesc, K: seq<Value>, R: Regs, out: Outcome)
    requires 0 <= o.nact <= |R| && Good(o, cx, lt, J, e, [], [], K, R, out)
    ensures !out.Wrong? && (out.Exit? ==> out.j in J)
  {
  }

  lemma YieldsFrom(o: Origin, s: Snap, e: ExpDesc, K: seq<Value>, R: Regs, out: Outcome, out2: Outcome)
    requires 0 <= o.nact <= |R| && Good(o, s.code, s.lt, s.J, e, [], [], K, R, out) && e.k.VNONRELOC?
    requires out.Fall? || out.Exit? ==> out2 == Fall(out.regs)
    requires out.Error? ==> out2 == Error
    ensures Yields(out2, R, o.base.fr, e.info, Eval(o.x, o.p, R[..o.nact]))
  {
  }

  /** A run is what the machine does. */
  lemma YieldsDelivers(code: Code, K: seq<Value>, p: Prims, pc: int, R: Regs, q: int, n: int, reg: int, res: Result)
    requires Yields(Run(code, K, p, {}, q, pc, R), R, n, reg, res)
    ensures Delivers(code, K, p, pc, R, q, n, reg, res)
  {
    hide Run;
    RunReaches(code, K, p, q, pc, R);
  }

  // ----- branches -----

  /** The code of a branch once its jumps to here have been fixed, and its exits X have been sent to q. */
  ghost predicate Resolved(s: Snap, X: seq<int>, q: int, c2: Code) {
    var m := |s.code|;
    m <= q <= |c2| && c2[..m] == PatchList(Discharge(s.code, s.J), X, q, NO_REG, q)
  }

  /** What patching makes of the pending jumps: they go where they should, and store nothing. */
  lemma ResolvedAt(o: Origin, s: Snap, X: seq<int>, q: int, c2: Code, i: int)
    requires SnapOk(s) && Resolved(s, X, q, c2) && Disjoint(X, s.J) && 0 <= i < |s.code|
    requires forall j :: j in X ==> 0 < j < |s.code| && s.code[j].op.OP_JMP? && IsTest(s.code[j - 1].op)
    ensures SimAt(s.code, c2, ToSet(X) + ToSet(s.J), i)
    ensures i in X ==> c2[i].op.OP_JMP? && Dest(c2, i) == q
    ensures i in s.J ==> c2[i].op.OP_JMP? && Dest(c2, i) == |s.code|
    ensures (i + 1 in X || i + 1 in s.J) && i + 1 < |s.code| ==> !c2[i].op.OP_TESTSET? || i in s.J || i in X
  {
    var m := |s.code|;
    var c1 := Discharge(s.code, s.J);
    assert c2[i] == c2[..m][i] == PatchList(c1, X, q, NO_REG, q)[i];
    assert c1[i] == PatchedAt(s.code, s.J, i, m, NO_REG, m);
    assert PatchList(c1, X, q, NO_REG, q)[i] == PatchedAt(c1, X, i, q, NO_REG, q);
  }

  lemma BranchRun(o: Origin, s: Snap, e: ExpDesc, X: seq<int>, sense: bool, q: int, c2: Code, end: int, K: seq<Value>,
      R: Regs, out: Outcome)
    requires Branched(o, s, e, X, sense) && Resolved(s, X, q, c2) && |s.code| <= end <= |c2|
    requires (end == |s.code| || end == q)
    requires 0 <= o.nact <= |R| && BranchGood(o, s.code, s.lt, s.J, X, sense, R, out)
    requires out == Run(s.code, K, o.p, ToSet(X) + ToSet(s.J), |s.code|, Pc0(o), R)
    ensures var out2 := Run(c2, K, o.p, {}, end, Pc0(o), R);
      && (out.Error? ==> out2.Error?)
      && (out.Fall? || (out.Exit? && out.j in s.J) ==> end == |s.code| ==> out2 == Fall(out.regs))
      && (out.Exit? && out.j !in s.J ==> end == q ==> out2 == Fall(out.regs))
  {
    hide Run, WF, PrefixOk, Chain, Eval, BranchAt, Resolved;
    var m, pc0, P := |s.code|, Pc0(o), ToSet(X) + ToSet(s.J);
    ExitFacts(s.code, K, o.p, P, m, pc0, R);
    forall j | j in X ensures 0 < j < m && s.code[j].op.OP_JMP? && IsTest(s.code[j - 1].op) {
      OpenIsJump(o, s, e, if sense then [] else X, if sense then X else [], j);
    }
    forall i | pc0 <= i < m ensures SimAt(s.code, c2, P, i) {
      ResolvedAt(o, s, X, q, c2, i);
    }
    Advance(s.code, c2, K, o.p, P, {}, pc0, m, end, R);
    if out.Fall? {
      RunEnd(c2, K, o.p, {}, m, out.regs);
    } else if out.Exit? {
      ResolvedAt(o, s, X, q, c2, out.j);
      if out.tested { ResolvedAt(o, s, X, q, c2, out.j - 1); }
      RunEnd(c2, K, o.p, {}, end, out.regs);
    }
  }

  /** The runs to the end of the branch and to q: one of them falls out, as res has the given sense or not. */
  ghost predicate Decides(here: Outcome, there: Outcome, R: Regs, n: int, sense: bool, res: Result) {
    match res
    case Ok(v) =>
      if Falsy(v) != sense then here.Fall? && Kept(R, here.regs, n) else there.Fall? && Kept(R, there.regs, n)
    case Err => here.Error?
  }

  lemma BranchDecides(o: Origin, s: Snap, e: ExpDesc, X: seq<int>, sense: bool, q: int, c2: Code, K: seq<Value>,
      R: Regs)
    requires Branched(o, s, e, X, sense) && Resolved(s, X, q, c2) && Ready0(o, s, K, R)
    ensures Decides(Run(c2, K, o.p, {}, |s.code|, Pc0(o), R), Run(c2, K, o.p, {}, q, Pc0(o), R), R, o.base.fr, sense, Eval(o.x, o.p, R[..o.nact]))
  {
    assert |s.code| <= q <= |c2| && Disjoint(X, s.J) && Pc0(o) <= |s.code|;
    hide Run, WF, PrefixOk, Eval, Resolved, Decides, Core;
    var m, nb := |s.code|, NeutralB(s);
    ExtendNeutral(s);
    assert Input(o, s, s.code, K, R, nb);
    assert BranchAt(o, s, X, sense, K, R, nb);
    var out := Run(s.code, K, o.p, ToSet(X) + ToSet(s.J), m, Pc0(o), R);
    BranchRun(o, s, e, X, sense, q, c2, m, K, R, out);
    BranchRun(o, s, e, X, sense, q, c2, q, K, R, out);
    DecidesFrom(o, s, X, sense, K, R, out, Run(c2, K, o.p, {}, m, Pc0(o), R), Run(c2, K, o.p, {}, q, Pc0(o), R));
  }

  lemma DecidesFrom(o: Origin, s: Snap, X: seq<int>, sense: bool, K: seq<Value>, R: Regs, out: Outcome, here: Outcome,
      there: Outcome)
    requires 0 <= o.nact <= |R| && BranchGood(o, s.code, s.lt, s.J, X, sense, R, out) && Disjoint(X, s.J)
    requires out.Error? ==> here.Error?
    requires out.Fall? || (out.Exit? && out.j in s.J) ==> here == Fall(out.regs)
    requires out.Exit? && out.j !in s.J ==> there == Fall(out.regs)
    ensures Decides(here, there, R, o.base.fr, sense, Eval(o.x, o.p, R[..o.nact]))
  {
    hide Eval;
  }

  /** luaK_goiftrue (sense) falls through exactly when the value is true, luaK_goiffalse
      exactly when it is false; otherwise the machine goes where the exits were sent. */
  lemma BranchRuns(o: Origin, s: Snap, e: ExpDesc, X: seq<int>, sense: bool, q: int, c2: Code, K: seq<Value>, R: Regs)
    requires Branched(o, s, e, X, sense) && Resolved(s, X, q, c2) && Ready0(o, s, K, R)
    ensures var m := |s.code|;
      Chooses(c2, K, o.p, Pc0(o), R, if sense then m else q, if sense then q else m, o.base.fr, Eval(o.x, o.p, R[..o.nact]))
  {
    hide Run, Branched, Resolved, Eval;
    BranchDecides(o, s, e, X, sense, q, c2, K, R);
    RunReaches(c2, K, o.p, |s.code|, Pc0(o), R);
    RunReaches(c2, K, o.p, q, Pc0(o), R);
  }

  // ----- one run after another -----

  lemma {:induction false} MoreSteps(code: Code, K: seq<Value>, p: Prims, a: nat, b: nat, pc: int, R: Regs)
    requires Steps(code, K, p, a, pc, R).Next?
    ensures var mid := Steps(code, K, p, a, pc, R);
      Steps(code, K, p, a + b, pc, R) == Steps(code, K, p, b, mid.pc, mid.regs)
  {
    if a > 0 {
      var next := Step(code, K, p, pc, R);
      MoreSteps(code, K, p, a - 1, b, next.pc, next.regs);
    }
  }

  /** Where the machine gets from q it gets from wherever it reaches q. */
  lemma DeliversLater(code: Code, K: seq<Value>, p: Prims, pc: int, R: Regs, m: int, R1: Regs, q: int, n: int,
      reg: int, res: Result)
    requires Reaches(code, K, p, pc, R, m, R1) && Kept(R, R1, n) && Delivers(code, K, p, m, R1, q, n, reg, res)
    ensures Delivers(code, K, p, pc, R, q, n, reg, res)
  {
    hide Steps;
    var a: nat :| Steps(code, K, p, a, pc, R) == Next(m, R1);
    match res
    case Ok(v) =>
      var R' :| Reaches(code, K, p, m, R1, q, R') && Kept(R1, R', n) && InReg(R', reg) && R'[reg] == v;
      var b: nat :| Steps(code, K, p, b, m, R1) == Next(q, R');
      MoreSteps(code, K, p, a, b, pc, R);
      assert Steps(code, K, p, a + b, pc, R) == Next(q, R');
      assert Reaches(code, K, p, pc, R, q, R') && Kept(R, R', n);
    case Err =>
      var b: nat :| Steps(code, K, p, b, m, R1) == Raised;
      MoreSteps(code, K, p, a, b, pc, R);
      assert Steps(code, K, p, a + b, pc, R) == Raised;
  }
}
