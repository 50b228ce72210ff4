/** luaK_goiftrue and luaK_goiffalse: an expression turned into a branch. */
module ExprBranch {
  import opened Wrappers
  import opened LuaVM
  import opened JumpLists
  import opened CodeSem
  import opened ExprSpec
  import opened ExprLemmas
  import opened ExprOps

  /** Before the two lists have been linked up: X leaves with the wrong sense,
      Y with the right one, and falling out means the right one. */
  ghost predicate RawGood(o: Origin, cx: Code, lt: int, J: seq<int>, X: seq<int>, Y: seq<int>, sense: bool, R: Regs,
      out: Outcome)
    requires 0 <= o.nact <= |R|
  {
    var res := Eval(o.x, o.p, R[..o.nact]);
    match out
    case Fall(R') => Kept(R, R', o.base.fr) && res.Ok? && Falsy(res.v) != sense && Entry(cx, |cx|, lt, o.nact, R')
    case Exit(j, R', tested) =>
      && Kept(R, R', o.base.fr)
      && ((tested && j in X && ValueOf(cx, j, R', res, !sense))
          || (tested && j in Y && ValueOf(cx, j, R', res, sense))
          || (j in J && res.Ok? && Falsy(res.v) != sense))
    case Error => res == Err
    case Wrong => false
  }

  ghost predicate RawAt(o: Origin, s: Snap, X: seq<int>, Y: seq<int>, sense: bool, K: seq<Value>, R: Regs, b: int) {
    var cx := Extend(s, b);
    Input(o, s, cx, K, R, b) ==>
      RawGood(o, cx, s.lt, s.J, X, Y, sense, R, Run(cx, K, o.p, Pend(X, Y, s.J), |cx|, Pc0(o), R))
  }

  ghost predicate Raw(o: Origin, s: Snap, X: seq<int>, Y: seq<int>, sense: bool) {
    forall K: seq<Value>, R: Regs, b: int :: RawAt(o, s, X, Y, sense, K, R, b)
  }

  /** The list of jumps taken when the value is false (sense) or true (!sense). */
  function WrongList(T: seq<int>, F: seq<int>, sense: bool): seq<int> { if sense then F else T }

  function RightList(T: seq<int>, F: seq<int>, sense: bool): seq<int> { if sense then T else F }

  /** A constant whose truth is known emits nothing. */
  lemma RawConst(o: Origin, s: Snap, e: ExpDesc, T: seq<int>, F: seq<int>, sense: bool)
    requires Compiled(o, s, e, T, F)
    requires if sense then e.k.VK? || e.k.VKNUM? || e.k.VTRUE? else e.k.VNIL? || e.k.VFALSE?
    ensures Raw(o, s, WrongList(T, F, sense), RightList(T, F, sense), sense)
  {
    var X, Y := WrongList(T, F, sense), RightList(T, F, sense);
    forall K: seq<Value>, R: Regs, b: int ensures RawAt(o, s, X, Y, sense, K, R, b) {
      assert SemAt(o, s, e, T, F, K, R, b);
      assert Pend(X, Y, s.J) == Pend(T, F, s.J);
      assert e.k.VK? && s.k <= K ==> K[e.info] == s.k[e.info];
    }
  }

  /** jumponcond on a value in a register: TESTSET, JMP. */
  lemma RawTestSet(o: Origin, s: Snap, e: ExpDesc, T: seq<int>, F: seq<int>, s2: Snap, sense: bool)
    requires Compiled(o, s, e, T, F) && e.k.VNONRELOC?
    requires Emitted(s, s2, [Instruction(OP_TESTSET, NO_REG, e.info, BoolInt(!sense)), Instruction(OP_JMP, 0, NO_JUMP, 0)])
    ensures Raw(o, s2, WrongList(T, F, sense) + [|s.code| + 1], RightList(T, F, sense), sense)
  {
    var X, Y := WrongList(T, F, sense) + [|s.code| + 1], RightList(T, F, sense);
    forall K: seq<Value>, R: Regs, b: int ensures RawAt(o, s2, X, Y, sense, K, R, b) {
      if Input(o, s2, Extend(s2, b), K, R, b) {
        RawTestSetAt(o, s, e, T, F, s2, sense, K, R, b);
      }
    }
  }

  /** Where a test and its pending jump, the last two instructions, lead. */
  function PairOut(i: Instruction, K: seq<Value>, p: Prims, j: int, R: Regs): Outcome {
    match BranchOf(i, K, p, R)
    case Taken => Exit(j, R, true)
    case Skipped => Fall(R)
    case BranchRaise => Error
    case BranchWrong => Wrong
  }

  lemma PairRun(c: Code, K: seq<Value>, p: Prims, P: set<int>, R: Regs)
    requires |c| >= 2 && IsTest(c[|c| - 2].op) && |c| - 1 in P
    ensures Run(c, K, p, P, |c|, |c| - 2, R) == PairOut(c[|c| - 2], K, p, |c| - 1, R)
  {
  }

  /** Where a run goes on when a test and a jump are emitted after it. */
  function ThenPair(i: Instruction, K: seq<Value>, p: Prims, j: int, J: seq<int>, out: Outcome): Outcome {
    match out
    case Fall(R) => PairOut(i, K, p, j, R)
    case Exit(q, R, tested) => if q in J then PairOut(i, K, p, j, R) else out
    case _ => out
  }

  lemma EmitPair(o: Origin, s: Snap, TF: set<int>, s2: Snap, i: Instruction, b: int, P2: set<int>, K: seq<Value>,
      R: Regs)
    requires SnapOk(s) && Emitted(s, s2, [i, Instruction(OP_JMP, 0, NO_JUMP, 0)]) && Pc0(o) <= |s.code|
    requires IsTest(i.op)
    requires forall x :: x in TF ==> 0 <= x < |s.code| && s.code[x].op.OP_JMP? && x !in s.J
    requires P2 == TF + {|s.code| + 1}
    requires !Run(s.code, K, o.p, TF + ToSet(s.J), |s.code|, Pc0(o), R).Wrong?
    ensures Run(s2.code, K, o.p, P2, |s2.code|, Pc0(o), R)
         == ThenPair(i, K, o.p, |s.code| + 1, s.J, Run(s.code, K, o.p, TF + ToSet(s.J), |s.code|, Pc0(o), R))
  {
    hide Run;
    var ins := [i, Instruction(OP_JMP, 0, NO_JUMP, 0)];
    var m := |s.code|;
    assert Extend(s2, b) == s2.code && s2.code[m] == ins[0] && |s2.code| == m + 2;
    EmitRun(o, s, TF, s2, ins, b, P2, m + 2, K, R);
    var out := Run(s.code, K, o.p, TF + ToSet(s.J), m, Pc0(o), R);
    if out.Fall? || (out.Exit? && out.j in s.J) {
      PairRun(s2.code, K, o.p, P2, out.regs);
    }
  }

  lemma RawTestSetAt(o: Origin, s: Snap, e: ExpDesc, T: seq<int>, F: seq<int>, s2: Snap, sense: bool, K: seq<Value>,
      R: Regs, b: int)
    requires Compiled(o, s, e, T, F) && e.k.VNONRELOC?
    requires Emitted(s, s2, [Instruction(OP_TESTSET, NO_REG, e.info, BoolInt(!sense)), Instruction(OP_JMP, 0, NO_JUMP, 0)])
    requires Input(o, s2, Extend(s2, b), K, R, b)
    ensures RawAt(o, s2, WrongList(T, F, sense) + [|s.code| + 1], RightList(T, F, sense), sense, K, R, b)
  {
    hide Run, ThenPair, Describes, Eval, PrefixOk, Entry, Chain, RawGood, FallOk, ExitOk;
    var i := Instruction(OP_TESTSET, NO_REG, e.info, BoolInt(!sense));
    var ins := [i, Instruction(OP_JMP, 0, NO_JUMP, 0)];
    var X, Y := WrongList(T, F, sense) + [|s.code| + 1], RightList(T, F, sense);
    var m, TF := |s.code|, ToSet(T) + ToSet(F);
    InputBack(o, s, s2, ins, K, R, b);
    ExtendNeutral(s);
    assert SemAt(o, s, e, T, F, K, R, NeutralB(s));
    forall x | x in TF ensures 0 <= x < m && s.code[x].op.OP_JMP? && x !in s.J {
      OpenIsJump(o, s, e, T, F, x);
    }
    assert Pend(X, Y, s2.J) == TF + {m + 1};
    EmitPair(o, s, TF, s2, i, b, TF + {m + 1}, K, R);
    EmitList(s, s2, ins, Pc0(o), e.t, T);
    EmitList(s, s2, ins, Pc0(o), e.f, F);
    var out := Run(s.code, K, o.p, TF + ToSet(s.J), m, Pc0(o), R);
    TestSetGood(o, s, e, T, F, s2, sense, K, R, out);
  }

  /** TESTSET sorts the values: the wrong sense leaves, the right one falls out. */
  lemma TestSetGood(o: Origin, s: Snap, e: ExpDesc, T: seq<int>, F: seq<int>, s2: Snap, sense: bool, K: seq<Value>,
      R: Regs, out: Outcome)
    requires Disjoint(T, s.J) && Disjoint(F, s.J)
    requires |s2.code| == |s.code| + 2 && s2.J == [] && e.k.VNONRELOC? && 0 <= o.nact <= |R|
    requires s2.code[|s.code|] == Instruction(OP_TESTSET, NO_REG, e.info, BoolInt(!sense))
    requires s2.code[|s.code| + 1].op.OP_JMP?
    requires forall j :: (j in T || j in F) && 0 < j < |s.code| ==> s2.code[j - 1] == s.code[j - 1]
    requires forall j :: j in T || j in F ==> 0 < j < |s.code|
    requires Good(o, s.code, s.lt, s.J, e, T, F, K, R, out)
    ensures RawGood(o, s2.code, s2.lt, s2.J, WrongList(T, F, sense) + [|s.code| + 1], RightList(T, F, sense), sense, R,
                    ThenPair(s2.code[|s.code|], K, o.p, |s.code| + 1, s.J, out))
  {
    hide Eval;
    var X := WrongList(T, F, sense) + [|s.code| + 1];
    assert X[|X| - 1] == |s.code| + 1;
    assert forall j :: j in WrongList(T, F, sense) ==> j in X;
  }

  /** Replacing everything from h on by a test and its pending jump. */
  lemma CutRun(c: Code, c2: Code, h: int, K: seq<Value>, p: Prims, P: set<int>, pc0: int, R: Regs)
    requires 0 <= pc0 <= h <= |c| && |c2| == h + 2 && c2[..h] == c[..h] && IsTest(c2[h].op)
    requires forall j :: j in P ==> 0 <= j < h && c[j].op.OP_JMP?
    requires !Run(c, K, p, P, h, pc0, R).Wrong?
    ensures Run(c2, K, p, P + {h + 1}, h + 2, pc0, R) == ThenPair(c2[h], K, p, h + 1, [], Run(c, K, p, P, h, pc0, R))
  {
    hide Run;
    forall i | pc0 <= i < h ensures SimAt(c, c2, P, i) {
      assert c2[i] == c2[..h][i] == c[i];
    }
    Advance(c, c2, K, p, P, P + {h + 1}, pc0, h, h + 2, R);
    var out := Run(c, K, p, P, h, pc0, R);
    ExitFacts(c, K, p, P, h, pc0, R);
    if out.Fall? {
      PairRun(c2, K, p, P + {h + 1}, out.regs);
    }
  }

  /** The value is still to be decided by the last instruction, a NOT or a comparison. */
  predicate Undecided(e: ExpDesc, code: Code) {
    && 0 <= End(e, |code|) < |code|
    && (|| (e.k.VRELOCABLE? && code[e.info].op.OP_NOT?)
        || e.k.VJMP?)
  }

  /** The test that replaces it, and leaves with the wrong sense: TEST on NOT's
      operand, or the comparison itself, inverted when the right sense is true. */
  function Decider(e: ExpDesc, code: Code, sense: bool): Instruction
    requires Undecided(e, code)
  {
    var i := code[End(e, |code|)];
    if e.k.VJMP? then (if sense then i.(a := if i.a == 0 then 1 else 0) else i)
    else Instruction(OP_TEST, i.b, 0, BoolInt(sense))
  }

  lemma DeciderBranch(e: ExpDesc, code: Code, sense: bool, K: seq<Value>, p: Prims, R: Regs, res: Result)
    requires Undecided(e, code)
    requires e.k.VRELOCABLE? ==> Computes(code[e.info], K, p, R) == Some(res)
    requires e.k.VJMP? ==> && e.info < |code| && IsCompare(code[e.info - 1].op) && 0 <= code[e.info - 1].a <= 1
                           && BranchOf(code[e.info - 1], K, p, R) == BranchFor(res) && (res.Ok? ==> res.v.Boolean?)
    ensures IsTest(Decider(e, code, sense).op) && !Decider(e, code, sense).op.OP_TESTSET?
    ensures res.Ok? ==> res.v.Boolean?
    ensures BranchOf(Decider(e, code, sense), K, p, R) ==
      match res
      case Err => BranchRaise
      case Ok(v) => if Falsy(v) == sense then Taken else Skipped
  {
  }

  lemma RawDecider(o: Origin, s: Snap, e: ExpDesc, T: seq<int>, F: seq<int>, s2: Snap, sense: bool)
    requires Compiled(o, s, e, T, F) && Undecided(e, s.code)
    requires var h := End(e, |s.code|);
      |s2.code| == h + 2 && s2.code == s.code[..h] + [Decider(e, s.code, sense), Instruction(OP_JMP, 0, NO_JUMP, 0)]
    requires s2.J == [] && s2.lt == s.lt && s2.fr == s.fr && s2.k == s.k && s.ms <= s2.ms
    ensures Raw(o, s2, WrongList(T, F, sense) + [End(e, |s.code|) + 1], RightList(T, F, sense), sense)
  {
    var X, Y := WrongList(T, F, sense) + [End(e, |s.code|) + 1], RightList(T, F, sense);
    forall K: seq<Value>, R: Regs, b: int ensures RawAt(o, s2, X, Y, sense, K, R, b) {
      if Input(o, s2, Extend(s2, b), K, R, b) {
        RawDeciderAt(o, s, e, T, F, s2, sense, K, R, b);
      }
    }
  }

  lemma UndecidedFacts(o: Origin, s: Snap, e: ExpDesc, T: seq<int>, F: seq<int>)
    requires Core(o, s, e, T, F) && KindOk(o, s, e, T, F) && Undecided(e, s.code)
    ensures s.J == [] && Pc0(o) <= End(e, |s.code|) < |s.code| && 0 <= o.nact <= s.ms
    ensures !s.code[|s.code| - 1].op.OP_LOADNIL?
    ensures forall j :: j in T || j in F ==> 0 < j < End(e, |s.code|) && s.code[j].op.OP_JMP?
    ensures e.k.VJMP? ==> 0 < e.info < |s.code| && IsCompare(s.code[e.info - 1].op) && 0 <= s.code[e.info - 1].a <= 1
  {
    forall j | j in T || j in F ensures 0 < j < End(e, |s.code|) && s.code[j].op.OP_JMP? {
      OpenIsJump(o, s, e, T, F, j);
    }
  }

  lemma RawDeciderAt(o: Origin, s: Snap, e: ExpDesc, T: seq<int>, F: seq<int>, s2: Snap, sense: bool, K: seq<Value>,
      R: Regs, b: int)
    requires Compiled(o, s, e, T, F) && Undecided(e, s.code)
    requires var h := End(e, |s.code|);
      |s2.code| == h + 2 && s2.code == s.code[..h] + [Decider(e, s.code, sense), Instruction(OP_JMP, 0, NO_JUMP, 0)]
    requires s2.J == [] && s2.lt == s.lt && s2.fr == s.fr && s2.k == s.k && s.ms <= s2.ms
    requires Input(o, s2, Extend(s2, b), K, R, b)
    ensures RawAt(o, s2, WrongList(T, F, sense) + [End(e, |s.code|) + 1], RightList(T, F, sense), sense, K, R, b)
  {
    hide Run, Eval, Computes, BranchOf, Decider, Core, KindOk, Good, RawGood, IsTest;
    UndecidedFacts(o, s, e, T, F);
    var h := End(e, |s.code|);
    var X, Y := WrongList(T, F, sense) + [h + 1], RightList(T, F, sense);
    assert Extend(s2, b) == s2.code && Extend(s, NeutralB(s)) == s.code;
    assert Pc0(o) > 0 ==> s2.code[Pc0(o) - 1] == s.code[Pc0(o) - 1];
    assert SemAt(o, s, e, T, F, K, R, NeutralB(s));
    DeciderIsTest(e, s.code, sense);
    RawDeciderRun(o, s, e, T, F, s2, sense, h, K, R);
  }

  lemma RawDeciderRun(o: Origin, s: Snap, e: ExpDesc, T: seq<int>, F: seq<int>, s2: Snap, sense: bool, h: int,
      K: seq<Value>, R: Regs)
    requires Undecided(e, s.code) && 0 <= o.nact <= |R| && s.J == [] && s2.J == []
    requires e.k.VJMP? ==> 0 < e.info < |s.code| && IsCompare(s.code[e.info - 1].op) && 0 <= s.code[e.info - 1].a <= 1
    requires 0 <= Pc0(o) <= h < |s.code| && |s2.code| == h + 2
    requires s2.code == s.code[..h] + [Decider(e, s.code, sense), Instruction(OP_JMP, 0, NO_JUMP, 0)]
    requires IsTest(Decider(e, s.code, sense).op) && !Decider(e, s.code, sense).op.OP_TESTSET?
    requires forall j :: j in T || j in F ==> 0 < j < h && s.code[j].op.OP_JMP?
    requires Good(o, s.code, s.lt, s.J, e, T, F, K, R, Run(s.code, K, o.p, Pend(T, F, s.J), h, Pc0(o), R))
    ensures var X, Y := WrongList(T, F, sense) + [h + 1], RightList(T, F, sense);
      RawGood(o, s2.code, s2.lt, s2.J, X, Y, sense, R, Run(s2.code, K, o.p, Pend(X, Y, s2.J), |s2.code|, Pc0(o), R))
  {
    hide Run, Eval, BranchOf, Decider, Good, RawGood, IsTest, Undecided;
    var P, X, Y := Pend(T, F, s.J), WrongList(T, F, sense) + [h + 1], RightList(T, F, sense);
    var out := Run(s.code, K, o.p, P, h, Pc0(o), R);
    GoodRuns(o, s.code, s.lt, s.J, e, T, F, K, R, out);
    DeciderFall(o, s, e, T, F, sense, K, R, out);
    assert s2.code[..h] == s.code[..h] && s2.code[h] == Decider(e, s.code, sense) && s2.code[h + 1].op.OP_JMP?;
    CutRun(s.code, s2.code, h, K, o.p, P, Pc0(o), R);
    assert Pend(X, Y, s2.J) == P + {h + 1};
    DeciderGood(o, s, e, T, F, s2, sense, h, K, R, out);
  }

  lemma GoodRuns(o: Origin, cx: Code, lt: int, J: seq<int>, e: ExpDesc, T: seq<int>, F: seq<int>, K: seq<Value>,
      R: Regs, out: Outcome)
    requires 0 <= o.nact <= |R| && Good(o, cx, lt, J, e, T, F, K, R, out)
    ensures !out.Wrong?
  {
  }

  lemma DeciderFall(o: Origin, s: Snap, e: ExpDesc, T: seq<int>, F: seq<int>, sense: bool, K: seq<Value>, R: Regs,
      out: Outcome)
    requires Undecided(e, s.code) && 0 <= o.nact <= |R| && Good(o, s.code, s.lt, s.J, e, T, F, K, R, out)
    requires e.k.VJMP? ==> 0 < e.info < |s.code| && IsCompare(s.code[e.info - 1].op) && 0 <= s.code[e.info - 1].a <= 1
    ensures out.Fall? ==>
      var res := Eval(o.x, o.p, R[..o.nact]);
      && (res.Ok? ==> res.v.Boolean?)
      && BranchOf(Decider(e, s.code, sense), K, o.p, out.regs) == match res
        case Err => BranchRaise
        case Ok(v) => if Falsy(v) == sense then Taken else Skipped
  {
    hide Eval;
    if out.Fall? {
      DeciderBranch(e, s.code, sense, K, o.p, out.regs, Eval(o.x, o.p, R[..o.nact]));
    }
  }

  lemma DeciderIsTest(e: ExpDesc, code: Code, sense: bool)
    requires Undecided(e, code)
    requires e.k.VJMP? ==> e.info < |code| && IsCompare(code[e.info - 1].op)
    ensures IsTest(Decider(e, code, sense).op) && !Decider(e, code, sense).op.OP_TESTSET?
  {
  }

  lemma DeciderGood(o: Origin, s: Snap, e: ExpDesc, T: seq<int>, F: seq<int>, s2: Snap, sense: bool, h: int,
      K: seq<Value>, R: Regs, out: Outcome)
    requires |s2.code| == h + 2 && s.J == [] && s2.J == [] && 0 <= o.nact <= |R| && 0 <= h <= |s.code|
    requires s2.code[..h] == s.code[..h] && s2.code[h + 1].op.OP_JMP? && !s2.code[h].op.OP_TESTSET?
    requires forall j :: j in T || j in F ==> 0 < j < h
    requires Good(o, s.code, s.lt, s.J, e, T, F, K, R, out)
    requires out.Fall? ==>
      var res := Eval(o.x, o.p, R[..o.nact]);
      && (res.Ok? ==> res.v.Boolean?)
      && BranchOf(s2.code[h], K, o.p, out.regs) == match res
        case Err => BranchRaise
        case Ok(v) => if Falsy(v) == sense then Taken else Skipped
    ensures RawGood(o, s2.code, s2.lt, s2.J, WrongList(T, F, sense) + [h + 1], RightList(T, F, sense), sense, R,
                    ThenPair(s2.code[h], K, o.p, h + 1, [], out))
  {
    hide Eval, BranchOf;
    var X := WrongList(T, F, sense) + [h + 1];
    assert X[|X| - 1] == h + 1;
    assert forall j :: j in WrongList(T, F, sense) ==> j in X;
    forall j | j in T || j in F ensures s2.code[j - 1] == s.code[j - 1] {
      assert s2.code[..h][j - 1] == s.code[..h][j - 1];
    }
  }

  lemma CutWF(c: Code, h: int, i: Instruction)
    requires WF(c) && 0 <= h < |c| && !c[h].op.OP_JMP?
    ensures WF(c[..h] + [i, Instruction(OP_JMP, 0, NO_JUMP, 0)])
  {
    var d := c[..h] + [i, Instruction(OP_JMP, 0, NO_JUMP, 0)];
    forall q | 0 <= q < |d| && IsTest(d[q].op) ensures q + 1 < |d| && d[q + 1].op.OP_JMP? {
      if q < h {
        assert d[q] == c[q] && c[q + 1].op.OP_JMP?;
        assert q + 1 < h;
        assert d[q + 1] == c[q + 1];
      }
    }
  }

  /** Replacing the deciding instruction leaves the lists alone. */
  lemma DeciderCore(o: Origin, s: Snap, e: ExpDesc, T: seq<int>, F: seq<int>, s2: Snap, i: Instruction)
    requires Core(o, s, e, T, F) && KindOk(o, s, e, T, F) && Undecided(e, s.code)
    requires var h := End(e, |s.code|);
      s2.code == s.code[..h] + [i, Instruction(OP_JMP, 0, NO_JUMP, 0)]
    requires s2.J == [] && s2.lt == s.lt && s2.fr == s.fr && s2.k == s.k && s.ms <= s2.ms < NO_REG && IsTest(i.op)
    ensures var j := End(e, |s.code|) + 1;
      Core(o, s2, e, T, F) && EndsInJump(s2, Pc0(o)) && NewExit(o, s2, T, F, j)
  {
    hide WF, PrefixOk;
    var h, pc0 := End(e, |s.code|), Pc0(o);
    UndecidedFacts(o, s, e, T, F);
    assert h == |s.code| - 1 || h == |s.code| - 2;
    assert s.fr == o.base.fr && !s.code[h].op.OP_JMP?;
    hide KindOk, Undecided, Chain;
    CutWF(s.code, h, i);
    DeciderPrefix(o, s, s2, h);
    ChainKeepX(s.code, s2.code, e.t, T, h);
    ChainKeepX(s.code, s2.code, e.f, F, h);
    assert s2.code[h] == i && s2.code[h + 1].op.OP_JMP?;
    assert forall j :: j in T || j in F ==> s2.code[j - 1] == s.code[j - 1];
  }

  lemma DeciderPrefix(o: Origin, s: Snap, s2: Snap, h: int)
    requires PrefixOk(o.base, s) && Pc0(o) <= h < |s.code| && |s2.code| == h + 2 && s2.code[..h] == s.code[..h]
    requires s2.lt == s.lt && s2.k == s.k && s.ms <= s2.ms
    ensures PrefixOk(o.base, s2)
  {
    var pc0 := Pc0(o);
    assert s2.code[..pc0] == s2.code[..h][..pc0] == s.code[..h][..pc0] == s.code[..pc0];
    assert pc0 > 0 ==> s2.code[pc0 - 1] == s2.code[..pc0][pc0 - 1] == s.code[..pc0][pc0 - 1];
  }

  lemma ChainKeepX(code: Code, code': Code, head: int, s: seq<int>, h: int)
    requires Chain(code, head, s) && 0 <= h <= |code| && h <= |code'| && code'[..h] == code[..h]
    requires forall j :: j in s ==> j < h
    ensures Chain(code', head, s)
  {
    forall i | 0 <= i < |s| ensures LinkAt(code', s, i) {
      assert LinkAt(code, s, i) && s[i] in s;
      assert code'[s[i]] == code'[..h][s[i]] == code[..h][s[i]];
    }
  }

  /** j is a fresh controlled jump at the end of the code, in no list yet. */
  ghost predicate NewExit(o: Origin, s2: Snap, T: seq<int>, F: seq<int>, j: int) {
    && Pc0(o) < j == |s2.code| - 1 && s2.code[j].op.OP_JMP? && s2.code[j].b == NO_JUMP && IsTest(s2.code[j - 1].op)
    && j !in T && j !in F && s2.J == []
  }
}
