/** exp2reg: the exits of an expression are sent to the end, by way of a LOADBOOL
    where an exit does not carry its value. */
module ExprReg {
  import opened LuaVM
  import opened JumpLists
  import opened CodeSem
  import opened ExprSpec
  import opened ExprOps

  /** Both calls of patchlistaux: exits with a value go to `final`, the others to
      the LOADBOOL at pf (false) or pt (true). */
  function Patched(code: Code, T: seq<int>, F: seq<int>, final: int, reg: int, pf: int, pt: int): (r: Code)
    ensures |r| == |code|
  {
    PatchList(PatchList(code, F, final, reg, pf), T, final, reg, pt)
  }

  lemma PatchedInstr(code: Code, T: seq<int>, F: seq<int>, final: int, reg: int, pf: int, pt: int, i: int)
    requires 0 <= i < |code| && WF(code)
    requires forall j :: j in T || j in F ==> 0 < j < |code| && code[j].op.OP_JMP? && IsTest(code[j - 1].op)
    requires Disjoint(T, F)
    ensures Patched(code, T, F, final, reg, pf, pt)[i] ==
      if i in T then code[i].(b := (if HasValue(code, i) then final else pt) - (i + 1))
      else if i in F then code[i].(b := (if HasValue(code, i) then final else pf) - (i + 1))
      else if (i + 1 in T || i + 1 in F) && code[i].op.OP_TESTSET? then PatchedTest(code[i], reg)
      else code[i]
  {
    var d := PatchList(code, F, final, reg, pf);
    assert d[i] == PatchedAt(code, F, i, final, reg, pf);
    assert Patched(code, T, F, final, reg, pf, pt)[i] == PatchedAt(d, T, i, final, reg, pt);
    if i in T {
      assert d[i - 1] == PatchedAt(code, F, i - 1, final, reg, pf);
      assert d[i - 1] == code[i - 1];
    }
  }

  lemma {:induction false} LoadFalse(c: Code, K: seq<Value>, p: Prims, P: set<int>, pf: int, reg: int, R: Regs)
    requires 0 <= pf < pf + 2 <= |c| && c[pf] == Instruction(OP_LOADBOOL, reg, 0, 1) && InReg(R, reg)
    ensures Run(c, K, p, P, pf + 2, pf, R) == Fall(R[reg := Boolean(false)])
  {
  }

  lemma {:induction false} LoadTrue(c: Code, K: seq<Value>, p: Prims, P: set<int>, pt: int, reg: int, R: Regs)
    requires 0 <= pt < pt + 1 <= |c| && c[pt] == Instruction(OP_LOADBOOL, reg, 1, 0) && InReg(R, reg)
    ensures Run(c, K, p, P, pt + 1, pt, R) == Fall(R[reg := Boolean(true)])
  {
  }

  /** The two loads at the end of the patched code. */
  ghost predicate Loads(c: Code, reg: int, pf: int, final: int) {
    && 0 <= pf && pf + 2 == final <= |c|
    && c[pf] == Instruction(OP_LOADBOOL, reg, 0, 1) && c[pf + 1] == Instruction(OP_LOADBOOL, reg, 1, 0)
  }

  lemma LoadBoth(c: Code, K: seq<Value>, p: Prims, P: set<int>, reg: int, pf: int, final: int, sense: bool, R: Regs)
    requires Loads(c, reg, pf, final) && InReg(R, reg)
    ensures Run(c, K, p, P, final, if sense then pf + 1 else pf, R) == Fall(R[reg := Boolean(sense)])
  {
    hide Run;
    if sense { LoadTrue(c, K, p, P, pf + 1, reg, R); } else { LoadFalse(c, K, p, P, pf, reg, R); }
  }

  /** Taking a patched exit puts the value it stands for into reg. */
  lemma PatchedExit(code: Code, c: Code, T: seq<int>, F: seq<int>, K: seq<Value>, p: Prims, P: set<int>,
                    final: int, reg: int, pf: int, j: int, R: Regs, res: Result, sense: bool)
    requires |code| <= |c| && WF(code) && Disjoint(T, F)
    requires forall j :: j in T || j in F ==> 0 < j < |code| && code[j].op.OP_JMP? && IsTest(code[j - 1].op)
    requires c[..|code|] == Patched(code, T, F, final, reg, pf, pf + 1)
    requires j < final <= |c| && j !in P && 0 <= reg < NO_REG && InReg(R, reg)
    requires if sense then j in T else j in F
    requires ValueOf(code, j, R, res, sense)
    requires HasValue(code, j) || (Loads(c, reg, pf, final) && j < pf)
    ensures JumpFrom(c, K, p, P, final, j, R, true) == Fall(R[reg := res.v])
  {
    hide Run, PatchList, Patched;
    var d := Patched(code, T, F, final, reg, pf, pf + 1);
    PatchedInstr(code, T, F, final, reg, pf, pf + 1, j);
    PatchedInstr(code, T, F, final, reg, pf, pf + 1, j - 1);
    assert c[j] == c[..|code|][j] && c[j - 1] == c[..|code|][j - 1];
    if HasValue(code, j) {
      assert Dest(c, j) == final;
      RunEnd(c, K, p, P, final, R[reg := res.v]);
      assert reg == code[j - 1].b ==> R[reg := res.v] == R;
    } else {
      assert Dest(c, j) == if sense then pf + 1 else pf;
      assert c[j - 1] == code[j - 1] && !code[j - 1].op.OP_TESTSET?;
      LoadBoth(c, K, p, P, reg, pf, final, sense, R);
    }
  }

  lemma PatchedSim(code: Code, c: Code, T: seq<int>, F: seq<int>, P: set<int>, final: int, reg: int, pf: int, pt: int,
      lo: int, hi: int)
    requires |code| <= |c| && WF(code) && Disjoint(T, F) && 0 <= lo <= hi <= |code|
    requires forall j :: j in T || j in F ==> j in P && 0 < j < |code| && code[j].op.OP_JMP? && IsTest(code[j - 1].op)
    requires forall j :: j in P && 0 <= j < |code| ==> code[j].op.OP_JMP?
    requires c[..|code|] == Patched(code, T, F, final, reg, pf, pt)
    ensures CodeSim(code, c, P, lo, hi)
  {
    hide PatchList, Patched;
    forall i | lo <= i < hi ensures SimAt(code, c, P, i) {
      PatchedInstr(code, T, F, final, reg, pf, pt, i);
      assert c[i] == c[..|code|][i];
    }
  }

  /** The lists of an expression, as the patching lemmas want them. */
  lemma ListFacts(o: Origin, s: Snap, e: ExpDesc, T: seq<int>, F: seq<int>)
    requires Core(o, s, e, T, F)
    ensures forall j :: j in T || j in F ==>
      Pc0(o) < j < |s.code| && s.code[j].op.OP_JMP? && IsTest(s.code[j - 1].op) && j !in s.J
    ensures forall j :: j in Pend(T, F, s.J) ==> 0 <= j < |s.code| && s.code[j].op.OP_JMP?
    ensures WF(s.code) && Disjoint(T, F)
  {
    forall j | j in T || j in F ensures s.code[j].op.OP_JMP? {
      OpenIsJump(o, s, e, T, F, j);
    }
  }

  /** exp2reg after a value has been placed: `loads` says whether an exit needs a LOADBOOL. */
  ghost predicate PlacedTail(s: Snap, reg: int, T: seq<int>, F: seq<int>, loads: bool, s3: Snap) {
    var n, final := |s.code|, |s3.code|;
    && n <= final && s3.code[..n] == Patched(s.code, T, F, final, reg, n + 1, n + 2)
    && s3.lt == final && s3.fr == s.fr && s3.k == s.k && s3.ms == s.ms
    && if loads then
         final == n + 3 && s3.code[n].op.OP_JMP? && Loads(s3.code, reg, n + 1, final) && s3.J == [n] + s.J
       else
         final == n && s3.J == s.J && (forall j :: (j in T || j in F) && 0 <= j < n ==> HasValue(s.code, j))
  }

  lemma PlacedTailAt(o: Origin, s: Snap, e: ExpDesc, T: seq<int>, F: seq<int>, loads: bool, s3: Snap, e3: ExpDesc,
      K: seq<Value>, R: Regs, b: int)
    requires Placed(o, s, e, T, F) && PlacedTail(s, e.info, T, F, loads, s3) && |s.code| > Pc0(o)
    requires e3.info == e.info
    requires Input(o, s3, Extend(s3, b), K, R, b)
    ensures PlacedAt(o, s3, e3, [], [], K, R, b)
  {
    hide Run, Eval, Patched, PrefixOk, Chain, WF, ValueOf;
    var n, pc0, final, reg := |s.code|, Pc0(o), |s3.code|, e.info;
    var P1, P3 := Pend(T, F, s.J), ToSet(s3.J);
    ListFacts(o, s, e, T, F);
    ExtendNeutral(s);
    assert Extend(s3, b) == s3.code && Pend([], [], s3.J) == P3;
    if pc0 > 0 {
      PatchedInstr(s.code, T, F, final, reg, n + 1, n + 2, pc0 - 1);
      assert s3.code[pc0 - 1] == s3.code[..n][pc0 - 1] == s.code[pc0 - 1];
    }
    assert PlacedAt(o, s, e, T, F, K, R, NeutralB(s));
    PatchedSim(s.code, s3.code, T, F, P1, final, reg, n + 1, n + 2, pc0, n);
    assert forall j :: pc0 <= j < n && j in P3 ==> j in P1;
    Advance(s.code, s3.code, K, o.p, P1, P3, pc0, n, final, R);
    var out := Run(s.code, K, o.p, P1, n, pc0, R);
    PlacedTailOut(o, s, e, T, F, loads, s3, K, R, out);
  }

  lemma PlacedTailOut(o: Origin, s: Snap, e: ExpDesc, T: seq<int>, F: seq<int>, loads: bool, s3: Snap, K: seq<Value>,
      R: Regs, out: Outcome)
    requires Core(o, s, e, T, F) && 0 <= e.info < s.fr && PlacedTail(s, e.info, T, F, loads, s3)
    requires 0 <= o.nact <= |R| && s.ms <= |R|
    requires PlacedGood(o, s.code, s.lt, s.J, e.info, T, F, R, out)
    ensures PlacedGood(o, s3.code, s3.lt, s3.J, e.info, [], [], R,
                       Resume(s3.code, K, o.p, ToSet(s3.J), |s3.code|, |s.code|, out))
  {
    hide Eval, Patched, PrefixOk, Chain, WF, ValueOf;
    var n, final, reg, P3 := |s.code|, |s3.code|, e.info, ToSet(s3.J);
    ListFacts(o, s, e, T, F);
    match out
    case Fall(R1) =>
      if loads {
        assert n in s3.J by { assert s3.J[0] == n; }
        JumpRun(s3.code, K, o.p, P3, final, n, R1);
      } else {
        RunEnd(s3.code, K, o.p, P3, final, R1);
      }
    case Exit(j, R1, tested) =>
      var res := Eval(o.x, o.p, R[..o.nact]);
      if j in s.J {
        assert j in s3.J;
      } else {
        var sense := j in T;
        ValueIsOk(s.code, j, R1, res, sense);
        PatchedExit(s.code, s3.code, T, F, K, o.p, P3, final, reg, n + 1, j, R1, res, sense);
      }
    case _ =>
  }

  lemma JumpRun(c: Code, K: seq<Value>, p: Prims, P: set<int>, end: int, n: int, R: Regs)
    requires 0 <= n < end <= |c| && c[n].op.OP_JMP? && n in P
    ensures Run(c, K, p, P, end, n, R) == Exit(n, R, false)
  {
  }

  lemma ValueIsOk(code: Code, j: int, R: Regs, res: Result, sense: bool)
    requires ValueOf(code, j, R, res, sense)
    ensures res.Ok?
  {
  }

  // ----- a comparison -----

  /** exp2reg on a comparison: its own jump joins the t list; falling through means false. */
  ghost predicate JumpTail(s: Snap, reg: int, T: seq<int>, F: seq<int>, s3: Snap) {
    var n := |s.code|;
    && |s3.code| == n + 2 && s3.code[..n] == Patched(s.code, T + [n - 1], F, n + 2, reg, n, n + 1)
    && Loads(s3.code, reg, n, n + 2)
    && s3.J == [] && s3.lt == n + 2 && s.fr <= s3.fr <= s3.ms < NO_REG && s.k <= s3.k && s.ms <= s3.ms
    && 0 <= reg < s3.fr
  }

  lemma CompareTail(c: Code, K: seq<Value>, p: Prims, n: int, reg: int, R: Regs, res: Result)
    requires 2 <= n && Loads(c, reg, n, n + 2) && InReg(R, reg)
    requires IsCompare(c[n - 2].op) && BranchOf(c[n - 2], K, p, R) == BranchFor(res) && (res.Ok? ==> res.v.Boolean?)
    requires c[n - 1].op.OP_JMP? && Dest(c, n - 1) == n + 1
    ensures Run(c, K, p, {}, n + 2, n - 2, R) == if res.Ok? then Fall(R[reg := res.v]) else Error
  {
    LoadFalse(c, K, p, {}, n, reg, R);
    LoadTrue(c, K, p, {}, n + 1, reg, R);
  }

  lemma JumpTailAt(o: Origin, s: Snap, e: ExpDesc, T: seq<int>, F: seq<int>, reg: int, s3: Snap, e3: ExpDesc,
      K: seq<Value>, R: Regs, b: int)
    requires Compiled(o, s, e, T, F) && e.k.VJMP? && JumpTail(s, reg, T, F, s3)
    requires e3.info == reg
    requires Input(o, s3, Extend(s3, b), K, R, b)
    ensures PlacedAt(o, s3, e3, [], [], K, R, b)
  {
    hide Run, Eval, Patched, PrefixOk, Chain, WF, ValueOf, BranchOf;
    var n, pc0, final := |s.code|, Pc0(o), |s3.code|;
    var T', P1 := T + [n - 1], Pend(T, F, s.J);
    var P' := P1 + {n - 1};
    JumpLists2(o, s, e, T, F);
    assert Extend(s3, b) == s3.code && Pend([], [], s3.J) == {};
    assert Extend(s, NeutralB(s)) == s.code;
    if pc0 > 0 {
      PatchedInstr(s.code, T', F, final, reg, n, n + 1, pc0 - 1);
      assert s3.code[pc0 - 1] == s3.code[..n][pc0 - 1] == s.code[pc0 - 1];
    }
    assert SemAt(o, s, e, T, F, K, R, NeutralB(s));
    var out := Run(s.code, K, o.p, P1, n - 2, pc0, R);
    forall i | pc0 <= i < n - 2 ensures SimAt(s.code, s.code, P1, i) { }
    RunSim(s.code, s.code, K, o.p, P1, P', pc0, n - 2, pc0, R);
    PatchedSim(s.code, s3.code, T', F, P', final, reg, n, n + 1, pc0, n - 2);
    Advance(s.code, s3.code, K, o.p, P', {}, pc0, n - 2, final, R);
    JumpTailOut(o, s, e, T, F, reg, s3, K, R, out);
  }

  lemma JumpLists2(o: Origin, s: Snap, e: ExpDesc, T: seq<int>, F: seq<int>)
    requires Core(o, s, e, T, F) && KindOk(o, s, e, T, F) && e.k.VJMP?
    ensures var n, T' := |s.code|, T + [|s.code| - 1];
      && s.J == [] && n - 2 >= Pc0(o) && e.info == n - 1 && IsCompare(s.code[n - 2].op)
      && s.code[n - 1] == Instruction(OP_JMP, 0, NO_JUMP, 0) && 0 <= s.code[n - 2].a <= 1
      && (forall j :: j in T' || j in F ==> Pc0(o) < j < n && s.code[j].op.OP_JMP? && IsTest(s.code[j - 1].op))
      && (forall j :: j in T || j in F ==> j < n - 2)
      && (forall j :: j in Pend(T, F, s.J) + {n - 1} ==> 0 <= j < n && s.code[j].op.OP_JMP?)
      && (forall j :: j in T' || j in F ==> j in Pend(T, F, s.J) + {n - 1})
      && WF(s.code) && Disjoint(T', F) && n - 1 in T'
      && 0 <= o.nact <= s.ms && s.fr == o.base.fr
  {
    hide WF, Chain, PrefixOk;
    ListFacts(o, s, e, T, F);
    var T' := T + [|s.code| - 1];
    assert T'[|T'| - 1] == |s.code| - 1;
    forall j | j in T' ensures j in T || j == |s.code| - 1 { }
  }

  lemma JumpTailOut(o: Origin, s: Snap, e: ExpDesc, T: seq<int>, F: seq<int>, reg: int, s3: Snap, K: seq<Value>,
      R: Regs, out: Outcome)
    requires Core(o, s, e, T, F) && KindOk(o, s, e, T, F) && e.k.VJMP? && JumpTail(s, reg, T, F, s3)
    requires 0 <= o.nact <= |R| && s3.ms <= |R|
    requires Good(o, s.code, s.lt, s.J, e, T, F, K, R, out)
    ensures PlacedGood(o, s3.code, s3.lt, s3.J, reg, [], [], R,
                       Resume(s3.code, K, o.p, {}, |s3.code|, |s.code| - 2, out))
  {
    hide Eval, Patched, PrefixOk, Chain, WF, ValueOf, BranchOf, Core, KindOk, Run;
    var n := |s.code|;
    var T' := T + [n - 1];
    JumpLists2(o, s, e, T, F);
    var res := Eval(o.x, o.p, R[..o.nact]);
    match out
    case Fall(R1) =>
      PatchedInstr(s.code, T', F, n + 2, reg, n, n + 1, n - 1);
      PatchedInstr(s.code, T', F, n + 2, reg, n, n + 1, n - 2);
      assert s3.code[n - 1] == s3.code[..n][n - 1] && s3.code[n - 2] == s3.code[..n][n - 2];
      assert !HasValue(s.code, n - 1);
      CompareTail(s3.code, K, o.p, n, reg, R1, res);
    case Exit(j, R1, tested) =>
      var sense := j in T;
      assert j in T ==> j in T';
      ValueIsOk(s.code, j, R1, res, sense);
      PatchedExit(s.code, s3.code, T', F, K, o.p, {}, n + 2, reg, n, j, R1, res, sense);
    case _ =>
  }

  // ----- the state after exp2reg -----

  lemma PatchedWF(code: Code, T: seq<int>, F: seq<int>, final: int, reg: int, pf: int, pt: int)
    requires WF(code)
    requires forall j :: j in T || j in F ==> 0 <= j < |code| && code[j].op.OP_JMP?
    ensures WF(Patched(code, T, F, final, reg, pf, pt))
  {
    PatchWF(code, F, final, reg, pf);
    var d := PatchList(code, F, final, reg, pf);
    assert forall j :: j in T ==> d[j].op.OP_JMP?;
    PatchWF(d, T, final, reg, pt);
  }

  /** Code that ends in plain jumps and loads behind a well-formed part is well-formed. */
  lemma TailWF(c: Code, n: int)
    requires 0 <= n <= |c| && WF(c[..n]) && forall i :: n <= i < |c| ==> !IsTest(c[i].op)
    ensures WF(c)
  {
    forall i | 0 <= i < |c| && IsTest(c[i].op) ensures i + 1 < |c| && c[i + 1].op.OP_JMP? {
      assert c[..n][i] == c[i];
      assert c[..n][i + 1] == c[i + 1];
    }
  }

  /** Neither the code before the expression nor the jumps to here are patched. */
  lemma PatchedKeeps(o: Origin, s: Snap, e: ExpDesc, T: seq<int>, F: seq<int>, T': seq<int>, final: int, reg: int,
      pf: int, pt: int)
    requires Core(o, s, e, T, F) && |s.code| > Pc0(o)
    requires forall j :: j in T' || j in F ==> Pc0(o) < j < |s.code| && s.code[j].op.OP_JMP? && IsTest(s.code[j - 1].op)
    requires Disjoint(T', F)
    ensures var d := Patched(s.code, T', F, final, reg, pf, pt);
      && d[..Pc0(o)] == s.code[..Pc0(o)] && WF(d)
      && (forall j :: j in s.J ==> d[j].op.OP_JMP?)
      && (forall j :: j in s.J && j !in T' ==> d[j] == s.code[j])
  {
    hide Patched, PrefixOk, Chain;
    var d := Patched(s.code, T', F, final, reg, pf, pt);
    forall i | 0 <= i < Pc0(o) ensures d[i] == s.code[i] {
      PatchedInstr(s.code, T', F, final, reg, pf, pt, i);
    }
    forall j | j in s.J ensures d[j].op.OP_JMP? && (j !in T' ==> d[j] == s.code[j]) {
      PatchedInstr(s.code, T', F, final, reg, pf, pt, j);
    }
    PatchedWF(s.code, T', F, final, reg, pf, pt);
  }

  lemma TailPrefix(o: Origin, s: Snap, s3: Snap)
    requires |s.code| > Pc0(o) && PrefixOk(o.base, s) && |s3.code| >= |s.code| && s3.code[..Pc0(o)] == s.code[..Pc0(o)]
    requires s.lt <= s3.lt && s.k <= s3.k && s.ms <= s3.ms
    ensures PrefixOk(o.base, s3)
  {
    var pc0 := Pc0(o);
    assert pc0 > 0 ==> s3.code[pc0 - 1] == s3.code[..pc0][pc0 - 1] == s.code[..pc0][pc0 - 1];
  }

  lemma PlacedDone(o: Origin, s: Snap, e: ExpDesc, T: seq<int>, F: seq<int>, loads: bool, s3: Snap, e3: ExpDesc)
    requires Placed(o, s, e, T, F) && PlacedTail(s, e.info, T, F, loads, s3) && |s.code| > Pc0(o)
    requires e3.k.VNONRELOC? && e3.info == e.info && e3.t == NO_JUMP && e3.f == NO_JUMP
    ensures Placed(o, s3, e3, [], [])
  {
    PlacedDoneCore(o, s, e, T, F, loads, s3, e3);
    hide Core, Run, Input, PlacedTail, PlacedGood;
    forall K: seq<Value>, R: Regs, b: int ensures PlacedAt(o, s3, e3, [], [], K, R, b) {
      if Input(o, s3, Extend(s3, b), K, R, b) {
        PlacedTailAt(o, s, e, T, F, loads, s3, e3, K, R, b);
      }
    }
  }

  lemma PlacedDoneCore(o: Origin, s: Snap, e: ExpDesc, T: seq<int>, F: seq<int>, loads: bool, s3: Snap, e3: ExpDesc)
    requires Core(o, s, e, T, F) && PlacedTail(s, e.info, T, F, loads, s3) && |s.code| > Pc0(o)
    requires e3.t == NO_JUMP && e3.f == NO_JUMP
    ensures Core(o, s3, e3, [], []) && s3.fr == s.fr
  {
    hide PrefixOk, WF, Patched;
    var n, pc0, final := |s.code|, Pc0(o), |s3.code|;
    var d := Patched(s.code, T, F, final, e.info, n + 1, n + 2);
    ListFacts(o, s, e, T, F);
    PatchedKeeps(o, s, e, T, F, T, final, e.info, n + 1, n + 2);
    assert s3.code[..pc0] == s3.code[..n][..pc0] == d[..pc0];
    TailPrefix(o, s, s3);
    TailWF(s3.code, n);
    forall j | j in s3.J ensures pc0 <= j < final && s3.code[j].op.OP_JMP? {
      if j in s.J { assert s3.code[j] == s3.code[..n][j]; }
    }
    if loads { DistinctConcat([n], s.J); }
  }

  lemma JumpDone(o: Origin, s: Snap, e: ExpDesc, T: seq<int>, F: seq<int>, reg: int, s3: Snap, e3: ExpDesc)
    requires Compiled(o, s, e, T, F) && e.k.VJMP? && JumpTail(s, reg, T, F, s3)
    requires e3.k.VNONRELOC? && e3.info == reg && e3.t == NO_JUMP && e3.f == NO_JUMP
    ensures Placed(o, s3, e3, [], [])
  {
    JumpDoneCore(o, s, e, T, F, reg, s3, e3);
    hide Core, Run, Input, PlacedGood;
    forall K: seq<Value>, R: Regs, b: int ensures PlacedAt(o, s3, e3, [], [], K, R, b) {
      if Input(o, s3, Extend(s3, b), K, R, b) {
        JumpTailAt(o, s, e, T, F, reg, s3, e3, K, R, b);
      }
    }
  }

  lemma JumpDoneCore(o: Origin, s: Snap, e: ExpDesc, T: seq<int>, F: seq<int>, reg: int, s3: Snap, e3: ExpDesc)
    requires Core(o, s, e, T, F) && KindOk(o, s, e, T, F) && e.k.VJMP? && JumpTail(s, reg, T, F, s3)
    requires e3.t == NO_JUMP && e3.f == NO_JUMP
    ensures Core(o, s3, e3, [], [])
  {
    hide PrefixOk, WF, Patched;
    var n, pc0 := |s.code|, Pc0(o);
    var T' := T + [n - 1];
    var d := Patched(s.code, T', F, n + 2, reg, n, n + 1);
    JumpLists2(o, s, e, T, F);
    PatchedKeeps(o, s, e, T, F, T', n + 2, reg, n, n + 1);
    assert s3.code[..pc0] == s3.code[..n][..pc0] == d[..pc0];
    TailPrefix(o, s, s3);
    TailWF(s3.code, n);
  }

  // ----- how the method's steps add up -----

  /** Patching the longer code patches its beginning, and nothing after it. */
  lemma PatchedPrefix(code: Code, full: Code, T: seq<int>, F: seq<int>, final: int, reg: int, pf: int, pt: int)
    requires |code| <= |full| && WF(code) && WF(full) && Disjoint(T, F)
    requires forall j :: j in T || j in F ==> 0 < j < |code| && code[j].op.OP_JMP? && IsTest(code[j - 1].op)
    requires forall i :: 0 <= i < |code| ==> full[i] == code[i] || (i in T && full[i] == code[i].(b := full[i].b))
    ensures Patched(full, T, F, final, reg, pf, pt)[..|code|] == Patched(code, T, F, final, reg, pf, pt)
    ensures forall i :: |code| <= i < |full| ==> Patched(full, T, F, final, reg, pf, pt)[i] == full[i]
  {
    hide Patched, WF;
    var d, n := Patched(full, T, F, final, reg, pf, pt), |code|;
    forall j | j in T || j in F ensures 0 < j < |full| && full[j].op.OP_JMP? && full[j - 1] == code[j - 1] {
      assert j - 1 !in T;
    }
    forall i | 0 <= i < |full|
      ensures i < n ==> d[i] == Patched(code, T, F, final, reg, pf, pt)[i]
      ensures i >= n ==> d[i] == full[i]
    {
      PatchedInstr(full, T, F, final, reg, pf, pt, i);
      if i < n { PatchedInstr(code, T, F, final, reg, pf, pt, i); }
    }
  }

  /** Where every exit carries its value, the LOADBOOLs do not matter. */
  lemma PatchedAllValues(code: Code, T: seq<int>, F: seq<int>, final: int, reg: int, pf: int, pt: int, pf': int,
      pt': int)
    requires WF(code) && Disjoint(T, F)
    requires forall j :: j in T || j in F ==>
      0 < j < |code| && code[j].op.OP_JMP? && IsTest(code[j - 1].op) && HasValue(code, j)
    ensures Patched(code, T, F, final, reg, pf, pt) == Patched(code, T, F, final, reg, pf', pt')
  {
    hide Patched, WF;
    forall i | 0 <= i < |code|
      ensures Patched(code, T, F, final, reg, pf, pt)[i] == Patched(code, T, F, final, reg, pf', pt')[i]
    {
      PatchedInstr(code, T, F, final, reg, pf, pt, i);
      PatchedInstr(code, T, F, final, reg, pf', pt', i);
    }
  }

  /** The t list is still a list when the f list has been patched. */
  lemma PatchKeepsChain(code: Code, F: seq<int>, final: int, reg: int, pf: int, h: int, s: seq<int>)
    requires Chain(code, h, s) && Disjoint(s, F)
    ensures Chain(PatchList(code, F, final, reg, pf), h, s)
  {
    var d := PatchList(code, F, final, reg, pf);
    forall i | i in s && 0 <= i < |code| ensures d[i] == code[i] {
      ChainMember(code, h, s, i);
      assert d[i] == PatchedAt(code, F, i, final, reg, pf);
    }
    ChainKeep(code, d, h, s);
  }
}
