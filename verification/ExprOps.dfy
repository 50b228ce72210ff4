/** Each operation of the code generator keeps the meaning of the expression. */
module ExprOps {
  import opened Wrappers
  import opened LuaVM
  import opened JumpLists
  import opened CodeSem
  import opened ExprSpec
  import opened ExprLemmas

  // ----- emitting instructions -----

  /** s2 is s after luaK_code has emitted ins. */
  ghost predicate Emitted(s: Snap, s2: Snap, ins: seq<Instruction>) {
    && |ins| > 0
    && s2.code == Discharge(s.code, s.J) + ins
    && s2.J == []
    && s.lt <= s2.lt <= |s2.code| && s.k <= s2.k && s.ms <= s2.ms && 0 <= s2.fr <= s2.ms < NO_REG
  }

  /** The new instructions bring their own jumps behind their own tests. */
  ghost predicate PairsOk(ins: seq<Instruction>) {
    forall i :: 0 <= i < |ins| && IsTest(ins[i].op) ==> i + 1 < |ins| && ins[i + 1].op.OP_JMP?
  }

  lemma EmitWF(s: Snap, s2: Snap, ins: seq<Instruction>)
    requires SnapOk(s) && Emitted(s, s2, ins) && PairsOk(ins)
    ensures SnapOk(s2)
  {
    PatchWF(s.code, s.J, |s.code|, NO_REG, |s.code|);
    var n := |s.code|;
    forall i | 0 <= i < |s2.code| && IsTest(s2.code[i].op)
      ensures i + 1 < |s2.code| && s2.code[i + 1].op.OP_JMP?
    {
      if i < n {
        assert s2.code[i] == Discharge(s.code, s.J)[i];
      } else {
        assert s2.code[i] == ins[i - n];
      }
    }
  }

  /** Discharging touches neither the code before the expression nor its open jumps. */
  lemma DischargeKeeps(s: Snap, i: int)
    requires SnapOk(s) && 0 <= i < |s.code| && i !in s.J && (i + 1 in s.J ==> !s.code[i].op.OP_TESTSET?)
    ensures Discharge(s.code, s.J)[i] == s.code[i]
  {
  }

  lemma DischargePrefix(s: Snap, pc0: int)
    requires SnapOk(s) && 0 <= pc0 < |s.code| && In(s.J, pc0, |s.code|)
    requires pc0 > 0 ==> !IsTest(s.code[pc0 - 1].op)
    ensures Discharge(s.code, s.J)[..pc0] == s.code[..pc0]
  {
  }

  /** No test ends a well-formed code, so none straddles a later start. */
  lemma PrefixNoTest(o: Origin, s: Snap)
    requires SnapOk(o.base) && PrefixOk(o.base, s)
    ensures Pc0(o) > 0 ==> !IsTest(s.code[Pc0(o) - 1].op)
  {
    var pc0 := Pc0(o);
    if pc0 > 0 {
      assert s.code[pc0 - 1] == s.code[..pc0][pc0 - 1];
      assert !IsTest(o.base.code[pc0 - 1].op);
      var b := LastB(s.code, pc0);
      assert !IsTest(Extend(o.base, b)[pc0 - 1].op);
    }
  }

  lemma EmitPrefix(o: Origin, s: Snap, s2: Snap, ins: seq<Instruction>)
    requires SnapOk(o.base) && SnapOk(s) && PrefixOk(o.base, s) && Emitted(s, s2, ins)
    requires |s.code| > Pc0(o) ==> In(s.J, Pc0(o), |s.code|)
    ensures PrefixOk(o.base, s2)
  {
    var pc0 := Pc0(o);
    PrefixNoTest(o, s);
    var d := Discharge(s.code, s.J);
    assert s2.code[..pc0] == d[..pc0];
    if |s.code| > pc0 {
      DischargePrefix(s, pc0);
    } else {
      assert s.code == s.code[..pc0] && d == d[..pc0];
      if pc0 > 0 {
        assert s2.code[pc0 - 1] == d[pc0 - 1];
        LastBDischarge(s, pc0);
      }
    }
  }

  lemma LastBDischarge(s: Snap, pc0: int)
    requires SnapOk(s) && 0 < pc0 == |s.code|
    ensures Extend(s, s.code[pc0 - 1].b) == s.code
    ensures s.code[pc0 - 1].op.OP_LOADNIL? ==> Discharge(s.code, s.J)[pc0 - 1] == s.code[pc0 - 1]
  {
  }

  /** The open lists survive the emission. */
  lemma EmitList(s: Snap, s2: Snap, ins: seq<Instruction>, pc0: int, h: int, T: seq<int>)
    requires SnapOk(s) && Emitted(s, s2, ins) && Chain(s.code, h, T) && ExitList(s.code, pc0, T) && Disjoint(T, s.J)
    ensures Chain(s2.code, h, T) && ExitList(s2.code, pc0, T)
    ensures forall j :: j in T && 0 < j < |s.code| ==> s2.code[j - 1] == s.code[j - 1]
  {
    forall j | j in T
      ensures 0 < j < |s.code| && s2.code[j] == s.code[j] && s2.code[j - 1] == s.code[j - 1]
    {
      ChainMember(s.code, h, T, j);
      DischargeKeeps(s, j);
      assert s2.code[j] == Discharge(s.code, s.J)[j];
      DischargeKeeps(s, j - 1);
      assert s2.code[j - 1] == Discharge(s.code, s.J)[j - 1];
    }
    ChainKeep(s.code, s2.code, h, T);
  }

  lemma EmitCore(o: Origin, s: Snap, e: ExpDesc, T: seq<int>, F: seq<int>, s2: Snap, e2: ExpDesc, ins: seq<Instruction>)
    requires Core(o, s, e, T, F) && Emitted(s, s2, ins) && PairsOk(ins)
    requires e2.t == e.t && e2.f == e.f && o.base.fr <= s2.fr
    ensures Core(o, s2, e2, T, F)
  {
    EmitWF(s, s2, ins);
    EmitPrefix(o, s, s2, ins);
    EmitList(s, s2, ins, Pc0(o), e.t, T);
    EmitList(s, s2, ins, Pc0(o), e.f, F);
  }

  function NeutralB(s: Snap): int { LastB(s.code, |s.code|) }

  lemma ExtendNeutral(s: Snap)
    ensures Extend(s, NeutralB(s)) == s.code
  {
  }

  /** The input of the longer code is an input of the code before the emission. */
  lemma InputBack(o: Origin, s: Snap, s2: Snap, ins: seq<Instruction>, K: seq<Value>, R: Regs, b: int)
    requires SnapOk(s) && Emitted(s, s2, ins) && SnapOk(o.base) && PrefixOk(o.base, s)
    requires |s.code| > Pc0(o) ==> In(s.J, Pc0(o), |s.code|)
    requires 0 <= o.nact <= s.ms
    requires Input(o, s2, Extend(s2, b), K, R, b)
    ensures Input(o, s, s.code, K, R, NeutralB(s))
  {
    var pc0 := Pc0(o);
    if pc0 > 0 {
      PrefixNoTest(o, s);
      assert Extend(s2, b)[pc0 - 1] == s2.code[pc0 - 1];
      assert s2.code[pc0 - 1] == Discharge(s.code, s.J)[pc0 - 1];
      assert s.code[pc0 - 1].op.OP_LOADNIL? ==> s.code[pc0 - 1] == s2.code[pc0 - 1];
    }
  }

  /** The run of the longer code: the old run, carried on at the first new instruction. */
  lemma EmitRun(o: Origin, s: Snap, TF: set<int>, s2: Snap, ins: seq<Instruction>, b: int, P2: set<int>, end: int,
      K: seq<Value>, R: Regs)
    requires SnapOk(s) && Emitted(s, s2, ins) && Pc0(o) <= |s.code| <= end <= |s2.code|
    requires forall x :: x in TF ==> 0 <= x < |s.code| && s.code[x].op.OP_JMP? && x !in s.J
    requires forall j :: Pc0(o) <= j < |s.code| ==> (j in P2 <==> j in TF)
    requires !Run(s.code, K, o.p, TF + ToSet(s.J), |s.code|, Pc0(o), R).Wrong?
    ensures Run(Extend(s2, b), K, o.p, P2, end, Pc0(o), R)
         == Onward(Extend(s2, b), K, o.p, P2, end, |s.code|, s.J,
                   Run(s.code, K, o.p, TF + ToSet(s.J), |s.code|, Pc0(o), R))
  {
    var c2, d := Extend(s2, b), Discharge(s.code, s.J);
    forall i | Pc0(o) <= i < |s.code| ensures SimAt(d, c2, TF, i) {
      assert c2[i] == s2.code[i] == d[i];
      if i in TF {
        DischargeKeeps(s, i);
      }
    }
    OnwardRun(s.code, s.J, c2, TF, TF + ToSet(s.J), P2, Pc0(o), end, K, o.p, R);
  }

  lemma OpenIsJump(o: Origin, s: Snap, e: ExpDesc, T: seq<int>, F: seq<int>, i: int)
    requires Core(o, s, e, T, F) && (i in T || i in F)
    ensures 0 <= i < |s.code| && s.code[i].op.OP_JMP? && i !in s.J
  {
    if i in T {
      ChainMember(s.code, e.t, T, i);
    } else {
      ChainMember(s.code, e.f, F, i);
    }
  }

  // ----- emitting the instruction that computes the value -----

  /** The state just before the instruction i computes the value of o.x. */
  ghost predicate ReadyGood(o: Origin, s: Snap, e: ExpDesc, T: seq<int>, F: seq<int>, i: Instruction, K: seq<Value>,
      R: Regs, out: Outcome)
    requires 0 <= o.nact <= |R|
  {
    var res := Eval(o.x, o.p, R[..o.nact]);
    match out
    case Fall(R') => Kept(R, R', o.base.fr) && Computes(i, K, o.p, R') == Some(res)
    case Exit(j, R', tested) =>
      && Kept(R, R', o.base.fr)
      && (|| (tested && j in T && ValueOf(s.code, j, R', res, true))
          || (tested && j in F && ValueOf(s.code, j, R', res, false))
          || (j in s.J && Computes(i, K, o.p, R') == Some(res)))
    case Error => res == Err
    case Wrong => false
  }

  ghost predicate ReadyAt(o: Origin, s: Snap, e: ExpDesc, T: seq<int>, F: seq<int>, i: Instruction, k2: seq<Value>,
      K: seq<Value>, R: Regs) {
    Input(o, s, s.code, K, R, NeutralB(s)) && k2 <= K ==>
      ReadyGood(o, s, e, T, F, i, K, R, Run(s.code, K, o.p, ToSet(T) + ToSet(F) + ToSet(s.J), |s.code|, Pc0(o), R))
  }

  ghost predicate Ready(o: Origin, s: Snap, e: ExpDesc, T: seq<int>, F: seq<int>, i: Instruction, k2: seq<Value>) {
    && Core(o, s, e, T, F) && IsOpen(i, o.base.fr)
    && forall K: seq<Value>, R: Regs :: ReadyAt(o, s, e, T, F, i, k2, K, R)
  }

  lemma EmitCompute(o: Origin, s: Snap, e: ExpDesc, T: seq<int>, F: seq<int>, i: Instruction, s2: Snap, e2: ExpDesc)
    requires Ready(o, s, e, T, F, i, s2.k) && Emitted(s, s2, [i]) && s2.fr == o.base.fr
    requires e2.k.VRELOCABLE? && e2.info == |s.code| && e2.t == e.t && e2.f == e.f
    ensures Compiled(o, s2, e2, T, F)
  {
    EmitCore(o, s, e, T, F, s2, e2, [i]);
    forall K: seq<Value>, R: Regs, b: int ensures SemAt(o, s2, e2, T, F, K, R, b) {
      if Input(o, s2, Extend(s2, b), K, R, b) {
        EmitComputeAt(o, s, e, T, F, i, s2, e2, K, R, b);
      }
    }
  }

  lemma EmitComputeAt(o: Origin, s: Snap, e: ExpDesc, T: seq<int>, F: seq<int>, i: Instruction, s2: Snap, e2: ExpDesc,
      K: seq<Value>, R: Regs, b: int)
    requires Ready(o, s, e, T, F, i, s2.k) && Emitted(s, s2, [i]) && s2.fr == o.base.fr
    requires e2.k.VRELOCABLE? && e2.info == |s.code| && e2.t == e.t && e2.f == e.f
    requires Input(o, s2, Extend(s2, b), K, R, b)
    ensures SemAt(o, s2, e2, T, F, K, R, b)
  {
    hide Run, Chain, PrefixOk, Eval;
    var m, TF := |s.code|, ToSet(T) + ToSet(F);
    InputBack(o, s, s2, [i], K, R, b);
    assert ReadyAt(o, s, e, T, F, i, s2.k, K, R);
    forall x | x in TF ensures 0 <= x < |s.code| && s.code[x].op.OP_JMP? && x !in s.J {
      OpenIsJump(o, s, e, T, F, x);
    }
    var P2 := Pend(T, F, s2.J);
    assert P2 == TF;
    EmitRun(o, s, TF, s2, [i], b, P2, m, K, R);
    var out := Run(s.code, K, o.p, TF + ToSet(s.J), m, Pc0(o), R);
    assert out.Fall? || out.Exit? ==> Run(Extend(s2, b), K, o.p, P2, m, m, out.regs) == Fall(out.regs) by {
      if out.Fall? || out.Exit? { RunEnd(Extend(s2, b), K, o.p, P2, m, out.regs); }
    }
    EmitList(s, s2, [i], Pc0(o), e.t, T);
    EmitList(s, s2, [i], Pc0(o), e.f, F);
  }

  // ----- discharge2reg -----

  /** s2 is s with the last instruction's target register set, and perhaps more registers reserved. */
  ghost predicate TargetSet(s: Snap, s2: Snap, reg: int) {
    && |s.code| > 0
    && s2.code == s.code[|s.code| - 1 := s.code[|s.code| - 1].(a := reg)]
    && s2.J == s.J && s2.lt == s.lt && s.k <= s2.k && s.ms <= s2.ms && 0 <= reg < s2.fr <= s2.ms < NO_REG
  }

  lemma SetTargetCore(o: Origin, s: Snap, e: ExpDesc, T: seq<int>, F: seq<int>, s2: Snap, e2: ExpDesc, reg: int)
    requires Core(o, s, e, T, F) && KindOk(o, s, e, T, F) && e.k.VRELOCABLE? && TargetSet(s, s2, reg)
    requires o.base.fr <= s2.fr
    requires e2.t == e.t && e2.f == e.f
    ensures Core(o, s2, e2, T, F)
  {
    var n := |s.code|;
    forall j | j in T || j in F ensures 0 < j < n - 1 {
      OpenIsJump(o, s, e, T, F, j);
    }
    ChainKeep(s.code, s2.code, e.t, T);
    ChainKeep(s.code, s2.code, e.f, F);
    assert s2.code[..Pc0(o)] == s.code[..Pc0(o)];
    forall i | 0 <= i < n && IsTest(s2.code[i].op) ensures i + 1 < n && s2.code[i + 1].op.OP_JMP? {
      assert IsTest(s.code[i].op);
    }
  }

  lemma RunEnd(c: Code, K: seq<Value>, p: Prims, P: set<int>, end: int, R: Regs)
    ensures Run(c, K, p, P, end, end, R) == Fall(R)
  {
  }

  /** What running the computing instruction i with target register reg leads to. */
  function Stored(i: Instruction, K: seq<Value>, p: Prims, reg: int, R: Regs): Outcome {
    match Computes(i, K, p, R)
    case Some(Ok(v)) => if InReg(R, reg) then Fall(Worked(i, p, R)[reg := v]) else Wrong
    case Some(Err) => Error
    case None => Wrong
  }

  lemma LastCompute(c: Code, K: seq<Value>, p: Prims, P: set<int>, R: Regs)
    requires |c| > 0 && (IsCompute(c[|c| - 1]) || c[|c| - 1].op.OP_CONCAT?)
    ensures Run(c, K, p, P, |c|, |c| - 1, R) == Stored(c[|c| - 1], K, p, c[|c| - 1].a, R)
  {
  }

  /** Changing the target of the last instruction leaves the code before it alone. */
  lemma BeforeLast(c: Code, c2: Code, K: seq<Value>, p: Prims, P: set<int>, pc0: int, R: Regs)
    requires |c| > 0 && 0 <= pc0 < |c| && |c2| == |c| && (forall i :: 0 <= i < |c| - 1 ==> c2[i] == c[i])
    requires forall j :: j in P ==> 0 <= j < |c| - 1 && c[j].op.OP_JMP?
    requires !Run(c, K, p, P, |c| - 1, pc0, R).Wrong?
    ensures Run(c2, K, p, P, |c|, pc0, R) == Resume(c2, K, p, P, |c|, |c| - 1, Run(c, K, p, P, |c| - 1, pc0, R))
  {
    hide Run, Resume;
    forall i | pc0 <= i < |c| - 1 ensures SimAt(c, c2, P, i) {
      assert c2[i] == c[i];
    }
    Advance(c, c2, K, p, P, P, pc0, |c| - 1, |c|, R);
  }

  /** Running the last instruction once its target is known. */
  lemma TargetRun(c: Code, c2: Code, K: seq<Value>, p: Prims, P: set<int>, pc0: int, reg: int, R: Regs)
    requires |c| > 0 && 0 <= pc0 < |c| && c2 == c[|c| - 1 := c[|c| - 1].(a := reg)]
    requires IsCompute(c[|c| - 1]) || c[|c| - 1].op.OP_CONCAT?
    requires forall j :: j in P ==> 0 <= j < |c| - 1 && c[j].op.OP_JMP?
    requires !Run(c, K, p, P, |c| - 1, pc0, R).Wrong?
    ensures Run(c2, K, p, P, |c|, pc0, R) ==
      var out := Run(c, K, p, P, |c| - 1, pc0, R);
      if out.Fall? then Stored(c[|c| - 1], K, p, reg, out.regs) else out
  {
    hide Run, Computes, Resume, IsCompute, Stored;
    BeforeLast(c, c2, K, p, P, pc0, R);
    ExitFacts(c, K, p, P, |c| - 1, pc0, R);
    var out := Run(c, K, p, P, |c| - 1, pc0, R);
    ResumeCases(c2, K, p, P, |c|, |c| - 1, out);
    if out.Fall? {
      LastCompute(c2, K, p, P, out.regs) by { SameIsCompute(c[|c| - 1], reg); }
      SameStored(c[|c| - 1], reg, K, p, out.regs);
    }
  }

  lemma ResumeCases(c: Code, K: seq<Value>, p: Prims, P: set<int>, end: int, m: int, out: Outcome)
    ensures out.Fall? ==> Resume(c, K, p, P, end, m, out) == Run(c, K, p, P, end, m, out.regs)
    ensures (out.Exit? ==> out.j in P) && !out.Fall? ==> Resume(c, K, p, P, end, m, out) == out
  {
    hide Run;
  }

  lemma SameIsCompute(i: Instruction, reg: int)
    ensures IsCompute(i.(a := reg)) == IsCompute(i)
  {
  }

  lemma SameStored(i: Instruction, reg: int, K: seq<Value>, p: Prims, R: Regs)
    ensures Stored(i.(a := reg), K, p, reg, R) == Stored(i, K, p, reg, R)
  {
    SameCompute(i, reg, K, p, R);
    hide Computes;
  }

  lemma SameCompute(i: Instruction, reg: int, K: seq<Value>, p: Prims, R: Regs)
    ensures Computes(i.(a := reg), K, p, R) == Computes(i, K, p, R)
  {
  }

  lemma SetTargetAt(o: Origin, s: Snap, e: ExpDesc, T: seq<int>, F: seq<int>, s2: Snap, e2: ExpDesc, reg: int,
      K: seq<Value>, R: Regs, b: int)
    requires Compiled(o, s, e, T, F) && e.k.VRELOCABLE? && TargetSet(s, s2, reg)
    requires e2.k.VNONRELOC? && e2.info == reg && e2.t == e.t && e2.f == e.f
    requires Input(o, s2, Extend(s2, b), K, R, b)
    ensures PlacedAt(o, s2, e2, T, F, K, R, b)
  {
    hide Run, Chain, PrefixOk, Computes, Eval, Describes;
    assert Extend(s2, b) == s2.code && Extend(s, b) == s.code;
    assert SemAt(o, s, e, T, F, K, R, b);
    var P := Pend(T, F, s.J);
    assert P == Pend(T, F, s2.J);
    forall j | j in P ensures 0 <= j < |s.code| - 1 && s.code[j].op.OP_JMP? {
      OpenIsJump(o, s, e, T, F, j);
    }
    TargetRun(s.code, s2.code, K, o.p, P, Pc0(o), reg, R);
  }

  lemma SetTarget(o: Origin, s: Snap, e: ExpDesc, T: seq<int>, F: seq<int>, s2: Snap, e2: ExpDesc, reg: int)
    requires Compiled(o, s, e, T, F) && e.k.VRELOCABLE? && TargetSet(s, s2, reg) && o.base.fr <= s2.fr
    requires e2.k.VNONRELOC? && e2.info == reg && e2.t == e.t && e2.f == e.f
    ensures Placed(o, s2, e2, T, F)
  {
    SetTargetCore(o, s, e, T, F, s2, e2, reg);
    forall K: seq<Value>, R: Regs, b: int ensures PlacedAt(o, s2, e2, T, F, K, R, b) {
      if Input(o, s2, Extend(s2, b), K, R, b) {
        SetTargetAt(o, s, e, T, F, s2, e2, reg, K, R, b);
      }
    }
  }

  /** Emitting an instruction that computes the value into reg. */
  lemma EmitPlaced(o: Origin, s: Snap, e: ExpDesc, T: seq<int>, F: seq<int>, i: Instruction, s2: Snap, e2: ExpDesc)
    requires Ready(o, s, e, T, F, i, s2.k) && Emitted(s, s2, [i]) && o.base.fr <= s2.fr && 0 <= i.a < s2.fr
    requires e2.k.VNONRELOC? && e2.info == i.a && e2.t == e.t && e2.f == e.f
    ensures Placed(o, s2, e2, T, F)
  {
    var sm := s2.(fr := o.base.fr);
    var em := ExpDesc(VRELOCABLE, |s.code|, 0, e.t, e.f);
    EmitCompute(o, s, e, T, F, i, sm, em);
    SetTarget(o, sm, em, T, F, s2, e2, i.a);
  }

  /** A value in a fresh temporary is an ordinary non-relocatable expression. */
  lemma PlacedTemp(o: Origin, s: Snap, e: ExpDesc, T: seq<int>, F: seq<int>)
    requires Placed(o, s, e, T, F) && e.info == o.base.fr && s.fr == o.base.fr + 1
    ensures Compiled(o, s, e, T, F)
  {
    forall K: seq<Value>, R: Regs, b: int ensures SemAt(o, s, e, T, F, K, R, b) {
      assert PlacedAt(o, s, e, T, F, K, R, b);
    }
  }

  /** A value already in the right register. */
  lemma AlreadyPlaced(o: Origin, s: Snap, e: ExpDesc, T: seq<int>, F: seq<int>)
    requires Compiled(o, s, e, T, F) && e.k.VNONRELOC? && 0 <= e.info < s.fr
    ensures Placed(o, s, e, T, F)
  {
    forall K: seq<Value>, R: Regs, b: int ensures PlacedAt(o, s, e, T, F, K, R, b) {
      assert SemAt(o, s, e, T, F, K, R, b);
    }
  }

  /** luaK_nil widening the LOADNIL before the expression, or relying on clean registers. */
  lemma WidenedNil(o: Origin, s: Snap, e: ExpDesc, s2: Snap, e2: ExpDesc, reg: int)
    requires Compiled(o, s, e, [], []) && e.k.VNIL? && |s.code| == Pc0(o) && s.lt < |s.code|
    requires s2.J == s.J && s2.lt == s.lt && s.k <= s2.k && s.ms <= s2.ms && o.base.fr <= s2.fr <= s2.ms < NO_REG
    requires e2.k.VNONRELOC? && e2.info == reg && e2.t == e.t && e2.f == e.f && 0 <= reg < s2.fr
    requires var n := |s.code|;
      if n == 0 then s2.code == s.code && reg >= o.nact
      else var l := s.code[n - 1];
        && l.op.OP_LOADNIL? && l.a <= reg
        && (if reg <= l.b then s2.code == s.code
            else reg == l.b + 1 && o.base.fr <= reg && s2.code == s.code[n - 1 := l.(b := reg)])
    ensures Placed(o, s2, e2, [], [])
  {
    var n := |s.code|;
    assert Core(o, s2, e2, [], []) by {
      assert s.code == s.code[..n] && s2.code == s2.code[..n];
      assert WF(s2.code);
    }
    assert SnapOk(s) && 0 <= o.nact <= o.base.fr;
    hide Core, SnapOk, KindOk;
    forall K: seq<Value>, R: Regs, b: int ensures PlacedAt(o, s2, e2, [], [], K, R, b) {
      if Input(o, s2, Extend(s2, b), K, R, b) {
        WidenedNilAt(o, s, e, s2, e2, reg, K, R, b);
      }
    }
  }

  lemma WidenedNilAt(o: Origin, s: Snap, e: ExpDesc, s2: Snap, e2: ExpDesc, reg: int, K: seq<Value>, R: Regs, b: int)
    requires Sem(o, s, e, [], []) && SnapOk(s) && 0 <= o.nact <= o.base.fr && e.k.VNIL? && |s.code| == Pc0(o)
    requires s.lt < |s.code|
    requires s2.J == s.J && s2.lt == s.lt && s.k <= s2.k && s.ms <= s2.ms && o.base.fr <= s2.fr <= s2.ms < NO_REG
    requires e2.k.VNONRELOC? && e2.info == reg && 0 <= reg < s2.fr
    requires var n := |s.code|;
      if n == 0 then s2.code == s.code && reg >= o.nact
      else var l := s.code[n - 1];
        && l.op.OP_LOADNIL? && l.a <= reg
        && (if reg <= l.b then s2.code == s.code
            else reg == l.b + 1 && o.base.fr <= reg && s2.code == s.code[n - 1 := l.(b := reg)])
    requires o.nact <= s.ms && o.base.lt <= s.lt
    requires Input(o, s2, Extend(s2, b), K, R, b)
    ensures PlacedAt(o, s2, e2, [], [], K, R, b)
  {
    hide Eval, WF;
    var cx, P := Extend(s2, b), Pend([], [], s.J);
    assert Input(o, s, s.code, K, R, NeutralB(s));
    ExtendNeutral(s);
    assert SemAt(o, s, e, [], [], K, R, NeutralB(s));
    RunEnd(s.code, K, o.p, P, |s.code|, R);
    RunEnd(cx, K, o.p, P, |cx|, R);
    hide Run, Input;
    assert Holds(R, reg, Eval(o.x, o.p, R[..o.nact]));
  }

  /** More constants or a larger stack change nothing. */
  lemma RaiseLimits(o: Origin, s: Snap, s2: Snap, e: ExpDesc, T: seq<int>, F: seq<int>)
    requires Compiled(o, s, e, T, F)
    requires s2 == s.(k := s2.k, ms := s2.ms) && s.k <= s2.k && s.ms <= s2.ms < NO_REG
    ensures Compiled(o, s2, e, T, F)
  {
    hide Run, Eval, Good, Extend;
    forall K: seq<Value>, R: Regs, b: int
      ensures SemAt(o, s2, e, T, F, K, R, b)
    {
      RaiseLimitsAt(o, s, s2, e, T, F, K, R, b);
    }
  }

  lemma RaiseLimitsAt(o: Origin, s: Snap, s2: Snap, e: ExpDesc, T: seq<int>, F: seq<int>, K: seq<Value>, R: Regs,
      b: int)
    requires SemAt(o, s, e, T, F, K, R, b)
    requires s2 == s.(k := s2.k, ms := s2.ms) && s.k <= s2.k && s.ms <= s2.ms && o.nact <= s.ms
    ensures SemAt(o, s2, e, T, F, K, R, b)
  {
    hide Run, Eval, Entry, FallOk, ExitOk;
    assert Extend(s2, b) == Extend(s, b) && |s2.code| == |s.code|;
    if Input(o, s2, Extend(s2, b), K, R, b) {
      assert s.k <= K;
      assert Input(o, s, Extend(s, b), K, R, b);
    }
  }

  /** A fresh LOADNIL at the end of the code, however far it is widened later. */
  lemma LastNil(c: Code, K: seq<Value>, p: Prims, P: set<int>, reg: int, R: Regs)
    requires |c| > 0 && c[|c| - 1].op.OP_LOADNIL? && c[|c| - 1].a == reg && 0 <= reg <= c[|c| - 1].b < |R|
    ensures Run(c, K, p, P, |c|, |c| - 1, R) == Fall(FillNil(R, reg, c[|c| - 1].b))
  {
  }

  lemma EmitNilAt(o: Origin, s: Snap, e: ExpDesc, T: seq<int>, F: seq<int>, reg: int, s2: Snap, e2: ExpDesc,
      K: seq<Value>, R: Regs, b: int)
    requires Compiled(o, s, e, T, F) && e.k.VNIL? && o.base.fr <= reg < s2.fr
    requires Emitted(s, s2, [Instruction(OP_LOADNIL, reg, reg, 0)]) && e2.info == reg
    requires Input(o, s2, Extend(s2, b), K, R, b)
    ensures PlacedAt(o, s2, e2, T, F, K, R, b)
  {
    hide Run, PrefixOk, Eval, Chain, KindOk;
    var i := Instruction(OP_LOADNIL, reg, reg, 0);
    var m, TF, c2 := |s.code|, ToSet(T) + ToSet(F), Extend(s2, b);
    InputBack(o, s, s2, [i], K, R, b);
    ExtendNeutral(s);
    assert SemAt(o, s, e, T, F, K, R, NeutralB(s));
    forall x | x in TF ensures 0 <= x < m && s.code[x].op.OP_JMP? && x !in s.J {
      OpenIsJump(o, s, e, T, F, x);
    }
    assert s2.code[m] == i && c2[m].op.OP_LOADNIL? && c2[m].a == reg <= c2[m].b;
    var P2 := Pend(T, F, s2.J);
    assert P2 == TF && m !in P2;
    EmitRun(o, s, TF, s2, [i], b, P2, m + 1, K, R);
    EmitList(s, s2, [i], Pc0(o), e.t, T);
    EmitList(s, s2, [i], Pc0(o), e.f, F);
    var out := Run(s.code, K, o.p, TF + ToSet(s.J), m, Pc0(o), R);
    assert c2[m].b < |R|;
    EmitNilOut(o, s, e, T, F, reg, s2, c2, P2, K, R, out);
  }

  lemma EmitNilOut(o: Origin, s: Snap, e: ExpDesc, T: seq<int>, F: seq<int>, reg: int, s2: Snap, c2: Code,
      P2: set<int>, K: seq<Value>, R: Regs, out: Outcome)
    requires e.k.VNIL? && 0 <= o.base.fr <= reg && 0 <= o.nact <= |R| && Disjoint(T, s.J) && Disjoint(F, s.J)
    requires |c2| == |s.code| + 1 && c2[|s.code|].op.OP_LOADNIL? && c2[|s.code|].a == reg <= c2[|s.code|].b < |R|
    requires Good(o, s.code, s.lt, s.J, e, T, F, K, R, out)
    requires forall j :: (j in T || j in F) && 0 < j < |s.code| ==> c2[j - 1] == s.code[j - 1]
    requires s2.J == []
    ensures PlacedGood(o, c2, s2.lt, s2.J, reg, T, F, R, Onward(c2, K, o.p, P2, |c2|, |s.code|, s.J, out))
  {
    hide Run, Eval;
    if out.Fall? || (out.Exit? && out.j in s.J) {
      LastNil(c2, K, o.p, P2, reg, out.regs);
    }
  }

  lemma EmitNil(o: Origin, s: Snap, e: ExpDesc, T: seq<int>, F: seq<int>, reg: int, s2: Snap, e2: ExpDesc)
    requires Compiled(o, s, e, T, F) && e.k.VNIL? && o.base.fr <= reg < s2.fr
    requires Emitted(s, s2, [Instruction(OP_LOADNIL, reg, reg, 0)])
    requires e2.k.VNONRELOC? && e2.info == reg && e2.t == e.t && e2.f == e.f
    ensures Placed(o, s2, e2, T, F)
  {
    EmitCore(o, s, e, T, F, s2, e2, [Instruction(OP_LOADNIL, reg, reg, 0)]);
    hide Run, Core, Input, PlacedGood, Compiled;
    forall K: seq<Value>, R: Regs, b: int ensures PlacedAt(o, s2, e2, T, F, K, R, b) {
      if Input(o, s2, Extend(s2, b), K, R, b) {
        EmitNilAt(o, s, e, T, F, reg, s2, e2, K, R, b);
      }
    }
  }
}
