/** `..`: operands in consecutive registers, and concatenations merged into one instruction. */
module ExprConcat {
  import opened Wrappers
  import opened LuaVM
  import opened JumpLists
  import opened CodeSem
  import opened ExprSpec
  import opened ExprOps
  import opened ExprSeq
  import opened ExprAndOr
  import opened ExprBoth

  /** The value is in a new register on top of the stack. */
  ghost predicate OnTop(o: Origin, s: Snap, e: ExpDesc) {
    && e.t == NO_JUMP && e.f == NO_JUMP && Operand(o, s, e)
    && e.k.VNONRELOC? && e.info == o.base.fr && s.fr == o.base.fr + 1
  }

  /** Two registers next to each other. */
  lemma ConcatTwo(p: Prims, K: seq<Value>, R: Regs, i: Instruction)
    requires i.op.OP_CONCAT? && 0 <= i.b && i.c == i.b + 1 < |R|
    ensures Computes(i, K, p, R) == Some(p.concat(R[i.b], R[i.c]))
  {
    var vs := R[i.b..i.c + 1];
    assert vs == [R[i.b], R[i.c]] && vs[1..] == [R[i.c]];
    assert ConcatAll(p.concat, vs[1..]) == Ok(R[i.c]);
  }

  /** One register more on the left. */
  lemma ConcatMore(p: Prims, K: seq<Value>, R: Regs, i: Instruction, res: Result)
    requires i.op.OP_CONCAT? && 0 < i.b && Computes(i, K, p, R) == Some(res)
    ensures i.b <= |R|
    ensures Computes(i.(b := i.b - 1), K, p, R) == Some(if res.Err? then Err else p.concat(R[i.b - 1], res.v))
  {
    var vs := R[i.b - 1..i.c + 1];
    assert vs[1..] == R[i.b..i.c + 1] && vs[0] == R[i.b - 1];
  }

  lemma ReadyConcat(o: Origin, l: Expr, r: Expr, s: Snap, eL: ExpDesc, eR: ExpDesc, k2: seq<Value>)
    requires o.x == EBin(CONCAT, l, r) && Both(o, l, r, s, eL, eR)
    requires eL.k.VNONRELOC? && eL.info == o.base.fr && eR.k.VNONRELOC? && eR.info == o.base.fr + 1
    ensures Ready(o, s, NoLists, [], [], Instruction(OP_CONCAT, 0, eL.info, eR.info), k2)
  {
    hide Run, WF, PrefixOk, Computes;
    ExtendNeutral(s);
    var i := Instruction(OP_CONCAT, 0, eL.info, eR.info);
    forall K: seq<Value>, R: Regs ensures ReadyAt(o, s, NoLists, [], [], i, k2, K, R) {
      if Input(o, s, s.code, K, R, NeutralB(s)) {
        assert BothAt(o, l, r, s, eL, eR, K, R, NeutralB(s));
        assert ToSet([]) + ToSet([]) + ToSet(s.J) == ToSet(s.J);
        var out := Run(s.code, K, o.p, ToSet(s.J), |s.code|, Pc0(o), R);
        if out.Fall? || out.Exit? { ConcatTwo(o.p, K, out.regs, i); }
      }
    }
  }

  lemma OpenLast(o: Origin, s: Snap, e: ExpDesc)
    requires Compiled(o, s, e, [], []) && e.k.VRELOCABLE?
    ensures 0 <= e.info == |s.code| - 1
  {
  }

  /** e2's last instruction, extended by the register below. */
  ghost predicate Merges(o: Origin, l: Expr, r: Expr, s1: Snap, e1: ExpDesc, s2: Snap, e2: ExpDesc, s3: Snap,
      e3: ExpDesc) {
    && o.x == EBin(CONCAT, l, r) && OnTop(o.(x := l), s1, e1)
    && Compiled(Origin(s1, o.nact, o.p, r), s2, e2, [], []) && e2.k.VRELOCABLE?
    && |s2.code| > 0 && s2.code[|s2.code| - 1].op.OP_CONCAT?
    && s3 == s2.(code := s2.code[|s2.code| - 1 := s2.code[|s2.code| - 1].(b := e1.info)], fr := o.base.fr)
    && e3.k.VRELOCABLE? && e3.info == e2.info && e3.t == NO_JUMP && e3.f == NO_JUMP
  }

  lemma MergeSecond(o: Origin, l: Expr, r: Expr, s1: Snap, e1: ExpDesc, s2: Snap, e2: ExpDesc)
    requires OnTop(o.(x := l), s1, e1) && Compiled(Origin(s1, o.nact, o.p, r), s2, e2, [], []) && e2.k.VRELOCABLE?
    ensures First(o, s1, []) && Second(o, s1, Origin(s1, o.nact, o.p, r), s2, e2, [], [], s2)
  {
    hide Sem;
    EndFromKind(Origin(s1, o.nact, o.p, r), s2, e2, [], []);
  }

  lemma MergeFacts(o: Origin, l: Expr, r: Expr, s1: Snap, e1: ExpDesc, s2: Snap, e2: ExpDesc)
    requires OnTop(o.(x := l), s1, e1) && Compiled(Origin(s1, o.nact, o.p, r), s2, e2, [], []) && e2.k.VRELOCABLE?
    requires |s2.code| > 0 && s2.code[|s2.code| - 1].op.OP_CONCAT?
    ensures s2.J == [] && e2.info == |s2.code| - 1 >= |s1.code| && s2.fr == s1.fr == o.base.fr + 1
    ensures s2.code[|s2.code| - 1].b == o.base.fr + 1 < s2.code[|s2.code| - 1].c && e1.info == o.base.fr
    ensures 0 <= o.nact <= o.base.fr && Pc0(o) <= |s1.code| && SnapOk(o.base) && SnapOk(s2)
  {
    hide Sem;
  }

  lemma MergeCore(o: Origin, l: Expr, r: Expr, s1: Snap, e1: ExpDesc, s2: Snap, e2: ExpDesc, s3: Snap, e3: ExpDesc)
    requires Merges(o, l, r, s1, e1, s2, e2, s3, e3)
    ensures Core(o, s3, e3, [], []) && KindOk(o, s3, e3, [], [])
  {
    hide Sem, PrefixOk, WF, Compiled, OnTop;
    var oB, n := Origin(s1, o.nact, o.p, r), |s2.code|;
    MergeSecond(o, l, r, s1, e1, s2, e2);
    MergeFacts(o, l, r, s1, e1, s2, e2);
    SeqPrefixOk(o, s1, [], oB, s2, e2, [], [], s2);
    SeqPrefix(o, s1, oB, s2, e2, [], [], s2, 0);
    SeqFacts(o, s1, oB, s2, e2, [], [], s2, 0);
    MergePrefix(o.base, s2, s3);
    LastWF(s2.code, s3.code);
    EmptyList(s3.code);
  }

  lemma EmptyList(code: Code)
    ensures Chain(code, NO_JUMP, [])
  {
  }

  lemma MergePrefix(base: Snap, s2: Snap, s3: Snap)
    requires PrefixOk(base, s2) && |base.code| < |s2.code| && |s3.code| == |s2.code|
    requires forall i :: 0 <= i < |s2.code| - 1 ==> s3.code[i] == s2.code[i]
    requires s3 == s2.(code := s3.code, fr := s3.fr)
    ensures PrefixOk(base, s3)
  {
    assert s3.code[..|base.code|] == s2.code[..|base.code|];
  }

  lemma LastWF(c: Code, c': Code)
    requires WF(c) && |c| > 0 && |c'| == |c| && c'[|c| - 1].op == c[|c| - 1].op
    requires forall i :: 0 <= i < |c| - 1 ==> c'[i] == c[i]
    ensures WF(c')
  {
    forall i | 0 <= i < |c'| && IsTest(c'[i].op)
      ensures i + 1 < |c'| && c'[i + 1].op.OP_JMP?
    {
      assert IsTest(c[i].op);
    }
  }

  lemma MergeAt(o: Origin, l: Expr, r: Expr, s1: Snap, e1: ExpDesc, s2: Snap, e2: ExpDesc, s3: Snap, e3: ExpDesc,
      K: seq<Value>, R: Regs, b: int)
    requires Merges(o, l, r, s1, e1, s2, e2, s3, e3) && Input(o, s3, Extend(s3, b), K, R, b)
    ensures SemAt(o, s3, e3, [], [], K, R, b)
  {
    hide Run, WF, PrefixOk, Eval, KindOk, Compiled, Computes;
    var oA, oB, m, n, b1 := o.(x := l), Origin(s1, o.nact, o.p, r), |s1.code|, |s2.code|, SeqB(s1, s2, b);
    MergeSecond(o, l, r, s1, e1, s2, e2);
    MergeFacts(o, l, r, s1, e1, s2, e2);
    assert Extend(s3, b) == s3.code && Extend(s2, b) == s2.code;
    assert Pc0(o) > 0 ==> s3.code[Pc0(o) - 1] == s2.code[Pc0(o) - 1];
    SeqInput(o, s1, [], oB, s2, e2, [], [], s2, K, R, b);
    assert SemAt(oA, s1, e1, [], [], K, R, b1);
    assert Pend([], [], s1.J) == ToSet([]) + ToSet(s1.J) == ToSet(s1.J);
    var out := Run(Extend(s1, b1), K, o.p, ToSet([]) + ToSet(s1.J), m, Pc0(o), R);
    SeqRun(o, s1, [], oB, s2, e2, [], [], s2, K, R, b);
    assert ToSet([]) + Pend([], [], s2.J) == {} == Pend([], [], s3.J) == Pend([], [], s2.J);
    SameBefore(s2.code, s3.code, K, o.p, n - 1, Pc0(o), R);
    ConcatValue(l, r, o.p, R[..o.nact]);
    if out.Fall? || out.Exit? { MergeTail(o, l, r, s1, e1, s2, e2, s3, e3, K, R, b, out); }
  }

  /** Either operand's error is the error of the whole. */
  lemma ConcatValue(l: Expr, r: Expr, p: Prims, locals: seq<Value>)
    ensures var x, a, b := Eval(EBin(CONCAT, l, r), p, locals), Eval(l, p, locals), Eval(r, p, locals);
      x == if a.Err? || b.Err? then Err else p.concat(a.v, b.v)
  {
  }

  lemma SameBefore(c: Code, c': Code, K: seq<Value>, p: Prims, hi: int, pc: int, R: Regs)
    requires 0 <= pc <= hi <= |c| && |c'| == |c| && forall i :: 0 <= i < hi ==> c'[i] == c[i]
    ensures Run(c', K, p, {}, hi, pc, R) == Run(c, K, p, {}, hi, pc, R)
  {
    RunSim(c, c', K, p, {}, {}, pc, hi, pc, R);
  }

  lemma MergeTail(o: Origin, l: Expr, r: Expr, s1: Snap, e1: ExpDesc, s2: Snap, e2: ExpDesc, s3: Snap, e3: ExpDesc,
      K: seq<Value>, R: Regs, b: int, out: Outcome)
    requires Merges(o, l, r, s1, e1, s2, e2, s3, e3) && Input(o, s3, Extend(s3, b), K, R, b)
    requires 0 <= o.nact <= |R|
    requires Good(o.(x := l), Extend(s1, SeqB(s1, s2, b)), s1.lt, s1.J, e1, [], [], K, R, out)
    requires out.Fall? || out.Exit?
    ensures Good(o, s3.code, s3.lt, s3.J, e3, [], [], K, R,
                 SeqOut(s2.code, K, o.p, {}, |s2.code| - 1, |s1.code|, |s2.code| > |s1.code|, s1.J, out))
  {
    hide Run, WF, PrefixOk, KindOk, Eval, Chain, Compiled, Computes;
    var oB, m, n, R1 := Origin(s1, o.nact, o.p, r), |s1.code|, |s2.code|, out.regs;
    MergeSecond(o, l, r, s1, e1, s2, e2);
    MergeFacts(o, l, r, s1, e1, s2, e2);
    KeptLocals(R, R1, o.base.fr, o.nact);
    ConcatValue(l, r, o.p, R[..o.nact]);
    assert Extend(s3, b) == s3.code && Extend(s2, b) == s2.code;
    assert Pc0(o) > 0 ==> s3.code[Pc0(o) - 1] == s2.code[Pc0(o) - 1];
    SecondInput(o, s1, oB, s2, e2, [], [], s2, K, R, R1, b);
    CompiledSem(oB, s2, e2);
    assert SemAt(oB, s2, e2, [], [], K, R1, b);
    assert Pend([], [], s2.J) == {};
    var outB := Run(s2.code, K, o.p, {}, n - 1, m, R1);
    if outB.Fall? {
      KeptTrans(R, R1, outB.regs, o.base.fr, s1.fr);
      var resB := Eval(r, o.p, R[..o.nact]);
      ConcatMore(o.p, K, outB.regs, s2.code[n - 1], resB);
    }
  }

  lemma CompiledSem(o: Origin, s: Snap, e: ExpDesc)
    requires Compiled(o, s, e, [], [])
    ensures Sem(o, s, e, [], [])
  {
  }

  /** `l .. (r1 .. r2)` needs one instruction only. */
  lemma MergeConcat(o: Origin, l: Expr, r: Expr, s1: Snap, e1: ExpDesc, s2: Snap, e2: ExpDesc, s3: Snap, e3: ExpDesc)
    requires Merges(o, l, r, s1, e1, s2, e2, s3, e3)
    ensures Compiled(o, s3, e3, [], [])
  {
    MergeCore(o, l, r, s1, e1, s2, e2, s3, e3);
    hide Merges, Input, Run, Core, KindOk;
    forall K: seq<Value>, R: Regs, b: int ensures SemAt(o, s3, e3, [], [], K, R, b) {
      if Input(o, s3, Extend(s3, b), K, R, b) { MergeAt(o, l, r, s1, e1, s2, e2, s3, e3, K, R, b); }
    }
  }

  /** The left operand is the last register in use. */
  lemma MergeFrees(o: Origin, l: Expr, r: Expr, s1: Snap, e1: ExpDesc, s2: Snap, e2: ExpDesc)
    requires OnTop(o.(x := l), s1, e1) && Compiled(Origin(s1, o.nact, o.p, r), s2, e2, [], []) && e2.k.VRELOCABLE?
    requires |s2.code| > 0 && s2.code[|s2.code| - 1].op.OP_CONCAT?
    ensures e1.k.VNONRELOC? && e1.info == o.base.fr == s2.fr - 1 && o.nact <= o.base.fr && s2.J == []
    ensures e1.t == NO_JUMP && e1.f == NO_JUMP
  {
    MergeFacts(o, l, r, s1, e1, s2, e2);
  }

  lemma MergeValid(o: Origin, s: Snap, e: ExpDesc)
    requires Compiled(o, s, e, [], [])
    ensures SnapOk(s) && 0 <= o.nact <= s.fr
  {
  }
}
