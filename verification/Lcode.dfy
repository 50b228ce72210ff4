/** The code generator (lcode.c): a FuncState whose code is emitted and patched in place. */
module Lcode {
  import opened Wrappers
  import opened LuaVM
  import opened JumpLists
  import opened CodeSem
  import opened ExprSpec
  import opened ExprOps
  import opened ExprAndOr
  import opened ExprBoth
  import opened ExprBranch
  import opened ExprGoIf
  import opened ExprEmit
  import opened ExprNot
  import opened ExprReg
  import opened Limits

  lemma PatchStep(c0: Code, s: seq<int>, i: int, vt: int, reg: int, dt: int)
    requires 0 <= i < |s| && Distinct(s)
    requires forall j :: j in s ==> 0 <= j < |c0| && c0[j].op.OP_JMP?
    ensures s[i] in s && 0 <= s[i] < |c0|
    ensures var c := PatchList(c0, s[..i], vt, reg, dt);
      && c[s[i]] == c0[s[i]] && HasValue(c, s[i]) == HasValue(c0, s[i])
      && PatchList(c0, s[..i + 1], vt, reg, dt)
         == JumpLists.FixJump(JumpLists.PatchTestReg(c, s[i], reg), s[i], if HasValue(c0, s[i]) then vt else dt)
  {
    var c, c', j := PatchList(c0, s[..i], vt, reg, dt), PatchList(c0, s[..i + 1], vt, reg, dt), s[i];
    assert j in s;
    assert j !in s[..i] && s[..i + 1] == s[..i] + [j];
    assert c[j] == PatchedAt(c0, s[..i], j, vt, reg, dt);
    if j > 0 { assert c[j - 1] == PatchedAt(c0, s[..i], j - 1, vt, reg, dt); }
    var d := JumpLists.FixJump(JumpLists.PatchTestReg(c, j, reg), j, if HasValue(c0, j) then vt else dt);
    forall q | 0 <= q < |c0| ensures c'[q] == d[q] {
      assert c'[q] == PatchedAt(c0, s[..i + 1], q, vt, reg, dt);
      assert c[q] == PatchedAt(c0, s[..i], q, vt, reg, dt);
      assert q in s[..i + 1] <==> q in s[..i] || q == j;
      assert q + 1 in s[..i + 1] <==> q + 1 in s[..i] || q + 1 == j;
    }
  }

  lemma RemoveStep(c0: Code, s: seq<int>, i: int)
    requires 0 <= i < |s| && Distinct(s)
    requires forall j :: j in s ==> 0 <= j < |c0| && c0[j].op.OP_JMP?
    ensures s[i] in s && 0 <= s[i] < |c0|
    ensures var c := RemoveList(c0, s[..i]);
      && c[s[i]] == c0[s[i]]
      && RemoveList(c0, s[..i + 1]) == JumpLists.PatchTestReg(c, s[i], NO_REG)
  {
    var c, c', j := RemoveList(c0, s[..i]), RemoveList(c0, s[..i + 1]), s[i];
    assert j in s;
    assert j !in s[..i] && s[..i + 1] == s[..i] + [j];
    assert c[j] == RemovedAt(c0, s[..i], j);
    if j > 0 { assert c[j - 1] == RemovedAt(c0, s[..i], j - 1); }
    var d := JumpLists.PatchTestReg(c, j, NO_REG);
    forall q | 0 <= q < |c0| ensures c'[q] == d[q] {
      assert c'[q] == RemovedAt(c0, s[..i + 1], q);
      assert c[q] == RemovedAt(c0, s[..i], q);
      assert q + 1 in s[..i + 1] <==> q + 1 in s[..i] || q + 1 == j;
    }
  }

  lemma ChainNonNeg(code: Code, head: int, s: seq<int>)
    requires Chain(code, head, s)
    ensures forall i :: 0 <= i < |s| ==> s[i] >= 0
  {
    forall i | 0 <= i < |s| ensures s[i] >= 0 { assert LinkAt(code, s, i); }
  }

  /** The kinds luaK_dischargevars leaves alone. */
  predicate Discharged(k: Kind) { !k.VLOCAL? && !k.VUPVAL? && !k.VGLOBAL? }

  /** A local is in its register already. */
  lemma LocalIsPlaced(o: Origin, s: Snap, e: ExpDesc, T: seq<int>, F: seq<int>)
    requires Compiled(o, s, e, T, F) && e.k.VLOCAL?
    ensures Compiled(o, s, e.(k := VNONRELOC), T, F)
  {
    hide Run, Eval;
    forall K: seq<Value>, R: Regs, b: int ensures SemAt(o, s, e.(k := VNONRELOC), T, F, K, R, b) {
      assert SemAt(o, s, e, T, F, K, R, b);
    }
  }

  /** A nil that needs no code has no exits and no jumps to here. */
  lemma NilWhere(o: Origin, s: Snap, e: ExpDesc, T: seq<int>, F: seq<int>)
    requires Core(o, s, e, T, F) && KindOk(o, s, e, T, F) && e.k.VNIL?
    ensures |s.code| > 0 && s.code[|s.code| - 1].op.OP_LOADNIL? ==> |s.code| == Pc0(o)
    ensures |s.code| == 0 ==> |s.code| == Pc0(o)
    ensures |s.code| == Pc0(o) ==> T == [] && F == []
  {
  }

  lemma NilKeepsValid(s: Snap, c0: Code, c: Code, jpc: int)
    requires SnapOk(s) && s.code == c0 && Chain(c0, jpc, s.J) && |c| == |c0|
    requires c == c0 || (|c0| > 0 && s.lt < |c0| && c0[|c0| - 1].op.OP_LOADNIL? && c == c0[|c0| - 1 := c0[|c0| - 1].(b := c[|c0| - 1].b)])
    ensures SnapOk(s.(code := c)) && Chain(c, jpc, s.J)
  {
    if c != c0 {
      assert s.J == [];
      EmptyChain(c);
      forall i | 0 <= i < |c| && IsTest(c[i].op) ensures i + 1 < |c| && c[i + 1].op.OP_JMP? {
        assert IsTest(c0[i].op);
      }
    }
  }

  lemma EmptyChain(c: Code)
    ensures Chain(c, NO_JUMP, [])
  {
  }

  lemma WhereIsIt(o: Origin, s: Snap, e: ExpDesc, T: seq<int>, F: seq<int>)
    requires Compiled(o, s, e, T, F)
    ensures e.k.VNONRELOC? && e.info == o.base.fr ==> s.fr == o.base.fr + 1
    ensures e.k.VK? ==> 0 <= e.info < |s.k|
    ensures 0 <= o.base.fr
  {
    hide Sem;
  }

  function LoadBools(reg: int): Code {
    [Instruction(OP_LOADBOOL, reg, 0, 1), Instruction(OP_LOADBOOL, reg, 1, 0)]
  }

  /** The code with exp2reg's LOADBOOLs at the end. */
  function LabelledCode(code: Code, jmp: bool, jpc: int, reg: int): Code {
    (if jmp then code else Link(code + [Instruction(OP_JMP, 0, NO_JUMP, 0)], [|code|], jpc)) + LoadBools(reg)
  }

  /** The code exp2reg leaves when it started its patching with `code`. */
  function PatchedCode(code: Code, jmp: bool, loads: bool, jpc: int, reg: int, T: seq<int>, F: seq<int>): Code {
    if loads then
      var c := LabelledCode(code, jmp, jpc, reg);
      Patched(c, T, F, |c|, reg, |c| - 2, |c| - 1)
    else Patched(code, T, F, |code|, reg, NO_JUMP, NO_JUMP)
  }

  lemma LinkNone(code: Code, h: int)
    ensures Link(code, [], h) == code
  {
  }

  lemma LinkLast(c0: Code, n: int, jpc: int)
    requires n == |c0|
    ensures var c := Link(c0 + [Instruction(OP_JMP, 0, NO_JUMP, 0)], [n], jpc);
      c[..n] == c0 && c[n].op.OP_JMP? && forall i :: 0 <= i < n ==> c[i] == c0[i]
  {
  }

  /** The jump over the LOADBOOLs takes over the jumps to here; the exit lists do not notice. */
  lemma ExitChains(c0: Code, c1: Code, J: seq<int>, fl: seq<int>, h: int, s: seq<int>)
    requires Chain(c0, h, s) && |c0| <= |c1|
    requires forall i :: 0 <= i < |c0| ==> c1[i] == c0[i]
    requires forall x :: x in fl ==> x == |c0| || x in J
    requires Disjoint(s, J)
    ensures Chain(c1, h, s) && Disjoint(s, fl)
  {
    ChainKeep(c0, c1, h, s);
    forall x | x in s ensures x != |c0| { ChainMember(c0, h, s, x); }
  }

  /** Two heads are equal only when both lists are empty. */
  lemma HeadsDiffer(c: Code, h1: int, s1: seq<int>, h2: int, s2: seq<int>)
    requires Chain(c, h1, s1) && Chain(c, h2, s2) && Disjoint(s1, s2)
    ensures h1 == h2 <==> s1 == [] && s2 == []
  {
    ChainNonNeg(c, h1, s1);
    ChainNonNeg(c, h2, s2);
    assert |s1| > 0 ==> s1[0] in s1;
    assert |s2| > 0 ==> s2[0] in s2;
  }

  lemma PlacedLists(o: Origin, s: Snap, e: ExpDesc, T: seq<int>, F: seq<int>)
    requires Placed(o, s, e, T, F)
    ensures SnapOk(s) && Core(o, s, e, T, F) && Chain(s.code, e.t, T) && Chain(s.code, e.f, F)
    ensures Disjoint(T, F) && Disjoint(T, s.J) && Disjoint(F, s.J) && e.k.VNONRELOC?
  {
    hide PlacedAt;
  }

  lemma PlacedTailFrom(o: Origin, s: Snap, e: ExpDesc, T: seq<int>, F: seq<int>, loads: bool, jpc: int, s3: Snap)
    requires Core(o, s, e, T, F)
    requires loads <==> exists j :: (j in T || j in F) && 0 <= j < |s.code| && !HasValue(s.code, j)
    requires s3.code == PatchedCode(s.code, false, loads, jpc, e.info, T, F)
    requires s3.lt == |s3.code| && s3.fr == s.fr && s3.k == s.k && s3.ms == s.ms
    requires s3.J == if loads then [|s.code|] + s.J else s.J
    ensures PlacedTail(s, e.info, T, F, loads, s3)
  {
    hide Patched, Link, Core, HasValue, Chain, WF, Disjoint;
    var n, reg := |s.code|, e.info;
    ListFacts(o, s, e, T, F);
    if loads {
      LoadsTail(s, T, F, reg, jpc, s3);
    } else {
      AllHaveValues(s.code, T, F);
      PatchedAllValues(s.code, T, F, n, reg, NO_JUMP, NO_JUMP, n + 1, n + 2);
      assert s3.code[..n] == s3.code;
    }
  }

  lemma AllHaveValues(code: Code, T: seq<int>, F: seq<int>)
    requires !exists j :: (j in T || j in F) && 0 <= j < |code| && !HasValue(code, j)
    ensures forall j :: (j in T || j in F) && 0 <= j < |code| ==> HasValue(code, j)
  {
    hide HasValue;
  }

  lemma LoadsTail(s: Snap, T: seq<int>, F: seq<int>, reg: int, jpc: int, s3: Snap)
    requires WF(s.code) && Disjoint(T, F) && s3.code == PatchedCode(s.code, false, true, jpc, reg, T, F)
    requires forall j :: j in T || j in F ==> 0 < j < |s.code| && s.code[j].op.OP_JMP? && IsTest(s.code[j - 1].op)
    ensures var n := |s.code|;
      && |s3.code| == n + 3 && s3.code[..n] == Patched(s.code, T, F, n + 3, reg, n + 1, n + 2)
      && s3.code[n].op.OP_JMP? && Loads(s3.code, reg, n + 1, n + 3)
  {
    hide Patched, Link, WF, IsTest;
    var n, c := |s.code|, LabelledCode(s.code, false, jpc, reg);
    LinkLast(s.code, n, jpc);
    LabelledWF(s.code, jpc, reg);
    PatchedPrefix(s.code, c, T, F, n + 3, reg, n + 1, n + 2);
    assert c[n + 1] == LoadBools(reg)[0] && c[n + 2] == LoadBools(reg)[1];
  }

  lemma LabelledWF(code: Code, jpc: int, reg: int)
    requires WF(code)
    ensures var c := LabelledCode(code, false, jpc, reg); |c| == |code| + 3 && WF(c)
  {
    LinkLast(code, |code|, jpc);
    var c := LabelledCode(code, false, jpc, reg);
    assert c[..|code|] == code;
    TailWF(c, |code|);
  }

  lemma JumpTailFrom(o: Origin, s: Snap, e: ExpDesc, T: seq<int>, F: seq<int>, reg: int, c1: Code, jpc: int, s3: Snap)
    requires Core(o, s, e, T, F) && KindOk(o, s, e, T, F) && e.k.VJMP?
    requires c1 == Link(s.code, T, e.info)
    requires s3.code == PatchedCode(c1, true, true, jpc, reg, T + [e.info], F)
    requires s3.J == [] && s3.lt == |s3.code| && s.fr <= s3.fr <= s3.ms < NO_REG && s.k <= s3.k && s.ms <= s3.ms
    requires 0 <= reg < s3.fr
    ensures JumpTail(s, reg, T, F, s3)
  {
    hide Patched, PrefixOk, HasValue, PatchedCode;
    var n, T' := |s.code|, T + [e.info];
    JumpLists2(o, s, e, T, F);
    var c := c1 + LoadBools(reg);
    PatchedCodeJump(c1, jpc, reg, T', F);
    assert |T| > 0 ==> T[|T| - 1] in T';
    LinkLinksOnly(s.code, e.t, T, e.info, ToSet(T'));
    assert WF(c1) by { LinkWF(s.code, T, e.info); }
    assert c[..n] == c1;
    TailWF(c, n);
    PatchedPrefix(s.code, c, T', F, n + 2, reg, n, n + 1);
    assert c[n] == LoadBools(reg)[0] && c[n + 1] == LoadBools(reg)[1];
  }

  lemma PatchedCodeJump(c1: Code, jpc: int, reg: int, T': seq<int>, F: seq<int>)
    ensures PatchedCode(c1, true, true, jpc, reg, T', F)
         == Patched(c1 + LoadBools(reg), T', F, |c1| + 2, reg, |c1|, |c1| + 1)
  {
  }

  lemma LinkWF(code: Code, s: seq<int>, h: int)
    requires WF(code)
    ensures WF(Link(code, s, h))
  {
  }

  /** The jump of a comparison carries no value. */
  lemma NeedsLoads(s: Snap, e: ExpDesc, T: seq<int>, F: seq<int>, c1: Code)
    requires |s.code| >= 2 && e.info == |s.code| - 1 && IsCompare(s.code[|s.code| - 2].op)
    requires c1 == Link(s.code, T, e.info) && forall j :: j in T ==> 0 <= j < |s.code| - 2
    ensures e.info in T + [e.info] && 0 <= e.info < |c1| && !HasValue(c1, e.info)
  {
    assert (T + [e.info])[|T|] == e.info;
    assert |T| > 0 ==> T[|T| - 1] in T;
    assert c1[e.info - 1] == s.code[e.info - 1];
  }

  lemma SamePlaced(o: Origin, s: Snap, e: ExpDesc, e2: ExpDesc)
    requires Placed(o, s, e, [], []) && e2.k.VNONRELOC? && e2.info == e.info && e2.t == NO_JUMP && e2.f == NO_JUMP
    ensures Placed(o, s, e2, [], [])
  {
    hide Run, PlacedGood;
    forall K: seq<Value>, R: Regs, b: int ensures PlacedAt(o, s, e2, [], [], K, R, b) {
      assert PlacedAt(o, s, e, [], [], K, R, b);
    }
  }

  /** An expression without a register leaves the free register where it found it. */
  lemma FreeStart(o: Origin, s: Snap, e: ExpDesc, T: seq<int>, F: seq<int>)
    requires Compiled(o, s, e, T, F) && !e.k.VNONRELOC?
    ensures s.fr == o.base.fr
  {
    hide Sem, Core;
  }

  lemma TempOnTop(o: Origin, s: Snap, e: ExpDesc, T: seq<int>, F: seq<int>)
    requires Compiled(o, s, e, T, F) && e.k.VNONRELOC?
    ensures 0 <= o.nact <= o.base.fr && 0 <= e.info < NO_REG
    ensures if e.info < o.nact then s.fr == o.base.fr else e.info == o.base.fr && s.fr == o.base.fr + 1
  {
    hide Sem;
  }

  lemma NewExitEmitted(o: Origin, s: Snap, e: ExpDesc, T: seq<int>, F: seq<int>, s2: Snap, ins: seq<Instruction>)
    requires Core(o, s, e, T, F) && Emitted(s, s2, ins) && |ins| == 2 && IsTest(ins[0].op)
    requires ins[1] == Instruction(OP_JMP, 0, NO_JUMP, 0)
    ensures NewExit(o, s2, T, F, |s.code| + 1) && EndsInJump(s2, Pc0(o))
  {
    hide Chain, WF, PrefixOk;
    assert s2.code[|s.code|] == ins[0] && s2.code[|s.code| + 1] == ins[1];
  }

  lemma InvertChain(c: Code, c2: Code, i: int, head: int, s: seq<int>)
    requires Chain(c, head, s) && 0 <= i < |c| && !c[i].op.OP_JMP? && c2 == c[i := Inverted(c[i])]
    ensures Chain(c2, head, s)
  {
    forall j | j in s && 0 <= j < |c| ensures c2[j] == c[j] { ChainMember(c, head, s, j); }
    ChainKeep(c, c2, head, s);
  }

  /** Inverting a comparison and removing values do not interfere. */
  lemma CleanInverted(c: Code, h: int, T: seq<int>, F: seq<int>)
    requires 0 <= h < |c| && IsCompare(c[h].op)
    ensures Clean(c[h := Inverted(c[h])], T, F) == Clean(c, T, F)[h := Inverted(Clean(c, T, F)[h])]
  {
    hide Clean;
    var c1 := c[h := Inverted(c[h])];
    CleanAt(c, T, F, h);
    forall i | 0 <= i < |c| ensures Clean(c1, T, F)[i] == Clean(c, T, F)[h := Inverted(Clean(c, T, F)[h])][i] {
      CleanAt(c, T, F, i);
      CleanAt(c1, T, F, i);
    }
  }

  lemma CleanAppend(d: Code, i: Instruction, T: seq<int>, F: seq<int>)
    requires !i.op.OP_TESTSET? && forall j :: j in T || j in F ==> j < |d|
    ensures Clean(d + [i], T, F) == Clean(d, T, F) + [i]
  {
    hide Clean;
    forall q | 0 <= q <= |d| ensures Clean(d + [i], T, F)[q] == (Clean(d, T, F) + [i])[q] {
      CleanAt(d + [i], T, F, q);
      if q < |d| { CleanAt(d, T, F, q); }
    }
  }

  lemma ListHeads(o: Origin, s: Snap, e: ExpDesc, T: seq<int>, F: seq<int>)
    requires Compiled(o, s, e, T, F)
    ensures e.t == e.f ==> T == [] && F == [] && e.t == NO_JUMP
  {
    hide Sem, KindOk, WF, PrefixOk;
    HeadsDiffer(s.code, e.t, T, e.f, F);
  }

  lemma RegOperand(o: Origin, s: Snap, e: ExpDesc)
    requires Compiled(o, s, e, [], []) && (e.k.VNONRELOC? || e.k.VK? || e.k.VKNUM?)
    ensures Operand(o, s, e)
  {
    hide Sem;
  }

  /** A literal whose value has been entered as a constant. */
  lemma ConstOperand(o: Origin, s: Snap, s2: Snap, e: ExpDesc, e2: ExpDesc)
    requires Compiled(o, s, e, [], []) && IsConst(e.k) && !e.k.VK?
    requires s2 == s.(k := s2.k) && s.k <= s2.k
    requires e2.k.VK? && 0 <= e2.info < |s2.k| && e2.t == e.t && e2.f == e.f
    requires s2.k[e2.info] == match e.k case VNIL => Nil case VKNUM => Number(e.nval) case VTRUE =>
      Boolean(true) case _ => Boolean(false)
    ensures Operand(o, s2, e2)
  {
    RaiseLimits(o, s, s2, e, [], []);
    hide Run, Eval;
    forall K: seq<Value>, R: Regs, b: int ensures SemAt(o, s2, e2, [], [], K, R, b) {
      assert SemAt(o, s2, e, [], [], K, R, b);
      assert s2.k <= K ==> K[e2.info] == s2.k[e2.info];
    }
  }

  class FuncState {
    var code: Code
    var jpc: int
    ghost var J: seq<int>
    var lasttarget: int
    var freereg: int
    const nactvar: int
    /** The arithmetic that constant folding shares with the machine. */
    const prims: Prims
    var k: seq<Value>
    var h: map<Value, int>
    var maxstacksize: int

    ghost function Snapshot(): Snap
      reads this
    {
      Snap(code, lasttarget, freereg, k, maxstacksize, J)
    }

    ghost function Usage(): Use
      reads this
    {
      Use(|code|, |k|, freereg)
    }

    ghost predicate ConstantsOk()
      reads this
    {
      forall v :: v in h ==> 0 <= h[v] < |k| && k[h[v]] == v
    }

    ghost predicate Valid()
      reads this
    {
      && SnapOk(Snapshot()) && Chain(code, jpc, J) && ConstantsOk()
      && 0 <= nactvar <= freereg && maxstacksize < MAXSTACK
    }

    /** open_func (lparser.c), with the parameters as the first active locals. */
    constructor (params: nat, prims: Prims)
      requires params <= LUAI_MAXVARS
      ensures Valid() && nactvar == params && this.prims == prims
      ensures Snapshot() == Snap([], -1, params, [], if params > 2 then params else 2, [])
    {
      code, jpc, J := [], NO_JUMP, [];
      lasttarget, freereg, nactvar, maxstacksize := -1, params, params, if params > 2 then params else 2;
      k, h := [], map[];
      this.prims := prims;
    }

    // ----- jump lists -----

    method FixJump(pc: int, dest: int) returns (st: Status)
      requires 0 <= pc < |code|
      modifies `code
      ensures st.Fine? <==> -131071 <= dest - (pc + 1) <= 131071
      ensures st.Failed? ==> st.error == ControlTooLong
      ensures st.Fine? ==> code == JumpLists.FixJump(old(code), pc, dest)
    {
      var offset := dest - (pc + 1);
      if offset > MAXARG_sBx || -offset > MAXARG_sBx {
        return Failed(ControlTooLong);
      }
      code := code[pc := code[pc].(b := offset)];
      return Fine;
    }

    method PatchTestReg(node: int, reg: int) returns (patched: bool)
      requires 0 <= node < |code|
      modifies `code
      ensures code == JumpLists.PatchTestReg(old(code), node, reg)
      ensures patched == HasValue(old(code), node)
    {
      var i := ControlPos(code, node);
      if !code[i].op.OP_TESTSET? {
        return false;
      }
      if reg != NO_REG && reg != code[i].b {
        code := code[i := code[i].(a := reg)];
      } else {
        code := code[i := Instruction(OP_TEST, code[i].b, 0, code[i].c)];
      }
      return true;
    }

    method NeedValue(list: int, ghost s: seq<int>) returns (need: bool)
      requires Chain(code, list, s)
      ensures need <==> exists j :: j in s && 0 <= j < |code| && !HasValue(code, j)
    {
      var l := list;
      ghost var i := 0;
      ChainNonNeg(code, list, s);
      while l != NO_JUMP
        invariant 0 <= i <= |s| && l == if i < |s| then s[i] else NO_JUMP
        invariant forall q :: 0 <= q < i ==> 0 <= s[q] < |code| && HasValue(code, s[q])
        decreases |s| - i
      {
        assert LinkAt(code, s, i);
        if !HasValue(code, l) {
          assert l in s;
          return true;
        }
        l := GetJump(code, l);
        i := i + 1;
      }
      return false;
    }

    method RemoveValues(list: int, ghost s: seq<int>)
      requires Chain(code, list, s)
      modifies `code
      ensures code == RemoveList(old(code), s)
    {
      var l := list;
      ghost var c0, i := code, 0;
      ChainNonNeg(c0, list, s);
      forall j | j in s ensures 0 <= j < |c0| && c0[j].op.OP_JMP? { ChainMember(c0, list, s, j); }
      EmptyPatch(c0, 0, 0, 0);
      assert s[..0] == [];
      while l != NO_JUMP
        invariant 0 <= i <= |s| && l == if i < |s| then s[i] else NO_JUMP
        invariant code == RemoveList(c0, s[..i])
        decreases |s| - i
      {
        assert LinkAt(c0, s, i);
        RemoveStep(c0, s, i);
        var _ := PatchTestReg(l, NO_REG);
        assert code[l] == c0[l];
        l := GetJump(code, l);
        i := i + 1;
      }
      assert s[..i] == s;
    }

    method PatchListAux(list: int, vtarget: int, reg: int, dtarget: int, ghost s: seq<int>) returns (st: Status)
      requires Chain(code, list, s)
      modifies `code
      ensures st.Failed? ==> st.error == ControlTooLong
      ensures st.Failed? && NO_JUMP <= vtarget <= old(|code|) && NO_JUMP <= dtarget <= old(|code|) ==>
        old(|code|) + 1 > MAXARG_sBx
      ensures st.Fine? ==> code == PatchList(old(code), s, vtarget, reg, dtarget)
    {
      hide PatchList;
      var l := list;
      ghost var c0, i := code, 0;
      ChainNonNeg(c0, list, s);
      forall j | j in s ensures 0 <= j < |c0| && c0[j].op.OP_JMP? { ChainMember(c0, list, s, j); }
      EmptyPatch(c0, vtarget, reg, dtarget);
      assert s[..0] == [];
      while l != NO_JUMP
        invariant 0 <= i <= |s| && l == if i < |s| then s[i] else NO_JUMP
        invariant code == PatchList(c0, s[..i], vtarget, reg, dtarget)
        decreases |s| - i
      {
        assert LinkAt(c0, s, i);
        PatchStep(c0, s, i, vtarget, reg, dtarget);
        var next := GetJump(code, l);
        var hasValue := PatchTestReg(l, reg);
        if hasValue {
          :- FixJump(l, vtarget);
        } else {
          :- FixJump(l, dtarget);
        }
        l := next;
        i := i + 1;
      }
      assert s[..i] == s;
      return Fine;
    }

    method Concat(l1: int, l2: int, ghost s1: seq<int>, ghost s2: seq<int>) returns (st: Status, l: int)
      requires Chain(code, l1, s1) && Chain(code, l2, s2) && Disjoint(s1, s2)
      modifies `code
      ensures Explained(st, old(Usage()), Use(1, 0, 0))
      ensures st.Fine? ==> Spent(old(Usage()), Usage(), Use(1, 0, 0))
      ensures st.Fine? ==>
        code == Link(old(code), s1, l2) && l == (if |s1| == 0 then l2 else l1) && Chain(code, l, s1 + s2)
    {
      LinkChain(code, l1, s1, l2, s2);
      l := l1;
      ChainNonNeg(code, l1, s1);
      ChainNonNeg(code, l2, s2);
      if l2 == NO_JUMP {
        return Fine, l1;
      } else if l1 == NO_JUMP {
        return Fine, l2;
      }
      var list := l1;
      assert LinkAt(code, s1, 0) && LinkAt(code, s2, 0);
      var next := GetJump(code, list);
      ghost var i := 0;
      while next != NO_JUMP
        invariant 0 <= i < |s1| && list == s1[i] && 0 <= list < |code|
        invariant next == if i + 1 < |s1| then s1[i + 1] else NO_JUMP
        decreases |s1| - i
      {
        assert LinkAt(code, s1, i + 1);
        list := next;
        next := GetJump(code, list);
        i := i + 1;
      }
      st := FixJump(list, l2);
    }

    // ----- emitting code -----

    method DischargeJpc() returns (st: Status)
      requires Chain(code, jpc, J)
      modifies `code, `jpc, `J
      ensures Explained(st, old(Usage()), Use(1, 0, 0))
      ensures st.Fine? ==> Spent(old(Usage()), Usage(), Use(1, 0, 0))
      ensures st.Fine? ==> code == Discharge(old(code), old(J)) && J == [] && jpc == NO_JUMP
    {
      var here := |code|;
      :- PatchListAux(jpc, here, NO_REG, here, J);
      jpc := NO_JUMP;
      J := [];
      return Fine;
    }

    /** luaK_code */
    method Emit(i: Instruction) returns (st: Status, pc: int)
      requires Chain(code, jpc, J)
      modifies `code, `jpc, `J
      ensures Explained(st, old(Usage()), Use(1, 0, 0))
      ensures st.Fine? ==> Spent(old(Usage()), Usage(), Use(1, 0, 0))
      ensures st.Fine? ==> code == Discharge(old(code), old(J)) + [i] && J == [] && jpc == NO_JUMP && pc == old(|code|)
    {
      pc := |code|;
      :- DischargeJpc();
      code := code + [i];
      return Fine, pc;
    }

    /** luaK_jump: jumps to here are put on hold behind the new jump. */
    method Jump() returns (st: Status, j: int)
      requires Chain(code, jpc, J)
      modifies `code, `jpc, `J
      ensures Explained(st, old(Usage()), Use(2, 0, 0))
      ensures st.Fine? ==> Spent(old(Usage()), Usage(), Use(2, 0, 0))
      ensures st.Fine? ==>
        && j == old(|code|) && J == [] && jpc == NO_JUMP
        && code == Link(old(code) + [Instruction(OP_JMP, 0, NO_JUMP, 0)], [j], old(jpc))
        && Chain(code, j, [j] + old(J))
    {
      var saved := jpc;
      ghost var held, c0 := J, code;
      jpc := NO_JUMP;
      J := [];
      EmptyPatch(code, 0, 0, 0);
      j :- Emit(Instruction(OP_JMP, 0, NO_JUMP, 0));
      ChainKeep(c0, code, saved, held);
      assert LinkAt(code, [j], 0);
      assert forall x :: x in held ==> x < |c0| by {
        forall x | x in held ensures x < |c0| { ChainMember(c0, saved, held, x); }
      }
      j :- Concat(j, saved, [j], held);
      return Fine, j;
    }

    method CondJump(i: Instruction) returns (st: Status, j: int)
      requires Chain(code, jpc, J)
      modifies `code, `jpc, `J
      ensures Explained(st, old(Usage()), Use(3, 0, 0))
      ensures st.Fine? ==> Spent(old(Usage()), Usage(), Use(3, 0, 0))
      ensures st.Fine? ==>
        && j == old(|code|) + 1 && J == [] && jpc == NO_JUMP
        && code == Discharge(old(code), old(J)) + [i, Instruction(OP_JMP, 0, NO_JUMP, 0)]
        && Chain(code, j, [j])
    {
      j := NO_JUMP;
      var pc :- Emit(i);
      ghost var c1 := code;
      j :- Jump();
      assert code == c1 + [Instruction(OP_JMP, 0, NO_JUMP, 0)];
      assert [j] + [] == [j];
      return Fine, j;
    }

    method GetLabel() returns (pc: int)
      modifies `lasttarget
      ensures lasttarget == |code| == pc
    {
      lasttarget := |code|;
      return |code|;
    }

    method PatchToHere(list: int, ghost s: seq<int>) returns (st: Status)
      requires Chain(code, jpc, J) && Chain(code, list, s) && Disjoint(J, s)
      modifies `code, `jpc, `J, `lasttarget
      ensures Explained(st, old(Usage()), Use(1, 0, 0))
      ensures st.Fine? ==> Spent(old(Usage()), Usage(), Use(1, 0, 0))
      ensures st.Fine? ==>
        && code == Link(old(code), old(J), list) && J == old(J) + s && lasttarget == |code|
        && jpc == (if |old(J)| == 0 then list else old(jpc)) && Chain(code, jpc, J)
    {
      var _ := GetLabel();
      jpc :- Concat(jpc, list, J, s);
      J := J + s;
      return Fine;
    }

    // ----- registers and constants -----

    method CheckStack(n: nat) returns (st: Status)
      modifies `maxstacksize
      ensures st.Failed? <==> freereg + n > old(maxstacksize) && freereg + n >= 250
      ensures st.Failed? ==> st.error == TooComplex && maxstacksize == old(maxstacksize)
      ensures st.Fine? ==>
        maxstacksize == (if freereg + n > old(maxstacksize) then freereg + n else old(maxstacksize))
      ensures st.Fine? && old(maxstacksize) < MAXSTACK ==> maxstacksize < MAXSTACK
    {
      var newstack := freereg + n;
      if newstack > maxstacksize {
        if newstack >= MAXSTACK {
          return Failed(TooComplex);
        }
        maxstacksize := newstack;
      }
      return Fine;
    }

    method ReserveRegs(n: nat) returns (st: Status)
      modifies `maxstacksize, `freereg
      ensures Explained(st, old(Usage()), Use(0, 0, n))
      ensures st.Fine? ==> Spent(old(Usage()), Usage(), Use(0, 0, n))
      ensures st.Fine? ==>
        && freereg == old(freereg) + n && freereg <= maxstacksize && old(maxstacksize) <= maxstacksize
        && (old(maxstacksize) < MAXSTACK ==> maxstacksize < MAXSTACK)
    {
      st := Fine;
      :- CheckStack(n);
      freereg := freereg + n;
      return Fine;
    }

    /** The temporaries are freed at the end of a statement and of a block. */
    method FreeAll()
      requires Valid()
      modifies `freereg
      ensures Valid() && Snapshot() == old(Snapshot()).(fr := nactvar)
    {
      freereg := nactvar;
    }

    method FreeReg(reg: int)
      requires reg < BITRK && reg >= nactvar ==> reg == freereg - 1
      modifies `freereg
      ensures freereg == if reg < BITRK && reg >= nactvar then old(freereg) - 1 else old(freereg)
    {
      if reg < BITRK && reg >= nactvar {
        freereg := freereg - 1;
        assert reg == freereg;
      }
    }

    method FreeExp(e: ExpDesc)
      requires e.k.VNONRELOC? ==> e.info < BITRK && (e.info >= nactvar ==> e.info == freereg - 1)
      modifies `freereg
      ensures freereg == if e.k.VNONRELOC? && e.info >= nactvar then old(freereg) - 1 else old(freereg)
    {
      if e.k.VNONRELOC? {
        FreeReg(e.info);
      }
    }

    /** addk: an equal constant is reused. */
    method AddK(v: Value) returns (st: Status, idx: int)
      requires ConstantsOk()
      modifies `k, `h
      ensures Explained(st, old(Usage()), Use(0, 1, 0))
      ensures st.Fine? ==> Spent(old(Usage()), Usage(), Use(0, 1, 0))
      ensures st.Fine? ==> ConstantsOk() && old(k) <= k && 0 <= idx < |k| && k[idx] == v
      ensures st.Fine? ==> (v in old(h) ==> k == old(k)) && (v !in old(h) ==> k == old(k) + [v])
      ensures st.Failed? <==> v !in old(h) && old(|k|) >= 262143
    {
      if v in h {
        return Fine, h[v];
      }
      if |k| + 1 > MAXARG_Bx {
        return Failed(ConstantOverflow), 0;
      }
      idx := |k|;
      h := h[v := idx];
      k := k + [v];
      return Fine, idx;
    }

    // ----- expressions -----

    /** luaK_dischargevars: a variable becomes a register or an instruction. */
    method DischargeVars(e0: ExpDesc, ghost o: Origin, ghost T: seq<int>, ghost F: seq<int>,
        ghost fr: int) returns (st: Status, e: ExpDesc)
      requires Valid() && Compiled(o, Snapshot().(fr := fr), e0, T, F)
      modifies this
      ensures Explained(st, old(Usage()), Use(1, 0, 0))
      ensures st.Fine? ==> Spent(old(Usage()), Usage(), Use(1, 0, 0))
      ensures st.Fine? ==>
        && Valid() && Compiled(o, Snapshot().(fr := fr), e, T, F) && Discharged(e.k)
        && freereg == old(freereg) && maxstacksize == old(maxstacksize) && e.t == e0.t && e.f == e0.f
        && e.nval == e0.nval
        && (if Discharged(e0.k) then e == e0 && Snapshot() == old(Snapshot()) else e.k.VRELOCABLE? || e.k.VNONRELOC?)
    {
      hide Run, Core, Sem;
      ghost var s := Snapshot().(fr := fr);
      match e0.k
      case VLOCAL =>
        LocalIsPlaced(o, s, e0, T, F);
        return Fine, e0.(k := VNONRELOC);
      case VUPVAL =>
        e := e0;
        var info :- EmitReloc(Instruction(OP_GETUPVAL, 0, e0.info, 0), e0, o, T, F, fr);
        e := e0.(k := VRELOCABLE, info := info);
        return Fine, e;
      case VGLOBAL =>
        e := e0;
        var info :- EmitReloc(Instruction(OP_GETGLOBAL, 0, e0.info, 0), e0, o, T, F, fr);
        e := e0.(k := VRELOCABLE, info := info);
        return Fine, e;
      case _ => return Fine, e0;
    }

    /** Emits the instruction that computes e0's value, its target still open. */
    method EmitReloc(i: Instruction, e0: ExpDesc, ghost o: Origin, ghost T: seq<int>, ghost F: seq<int>,
        ghost fr: int) returns (st: Status, info: int)
      requires Valid() && Compiled(o, Snapshot().(fr := fr), e0, T, F) && !e0.k.VRELOCABLE? && !e0.k.VJMP?
      requires IsCompute(i) && Realizes(e0, i, k, o.p) && fr == o.base.fr
      modifies `code, `jpc, `J
      ensures Explained(st, old(Usage()), Use(1, 0, 0))
      ensures st.Fine? ==> Spent(old(Usage()), Usage(), Use(1, 0, 0))
      ensures st.Fine? ==>
        && Valid() && Compiled(o, Snapshot().(fr := fr), e0.(k := VRELOCABLE, info := info), T, F)
    {
      hide Run, Sem;
      ghost var s, sf := Snapshot(), Snapshot().(fr := fr);
      ReadySettled(o, sf, e0, T, F, i, k);
      info :- Emit(i);
      EmitWF(s, Snapshot(), [i]);
      EmitCompute(o, sf, e0, T, F, i, Snapshot().(fr := fr), e0.(k := VRELOCABLE, info := info));
      return Fine, info;
    }

    /** luaK_nil: widens the LOADNIL just emitted, or relies on clean registers, when no jump leads here. */
    method LoadNil(from: int, n: int) returns (st: Status)
      requires Valid() && n >= 1
      modifies `code, `jpc, `J
      ensures Explained(st, old(Usage()), Use(1, 0, 0))
      ensures st.Fine? ==> Spent(old(Usage()), Usage(), Use(1, 0, 0))
      ensures st.Fine? ==>
        var s, len := old(Snapshot()), old(|code|);
        if s.lt < len && len == 0 && from >= nactvar then Snapshot() == s && jpc == old(jpc)
        else if s.lt < len && len > 0 && s.code[len - 1].op.OP_LOADNIL? && s.code[len - 1].a <= from <= s.code[len - 1].b + 1 then
          && J == s.J && jpc == old(jpc)
          && code == s.code[len - 1 := s.code[len - 1].(b := if from + n - 1 > s.code[len - 1].b then from + n - 1 else s.code[len - 1].b)]
        else Emitted(s, Snapshot(), [Instruction(OP_LOADNIL, from, from + n - 1, 0)]) && jpc == NO_JUMP
    {
      if |code| > lasttarget {
        if |code| == 0 {
          if from >= nactvar {
            return Fine;
          }
        } else {
          var last := |code| - 1;
          var previous := code[last];
          if previous.op.OP_LOADNIL? {
            var pfrom, pto := previous.a, previous.b;
            if pfrom <= from <= pto + 1 {
              if from + n - 1 > pto {
                code := code[last := previous.(b := from + n - 1)];
              }
              return Fine;
            }
          }
        }
      }
      var _ :- Emit(Instruction(OP_LOADNIL, from, from + n - 1, 0));
      return Fine;
    }

    /** The one register that has been reserved for the value of the expression. */
    ghost predicate Target(o: Origin, reg: int)
      reads this
    {
      reg == o.base.fr && freereg == reg + 1 && o.nact == nactvar
    }

    /** Emits the instruction that puts e0's value into reg. */
    method EmitInto(i: Instruction, e0: ExpDesc, reg: int, ghost o: Origin, ghost T: seq<int>, ghost F: seq<int>,
        ghost fr: int) returns (st: Status, e: ExpDesc)
      requires Valid() && Compiled(o, Snapshot().(fr := fr), e0, T, F) && !e0.k.VRELOCABLE? && !e0.k.VJMP?
      requires IsCompute(i) && Realizes(e0, i, k, o.p) && i.a == reg && Target(o, reg)
      modifies `code, `jpc, `J
      ensures Explained(st, old(Usage()), Use(1, 0, 0))
      ensures st.Fine? ==> Spent(old(Usage()), Usage(), Use(1, 0, 0))
      ensures st.Fine? ==> Valid() && Placed(o, Snapshot(), e, T, F) && e == e0.(k := VNONRELOC, info := reg)
    {
      hide Run, Sem;
      ghost var s, sf := Snapshot(), Snapshot().(fr := fr);
      ReadySettled(o, sf, e0, T, F, i, k);
      e := e0.(k := VNONRELOC, info := reg);
      var _ :- Emit(i);
      EmitWF(s, Snapshot(), [i]);
      EmitPlaced(o, sf, e0, T, F, i, Snapshot(), e);
      return Fine, e;
    }

    method NilInto(e0: ExpDesc, reg: int, ghost o: Origin, ghost T: seq<int>, ghost F: seq<int>,
        ghost fr: int) returns (st: Status, e: ExpDesc)
      requires Valid() && Compiled(o, Snapshot().(fr := fr), e0, T, F) && e0.k.VNIL? && Target(o, reg)
      modifies `code, `jpc, `J
      ensures Explained(st, old(Usage()), Use(1, 0, 0))
      ensures st.Fine? ==> Spent(old(Usage()), Usage(), Use(1, 0, 0))
      ensures st.Fine? ==> Valid() && Placed(o, Snapshot(), e, T, F) && e == e0.(k := VNONRELOC, info := reg)
    {
      hide Run, Sem, Chain, PrefixOk;
      ghost var s, sf, c0 := Snapshot(), Snapshot().(fr := fr), code;
      e := e0.(k := VNONRELOC, info := reg);
      :- LoadNil(reg, 1);
      if |code| == |c0| {
        NilWhere(o, sf, e0, T, F);
        NilKeepsValid(s, c0, code, jpc);
        WidenedNil(o, sf, e0, Snapshot(), e, reg);
      } else {
        EmitWF(s, Snapshot(), [Instruction(OP_LOADNIL, reg, reg, 0)]);
        EmitNil(o, sf, e0, T, F, reg, Snapshot(), e);
        assert Chain(code, jpc, J) by { EmptyChain(code); }
      }
      return Fine, e;
    }

    /** discharge2reg */
    method Discharge2Reg(e0: ExpDesc, reg: int, ghost o: Origin, ghost T: seq<int>, ghost F: seq<int>,
        ghost fr: int) returns (st: Status, e: ExpDesc)
      requires Valid() && Compiled(o, Snapshot().(fr := fr), e0, T, F) && Target(o, reg)
      modifies this
      ensures Explained(st, old(Usage()), Use(2, 1, 0))
      ensures st.Fine? ==> Spent(old(Usage()), Usage(), Use(2, 1, 0))
      ensures st.Fine? ==>
        && Valid() && freereg == old(freereg)
        && (if e0.k.VJMP? then e == e0 && Snapshot() == old(Snapshot())
            else e == ExpDesc(VNONRELOC, reg, e0.nval, e0.t, e0.f) && Placed(o, Snapshot(), e, T, F))
    {
      hide Run, Sem, Core, PlacedAt, KindOk, SnapOk, ConstantsOk;
      e :- DischargeVars(e0, o, T, F, fr);
      WhereIsIt(o, Snapshot().(fr := fr), e, T, F);
      match e.k {
        case VNIL => e :- NilInto(e, reg, o, T, F, fr);
        case VFALSE => e :- EmitInto(Instruction(OP_LOADBOOL, reg, 0, 0), e, reg, o, T, F, fr);
        case VTRUE => e :- EmitInto(Instruction(OP_LOADBOOL, reg, 1, 0), e, reg, o, T, F, fr);
        case VK => e :- EmitInto(Instruction(OP_LOADK, reg, e.info, 0), e, reg, o, T, F, fr);
        case VKNUM => e :- NumberInto(e, reg, o, T, F, fr);
        case VRELOCABLE => e := TargetInto(e, reg, o, T, F, fr);
        case VNONRELOC =>
          if reg != e.info {
            e :- EmitInto(Instruction(OP_MOVE, reg, e.info, 0), e, reg, o, T, F, fr);
          } else {
            assert Snapshot().(fr := fr) == Snapshot();
            AlreadyPlaced(o, Snapshot(), e, T, F);
          }
        case _ =>
      }
      return Fine, e;
    }

    method NumberInto(e0: ExpDesc, reg: int, ghost o: Origin, ghost T: seq<int>, ghost F: seq<int>,
        ghost fr: int) returns (st: Status, e: ExpDesc)
      requires Valid() && Compiled(o, Snapshot().(fr := fr), e0, T, F) && e0.k.VKNUM? && Target(o, reg)
      modifies this
      ensures Explained(st, old(Usage()), Use(1, 1, 0))
      ensures st.Fine? ==> Spent(old(Usage()), Usage(), Use(1, 1, 0))
      ensures st.Fine? ==> Valid() && Placed(o, Snapshot(), e, T, F) && e == e0.(k := VNONRELOC, info := reg)
      ensures st.Fine? ==> freereg == old(freereg)
    {
      hide Run, Sem, Core, KindOk;
      ghost var s := Snapshot().(fr := fr);
      e := e0;
      var idx :- AddK(Number(e0.nval));
      RaiseLimits(o, s, Snapshot().(fr := fr), e0, T, F);
      e :- EmitInto(Instruction(OP_LOADK, reg, idx, 0), e0, reg, o, T, F, fr);
      return Fine, e;
    }

    method TargetInto(e0: ExpDesc, reg: int, ghost o: Origin, ghost T: seq<int>, ghost F: seq<int>,
        ghost fr: int) returns (e: ExpDesc)
      requires Valid() && Compiled(o, Snapshot().(fr := fr), e0, T, F) && e0.k.VRELOCABLE? && Target(o, reg)
      modifies `code
      ensures |code| == old(|code|)
      ensures Valid() && Placed(o, Snapshot(), e, T, F) && e == e0.(k := VNONRELOC, info := reg)
    {
      hide Run, Sem;
      ghost var s := Snapshot().(fr := fr);
      assert e0.info == |code| - 1 && J == [];
      code := code[e0.info := code[e0.info].(a := reg)];
      e := e0.(k := VNONRELOC, info := reg);
      SetTarget(o, s, e0, T, F, Snapshot(), e, reg);
    }

    /** code_label */
    method CodeLabel(a: int, b: int, jump: int) returns (st: Status, pc: int)
      requires Chain(code, jpc, J)
      modifies `code, `jpc, `J, `lasttarget
      ensures Explained(st, old(Usage()), Use(1, 0, 0))
      ensures st.Fine? ==> Spent(old(Usage()), Usage(), Use(1, 0, 0))
      ensures st.Fine? ==>
        && code == Discharge(old(code), old(J)) + [Instruction(OP_LOADBOOL, a, b, jump)]
        && J == [] && jpc == NO_JUMP && pc == old(|code|) && lasttarget == old(|code|)
    {
      pc := GetLabel();
      pc :- Emit(Instruction(OP_LOADBOOL, a, b, jump));
      return Fine, pc;
    }

    /** exp2reg's LOADBOOLs, with a jump over them unless the expression is itself a jump. */
    method LoadLabels(jmp: bool, reg: int, ghost ht: int, ghost T: seq<int>, ghost hf: int,
        ghost F: seq<int>) returns (st: Status, pf: int, pt: int)
      requires Chain(code, jpc, J) && Chain(code, ht, T) && Chain(code, hf, F)
      requires Disjoint(T, J) && Disjoint(F, J) && (jmp ==> J == [])
      modifies `code, `jpc, `J, `lasttarget
      ensures Explained(st, old(Usage()), Use(5, 0, 0))
      ensures st.Fine? ==> Spent(old(Usage()), Usage(), Use(5, 0, 0))
      ensures st.Fine? ==>
        && code == LabelledCode(old(code), jmp, old(jpc), reg)
        && pf == |code| - 2 && pt == |code| - 1 && lasttarget == |code|
        && J == (if !jmp then [old(|code|)] + old(J) else [])
        && Chain(code, jpc, J) && Chain(code, ht, T) && Chain(code, hf, F) && Disjoint(T, J) && Disjoint(F, J)
    {
      hide Link;
      ghost var c0, n, J0 := code, |code|, J;
      var fj := NO_JUMP;
      pf, pt := NO_JUMP, NO_JUMP;
      ghost var fl: seq<int> := [];
      if !jmp {
        fj :- Jump();
        fl := [n] + J0;
        LinkLast(c0, n, old(jpc));
      }
      ghost var c1 := code;
      ExitChains(c0, c1, J0, fl, ht, T);
      ExitChains(c0, c1, J0, fl, hf, F);
      EmptyPatch(c1, 0, 0, 0);
      pf :- CodeLabel(reg, 0, 1);
      EmptyPatch(code, 0, 0, 0);
      pt :- CodeLabel(reg, 1, 0);
      assert code == c1 + [Instruction(OP_LOADBOOL, reg, 0, 1), Instruction(OP_LOADBOOL, reg, 1, 0)];
      ChainKeep(c1, code, fj, fl);
      ChainKeep(c1, code, ht, T);
      ChainKeep(c1, code, hf, F);
      LinkNone(code, fj);
      :- PatchToHere(fj, fl);
      assert [] + fl == fl;
      return Fine, pf, pt;
    }

    /** The rest of exp2reg: sends all exits to the end, through LOADBOOLs if one needs a value. */
    method PatchExits(e: ExpDesc, reg: int, ghost T: seq<int>, ghost F: seq<int>) returns (st: Status, loads: bool)
      requires Chain(code, jpc, J) && Chain(code, e.t, T) && Chain(code, e.f, F)
      requires Disjoint(T, F) && Disjoint(T, J) && Disjoint(F, J)
      requires e.k.VJMP? ==> J == []
      modifies `code, `jpc, `J, `lasttarget
      ensures Explained(st, old(Usage()), Use(6, 0, 0))
      ensures st.Fine? ==> Spent(old(Usage()), Usage(), Use(6, 0, 0))
      ensures st.Fine? ==>
        && (loads <==> exists j :: (j in T || j in F) && 0 <= j < old(|code|) && !HasValue(old(code), j))
        && lasttarget == |code| && Chain(code, jpc, J)
        && J == (if loads && !e.k.VJMP? then [old(|code|)] + old(J) else old(J))
        && code == PatchedCode(old(code), e.k.VJMP?, loads, old(jpc), reg, T, F)
    {
      hide PatchList, Link;
      var pf, pt := NO_JUMP, NO_JUMP;
      loads := NeedValue(e.t, T);
      if !loads {
        loads := NeedValue(e.f, F);
      }
      if loads {
        pf, pt :- LoadLabels(e.k.VJMP?, reg, e.t, T, e.f, F);
      }
      ghost var c2, J2, jpc2 := code, J, jpc;
      var final := GetLabel();
      PatchKeepsChain(c2, F, final, reg, pf, e.t, T);
      :- PatchListAux(e.f, final, reg, pf, F);
      ghost var c3 := code;
      :- PatchListAux(e.t, final, reg, pt, T);
      PatchKeepsChain(c2, F, final, reg, pf, jpc2, J2);
      PatchKeepsChain(c3, T, final, reg, pt, jpc2, J2);
      return Fine, loads;
    }

    /** exp2reg */
    method Exp2Reg(e0: ExpDesc, reg: int, ghost o: Origin, ghost T: seq<int>, ghost F: seq<int>,
        ghost fr: int) returns (st: Status, e: ExpDesc)
      requires Valid() && Compiled(o, Snapshot().(fr := fr), e0, T, F) && Target(o, reg)
      modifies this
      ensures Explained(st, old(Usage()), Use(8, 1, 0))
      ensures st.Fine? ==> Spent(old(Usage()), Usage(), Use(8, 1, 0))
      ensures st.Fine? ==>
        && Valid() && freereg == old(freereg)
        && e == ExpDesc(VNONRELOC, reg, e0.nval, NO_JUMP, NO_JUMP) && Placed(o, Snapshot(), e, [], [])
    {
      hide Run, Sem, PlacedAt, Core, SnapOk, ConstantsOk;
      e :- Discharge2Reg(e0, reg, o, T, F, fr);
      if e.k.VJMP? {
        e :- JumpToReg(e, reg, o, T, F, fr);
      } else {
        e :- ExitsToReg(e, reg, o, T, F);
      }
      return Fine, e;
    }

    /** exp2reg on a comparison: its jump joins the t list, then all exits are patched. */
    method JumpToReg(e0: ExpDesc, reg: int, ghost o: Origin, ghost T: seq<int>, ghost F: seq<int>,
        ghost fr: int) returns (st: Status, e: ExpDesc)
      requires Valid() && Compiled(o, Snapshot().(fr := fr), e0, T, F) && Target(o, reg) && e0.k.VJMP?
      modifies this
      ensures Explained(st, old(Usage()), Use(6, 0, 0))
      ensures st.Fine? ==> Spent(old(Usage()), Usage(), Use(6, 0, 0))
      ensures st.Fine? ==>
        && Valid() && freereg == old(freereg)
        && e == ExpDesc(VNONRELOC, reg, e0.nval, NO_JUMP, NO_JUMP) && Placed(o, Snapshot(), e, [], [])
    {
      hide Run, Sem, PatchedCode, Link, PrefixOk, KindOk, WF;
      ghost var s := Snapshot().(fr := fr);
      ghost var T' := T + [e0.info];
      e := e0;
      JumpLists2(o, s, e0, T, F);
      assert LinkAt(code, [e0.info], 0);
      LinkKeeps(code, e0.t, T, e0.info, e0.f, F, Pc0(o), []);
      var t :- Concat(e0.t, e0.info, T, [e0.info]);
      ghost var c1, jpc1 := code, jpc;
      e := e0.(t := t);
      HeadsDiffer(code, e.t, T', e.f, F);
      NeedsLoads(s, e0, T, F, c1);
      var loads :- PatchExits(e, reg, T', F);
      assert loads;
      e := ExpDesc(VNONRELOC, reg, e0.nval, NO_JUMP, NO_JUMP);
      JumpTailFrom(o, s, e0, T, F, reg, c1, jpc1, Snapshot());
      JumpDone(o, s, e0, T, F, reg, Snapshot(), e);
      return Fine, e;
    }

    /** exp2reg once the value is in its register. */
    method ExitsToReg(e0: ExpDesc, reg: int, ghost o: Origin, ghost T: seq<int>,
        ghost F: seq<int>) returns (st: Status, e: ExpDesc)
      requires Valid() && Placed(o, Snapshot(), e0, T, F) && e0.info == reg
      modifies `code, `jpc, `J, `lasttarget
      ensures Explained(st, old(Usage()), Use(6, 0, 0))
      ensures st.Fine? ==> Spent(old(Usage()), Usage(), Use(6, 0, 0))
      ensures st.Fine? ==>
        Valid() && e == ExpDesc(VNONRELOC, reg, e0.nval, NO_JUMP, NO_JUMP) && Placed(o, Snapshot(), e, [], [])
    {
      hide Run, Placed, PatchedCode, PlacedTail, SnapOk, HasValue, Chain, Disjoint;
      ghost var s, jpc0 := Snapshot(), jpc;
      e := ExpDesc(VNONRELOC, reg, e0.nval, NO_JUMP, NO_JUMP);
      PlacedLists(o, s, e0, T, F);
      hide Core;
      HeadsDiffer(code, e0.t, T, e0.f, F);
      if e0.t != e0.f {
        var loads :- PatchExits(e0, reg, T, F);
        PlacedTailFrom(o, s, e0, T, F, loads, jpc0, Snapshot());
        PlacedDone(o, s, e0, T, F, loads, Snapshot(), e);
        PlacedLists(o, Snapshot(), e, [], []);
      } else {
        ChainNonNeg(code, e0.t, T);
        SamePlaced(o, s, e0, e);
      }
      return Fine, e;
    }

    /** discharge2anyreg */
    method Discharge2AnyReg(e0: ExpDesc, ghost o: Origin, ghost T: seq<int>, ghost F: seq<int>) returns (st: Status,
        e: ExpDesc)
      requires Valid() && Compiled(o, Snapshot(), e0, T, F) && Discharged(e0.k) && !e0.k.VJMP? && o.nact == nactvar
      modifies this
      ensures Explained(st, old(Usage()), Use(2, 1, 1))
      ensures st.Fine? ==> Spent(old(Usage()), Usage(), Use(2, 1, 1))
      ensures st.Fine? ==> Valid() && Compiled(o, Snapshot(), e, T, F) && e.k.VNONRELOC? && e.t == e0.t && e.f == e0.f
    {
      hide Run, Sem, Core, PlacedAt;
      e := e0;
      ghost var s := Snapshot();
      if !e0.k.VNONRELOC? {
        FreeStart(o, s, e0, T, F);
        :- ReserveRegs(1);
        RaiseLimits(o, s, Snapshot().(fr := s.fr), e0, T, F);
        e :- Discharge2Reg(e0, freereg - 1, o, T, F, s.fr);
        PlacedTemp(o, Snapshot(), e, T, F);
      }
      return Fine, e;
    }

    /** jumponcond on a NOT just emitted: the NOT goes, its operand is tested instead. */
    method NotToTest(e0: ExpDesc, cond: bool, ghost o: Origin, ghost T: seq<int>,
        ghost F: seq<int>) returns (st: Status, j: int)
      requires Valid() && Compiled(o, Snapshot(), e0, T, F) && e0.k.VRELOCABLE? && e0.info < |code|
      requires code[e0.info].op.OP_NOT?
      modifies this
      ensures Explained(st, old(Usage()), Use(3, 0, 0))
      ensures st.Fine? ==> Spent(old(Usage()), Usage(), Use(3, 0, 0))
      ensures st.Fine? ==> Valid() && Exit(o, e0, T, F, !cond, j)
    {
      hide Run, Sem, Raw, WF, PrefixOk;
      j := NO_JUMP;
      var ie := code[e0.info];
      ghost var s := Snapshot();
      ghost var i := Instruction(OP_TEST, ie.b, 0, BoolInt(!cond));
      code := code[..|code| - 1];
      ghost var c1 := code;
      EmptyPatch(c1, 0, 0, 0);
      assert J == [] && Chain(c1, jpc, J) by { EmptyChain(c1); }
      j :- CondJump(Instruction(OP_TEST, ie.b, 0, BoolInt(!cond)));
      assert Decider(e0, s.code, !cond) == i;
      DeciderCore(o, s, e0, T, F, Snapshot(), i);
      RawDecider(o, s, e0, T, F, Snapshot(), !cond);
      return Fine, j;
    }

    /** jumponcond: a jump taken when the value's truth is `cond`. */
    method JumpOnCond(e0: ExpDesc, cond: bool, ghost o: Origin, ghost T: seq<int>,
        ghost F: seq<int>) returns (st: Status, j: int)
      requires Valid() && Compiled(o, Snapshot(), e0, T, F) && Discharged(e0.k) && !e0.k.VJMP? && o.nact == nactvar
      modifies this
      ensures Explained(st, old(Usage()), Use(5, 1, 1))
      ensures st.Fine? ==> Spent(old(Usage()), Usage(), Use(5, 1, 1))
      ensures st.Fine? ==> Valid() && Exit(o, e0, T, F, !cond, j)
    {
      hide Run, Sem, Raw, WF, PrefixOk;
      j := NO_JUMP;
      if e0.k.VRELOCABLE? {
        var ie := code[e0.info];
        if ie.op.OP_NOT? {
          j :- NotToTest(e0, cond, o, T, F);
          return Fine, j;
        }
      }
      var e :- Discharge2AnyReg(e0, o, T, F);
      j :- TestSet(e, e0, cond, o, T, F);
      return Fine, j;
    }

    /** The end of jumponcond: a TESTSET on the register of e, whose target is open. */
    method TestSet(e: ExpDesc, ghost e0: ExpDesc, cond: bool, ghost o: Origin, ghost T: seq<int>,
        ghost F: seq<int>) returns (st: Status, j: int)
      requires Valid() && Compiled(o, Snapshot(), e, T, F) && e.k.VNONRELOC? && e.t == e0.t && e.f == e0.f
      requires o.nact == nactvar
      modifies this
      ensures Explained(st, old(Usage()), Use(3, 0, 0))
      ensures st.Fine? ==> Spent(old(Usage()), Usage(), Use(3, 0, 0))
      ensures st.Fine? ==> Valid() && Exit(o, e0, T, F, !cond, j)
    {
      hide Run, Sem, Raw, WF, PrefixOk, KindOk, Chain;
      j := NO_JUMP;
      ghost var s := Snapshot();
      TempOnTop(o, s, e, T, F);
      FreeExp(e);
      j :- CondJump(Instruction(OP_TESTSET, NO_REG, e.info, BoolInt(cond)));
      ghost var ins := [Instruction(OP_TESTSET, NO_REG, e.info, BoolInt(cond)), Instruction(OP_JMP, 0, NO_JUMP, 0)];
      assert Emitted(s, Snapshot(), ins);
      EmitCore(o, s, e, T, F, Snapshot(), e0, ins);
      RawTestSet(o, s, e, T, F, Snapshot(), !cond);
      NewExitEmitted(o, s, e, T, F, Snapshot(), ins);
      EmptyChain(code);
      return Fine, j;
    }

    /** The code now ends with a test whose jump j leaves with the wrong sense. */
    ghost predicate Exit(o: Origin, e: ExpDesc, T: seq<int>, F: seq<int>, sense: bool, j: int)
      reads this
    {
      && Core(o, Snapshot(), e, T, F) && freereg == o.base.fr && EndsInJump(Snapshot(), Pc0(o))
      && NewExit(o, Snapshot(), T, F, j)
      && Raw(o, Snapshot(), WrongList(T, F, sense) + [j], RightList(T, F, sense), sense)
    }

    /** The end of luaK_goiftrue and luaK_goiffalse: the new jump (if any) joins the wrong
        list, the right list joins the jumps to here. */
    method FinishGoIf(e0: ExpDesc, sense: bool, j: int, ghost jl: seq<int>, ghost o: Origin, ghost T: seq<int>,
        ghost F: seq<int>) returns (st: Status, e: ExpDesc)
      requires Valid() && Core(o, Snapshot(), e0, T, F) && NewJump(o, Snapshot(), T, F, j, jl)
      requires Raw(o, Snapshot(), WrongList(T, F, sense) + jl, RightList(T, F, sense), sense)
      requires freereg == o.base.fr && EndsInJump(Snapshot(), Pc0(o))
      modifies this
      ensures Explained(st, old(Usage()), Use(1, 0, 0))
      ensures st.Fine? ==> Spent(old(Usage()), Usage(), Use(1, 0, 0))
      ensures st.Fine? ==>
        Valid() && Branched(o, Snapshot(), e, WrongList(T, F, sense) + jl, sense) && freereg == old(freereg)
    {
      hide Run, Raw, BranchAt, Link, WF, PrefixOk, Entry;
      ghost var s, jpc0 := Snapshot(), jpc;
      ghost var X, Y := WrongList(T, F, sense), RightList(T, F, sense);
      e := e0;
      var h :- Concat(WrongHead(e0, sense), j, X, jl);
      ghost var c1 := code;
      LinkKeeps(s.code, WrongHead(e0, sense), X, j, RightHead(e0, sense), Y, Pc0(o), []);
      LinkKeeps(s.code, WrongHead(e0, sense), X, j, jpc, J, Pc0(o), []);
      :- PatchToHere(RightHead(e0, sense), Y);
      e := if sense then e0.(f := h, t := NO_JUMP) else e0.(t := h, f := NO_JUMP);
      GoIf(o, s, e0, T, F, sense, j, jl, Snapshot(), e, jpc0);
      return Fine, e;
    }

    /** invertjump */
    method InvertJump(e: ExpDesc)
      requires 0 < e.info < |code| && IsCompare(code[e.info - 1].op) && 0 <= code[e.info - 1].a <= 1
      modifies `code
      ensures code == old(code)[e.info - 1 := Inverted(old(code)[e.info - 1])]
    {
      var pc := ControlPos(code, e.info);
      code := code[pc := code[pc].(a := if code[pc].a == 0 then 1 else 0)];
    }

    /** A comparison as a branch: inverted when its jump must leave on false. */
    method BranchOnJump(e0: ExpDesc, sense: bool, ghost o: Origin, ghost T: seq<int>,
        ghost F: seq<int>) returns (j: int)
      requires Valid() && Compiled(o, Snapshot(), e0, T, F) && e0.k.VJMP?
      modifies `code
      ensures |code| == old(|code|)
      ensures Valid() && Exit(o, e0, T, F, sense, j)
    {
      hide Run, Sem, Raw, WF, PrefixOk;
      ghost var s := Snapshot();
      JumpLists2(o, s, e0, T, F);
      if sense {
        InvertJump(e0);
      }
      ghost var i := Decider(e0, s.code, sense);
      assert code == s.code[..|s.code| - 2] + [i, Instruction(OP_JMP, 0, NO_JUMP, 0)];
      DeciderCore(o, s, e0, T, F, Snapshot(), i);
      RawDecider(o, s, e0, T, F, Snapshot(), sense);
      assert Chain(code, jpc, J) by { EmptyChain(code); }
      j := e0.info;
    }

    method FinishExit(e0: ExpDesc, sense: bool, j: int, ghost o: Origin, ghost T: seq<int>,
        ghost F: seq<int>) returns (st: Status, e: ExpDesc)
      requires Valid() && Exit(o, e0, T, F, sense, j)
      modifies this
      ensures Explained(st, old(Usage()), Use(1, 0, 0))
      ensures st.Fine? ==> Spent(old(Usage()), Usage(), Use(1, 0, 0))
      ensures st.Fine? ==>
        Valid() && Branched(o, Snapshot(), e, WrongList(T, F, sense) + [j], sense) && freereg == old(freereg)
    {
      hide Raw, Branched, WF, PrefixOk, Core;
      assert LinkAt(code, [j], 0);
      e :- FinishGoIf(e0, sense, j, [j], o, T, F);
      return Fine, e;
    }

    method FinishConst(e0: ExpDesc, sense: bool, ghost o: Origin, ghost T: seq<int>,
        ghost F: seq<int>) returns (st: Status, e: ExpDesc)
      requires Valid() && Compiled(o, Snapshot(), e0, T, F)
      requires if sense then e0.k.VK? || e0.k.VKNUM? || e0.k.VTRUE? else e0.k.VNIL? || e0.k.VFALSE?
      modifies this
      ensures Explained(st, old(Usage()), Use(1, 0, 0))
      ensures st.Fine? ==> Spent(old(Usage()), Usage(), Use(1, 0, 0))
      ensures st.Fine? ==>
        Valid() && Branched(o, Snapshot(), e, WrongList(T, F, sense), sense) && freereg == old(freereg)
    {
      hide Raw, Branched, WF, PrefixOk, Sem, Run;
      RawConst(o, Snapshot(), e0, T, F, sense);
      EmptyChain(code);
      assert WrongList(T, F, sense) + [] == WrongList(T, F, sense);
      e :- FinishGoIf(e0, sense, NO_JUMP, [], o, T, F);
      return Fine, e;
    }

    /** luaK_goiftrue: falls through exactly when the value is true. */
    method GoIfTrue(e0: ExpDesc, ghost o: Origin, ghost T: seq<int>, ghost F: seq<int>) returns (st: Status,
        e: ExpDesc, ghost X: seq<int>)
      requires Valid() && Compiled(o, Snapshot(), e0, T, F) && o.nact == nactvar
      modifies this
      ensures Explained(st, old(Usage()), Use(7, 1, 1))
      ensures st.Fine? ==> Spent(old(Usage()), Usage(), Use(7, 1, 1))
      ensures st.Fine? ==> Valid() && Branched(o, Snapshot(), e, X, true)
    {
      hide Run, Sem, Raw, Core, KindOk, WF, Branched;
      X := F;
      e :- DischargeVars(e0, o, T, F, freereg);
      if e.k.VK? || e.k.VKNUM? || e.k.VTRUE? {
        e :- FinishConst(e, true, o, T, F);
      } else if e.k.VJMP? {
        var pc := BranchOnJump(e, true, o, T, F);
        X := F + [pc];
        e :- FinishExit(e, true, pc, o, T, F);
      } else {
        var pc :- JumpOnCond(e, false, o, T, F);
        X := F + [pc];
        e :- FinishExit(e, true, pc, o, T, F);
      }
      return Fine, e, X;
    }

    /** luaK_goiffalse: falls through exactly when the value is false. */
    method GoIfFalse(e0: ExpDesc, ghost o: Origin, ghost T: seq<int>, ghost F: seq<int>) returns (st: Status,
        e: ExpDesc, ghost X: seq<int>)
      requires Valid() && Compiled(o, Snapshot(), e0, T, F) && o.nact == nactvar
      modifies this
      ensures Explained(st, old(Usage()), Use(7, 1, 1))
      ensures st.Fine? ==> Spent(old(Usage()), Usage(), Use(7, 1, 1))
      ensures st.Fine? ==> Valid() && Branched(o, Snapshot(), e, X, false)
    {
      hide Run, Sem, Raw, Core, KindOk, WF, Branched;
      X := T;
      e :- DischargeVars(e0, o, T, F, freereg);
      if e.k.VNIL? || e.k.VFALSE? {
        e :- FinishConst(e, false, o, T, F);
      } else if e.k.VJMP? {
        var pc := BranchOnJump(e, false, o, T, F);
        X := T + [pc];
        e :- FinishExit(e, false, pc, o, T, F);
      } else {
        var pc :- JumpOnCond(e, true, o, T, F);
        X := T + [pc];
        e :- FinishExit(e, false, pc, o, T, F);
      }
      return Fine, e, X;
    }

    /** codenot */
    method CodeNot(e0: ExpDesc, ghost o: Origin, ghost x: Expr, ghost T: seq<int>,
        ghost F: seq<int>) returns (st: Status, e: ExpDesc)
      requires Valid() && o.x == EUn(NOT, x) && Compiled(o.(x := x), Snapshot(), e0, T, F) && o.nact == nactvar
      modifies this
      ensures Explained(st, old(Usage()), Use(4, 1, 1))
      ensures st.Fine? ==> Spent(old(Usage()), Usage(), Use(4, 1, 1))
      ensures st.Fine? ==> Valid() && Compiled(o, Snapshot(), e, F, T) && !e.k.VNIL?
    {
      hide Run, Sem, Core, KindOk, WF, PrefixOk;
      e :- DischargeVars(e0, o.(x := x), T, F, freereg);
      if e.k.VNIL? || e.k.VFALSE? {
        e := NotOnConst(e, VTRUE, o, x, T, F);
      } else if e.k.VK? || e.k.VKNUM? || e.k.VTRUE? {
        e := NotOnConst(e, VFALSE, o, x, T, F);
      } else if e.k.VJMP? {
        e := NotOnJump(e, o, x, T, F);
      } else {
        e :- NotOnValue(e, o, x, T, F);
      }
      return Fine, e;
    }

    /** The end of codenot: the lists change roles and lose their values. */
    method SwapLists(e0: ExpDesc, ghost T: seq<int>, ghost F: seq<int>) returns (e: ExpDesc)
      requires Chain(code, e0.t, T) && Chain(code, e0.f, F) && Chain(code, jpc, J) && WF(code)
      modifies `code
      ensures e == Swapped(e0) && code == Clean(old(code), T, F) && Chain(code, jpc, J) && WF(code)
    {
      ghost var c0 := code;
      e := e0.(t := e0.f, f := e0.t);
      CleanChain(c0, T, [], e0.f, F, 0);
      EmptyPatch(RemoveList(c0, T), 0, 0, 0);
      RemoveValues(e.f, T);
      RemoveValues(e.t, F);
      CleanChain(c0, T, F, jpc, J, 0);
      CleanWF(c0, T, F);
    }

    method NotOnConst(e0: ExpDesc, kind: Kind, ghost o: Origin, ghost x: Expr, ghost T: seq<int>,
        ghost F: seq<int>) returns (e: ExpDesc)
      requires Valid() && o.x == EUn(NOT, x) && Compiled(o.(x := x), Snapshot(), e0, T, F) && IsConst(e0.k)
      requires kind == NotKind(e0.k)
      modifies `code
      ensures |code| == old(|code|)
      ensures Valid() && Compiled(o, Snapshot(), e, F, T) && !e.k.VNIL?
    {
      hide Run, Sem, KindOk, WF, PrefixOk, Clean;
      ghost var s := Snapshot();
      e := e0.(k := kind);
      e := SwapLists(e, T, F);
      NotConst(o, x, s, e0, T, F, e);
    }

    method NotOnJump(e0: ExpDesc, ghost o: Origin, ghost x: Expr, ghost T: seq<int>,
        ghost F: seq<int>) returns (e: ExpDesc)
      requires Valid() && o.x == EUn(NOT, x) && Compiled(o.(x := x), Snapshot(), e0, T, F) && e0.k.VJMP?
      modifies `code
      ensures |code| == old(|code|)
      ensures Valid() && Compiled(o, Snapshot(), e, F, T) && !e.k.VNIL?
    {
      hide Run, Sem, KindOk, WF, PrefixOk, Clean, Chain;
      ghost var s := Snapshot();
      JumpLists2(o.(x := x), s, e0, T, F);
      InvertJump(e0);
      ghost var c1 := code;
      assert s.code[|s.code| - 2].op != OP_JMP;
      InvertChain(s.code, c1, |s.code| - 2, e0.t, T);
      InvertChain(s.code, c1, |s.code| - 2, e0.f, F);
      InvertChain(s.code, c1, |s.code| - 2, jpc, J);
      InvertWF(s.code, c1, |s.code| - 2);
      e := SwapLists(e0, T, F);
      CleanInverted(s.code, |s.code| - 2, T, F);
      NotJump(o, x, s, e0, T, F, Snapshot(), e);
    }

    method NotOnValue(e0: ExpDesc, ghost o: Origin, ghost x: Expr, ghost T: seq<int>,
        ghost F: seq<int>) returns (st: Status, e: ExpDesc)
      requires Valid() && o.x == EUn(NOT, x) && Compiled(o.(x := x), Snapshot(), e0, T, F)
      requires (e0.k.VRELOCABLE? || e0.k.VNONRELOC?)
      requires o.nact == nactvar
      modifies this
      ensures Explained(st, old(Usage()), Use(3, 1, 1))
      ensures st.Fine? ==> Spent(old(Usage()), Usage(), Use(3, 1, 1))
      ensures st.Fine? ==> Valid() && Compiled(o, Snapshot(), e, F, T) && !e.k.VNIL?
    {
      hide Run, Sem, KindOk, WF, PrefixOk, Clean, Chain, Eval, Discharge;
      e :- Discharge2AnyReg(e0, o.(x := x), T, F);
      e :- EmitNot(e, o, x, T, F);
      return Fine, e;
    }

    method EmitNot(e0: ExpDesc, ghost o: Origin, ghost x: Expr, ghost T: seq<int>,
        ghost F: seq<int>) returns (st: Status, e: ExpDesc)
      requires Valid() && o.x == EUn(NOT, x) && Compiled(o.(x := x), Snapshot(), e0, T, F) && e0.k.VNONRELOC?
      requires o.nact == nactvar
      modifies this
      ensures Explained(st, old(Usage()), Use(1, 0, 0))
      ensures st.Fine? ==> Spent(old(Usage()), Usage(), Use(1, 0, 0))
      ensures st.Fine? ==> Valid() && Compiled(o, Snapshot(), e, F, T) && !e.k.VNIL?
    {
      hide Run, Sem, KindOk, WF, PrefixOk, Clean, Chain;
      ghost var s, e1 := Snapshot(), e0;
      e := e0;
      TempOnTop(o.(x := x), s, e, T, F);
      FreeExp(e);
      ghost var i := Instruction(OP_NOT, 0, e.info, 0);
      var info :- Emit(Instruction(OP_NOT, 0, e.info, 0));
      e := e.(k := VRELOCABLE, info := info);
      EmitWF(s, Snapshot(), [i]);
      EmitList(s, Snapshot(), [i], Pc0(o), e1.t, T);
      EmitList(s, Snapshot(), [i], Pc0(o), e1.f, F);
      EmptyChain(code);
      e := SwapLists(e, T, F);
      CleanDischarge(o.(x := x), s, e1, T, F);
      CleanAppend(Discharge(s.code, s.J), i, T, F);
      NotReady(o, x, s, e1, T, F, k);
      EmitCompute(o, Cleaned(s, T, F), Swapped(e1), F, T, i, Snapshot(), e);
      return Fine, e;
    }

    // ----- values in registers and operands -----

    /** A value, in a register or as a constant, that leaves through no jump. */
    ghost predicate InReg(o: Origin, e: ExpDesc)
      reads this
    {
      e.k.VNONRELOC? && e.t == NO_JUMP && e.f == NO_JUMP && Compiled(o, Snapshot(), e, [], [])
    }

    /** luaK_exp2nextreg */
    method Exp2NextReg(e0: ExpDesc, ghost o: Origin, ghost T: seq<int>, ghost F: seq<int>) returns (st: Status,
        e: ExpDesc)
      requires Valid() && Compiled(o, Snapshot(), e0, T, F) && o.nact == nactvar
      modifies this
      ensures Explained(st, old(Usage()), Use(9, 1, 1))
      ensures st.Fine? ==> Spent(old(Usage()), Usage(), Use(9, 1, 1))
      ensures st.Fine? ==> Valid() && InReg(o, e) && e.info == o.base.fr == freereg - 1
    {
      hide Run, Compiled, Placed, SnapOk, ConstantsOk, Chain;
      e :- DischargeVars(e0, o, T, F, freereg);
      ghost var fr := freereg;
      :- NewTop(e, o, T, F);
      e :- Exp2Reg(e, freereg - 1, o, T, F, fr);
      PlacedTemp(o, Snapshot(), e, [], []);
      return Fine, e;
    }

    /** The register on top of the stack, once the expression's own temporary is freed. */
    method NewTop(e: ExpDesc, ghost o: Origin, ghost T: seq<int>, ghost F: seq<int>) returns (st: Status)
      requires Valid() && Compiled(o, Snapshot(), e, T, F) && Discharged(e.k) && o.nact == nactvar
      modifies this
      ensures Explained(st, old(Usage()), Use(0, 0, 1))
      ensures st.Fine? ==> Spent(old(Usage()), Usage(), Use(0, 0, 1))
      ensures st.Fine? ==>
        && Valid() && freereg == o.base.fr + 1 && Target(o, freereg - 1)
        && Compiled(o, Snapshot().(fr := old(freereg)), e, T, F)
    {
      hide Run, Sem, Core, PlacedAt, WF, PrefixOk;
      st := Fine;
      ghost var s := Snapshot();
      if e.k.VNONRELOC? {
        TempOnTop(o, s, e, T, F);
      } else {
        FreeStart(o, s, e, T, F);
      }
      FreeExp(e);
      :- ReserveRegs(1);
      WhereIsIt(o, s, e, T, F);
      assert freereg == o.base.fr + 1;
      RaiseLimits(o, s, Snapshot().(fr := s.fr), e, T, F);
    }

    /** luaK_exp2anyreg */
    method Exp2AnyReg(e0: ExpDesc, ghost o: Origin, ghost T: seq<int>, ghost F: seq<int>) returns (st: Status,
        e: ExpDesc)
      requires Valid() && Compiled(o, Snapshot(), e0, T, F) && o.nact == nactvar
      modifies this
      ensures Explained(st, old(Usage()), Use(10, 1, 1))
      ensures st.Fine? ==> Spent(old(Usage()), Usage(), Use(10, 1, 1))
      ensures st.Fine? ==> Valid() && InReg(o, e)
    {
      hide Run, Sem, Core, PlacedAt, WF, PrefixOk, SnapOk, ConstantsOk, KindOk;
      e :- DischargeVars(e0, o, T, F, freereg);
      ListHeads(o, Snapshot(), e, T, F);
      if e.k.VNONRELOC? {
        TempOnTop(o, Snapshot(), e, T, F);
        if e.t == e.f {
          return Fine, e;
        }
        if e.info >= nactvar {
          assert Snapshot().(fr := freereg) == Snapshot();
          e :- Exp2Reg(e, e.info, o, T, F, freereg);
          PlacedTemp(o, Snapshot(), e, [], []);
          return Fine, e;
        }
      }
      e :- Exp2NextReg(e, o, T, F);
      return Fine, e;
    }

    /** luaK_exp2val */
    method Exp2Val(e0: ExpDesc, ghost o: Origin, ghost T: seq<int>, ghost F: seq<int>) returns (st: Status, e: ExpDesc)
      requires Valid() && Compiled(o, Snapshot(), e0, T, F) && o.nact == nactvar
      modifies this
      ensures Explained(st, old(Usage()), Use(10, 1, 1))
      ensures st.Fine? ==> Spent(old(Usage()), Usage(), Use(10, 1, 1))
      ensures st.Fine? ==>
        Valid() && Compiled(o, Snapshot(), e, [], []) && e.t == NO_JUMP && e.f == NO_JUMP && Discharged(e.k)
    {
      hide Run, Sem, Core, WF, PrefixOk, SnapOk, ConstantsOk, KindOk;
      ListHeads(o, Snapshot(), e0, T, F);
      if e0.t != e0.f {
        e :- Exp2AnyReg(e0, o, T, F);
      } else {
        e :- DischargeVars(e0, o, [], [], freereg);
      }
      return Fine, e;
    }

    /** luaK_exp2RK: the operand is a constant within reach, or sits in a register. */
    method Exp2RK(e0: ExpDesc, ghost o: Origin, ghost T: seq<int>, ghost F: seq<int>) returns (st: Status, rk: int,
        e: ExpDesc)
      requires Valid() && Compiled(o, Snapshot(), e0, T, F) && o.nact == nactvar
      modifies this
      ensures Explained(st, old(Usage()), Use(20, 2, 2))
      ensures st.Fine? ==> Spent(old(Usage()), Usage(), Use(20, 2, 2))
      ensures st.Fine? ==>
        Valid() && Operand(o, Snapshot(), e) && !e.k.VKNUM? && rk == RKOf(e) && e.t == NO_JUMP && e.f == NO_JUMP
      ensures st.Fine? && e.k.VK? ==> 256 <= rk <= 511
    {
      hide Run, Sem, Core, WF, PrefixOk;
      rk := 0;
      e :- Exp2Val(e0, o, T, F);
      ghost var s := Snapshot();
      if e.k.VKNUM? || e.k.VTRUE? || e.k.VFALSE? || e.k.VNIL? {
        if |k| <= MAXINDEXRK {
          var v := if e.k.VNIL? then Nil else if e.k.VKNUM? then Number(e.nval) else Boolean(e.k.VTRUE?);
          var info;
          st, info := AddK(v);
          var e' := e.(k := VK, info := info);
          ConstOperand(o, s, Snapshot(), e, e');
          return Fine, info + BITRK, e';
        }
      } else if e.k.VK? {
        if e.info <= MAXINDEXRK {
          RegOperand(o, s, e);
          return Fine, e.info + BITRK, e;
        }
      }
      e :- Exp2AnyReg(e, o, [], []);
      RegOperand(o, Snapshot(), e);
      return Fine, e.info, e;
    }
  }
}
