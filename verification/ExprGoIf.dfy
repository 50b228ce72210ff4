/** The list work at the end of luaK_goiftrue and luaK_goiffalse. */
module ExprGoIf {
  import opened LuaVM
  import opened JumpLists
  import opened CodeSem
  import opened ExprSpec
  import opened ExprOps
  import opened ExprSeq
  import opened ExprAndOr
  import opened ExprBranch

  function WrongHead(e: ExpDesc, sense: bool): int { if sense then e.f else e.t }

  function RightHead(e: ExpDesc, sense: bool): int { if sense then e.t else e.f }

  /** The new jump j (if any) joins the wrong list; the right list joins the jumps to here. */
  ghost predicate GoIfStep(sense: bool, s2: Snap, e2: ExpDesc, T: seq<int>, F: seq<int>, j: int, jl: seq<int>,
      s3: Snap, e3: ExpDesc) {
    var X, Y := WrongList(T, F, sense), RightList(T, F, sense);
    var h := if |X| == 0 then j else WrongHead(e2, sense);
    var c := Link(Link(s2.code, X, j), s2.J, RightHead(e2, sense));
    && s3 == s2.(code := c, lt := |c|, J := s2.J + Y)
    && WrongHead(e3, sense) == h && RightHead(e3, sense) == NO_JUMP
  }

  /** The new jump: none, or one fresh controlled jump. */
  ghost predicate NewJump(o: Origin, s2: Snap, T: seq<int>, F: seq<int>, j: int, jl: seq<int>) {
    && Chain(s2.code, j, jl)
    && ExitList(s2.code, Pc0(o), jl)
    && Disjoint(T, jl) && Disjoint(F, jl) && Disjoint(jl, s2.J)
  }

  lemma GoIfChains(o: Origin, s2: Snap, e2: ExpDesc, T: seq<int>, F: seq<int>, sense: bool, j: int, jl: seq<int>,
      s3: Snap, e3: ExpDesc, jpc: int)
    requires Core(o, s2, e2, T, F) && NewJump(o, s2, T, F, j, jl) && Chain(s2.code, jpc, s2.J)
    requires GoIfStep(sense, s2, e2, T, F, j, jl, s3, e3)
    ensures var X, Y := WrongList(T, F, sense), RightList(T, F, sense);
      && Chain(s3.code, WrongHead(e3, sense), X + jl)
      && Chain(s3.code, if |s2.J| == 0 then RightHead(e2, sense) else jpc, s2.J + Y)
      && WF(s3.code) && ExitList(s3.code, Pc0(o), X + jl)
      && Disjoint(X + jl, s2.J + Y)
      && LinksOnly(s2.code, s3.code, Pend(X + jl, Y, s2.J))
  {
    hide PrefixOk, Link;
    var X, Y := WrongList(T, F, sense), RightList(T, F, sense);
    var hX, hY, pc0 := WrongHead(e2, sense), RightHead(e2, sense), Pc0(o);
    var c1 := Link(s2.code, X, j);
    assert Disjoint(Y, X) && Disjoint(X, jl);
    LinkChain(s2.code, hX, X, j, jl);
    LinkKeeps(s2.code, hX, X, j, hY, Y, pc0, T);
    LinkKeeps(s2.code, hX, X, j, jpc, s2.J, pc0, F);
    LinkKeeps(s2.code, hX, X, j, jpc, s2.J, pc0, jl);
    assert ExitList(c1, pc0, X + jl);
    assert Disjoint(s2.J, Y) && Disjoint(X + jl, s2.J) && Disjoint(X + jl, Y);
    LinkChain(c1, jpc, s2.J, hY, Y);
    LinkKeeps(c1, jpc, s2.J, hY, WrongHead(e3, sense), X + jl, pc0, X + jl);
    GoIfLinks(s2.code, X, hX, j, jl, s2.J, jpc, Y, hY);
  }

  lemma GoIfLinks(code: Code, X: seq<int>, hX: int, j: int, jl: seq<int>, J: seq<int>, jpc: int, Y: seq<int>, hY: int)
    requires Chain(code, hX, X) && Chain(code, j, jl) && Chain(code, jpc, J) && Chain(code, hY, Y)
    ensures LinksOnly(code, Link(Link(code, X, j), J, hY), Pend(X + jl, Y, J))
  {
    var P := Pend(X + jl, Y, J);
    forall i | i in P ensures 0 <= i < |code| && code[i].op.OP_JMP? {
      if i in X { ChainMember(code, hX, X, i); }
      else if i in jl { ChainMember(code, j, jl, i); }
      else if i in J { ChainMember(code, jpc, J, i); }
      else { ChainMember(code, hY, Y, i); }
    }
    var c1 := Link(code, X, j);
    LinkLinksOnly(code, hX, X, j, P);
    assert |J| > 0 ==> J[|J| - 1] in J && J[|J| - 1] in P;
  }

  /** Relinking pending jumps keeps the meaning of a raw branch. */
  lemma SettleAt(o: Origin, s2: Snap, X: seq<int>, Y: seq<int>, sense: bool, s3: Snap, K: seq<Value>, R: Regs, b: int)
    requires Raw(o, s2, X, Y, sense) && Pc0(o) <= |s2.code| && 0 <= o.nact <= s2.ms
    requires LinksOnly(s2.code, s3.code, Pend(X, Y, s2.J))
    requires forall j :: j in X ==> Pc0(o) < j < |s2.code| && IsTest(s2.code[j - 1].op)
    requires s3.J == s2.J + Y && s3.lt == |s3.code| && s3.k == s2.k && s3.ms == s2.ms
    requires forall j :: j in s2.J && |s2.code| > Pc0(o) ==> j >= Pc0(o)
    requires Input(o, s3, Extend(s3, b), K, R, b)
    ensures BranchAt(o, s3, X, sense, K, R, b)
  {
    hide Run, Eval;
    var P, nb, pc0, n := Pend(X, Y, s2.J), NeutralB(s2), Pc0(o), |s2.code|;
    ExtendNeutral(s2);
    assert Extend(s3, b) == s3.code;
    assert pc0 > 0 && s2.code[pc0 - 1].op.OP_LOADNIL? ==> s2.code[pc0 - 1] == s3.code[pc0 - 1];
    assert pc0 > 0 && s3.code[pc0 - 1].op.OP_LOADNIL? ==> s2.code[pc0 - 1] == s3.code[pc0 - 1];
    assert RawAt(o, s2, X, Y, sense, K, R, nb);
    LinksSim(s2.code, s3.code, P, pc0, n);
    assert P == ToSet(X) + ToSet(s3.J);
    RunSim(s2.code, s3.code, K, o.p, P, P, pc0, n, pc0, R);
    forall j | j in X ensures s3.code[j - 1] == s2.code[j - 1] {
      assert !s2.code[j - 1].op.OP_JMP?;
    }
  }

  lemma GoIf(o: Origin, s2: Snap, e2: ExpDesc, T: seq<int>, F: seq<int>, sense: bool, j: int, jl: seq<int>, s3: Snap,
      e3: ExpDesc, jpc: int)
    requires Core(o, s2, e2, T, F) && NewJump(o, s2, T, F, j, jl) && Chain(s2.code, jpc, s2.J)
    requires GoIfStep(sense, s2, e2, T, F, j, jl, s3, e3)
    requires Raw(o, s2, WrongList(T, F, sense) + jl, RightList(T, F, sense), sense)
    requires s2.fr == o.base.fr && EndsInJump(s2, Pc0(o))
    ensures Branched(o, s3, e3, WrongList(T, F, sense) + jl, sense)
    ensures Chain(s3.code, if |s2.J| == 0 then RightHead(e2, sense) else jpc, s3.J)
  {
    hide Raw, Link, Input, BranchAt;
    var X, Y := WrongList(T, F, sense) + jl, RightList(T, F, sense);
    GoIfChains(o, s2, e2, T, F, sense, j, jl, s3, e3, jpc);
    GoIfCore(o, s2, e2, T, F, sense, j, jl, s3, e3, jpc);
    forall K: seq<Value>, R: Regs, b: int ensures BranchAt(o, s3, X, sense, K, R, b) {
      SettleAll(o, s2, X, Y, sense, s3, K, R, b);
    }
  }

  lemma SettleAll(o: Origin, s2: Snap, X: seq<int>, Y: seq<int>, sense: bool, s3: Snap, K: seq<Value>, R: Regs, b: int)
    requires Raw(o, s2, X, Y, sense) && Pc0(o) <= |s2.code| && 0 <= o.nact <= s2.ms
    requires LinksOnly(s2.code, s3.code, Pend(X, Y, s2.J))
    requires ExitList(s3.code, Pc0(o), X)
    requires s3.J == s2.J + Y && s3.lt == |s3.code| && s3.k == s2.k && s3.ms == s2.ms
    requires |s2.code| > Pc0(o) ==> In(s2.J, Pc0(o), |s2.code|)
    ensures BranchAt(o, s3, X, sense, K, R, b)
  {
    hide Raw;
    if Input(o, s3, Extend(s3, b), K, R, b) {
      forall j | j in X ensures Pc0(o) < j < |s2.code| && IsTest(s2.code[j - 1].op) {
        assert IsTest(s3.code[j - 1].op);
      }
      SettleAt(o, s2, X, Y, sense, s3, K, R, b);
    }
  }

  lemma GoIfCore(o: Origin, s2: Snap, e2: ExpDesc, T: seq<int>, F: seq<int>, sense: bool, j: int, jl: seq<int>,
      s3: Snap, e3: ExpDesc, jpc: int)
    requires Core(o, s2, e2, T, F) && NewJump(o, s2, T, F, j, jl) && Chain(s2.code, jpc, s2.J)
    requires GoIfStep(sense, s2, e2, T, F, j, jl, s3, e3)
    requires s2.fr == o.base.fr && EndsInJump(s2, Pc0(o))
    ensures var X := WrongList(T, F, sense) + jl;
      Core(o, s3, e3, if sense then [] else X, if sense then X else [])
    ensures EndsInJump(s3, Pc0(o))
  {
    hide PrefixOk, WF;
    var X, Y, pc0, n := WrongList(T, F, sense), RightList(T, F, sense), Pc0(o), |s2.code|;
    assert |jl| > 0 ==> jl[0] in jl;
    assert n == pc0 ==> X + jl == [] && s3.code == s2.code;
    GoIfChains(o, s2, e2, T, F, sense, j, jl, s3, e3, jpc);
    GoIfPrefix(o, s2, e2, T, F, s3, X + jl, Y);
    forall i | i in s3.J ensures 0 <= i < n && s3.code[i].op.OP_JMP? {
      ChainMember(s3.code, if |s2.J| == 0 then RightHead(e2, sense) else jpc, s3.J, i);
    }
    assert n > pc0 ==> In(s3.J, pc0, n);
    assert SnapOk(s3);
  }

  lemma GoIfPrefix(o: Origin, s2: Snap, e2: ExpDesc, T: seq<int>, F: seq<int>, s3: Snap, X: seq<int>, Y: seq<int>)
    requires Core(o, s2, e2, T, F) && LinksOnly(s2.code, s3.code, Pend(X, Y, s2.J))
    requires ExitList(s3.code, Pc0(o), X) && (Y == T || Y == F)
    requires s3.J == s2.J + Y && s3.lt == |s3.code| && s3.k == s2.k && s3.ms == s2.ms
    requires |s2.code| == Pc0(o) ==> s3.code == s2.code
    ensures PrefixOk(o.base, s3)
  {
    var pc0, n := Pc0(o), |s2.code|;
    if n > pc0 {
      forall i | 0 <= i < pc0 ensures s3.code[i] == s2.code[i] { }
      assert s3.code[..pc0] == s2.code[..pc0];
    }
  }
}
