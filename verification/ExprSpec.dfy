/** What an expression descriptor promises about the code emitted so far. */
module ExprSpec {
  import opened Wrappers
  import opened LuaVM
  import opened JumpLists
  import opened CodeSem

  datatype Kind = VNIL | VTRUE | VFALSE | VK | VKNUM | VLOCAL | VUPVAL | VGLOBAL | VJMP | VRELOCABLE | VNONRELOC

  /** expdesc (lparser.h): `t` and `f` head the lists of jumps out of the
      expression when it is true and when it is false. */
  datatype ExpDesc = ExpDesc(k: Kind, info: int, nval: int, t: int, f: int)

  /** The code generator's state: code, last jump target, first free register,
      constants, stack size, and the jumps waiting for the next instruction. */
  datatype Snap = Snap(code: Code, lt: int, fr: int, k: seq<Value>, ms: int, J: seq<int>)

  /** Where the code of an expression started: the state before it, the number of
      active locals, and the expression itself. */
  datatype Origin = Origin(base: Snap, nact: int, p: Prims, x: Expr)

  function Pc0(o: Origin): nat { |o.base.code| }

  /** luaK_nil may still widen the LOADNIL that ends the code, over free registers. */
  function Extend(s: Snap, b: int): (r: Code)
    ensures |r| == |s.code|
  {
    var n := |s.code|;
    if n > 0 && s.lt < n && s.code[n - 1].op.OP_LOADNIL? && s.code[n - 1].b <= b && s.fr <= s.code[n - 1].b + 1 then
      s.code[n - 1 := s.code[n - 1].(b := b)]
    else s.code
  }

  /** What is known of the registers when pc is reached without a jump: a LOADNIL
      just before pc has run, and a function starts with clean registers. */
  ghost predicate Entry(code: Code, pc: int, lt: int, nact: int, R: Regs) {
    lt < pc ==>
      && (pc == 0 ==> forall r :: 0 <= r < |R| && nact <= r ==> R[r] == Nil)
      && (0 < pc <= |code| && code[pc - 1].op.OP_LOADNIL? ==>
            forall r :: 0 <= r < |R| && code[pc - 1].a <= r <= code[pc - 1].b ==> R[r] == Nil)
  }

  ghost predicate Kept(R: Regs, R': Regs, n: int) {
    |R'| == |R| && 0 <= n <= |R| && forall i :: 0 <= i < n ==> R'[i] == R[i]
  }

  /** e, which needs no more code than one instruction, denotes res in registers R. */
  ghost predicate Describes(e: ExpDesc, K: seq<Value>, p: Prims, R: Regs, res: Result) {
    match e.k
    case VNIL => res == Ok(Nil)
    case VTRUE => res == Ok(Boolean(true))
    case VFALSE => res == Ok(Boolean(false))
    case VK => 0 <= e.info < |K| && res == Ok(K[e.info])
    case VKNUM => res == Ok(Number(e.nval))
    case VLOCAL => InReg(R, e.info) && res == Ok(R[e.info])
    case VNONRELOC => InReg(R, e.info) && res == Ok(R[e.info])
    case VUPVAL => res == Ok(p.upval(e.info))
    case VGLOBAL => 0 <= e.info < |K| && res == p.global(K[e.info])
    case VJMP => false
    case VRELOCABLE => false
  }

  /** The jump at j, about to be taken, carries res: a TESTSET will copy it, any
      other test says that it is the boolean `sense`. */
  ghost predicate ValueOf(code: Code, j: int, R: Regs, res: Result, sense: bool) {
    && res.Ok? && Falsy(res.v) != sense
    && 0 < j < |code|
    && if code[j - 1].op.OP_TESTSET? then InReg(R, code[j - 1].b) && R[code[j - 1].b] == res.v
       else res.v == Boolean(sense)
  }

  function ToSet(s: seq<int>): set<int> { set x | x in s }

  /** Every jump that still has no target. */
  function Pend(T: seq<int>, F: seq<int>, J: seq<int>): set<int> {
    ToSet(T) + ToSet(F) + ToSet(J)
  }

  /** A relocatable expression ends with an instruction whose target register is
      open, a comparison with a test whose jump is open. */
  function End(e: ExpDesc, n: int): int {
    match e.k
    case VRELOCABLE => e.info
    case VJMP => e.info - 1
    case _ => n
  }

  /** The branch a test takes when it decides res. */
  function BranchFor(res: Result): Branch {
    match res
    case Err => BranchRaise
    case Ok(v) => if Falsy(v) then Skipped else Taken
  }

  ghost predicate FallOk(o: Origin, cx: Code, lt: int, e: ExpDesc, K: seq<Value>, R: Regs, res: Result) {
    if e.k.VJMP? then
      && 0 < e.info <= |cx| && BranchOf(cx[e.info - 1], K, o.p, R) == BranchFor(res)
      && (res.Ok? ==> res.v.Boolean?)
    else if e.k.VRELOCABLE? then 0 <= e.info < |cx| && Computes(cx[e.info], K, o.p, R) == Some(res)
    else Describes(e, K, o.p, R, res) && Entry(cx, |cx|, lt, o.nact, R)
  }

  ghost predicate ExitOk(o: Origin, cx: Code, J: seq<int>, e: ExpDesc, T: seq<int>, F: seq<int>, K: seq<Value>, j: int,
      R: Regs, tested: bool, res: Result) {
    || (tested && j in T && ValueOf(cx, j, R, res, true))
    || (tested && j in F && ValueOf(cx, j, R, res, false))
    || (j in J && Describes(e, K, o.p, R, res))
  }

  ghost predicate Good(o: Origin, cx: Code, lt: int, J: seq<int>, e: ExpDesc, T: seq<int>, F: seq<int>, K: seq<Value>,
      R: Regs, out: Outcome)
    requires 0 <= o.nact <= |R|
  {
    var res := Eval(o.x, o.p, R[..o.nact]);
    match out
    case Fall(R') => Kept(R, R', o.base.fr) && FallOk(o, cx, lt, e, K, R', res)
    case Exit(j, R', tested) => Kept(R, R', o.base.fr) && ExitOk(o, cx, J, e, T, F, K, j, R', tested, res)
    case Error => res == Err
    case Wrong => false
  }

  /** The inputs the code is run on: enough registers, the constants so far (and
      perhaps more), and what the code before leaves behind. */
  ghost predicate Input(o: Origin, s: Snap, cx: Code, K: seq<Value>, R: Regs, b: int) {
    && 0 <= o.nact <= s.ms <= |R| && s.k <= K
    && (b < |R| || cx == s.code)
    && Entry(cx, Pc0(o), o.base.lt, o.nact, R)
  }

  ghost predicate SemAt(o: Origin, s: Snap, e: ExpDesc, T: seq<int>, F: seq<int>, K: seq<Value>, R: Regs, b: int) {
    var cx := Extend(s, b);
    Input(o, s, cx, K, R, b) ==>
      Good(o, cx, s.lt, s.J, e, T, F, K, R,
           Run(cx, K, o.p, Pend(T, F, s.J), End(e, |cx|), Pc0(o), R))
  }

  /** The meaning of a compiled expression: on all inputs its code falls out with
      the value where e says it is, or leaves through the lists e.t and e.f. */
  ghost predicate Sem(o: Origin, s: Snap, e: ExpDesc, T: seq<int>, F: seq<int>) {
    forall K: seq<Value>, R: Regs, b: int :: SemAt(o, s, e, T, F, K, R, b)
  }

  // ----- shape -----

  ghost predicate In(s: seq<int>, lo: int, hi: int) {
    forall x :: x in s ==> lo <= x < hi
  }

  ghost predicate Disjoint(s1: seq<int>, s2: seq<int>) {
    forall x :: x in s1 ==> x !in s2
  }

  /** The jumps of a t or f list: each is controlled by a test of this expression. */
  ghost predicate ExitList(code: Code, pc0: int, s: seq<int>) {
    forall j :: j in s ==> 0 < j && pc0 < j < |code| && IsTest(code[j - 1].op)
  }

  /** What the expression's code did to the code before it. */
  function LastB(code: Code, pc0: int): int
    requires 0 <= pc0 <= |code|
  {
    if pc0 > 0 then code[pc0 - 1].b else 0
  }

  function Before(base: Snap, grown: bool, b: int): Code {
    if grown then Discharge(Extend(base, b), base.J) else Extend(base, b)
  }

  ghost predicate PrefixOk(base: Snap, s: Snap) {
    var pc0 := |base.code|;
    && pc0 <= |s.code|
    && s.code[..pc0] == Before(base, |s.code| > pc0, LastB(s.code, pc0))
    && (Extend(base, LastB(s.code, pc0)) == base.code || LastB(s.code, pc0) < s.ms)
    && (|s.code| == pc0 ==> s.J == base.J)
    && base.lt <= s.lt && base.k <= s.k && base.ms <= s.ms
  }

  /** Facts about the state itself. */
  ghost predicate SnapOk(s: Snap) {
    && WF(s.code) && s.lt <= |s.code| && (s.J != [] ==> s.lt == |s.code|)
    && 0 <= s.fr <= s.ms < NO_REG
    && (forall j :: j in s.J ==> 0 <= j < |s.code| && s.code[j].op.OP_JMP?)
    && Distinct(s.J)
  }

  /** Where the code and the jump lists of an expression are. */
  ghost predicate Core(o: Origin, s: Snap, e: ExpDesc, T: seq<int>, F: seq<int>) {
    var pc0, n := Pc0(o), |s.code|;
    && pc0 <= n && SnapOk(o.base) && SnapOk(s) && PrefixOk(o.base, s)
    && 0 <= o.nact <= o.base.fr <= s.fr
    && Chain(s.code, e.t, T) && Chain(s.code, e.f, F)
    && Disjoint(T, F) && Disjoint(T, s.J) && Disjoint(F, s.J)
    && ExitList(s.code, pc0, T) && ExitList(s.code, pc0, F)
    && (n > pc0 ==> In(s.J, pc0, n))
    && (n == pc0 ==> T == [] && F == [])
  }

  /** An expression that needs no register yet adds no code of its own: the code
      so far, if any, ends with the jump of an `and` or `or`. */
  predicate EndsInJump(s: Snap, pc0: int) {
    |s.code| > pc0 ==> |s.code| > 0 && s.code[|s.code| - 1].op.OP_JMP?
  }

  ghost predicate KindOk(o: Origin, s: Snap, e: ExpDesc, T: seq<int>, F: seq<int>) {
    var pc0, n := Pc0(o), |s.code|;
    match e.k
    case VJMP =>
      && s.J == [] && e.info == n - 1 && n - 2 >= pc0 && s.fr == o.base.fr
      && s.code[n - 1] == Instruction(OP_JMP, 0, NO_JUMP, 0)
      && IsCompare(s.code[n - 2].op) && 0 <= s.code[n - 2].a <= 1
      && e.info !in T && e.info !in F
    case VRELOCABLE =>
      && s.J == [] && e.info == n - 1 && n - 1 >= pc0 && s.fr == o.base.fr
      && IsOpen(s.code[n - 1], o.base.fr)
    case VNONRELOC =>
      if s.fr == o.base.fr then 0 <= e.info < o.nact else e.info == o.base.fr && s.fr == o.base.fr + 1
    case VLOCAL => 0 <= e.info < o.nact && s.fr == o.base.fr && EndsInJump(s, pc0)
    case VK => 0 <= e.info < |s.k| && !Falsy(s.k[e.info]) && s.fr == o.base.fr && EndsInJump(s, pc0)
    case VGLOBAL => 0 <= e.info < |s.k| && s.fr == o.base.fr && EndsInJump(s, pc0)
    case _ => s.fr == o.base.fr && EndsInJump(s, pc0)
  }

  /** What KindOk says of an expression that is still open at its last instruction. */
  ghost predicate EndOk(o: Origin, s: Snap, e: ExpDesc) {
    var pc0, n := Pc0(o), |s.code|;
    && (e.k.VRELOCABLE? ==> e.info == n - 1 && n - 1 >= pc0 && IsOpen(s.code[n - 1], o.base.fr))
    && (e.k.VJMP? ==> e.info == n - 1 && n - 2 >= pc0 && IsCompare(s.code[n - 2].op))
  }

  /** Everything known of an expression in the middle of compilation. */
  ghost predicate Compiled(o: Origin, s: Snap, e: ExpDesc, T: seq<int>, F: seq<int>) {
    Core(o, s, e, T, F) && KindOk(o, s, e, T, F) && Sem(o, s, e, T, F)
  }

  // ----- a value placed in a register -----

  ghost predicate KeptBut(R: Regs, R': Regs, n: int, reg: int) {
    |R'| == |R| && 0 <= n <= |R| && forall i :: 0 <= i < n && i != reg ==> R'[i] == R[i]
  }

  ghost predicate Holds(R: Regs, reg: int, res: Result) {
    InReg(R, reg) && res == Ok(R[reg])
  }

  ghost predicate PlacedGood(o: Origin, cx: Code, lt: int, J: seq<int>, reg: int, T: seq<int>, F: seq<int>, R: Regs,
      out: Outcome)
    requires 0 <= o.nact <= |R|
  {
    var res := Eval(o.x, o.p, R[..o.nact]);
    match out
    case Fall(R') => KeptBut(R, R', o.base.fr, reg) && Holds(R', reg, res) && Entry(cx, |cx|, lt, o.nact, R')
    case Exit(j, R', tested) =>
      || (tested && j in T && Kept(R, R', o.base.fr) && ValueOf(cx, j, R', res, true))
      || (tested && j in F && Kept(R, R', o.base.fr) && ValueOf(cx, j, R', res, false))
      || (j in J && KeptBut(R, R', o.base.fr, reg) && Holds(R', reg, res))
    case Error => res == Err
    case Wrong => false
  }

  ghost predicate PlacedAt(o: Origin, s: Snap, e: ExpDesc, T: seq<int>, F: seq<int>, K: seq<Value>, R: Regs, b: int) {
    var cx := Extend(s, b);
    Input(o, s, cx, K, R, b) ==>
      PlacedGood(o, cx, s.lt, s.J, e.info, T, F, R, Run(cx, K, o.p, Pend(T, F, s.J), |cx|, Pc0(o), R))
  }

  /** The value is in register e.info (or leaves through e.t and e.f); every other
      register in use keeps its value. */
  ghost predicate Placed(o: Origin, s: Snap, e: ExpDesc, T: seq<int>, F: seq<int>) {
    && e.k.VNONRELOC? && 0 <= e.info < s.fr
    && Core(o, s, e, T, F)
    && forall K: seq<Value>, R: Regs, b: int :: PlacedAt(o, s, e, T, F, K, R, b)
  }

  // ----- a branch on an expression -----

  ghost predicate BranchGood(o: Origin, cx: Code, lt: int, J: seq<int>, X: seq<int>, sense: bool, R: Regs, out: Outcome)
    requires 0 <= o.nact <= |R|
  {
    var res := Eval(o.x, o.p, R[..o.nact]);
    match out
    case Fall(R') => Kept(R, R', o.base.fr) && res.Ok? && Falsy(res.v) != sense && Entry(cx, |cx|, lt, o.nact, R')
    case Exit(j, R', tested) =>
      && Kept(R, R', o.base.fr)
      && ((tested && j in X && ValueOf(cx, j, R', res, !sense))
          || (j in J && res.Ok? && Falsy(res.v) != sense))
    case Error => res == Err
    case Wrong => false
  }

  ghost predicate BranchAt(o: Origin, s: Snap, X: seq<int>, sense: bool, K: seq<Value>, R: Regs, b: int) {
    var cx := Extend(s, b);
    Input(o, s, cx, K, R, b) ==>
      BranchGood(o, cx, s.lt, s.J, X, sense, R, Run(cx, K, o.p, ToSet(X) + ToSet(s.J), |cx|, Pc0(o), R))
  }

  /** luaK_goiftrue (sense) and luaK_goiffalse (!sense): the code falls through
      exactly when the value has the given sense, and leaves through X otherwise. */
  ghost predicate Branched(o: Origin, s: Snap, e: ExpDesc, X: seq<int>, sense: bool) {
    && Core(o, s, e, if sense then [] else X, if sense then X else [])
    && s.fr == o.base.fr && EndsInJump(s, Pc0(o))
    && forall K: seq<Value>, R: Regs, b: int :: BranchAt(o, s, X, sense, K, R, b)
  }
}
