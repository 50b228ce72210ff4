/** The fragment of the Lua 5.1 virtual machine that evaluates expressions:
    values, instructions and one step of the interpreter loop (lopcodes.h, lvm.c). */
module LuaVM {
  import opened Wrappers

  /** Numbers and strings are opaque: the code generator only copies and compares them. */
  datatype Value = Nil | Boolean(b: bool) | Number(n: int) | Str(s: string)

  /** What evaluating an expression gives: a value, or a run-time error. */
  datatype Result = Ok(v: Value) | Err

  /** What a comparison gives: a verdict, or a run-time error. */
  datatype Verdict = Answer(b: bool) | Raise

  datatype ArithOp = ADD | SUB | MUL | DIV | MOD | POW

  datatype UnaryOp = UNM | LEN

  /** The operations whose meaning lies outside the code generator.  `num` and
      `foldUnm` are the arithmetic on numbers (luai_numadd and so on); `scratch` is what
      a concatenation leaves in the registers of its operands. */
  datatype Prims = Prims(
    eq: (Value, Value) -> Verdict,
    lt: (Value, Value) -> Verdict,
    le: (Value, Value) -> Verdict,
    arith: (ArithOp, Value, Value) -> Result,
    concat: (Value, Value) -> Result,
    scratch: (seq<Value>, nat) -> Value,
    unary: (UnaryOp, Value) -> Result,
    upval: int -> Value,
    global: Value -> Result,
    num: (ArithOp, int, int) -> int,
    isZero: int -> bool,
    isNaN: int -> bool,
    foldUnm: int -> int)

  /** constfolding for a binary operator: no division by zero, no NaN. */
  function Fold(p: Prims, op: ArithOp, a: int, b: int): Option<int> {
    if (op.DIV? || op.MOD?) && p.isZero(b) then None
    else if p.isNaN(p.num(op, a, b)) then None
    else Some(p.num(op, a, b))
  }

  /** Arithmetic on numbers at run time is that of the compiler. */
  ghost predicate FoldSound(p: Prims) {
    && (forall op, a, b :: p.arith(op, Number(a), Number(b)) == Ok(Number(p.num(op, a, b))))
    && (forall a :: p.unary(UNM, Number(a)) == Ok(Number(p.foldUnm(a))))
  }

  predicate Falsy(v: Value) { v == Nil || v == Boolean(false) }

  // lopcodes.h: operand widths and the RK encoding
  const MAXARG_A: int := 255
  const NO_REG: int := MAXARG_A
  const MAXARG_Bx: int := 262143
  const MAXARG_sBx: int := 131071
  const BITRK: int := 256
  const MAXINDEXRK: int := BITRK - 1

  datatype OpCode =
    | OP_MOVE | OP_LOADK | OP_LOADBOOL | OP_LOADNIL | OP_GETUPVAL | OP_GETGLOBAL
    | OP_ARITH(aop: ArithOp) | OP_UNARY(uop: UnaryOp) | OP_NOT | OP_CONCAT
    | OP_JMP | OP_EQ | OP_LT | OP_LE | OP_TEST | OP_TESTSET | OP_RETURN

  /** Bx and sBx live in `b`. */
  datatype Instruction = Instruction(op: OpCode, a: int, b: int, c: int)

  type Code = seq<Instruction>
  type Regs = seq<Value>

  /** testTMode: a conditional skip, always followed by a JMP. */
  predicate IsTest(op: OpCode) { op.OP_EQ? || op.OP_LT? || op.OP_LE? || op.OP_TEST? || op.OP_TESTSET? }

  predicate IsCompare(op: OpCode) { op.OP_EQ? || op.OP_LT? || op.OP_LE? }

  predicate InReg(R: Regs, r: int) { 0 <= r < |R| }

  predicate InRK(K: seq<Value>, R: Regs, x: int) {
    if x >= BITRK then x - BITRK < |K| else InReg(R, x)
  }

  function RK(K: seq<Value>, R: Regs, x: int): Value
    requires InRK(K, R, x)
  {
    if x >= BITRK then K[x - BITRK] else R[x]
  }

  function BoolInt(b: bool): int { if b then 1 else 0 }

  /** R with nil in registers a..b. */
  function FillNil(R: Regs, a: int, b: int): (r: Regs)
    requires 0 <= a && b < |R|
    ensures |r| == |R|
    ensures forall i :: 0 <= i < |R| ==> r[i] == if a <= i <= b then Nil else R[i]
  {
    seq(|R|, i requires 0 <= i < |R| => if a <= i <= b then Nil else R[i])
  }

  /** Whether a test instruction takes the jump that follows it. */
  datatype Branch = Taken | Skipped | BranchRaise | BranchWrong

  function Decide(v: Verdict, a: int): Branch {
    match v
    case Raise => BranchRaise
    case Answer(b) => if BoolInt(b) == a then Taken else Skipped
  }

  function BranchOf(i: Instruction, K: seq<Value>, p: Prims, R: Regs): Branch {
    match i.op
    case OP_EQ => if InRK(K, R, i.b) && InRK(K, R, i.c) then Decide(p.eq(RK(K, R, i.b), RK(K, R, i.c)), i.a) else BranchWrong
    case OP_LT => if InRK(K, R, i.b) && InRK(K, R, i.c) then Decide(p.lt(RK(K, R, i.b), RK(K, R, i.c)), i.a) else BranchWrong
    case OP_LE => if InRK(K, R, i.b) && InRK(K, R, i.c) then Decide(p.le(RK(K, R, i.b), RK(K, R, i.c)), i.a) else BranchWrong
    case OP_TEST => if InReg(R, i.a) then (if BoolInt(Falsy(R[i.a])) != i.c then Taken else Skipped) else BranchWrong
    case OP_TESTSET => if InReg(R, i.b) then (if BoolInt(Falsy(R[i.b])) != i.c then Taken else Skipped) else BranchWrong
    case _ => BranchWrong
  }

  /** Concatenating from right to left, two at a time. */
  function ConcatAll(f: (Value, Value) -> Result, vs: seq<Value>): Result
    requires vs != []
  {
    if |vs| == 1 then Ok(vs[0])
    else
      match ConcatAll(f, vs[1..])
      case Err => Err
      case Ok(v) => f(vs[0], v)
  }

  /** The registers of the operands are the concatenation's to work in. */
  function Worked(i: Instruction, p: Prims, R: Regs): (r: Regs)
    ensures |r| == |R|
    ensures forall j :: 0 <= j < |R| && !(i.op.OP_CONCAT? && i.b <= j <= i.c) ==> r[j] == R[j]
  {
    if i.op.OP_CONCAT? && 0 <= i.b <= i.c < |R| then
      R[..i.b] + seq(i.c - i.b + 1, j requires 0 <= j => p.scratch(R[i.b..i.c + 1], j)) + R[i.c + 1..]
    else R
  }

  /** The value an instruction that sets R(A) computes. */
  function Computes(i: Instruction, K: seq<Value>, p: Prims, R: Regs): Option<Result> {
    match i.op
    case OP_MOVE => if InReg(R, i.b) then Some(Ok(R[i.b])) else None
    case OP_LOADK => if 0 <= i.b < |K| then Some(Ok(K[i.b])) else None
    case OP_GETUPVAL => Some(Ok(p.upval(i.b)))
    case OP_GETGLOBAL => if 0 <= i.b < |K| then Some(p.global(K[i.b])) else None
    case OP_ARITH(op) =>
      if InRK(K, R, i.b) && InRK(K, R, i.c) then Some(p.arith(op, RK(K, R, i.b), RK(K, R, i.c))) else None
    case OP_UNARY(op) => if InReg(R, i.b) then Some(p.unary(op, R[i.b])) else None
    case OP_NOT => if InReg(R, i.b) then Some(Ok(Boolean(Falsy(R[i.b])))) else None
    case OP_CONCAT => if 0 <= i.b <= i.c < |R| then Some(ConcatAll(p.concat, R[i.b..i.c + 1])) else None
    case OP_LOADBOOL => if i.c == 0 then Some(Ok(Boolean(i.b != 0))) else None
    case _ => None
  }

  predicate IsCompute(i: Instruction) {
    || i.op.OP_MOVE? || i.op.OP_LOADK? || i.op.OP_GETUPVAL? || i.op.OP_GETGLOBAL?
    || i.op.OP_ARITH? || i.op.OP_UNARY? || i.op.OP_NOT? || (i.op.OP_LOADBOOL? && i.c == 0)
  }

  /** An instruction whose target register may still be open.  Concatenations work on the
      registers from fr on. */
  predicate IsOpen(i: Instruction, fr: int) { IsCompute(i) || (i.op.OP_CONCAT? && i.b == fr < i.c) }

  /** One turn of the interpreter loop: the next pc and registers, an error, the end of the
      function with the values it returns, or something the machine must never do (bad
      register, constant or jump). */
  datatype StepResult = Next(pc: int, regs: Regs) | Raised | Returned(vs: seq<Value>) | Stuck

  /** The jump a test takes: the sBx of the JMP that follows, after TESTSET's copy. */
  function TakeBranch(code: Code, pc: int, R: Regs): StepResult
    requires 0 <= pc < |code|
  {
    if pc + 1 < |code| && code[pc + 1].op.OP_JMP? then
      var q := pc + 2 + code[pc + 1].b;
      if code[pc].op.OP_TESTSET? then
        if InReg(R, code[pc].a) && InReg(R, code[pc].b) then Next(q, R[code[pc].a := R[code[pc].b]]) else Stuck
      else Next(q, R)
    else Stuck
  }

  function Step(code: Code, K: seq<Value>, p: Prims, pc: int, R: Regs): StepResult
    requires 0 <= pc < |code|
  {
    var i := code[pc];
    match i.op
    case OP_LOADBOOL =>
      if InReg(R, i.a) then Next(if i.c != 0 then pc + 2 else pc + 1, R[i.a := Boolean(i.b != 0)]) else Stuck
    case OP_LOADNIL =>
      if 0 <= i.a <= i.b < |R| then Next(pc + 1, FillNil(R, i.a, i.b)) else Stuck
    case OP_JMP => Next(pc + 1 + i.b, R)
    case OP_RETURN =>
      if 0 <= i.a && 1 <= i.b && i.a + i.b - 1 <= |R| then Returned(R[i.a..i.a + i.b - 1]) else Stuck
    case _ =>
      if IsTest(i.op) then
        match BranchOf(i, K, p, R)
        case Taken => TakeBranch(code, pc, R)
        case Skipped => Next(pc + 2, R)
        case BranchRaise => Raised
        case BranchWrong => Stuck
      else
        match Computes(i, K, p, R)
        case Some(Ok(v)) => if InReg(R, i.a) then Next(pc + 1, Worked(i, p, R)[i.a := v]) else Stuck
        case Some(Err) => Raised
        case None => Stuck
  }

  /** Where the machine is after `n` steps. */
  function Steps(code: Code, K: seq<Value>, p: Prims, n: nat, pc: int, R: Regs): StepResult
  {
    if n == 0 then Next(pc, R)
    else if !(0 <= pc < |code|) then Stuck
    else
      match Step(code, K, p, pc, R)
      case Next(q, R') => Steps(code, K, p, n - 1, q, R')
      case other => other
  }

  // ----- source expressions -----

  datatype BinOp = Arith(op: ArithOp) | CONCAT | NE | EQ | LT | LE | GT | GE | AND | OR

  datatype UnOp = NOT | UNARY(uop: UnaryOp)

  datatype Expr =
    | ENil | ETrue | EFalse | ENum(n: int) | EStr(s: string)
    | ELocal(reg: nat) | EUpval(idx: nat) | EGlobal(name: string)
    | EParen(e: Expr) | EUn(uop: UnOp, e: Expr) | EBin(op: BinOp, l: Expr, r: Expr)

  function Compare(v: Verdict, sense: bool): Result {
    match v
    case Raise => Err
    case Answer(b) => Ok(Boolean(b == sense))
  }

  /** Lua's meaning of a binary operator that evaluates both operands
      (sections 2.5.1 and 2.5.2 of the Lua 5.1 Reference Manual). */
  function EvalBin(op: BinOp, p: Prims, a: Value, b: Value): Result {
    match op
    case Arith(aop) => p.arith(aop, a, b)
    case CONCAT => p.concat(a, b)
    case EQ => Compare(p.eq(a, b), true)
    case NE => Compare(p.eq(a, b), false)
    case LT => Compare(p.lt(a, b), true)
    case LE => Compare(p.le(a, b), true)
    case GT => Compare(p.lt(b, a), true)
    case GE => Compare(p.le(b, a), true)
    case AND => if Falsy(a) then Ok(a) else Ok(b)
    case OR => if Falsy(a) then Ok(b) else Ok(a)
  }

  function EvalUn(op: UnOp, p: Prims, a: Value): Result {
    match op
    case NOT => Ok(Boolean(Falsy(a)))
    case UNARY(u) => p.unary(u, a)
  }

  /** The value of an expression over the active locals.  `and` and `or`
      evaluate their second operand only when the first does not decide. */
  function Eval(x: Expr, p: Prims, locals: seq<Value>): Result {
    match x
    case ENil => Ok(Nil)
    case ETrue => Ok(Boolean(true))
    case EFalse => Ok(Boolean(false))
    case ENum(n) => Ok(Number(n))
    case EStr(s) => Ok(Str(s))
    case ELocal(r) => if r < |locals| then Ok(locals[r]) else Err
    case EUpval(i) => Ok(p.upval(i))
    case EGlobal(s) => p.global(Str(s))
    case EParen(e) => Eval(e, p, locals)
    case EUn(op, e) =>
      (match Eval(e, p, locals)
       case Err => Err
       case Ok(v) => EvalUn(op, p, v))
    case EBin(op, l, r) =>
      match Eval(l, p, locals)
      case Err => Err
      case Ok(a) =>
        if op.AND? && Falsy(a) then Ok(a)
        else if op.OR? && !Falsy(a) then Ok(a)
        else
          match Eval(r, p, locals)
          case Err => Err
          case Ok(b) => EvalBin(op, p, a, b)
  }
}
