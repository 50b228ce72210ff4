/** What a half-finished piece of code means: running it up to its end, or up to
    a jump that is still waiting for its target. */
module CodeSem {
  import opened LuaVM
  import opened JumpLists

  /** How a run of code[pc..end) ends: it falls out at `end`; it is about to take
      the pending jump j (`tested`: because the test before it succeeded); it
      raises an error; or it does something the machine must never do. */
  datatype Outcome = Fall(regs: Regs) | Exit(j: int, regs: Regs, tested: bool) | Error | Wrong

  function Run(code: Code, K: seq<Value>, p: Prims, P: set<int>, end: int, pc: int, R: Regs): Outcome
    decreases end - pc
  {
    if pc == end then Fall(R)
    else if !(0 <= pc < end <= |code|) then Wrong
    else if IsTest(code[pc].op) then
      if pc + 1 >= end then Wrong
      else
        match BranchOf(code[pc], K, p, R)
        case BranchRaise => Error
        case BranchWrong => Wrong
        case Skipped => Run(code, K, p, P, end, pc + 2, R)
        case Taken =>
          if pc + 1 in P then Exit(pc + 1, R, true)
          else
            match TakeBranch(code, pc, R)
            case Next(q, R') => if q > pc + 1 then Run(code, K, p, P, end, q, R') else Wrong
            case _ => Wrong
    else if code[pc].op.OP_JMP? && pc in P then Exit(pc, R, false)
    else
      match Step(code, K, p, pc, R)
      case Next(q, R') => if q > pc then Run(code, K, p, P, end, q, R') else Wrong
      case Raised => Error
      case _ => Wrong
  }

  /** Carrying on after the jump at j has been given a target. */
  function JumpFrom(code: Code, K: seq<Value>, p: Prims, P: set<int>, end: int, j: int, R: Regs,
      tested: bool): Outcome {
    if j in P then Exit(j, R, tested)
    else if !(0 <= j < |code| && code[j].op.OP_JMP?) then Wrong
    else if tested then
      if j == 0 then Wrong
      else
        match TakeBranch(code, j - 1, R)
        case Next(q, R') => if q > j then Run(code, K, p, P, end, q, R') else Wrong
        case _ => Wrong
    else if Dest(code, j) > j then Run(code, K, p, P, end, Dest(code, j), R)
    else Wrong
  }

  /** Carrying on from the end of a first piece of code, at m, into the next one. */
  function Resume(code: Code, K: seq<Value>, p: Prims, P: set<int>, end: int, m: int, o: Outcome): Outcome {
    match o
    case Fall(R) => Run(code, K, p, P, end, m, R)
    case Exit(j, R, tested) => JumpFrom(code, K, p, P, end, j, R, tested)
    case Error => Error
    case Wrong => Wrong
  }

  /** y decides like x: it is x, or x is a TESTSET and y differs in what it stores. */
  predicate SameCond(x: Instruction, y: Instruction) {
    || x == y
    || (x.op.OP_TESTSET? && y.op.OP_TESTSET? && x.b == y.b && x.c == y.c)
    || (x.op.OP_TESTSET? && y.op.OP_TEST? && y.a == x.b && x.c == y.c)
  }

  /** c2 is c1 up to what patching the jumps in P may change. */
  predicate SimAt(c1: Code, c2: Code, P: set<int>, i: int)
    requires 0 <= i < |c1| && i < |c2|
  {
    if i in P then c1[i].op.OP_JMP? && c2[i].op.OP_JMP?
    else if i + 1 in P && IsTest(c1[i].op) then SameCond(c1[i], c2[i])
    else c1[i] == c2[i]
  }

  ghost predicate CodeSim(c1: Code, c2: Code, P: set<int>, lo: int, hi: int) {
    && 0 <= lo <= hi <= |c1| && hi <= |c2|
    && forall i :: lo <= i < hi ==> SimAt(c1, c2, P, i)
  }

  lemma StepSame(c1: Code, c2: Code, K: seq<Value>, p: Prims, pc: int, R: Regs)
    requires 0 <= pc < |c1| && pc < |c2| && c1[pc] == c2[pc] && !IsTest(c1[pc].op)
    ensures Step(c1, K, p, pc, R) == Step(c2, K, p, pc, R)
  {
  }

  /** Runs see pending jumps only as exits, so patching them changes nothing. */
  lemma {:induction false} RunSim(c1: Code, c2: Code, K: seq<Value>, p: Prims, P1: set<int>, P2: set<int>, lo: int,
      hi: int, pc: int, R: Regs)
    requires CodeSim(c1, c2, P1, lo, hi) && lo <= pc
    requires forall j :: lo <= j < hi ==> (j in P1 <==> j in P2)
    ensures Run(c1, K, p, P1, hi, pc, R) == Run(c2, K, p, P2, hi, pc, R)
    decreases hi - pc
  {
    hide Step;
    if lo <= pc < hi {
      assert SimAt(c1, c2, P1, pc);
      if IsTest(c1[pc].op) {
        if pc + 1 < hi {
          assert SimAt(c1, c2, P1, pc + 1);
          assert BranchOf(c1[pc], K, p, R) == BranchOf(c2[pc], K, p, R);
          match BranchOf(c1[pc], K, p, R)
          case Skipped => RunSim(c1, c2, K, p, P1, P2, lo, hi, pc + 2, R);
          case Taken =>
            if pc + 1 !in P1 {
              assert TakeBranch(c1, pc, R) == TakeBranch(c2, pc, R);
              match TakeBranch(c1, pc, R)
              case Next(q, R') => if q > pc + 1 { RunSim(c1, c2, K, p, P1, P2, lo, hi, q, R'); }
              case _ =>
            }
          case _ =>
        }
      } else if !(c1[pc].op.OP_JMP? && pc in P1) {
        StepSame(c1, c2, K, p, pc, R);
        match Step(c1, K, p, pc, R)
        case Next(q, R') => if q > pc { RunSim(c1, c2, K, p, P1, P2, lo, hi, q, R'); }
        case _ =>
      }
    }
  }

  /** Running to `end` is running to m and carrying on from there. */
  lemma {:induction false} Split(code: Code, K: seq<Value>, p: Prims, P1: set<int>, P2: set<int>, m: int, end: int,
      pc: int, R: Regs)
    requires 0 <= pc <= m <= end <= |code|
    requires forall j :: pc <= j < m && j in P2 ==> j in P1
    requires forall j :: pc <= j < m && j in P1 ==> code[j].op.OP_JMP?
    requires !Run(code, K, p, P1, m, pc, R).Wrong?
    ensures Run(code, K, p, P2, end, pc, R) == Resume(code, K, p, P2, end, m, Run(code, K, p, P1, m, pc, R))
    decreases m - pc
  {
    if pc < m {
      if IsTest(code[pc].op) {
        match BranchOf(code[pc], K, p, R)
        case Skipped => Split(code, K, p, P1, P2, m, end, pc + 2, R);
        case Taken =>
          if pc + 1 !in P1 {
            match TakeBranch(code, pc, R)
            case Next(q, R') => if q > pc + 1 { Split(code, K, p, P1, P2, m, end, q, R'); }
            case _ =>
          }
        case _ =>
      } else if !(code[pc].op.OP_JMP? && pc in P1) {
        match Step(code, K, p, pc, R)
        case Next(q, R') => if q > pc { Split(code, K, p, P1, P2, m, end, q, R'); }
        case _ =>
      }
    }
  }

  /** Split across a patch: c1 is the first piece as it was, c2 the code as it is now. */
  lemma Advance(c1: Code, c2: Code, K: seq<Value>, p: Prims, P1: set<int>, P2: set<int>, lo: int, m: int, end: int,
      R: Regs)
    requires CodeSim(c1, c2, P1, lo, m) && m <= end <= |c2|
    requires forall j :: lo <= j < m && j in P2 ==> j in P1
    requires !Run(c1, K, p, P1, m, lo, R).Wrong?
    ensures Run(c2, K, p, P2, end, lo, R) == Resume(c2, K, p, P2, end, m, Run(c1, K, p, P1, m, lo, R))
  {
    RunSim(c1, c2, K, p, P1, P1, lo, m, lo, R);
    forall j | lo <= j < m && j in P1 ensures c2[j].op.OP_JMP? {
      assert SimAt(c1, c2, P1, j);
    }
    Split(c2, K, p, P1, P2, m, end, lo, R);
  }

  /** A run with no jump pending is a run of the machine. */
  lemma {:induction false} RunIsVM(code: Code, K: seq<Value>, p: Prims, end: int, pc: int, R: Regs)
    returns (n: nat)
    ensures Run(code, K, p, {}, end, pc, R).Fall? ==>
              Steps(code, K, p, n, pc, R) == Next(end, Run(code, K, p, {}, end, pc, R).regs)
    ensures Run(code, K, p, {}, end, pc, R).Error? ==> Steps(code, K, p, n, pc, R) == Raised
    decreases end - pc
  {
    n := 0;
    if 0 <= pc < end <= |code| {
      match Step(code, K, p, pc, R)
      case Next(q, R') =>
        if q > pc {
          n := RunIsVM(code, K, p, end, q, R');
          n := n + 1;
        }
      case _ => n := 1;
    }
  }
}
