/** Jump lists of the code generator (lcode.c): pending JMPs chained through
    their own sBx fields, and the patching that resolves them. */
module JumpLists {
  import opened LuaVM

  const NO_JUMP: int := -1

  /** Absolute destination of the JMP at pc. */
  function Dest(code: Code, pc: int): int
    requires 0 <= pc < |code|
  {
    pc + 1 + code[pc].b
  }

  /** getjump: the next element of the list, or NO_JUMP when the jump points to itself. */
  function GetJump(code: Code, pc: int): int
    requires 0 <= pc < |code|
  {
    if code[pc].b == NO_JUMP then NO_JUMP else Dest(code, pc)
  }

  /** fixjump, when the offset fits. */
  function FixJump(code: Code, pc: int, dest: int): (r: Code)
    requires 0 <= pc < |code|
    ensures |r| == |code|
  {
    code[pc := code[pc].(b := dest - (pc + 1))]
  }

  ghost predicate Distinct(s: seq<int>) {
    forall i, j :: 0 <= i < j < |s| ==> s[i] != s[j]
  }

  /** The list that starts at `head` runs through exactly the jumps in s, in order. */
  ghost predicate Chain(code: Code, head: int, s: seq<int>) {
    && (|s| == 0 ==> head == NO_JUMP)
    && (|s| > 0 ==> head == s[0])
    && Links(code, s)
    && Distinct(s)
  }

  /** Element i of the list is a JMP that leads to element i + 1. */
  predicate LinkAt(code: Code, s: seq<int>, i: int)
    requires 0 <= i < |s|
  {
    && 0 <= s[i] < |code| && code[s[i]].op.OP_JMP?
    && GetJump(code, s[i]) == if i + 1 < |s| then s[i + 1] else NO_JUMP
  }

  ghost predicate Links(code: Code, s: seq<int>) {
    forall i :: 0 <= i < |s| ==> LinkAt(code, s, i)
  }

  /** A test always has its JMP behind it. */
  ghost predicate WF(code: Code) {
    forall i :: 0 <= i < |code| && IsTest(code[i].op) ==> i + 1 < |code| && code[i + 1].op.OP_JMP?
  }

  /** The jump at j is controlled by the test before it. */
  predicate Controlled(code: Code, j: int) {
    1 <= j < |code| && IsTest(code[j - 1].op)
  }

  /** getjumpcontrol */
  function ControlPos(code: Code, j: int): (c: int)
    requires 0 <= j < |code|
    ensures 0 <= c <= j
  {
    if Controlled(code, j) then j - 1 else j
  }

  predicate HasValue(code: Code, j: int)
    requires 0 <= j < |code|
  {
    code[ControlPos(code, j)].op.OP_TESTSET?
  }

  /** patchtestreg: the instruction that replaces a TESTSET. */
  function PatchedTest(i: Instruction, reg: int): Instruction {
    if reg != NO_REG && reg != i.b then i.(a := reg) else Instruction(OP_TEST, i.b, 0, i.c)
  }

  function PatchTestReg(code: Code, j: int, reg: int): (r: Code)
    requires 0 <= j < |code|
    ensures |r| == |code|
  {
    if HasValue(code, j) then
      var c := ControlPos(code, j);
      code[c := PatchedTest(code[c], reg)]
    else code
  }

  /** What patchlistaux makes of instruction i when it patches the list s. */
  function PatchedAt(code: Code, s: seq<int>, i: int, vt: int, reg: int, dt: int): Instruction
    requires 0 <= i < |code|
  {
    if i in s then
      code[i].(b := (if HasValue(code, i) then vt else dt) - (i + 1))
    else if i + 1 in s && i + 1 < |code| && code[i].op.OP_TESTSET? then
      PatchedTest(code[i], reg)
    else code[i]
  }

  /** patchlistaux on a whole list. */
  function PatchList(code: Code, s: seq<int>, vt: int, reg: int, dt: int): (r: Code)
    ensures |r| == |code|
  {
    seq(|code|, i requires 0 <= i < |code| => PatchedAt(code, s, i, vt, reg, dt))
  }

  /** removevalues on a whole list. */
  function RemovedAt(code: Code, s: seq<int>, i: int): Instruction
    requires 0 <= i < |code|
  {
    if i + 1 in s && i + 1 < |code| && code[i].op.OP_TESTSET? then PatchedTest(code[i], NO_REG) else code[i]
  }

  function RemoveList(code: Code, s: seq<int>): (r: Code)
    ensures |r| == |code|
  {
    seq(|code|, i requires 0 <= i < |code| => RemovedAt(code, s, i))
  }

  /** dischargejpc followed by nothing: jumps in s now go to pc == |code|. */
  function Discharge(code: Code, s: seq<int>): (r: Code)
    ensures |r| == |code|
  {
    PatchList(code, s, |code|, NO_REG, |code|)
  }

  /** luaK_concat of a non-empty list. */
  function Link(code: Code, s: seq<int>, head: int): (r: Code)
    ensures |r| == |code|
  {
    if |s| == 0 || head == NO_JUMP || !(0 <= s[|s| - 1] < |code|) then code
    else FixJump(code, s[|s| - 1], head)
  }

  // ----- lemmas -----

  lemma ChainKeep(code: Code, code': Code, head: int, s: seq<int>)
    requires Chain(code, head, s) && |code| <= |code'|
    requires forall i :: i in s && 0 <= i < |code| ==> code'[i] == code[i]
    ensures Chain(code', head, s)
  {
    forall i | 0 <= i < |s| ensures LinkAt(code', s, i) {
      assert LinkAt(code, s, i) && s[i] in s;
    }
  }

  lemma ChainMember(code: Code, head: int, s: seq<int>, j: int)
    requires Chain(code, head, s) && j in s
    ensures 0 <= j < |code| && code[j].op.OP_JMP?
  {
    var i :| 0 <= i < |s| && s[i] == j;
    assert LinkAt(code, s, i);
  }

  lemma DistinctConcat(s1: seq<int>, s2: seq<int>)
    requires Distinct(s1) && Distinct(s2)
    requires forall x :: x in s1 ==> x !in s2
    ensures Distinct(s1 + s2)
  {
    var s := s1 + s2;
    forall i, j | 0 <= i < j < |s| ensures s[i] != s[j] {
      if i < |s1| <= j {
        assert s[i] in s1 && s[j] in s2;
      }
    }
  }

  /** luaK_concat joins two disjoint lists into one acyclic list. */
  lemma LinkChain(code: Code, h1: int, s1: seq<int>, h2: int, s2: seq<int>)
    requires Chain(code, h1, s1) && Chain(code, h2, s2)
    requires forall x :: x in s1 ==> x !in s2
    ensures Chain(Link(code, s1, h2), if |s1| == 0 then h2 else h1, s1 + s2)
    ensures WF(code) ==> WF(Link(code, s1, h2))
  {
    if |s1| == 0 {
      assert s1 + s2 == s2;
    } else if |s2| == 0 {
      assert s1 + s2 == s1;
    } else {
      DistinctConcat(s1, s2);
      forall i | 0 <= i < |s1 + s2| ensures LinkAt(Link(code, s1, h2), s1 + s2, i) {
        LinkNext(code, s1, s2, i);
      }
    }
  }

  lemma LinkNext(code: Code, s1: seq<int>, s2: seq<int>, i: int)
    requires Links(code, s1) && Links(code, s2) && |s1| > 0 && |s2| > 0
    requires Distinct(s1) && (forall x :: x in s1 ==> x !in s2)
    requires 0 <= i < |s1 + s2|
    ensures var c := Link(code, s1, s2[0]);
      LinkAt(c, s1 + s2, i)
  {
    var l := s1[|s1| - 1];
    assert l in s1 && s2[0] in s2;
    if i < |s1| {
      assert LinkAt(code, s1, i);
      assert (s1 + s2)[i] == s1[i];
      assert i < |s1| - 1 ==> s1[i] != l && (s1 + s2)[i + 1] == s1[i + 1];
    } else {
      var k := i - |s1|;
      assert LinkAt(code, s2, k);
      assert (s1 + s2)[i] == s2[k] && s2[k] in s2;
    }
  }

  /** Patching leaves every jump a jump and every test a test, so the pairs stay pairs. */
  lemma PatchWF(code: Code, s: seq<int>, vt: int, reg: int, dt: int)
    requires WF(code)
    requires forall i :: i in s ==> 0 <= i < |code| && code[i].op.OP_JMP?
    ensures WF(PatchList(code, s, vt, reg, dt))
    ensures WF(RemoveList(code, s))
  {
  }

  lemma EmptyPatch(code: Code, vt: int, reg: int, dt: int)
    ensures PatchList(code, [], vt, reg, dt) == code
    ensures RemoveList(code, []) == code
    ensures Discharge(code, []) == code
  {
  }
}
