/** What closures see of captured variables (lfunc.c, lvm.c): each is one cell, wherever it is kept. */
module GcCells {
  import opened Wrappers
  import opened GcHeap
  import opened GcMark
  import opened GcUpvals

  /** The value of a captured variable: in its stack slot, or in the upvalue itself. */
  function Cell(objs: Objs, u: Id): Ref
    requires u in objs && IsUpval(objs[u].b)
  {
    if objs[u].b.Open? then SlotOf(objs, objs[u].b.th, objs[u].b.level) else objs[u].b.v
  }

  lemma CellIsVals(objs: Objs, u: Id)
    requires u in objs && IsUpval(objs[u].b)
    ensures Vals(objs, u) == [Cell(objs, u)]
  {
  }

  ghost predicate LiveUpval(h: Heap, u: Id) { Live(h, u) && IsUpval(h.objs[u].b) }

  /** Every captured variable has kept its value, except perhaps w's. */
  ghost predicate CellsBut(h: Heap, h': Heap, w: Ref) {
    forall u: Id :: LiveUpval(h, u) && Some(u) != w ==> LiveUpval(h', u) && Cell(h'.objs, u) == Cell(h.objs, u)
  }

  ghost predicate CellsKept(h: Heap, h': Heap) { CellsBut(h, h', None) }

  lemma CellsTrans(a: Heap, b: Heap, c: Heap)
    requires CellsKept(a, b) && CellsKept(b, c)
    ensures CellsKept(a, c)
  {
  }

  lemma CellsSame(h: Heap, h': Heap)
    requires SameBodies(h.objs, h'.objs) && forall x :: Live(h, x) ==> Live(h', x)
    ensures CellsKept(h, h')
  {
  }

  /** The next open upvalue of th is freed or closed: no live variable changes. */
  lemma CloseCells(h: Heap, th: Id, h': Heap, hash: string -> nat)
    requires Inv(h, hash) && IsThread(h.objs, th) && h.objs[th].b.open != []
    requires h.objs[th].b.open[0] in h.objs && h.objs[h.objs[th].b.open[0]].b.Open?
    requires SameBodies(CloseUv(h, th, 0).objs, h'.objs) || (h'.objs == FreeUv(h, th, 0).objs && !Live(h, h.objs[th].b.open[0]))
    requires forall x :: Live(h, x) ==> Live(h', x)
    ensures CellsKept(h, h')
  {
    assert UpvalsOk(h);
    hide Shape, Safe, Phase, UpvalsOk, Inv;
    var head := h.objs[th].b.open[0];
    UvFacts(h, th, 0);
    forall u | LiveUpval(h, u) ensures LiveUpval(h', u) && Cell(h'.objs, u) == Cell(h.objs, u) {
      assert Live(h', u);
      CloseCell(h, th, h', u);
    }
  }

  lemma CloseCell(h: Heap, th: Id, h': Heap, u: Id)
    requires UpvalsOk(h) && IsThread(h.objs, th) && h.objs[th].b.open != []
    requires h.objs[th].b.open[0] in h.objs && h.objs[h.objs[th].b.open[0]].b.Open?
    requires SameBodies(CloseUv(h, th, 0).objs, h'.objs) || (h'.objs == FreeUv(h, th, 0).objs && !Live(h, h.objs[th].b.open[0]))
    requires LiveUpval(h, u) && Live(h', u)
    ensures IsUpval(h'.objs[u].b) && Cell(h'.objs, u) == Cell(h.objs, u)
  {
    var head := h.objs[th].b.open[0];
    UvFacts(h, th, 0);
    if u != head && h.objs[u].b.Open? {
      assert OpenAt(h.objs, u, h.objs[u].b.th);
      assert h'.objs[u].b == h.objs[u].b;
    }
  }

  /** A thread's stack changes only where no open upvalue is: no variable changes. */
  lemma StackCells(h: Heap, th: Id, b: Body, h': Heap, hash: string -> nat)
    requires Inv(h, hash) && IsThread(h.objs, th) && b.Thread? && h'.objs == SetBody(h.objs, th, b)
    requires forall x :: Live(h, x) ==> Live(h', x)
    requires forall j :: 0 <= j < h.objs[th].b.top && OpenAtLevel(h, th, j) ==>
      j < |b.stack| && j < |h.objs[th].b.stack| && b.stack[j] == h.objs[th].b.stack[j]
    ensures CellsKept(h, h')
  {
    assert UpvalsOk(h);
    hide Shape, Safe, Phase, Inv;
    forall u | LiveUpval(h, u) ensures LiveUpval(h', u) && Cell(h'.objs, u) == Cell(h.objs, u) {
      if h.objs[u].b.Open? { assert OpenAt(h.objs, u, h.objs[u].b.th); }
    }
  }

  /** A captured variable of th lives in stack slot j. */
  ghost predicate OpenAtLevel(h: Heap, th: Id, j: int) {
    exists u :: u in h.objs && h.objs[u].b.Open? && h.objs[u].b.th == th && h.objs[u].b.level == j
  }

  function SlotCell(h: Heap, th: Id, i: nat, v: Ref, u: Id): Ref
    requires u in h.objs && IsUpval(h.objs[u].b)
  {
    if h.objs[u].b == Open(th, i) then v else Cell(h.objs, u)
  }

  /** A write to stack slot i is a write to the variable captured there, and to no other. */
  lemma SlotCells(h: Heap, th: Id, i: nat, v: Ref, h': Heap, hash: string -> nat)
    requires Inv(h, hash) && IsThread(h.objs, th) && i < |h.objs[th].b.stack|
    requires h'.objs == SetBody(h.objs, th, h.objs[th].b.(stack := h.objs[th].b.stack[i := v]))
    requires forall x :: Live(h, x) ==> Live(h', x)
    ensures forall u: Id :: LiveUpval(h, u) ==> LiveUpval(h', u) && Cell(h'.objs, u) == SlotCell(h, th, i, v, u)
  {
    assert UpvalsOk(h);
    hide Shape, Safe, Phase, Inv;
    forall u: Id | LiveUpval(h, u) ensures LiveUpval(h', u) && Cell(h'.objs, u) == SlotCell(h, th, i, v, u) {
      if h.objs[u].b.Open? { assert OpenAt(h.objs, u, h.objs[u].b.th); }
    }
  }

  /** At most one open upvalue per slot. */
  lemma OneUpval(h: Heap, th: Id, level: nat, x: Id, y: Id, hash: string -> nat)
    requires Inv(h, hash) && x in h.objs && y in h.objs && h.objs[x].b == Open(th, level)
    requires h.objs[y].b == Open(th, level)
    ensures x == y
  {
    assert UpvalsOk(h) && OpenAt(h.objs, x, th) && OpenAt(h.objs, y, th) && OpenList(h.objs, th);
    var open := h.objs[th].b.open;
    var i :| 0 <= i < |open| && open[i] == x;
    var j :| 0 <= j < |open| && open[j] == y;
    assert i < j ==> LevelOf(h.objs, open[i]) > LevelOf(h.objs, open[j]);
    assert j < i ==> LevelOf(h.objs, open[j]) > LevelOf(h.objs, open[i]);
  }

  lemma OnlyUpval(h: Heap, th: Id, level: nat, u: Id, hash: string -> nat)
    requires Inv(h, hash) && u in h.objs && h.objs[u].b == Open(th, level)
    ensures forall y :: y in h.objs && h.objs[y].b == Open(th, level) ==> y == u
  {
    hide Inv;
    forall y | y in h.objs && h.objs[y].b == Open(th, level) ensures y == u { OneUpval(h, th, level, y, u, hash); }
  }

  /** Every open upvalue is in its thread's list. */
  lemma NoneAbove(h: Heap, th: Id, level: nat, hash: string -> nat)
    requires Inv(h, hash) && IsThread(h.objs, th) && forall u :: u in h.objs[th].b.open ==> LevelOf(h.objs, u) < level
    ensures forall u :: u in h.objs && h.objs[u].b.Open? && h.objs[u].b.th == th ==> h.objs[u].b.level < level
  {
    forall u | u in h.objs && h.objs[u].b.Open? && h.objs[u].b.th == th ensures h.objs[u].b.level < level {
      assert UpvalsOk(h) && OpenAt(h.objs, u, th);
      assert LevelOf(h.objs, u) < level;
    }
  }

  lemma CellsNone(h: Heap, w: Ref)
    ensures CellsBut(h, h, w)
  {
  }

  /** Objects may be added, and strings and open upvalues revived. */
  lemma BodiesCells(h: Heap, h': Heap, hash: string -> nat)
    requires Inv(h, hash)
    requires forall x :: x in h.objs ==> x in h'.objs && h'.objs[x].b == h.objs[x].b
    requires forall x :: Live(h, x) ==> Live(h', x)
    ensures CellsKept(h, h')
  {
    hide Inv;
    forall u: Id | LiveUpval(h, u) ensures LiveUpval(h', u) && Cell(h'.objs, u) == Cell(h.objs, u) {
      if h.objs[u].b.Open? { UpvalThread(h, u, hash); }
    }
  }

  /** A new object changes no variable. */
  lemma AddCells(h: Heap, h': Heap, x: Id, hash: string -> nat)
    requires Inv(h, hash) && x !in h.objs && x in h'.objs && h'.objs == h.objs[x := h'.objs[x]]
    requires forall y :: Live(h, y) ==> Live(h', y)
    ensures CellsKept(h, h')
  {
    BodiesCells(h, h', hash);
  }

  /** Nor does a new open upvalue. */
  lemma FoundCells(h: Heap, h': Heap, th: Id, hash: string -> nat)
    requires Inv(h, hash) && IsThread(h.objs, th) && IsThread(h'.objs, th)
    requires h'.objs[th].b.stack == h.objs[th].b.stack && h'.objs[th].b.top == h.objs[th].b.top
    requires forall y :: y in h.objs ==> y in h'.objs && (y != th ==> h'.objs[y].b == h.objs[y].b)
    requires forall y :: Live(h, y) ==> Live(h', y)
    ensures CellsKept(h, h')
  {
    hide Inv;
    forall u: Id | LiveUpval(h, u) ensures LiveUpval(h', u) && Cell(h'.objs, u) == Cell(h.objs, u) {
      if h.objs[u].b.Open? { UpvalThread(h, u, hash); }
    }
  }

  lemma UpvalThread(h: Heap, u: Id, hash: string -> nat)
    requires Inv(h, hash) && u in h.objs && h.objs[u].b.Open?
    ensures OpenAt(h.objs, u, h.objs[u].b.th)
  {
    assert UpvalsOk(h);
  }

  /** A store into an object that is no upvalue changes no variable. */
  lemma WriteCells(h: Heap, h': Heap, o: Id, b: Body)
    requires o in h.objs && !IsUpval(h.objs[o].b) && !h.objs[o].b.Thread? && SameBodies(SetBody(h.objs, o, b), h'.objs)
    requires !b.Thread? && forall y :: Live(h, y) ==> Live(h', y)
    ensures CellsKept(h, h')
  {
  }

  lemma FieldCells(h: Heap, h': Heap, o: Id, b: Body)
    requires o in h.objs && !h.objs[o].b.Thread? && SameBodies(SetBody(h.objs, o, b), h'.objs)
    requires !b.Thread? && forall y :: Live(h, y) ==> Live(h', y)
    ensures CellsBut(h, h', Some(o))
  {
  }

  lemma NoSlot(h: Heap, th: Id, i: nat, hash: string -> nat)
    requires Inv(h, hash) && IsThread(h.objs, th) && i >= |h.objs[th].b.stack|
    ensures forall u :: u in h.objs ==> h.objs[u].b != Open(th, i)
  {
    hide Inv;
    forall u | u in h.objs && h.objs[u].b.Open? ensures h.objs[u].b != Open(th, i) { UpvalThread(h, u, hash); }
  }

  /** The variable captured in u's slot is u alone. */
  lemma OneSlot(h: Heap, h': Heap, u: Id, v: Ref, hash: string -> nat)
    requires Inv(h, hash) && LiveUpval(h, u) && h.objs[u].b.Open?
    requires forall x: Id :: LiveUpval(h, x) ==>
      LiveUpval(h', x) && Cell(h'.objs, x) == SlotCell(h, h.objs[u].b.th, h.objs[u].b.level, v, x)
    ensures CellsBut(h, h', Some(u)) && LiveUpval(h', u) && Cell(h'.objs, u) == v
  {
    hide Inv;
    OnlyUpval(h, h.objs[u].b.th, h.objs[u].b.level, u, hash);
  }

  /** Captured slots are below the top. */
  lemma TopSlots(h: Heap, th: Id, hash: string -> nat)
    requires Inv(h, hash) && IsThread(h.objs, th)
    ensures forall j :: OpenAtLevel(h, th, j) ==> 0 <= j < h.objs[th].b.top <= |h.objs[th].b.stack|
  {
    hide Inv;
    forall j | OpenAtLevel(h, th, j) ensures 0 <= j < h.objs[th].b.top <= |h.objs[th].b.stack| {
      var u :| u in h.objs && h.objs[u].b.Open? && h.objs[u].b.th == th && h.objs[u].b.level == j;
      UpvalThread(h, u, hash);
    }
  }
}
