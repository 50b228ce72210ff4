/** The start and the end of a mark phase (lgc.c: markroot, atomic). */
module GcAtomic {
  import opened Wrappers
  import opened GcHeap
  import opened GcMark

  /** A may serve as the set of objects to be marked: closed, with the roots, and nothing else marked yet. */
  ghost predicate Scope(h: Heap, A: set<Id>) {
    && ClosedSet(h.objs, A)
    && (forall r :: r in Roots(h) && r.Some? ==> r.value in A)
    && (h.gcstate.GCSpropagate? ==> forall x :: Marked(h.objs, x) ==> x in A)
  }

  /** All allocated objects are a scope while nothing is dead. */
  lemma WholeScope(h: Heap)
    requires Safe(h) && (forall x :: x in h.objs ==> !IsDead(h.objs[x].m, h.cw))
    ensures Scope(h, h.objs.Keys)
  {
    forall x, y | x in h.objs && Points(h.objs, x, y) ensures y in h.objs {
      assert LiveAt(h, x);
      PointsHolds(h.objs, x, y);
    }
    forall r | r in Roots(h) && r.Some? ensures r.value in h.objs { assert LiveRef(h, r); }
  }

  lemma CleanNotDead(h: Heap)
    requires AllClean(h)
    ensures forall x :: x in h.objs ==> !IsDead(h.objs[x].m, h.cw) && IsWhite(h.objs[x].m) && MarkOk(h.objs[x].m)
  {
  }

  /** All white: any scope is a start. */
  lemma StartMarking(h: Heap, A: set<Id>, h': Heap)
    requires AllClean(h) && ClosedSet(h.objs, A) && h' == h.(gray := [], grayagain := [])
    ensures Marking(h', {}, Incremental, A)
  {
    CleanNotDead(h);
  }

  /** The roots a mark phase starts from. */
  lemma RootsIn(h: Heap, A: set<Id>, hash: string -> nat)
    requires Scope(h, A) && Shape(h, hash)
    ensures ClosedSet(h.objs, A) && h.main in A && h.running in A && h.registry in A
    ensures (forall r :: r in h.mt && r.Some? ==> r.value in A)
    ensures IsThread(h.objs, h.main) && IsThread(h.objs, h.running)
    ensures (h.objs[h.main].b.env.Some? ==> h.objs[h.main].b.env.value in A)
  {
    assert Roots(h)[0] == Some(h.main) && Roots(h)[1] == Some(h.running) && Roots(h)[2] == Some(h.registry);
    forall r | r in h.mt && r.Some? ensures r.value in A { assert r in Roots(h); }
    assert ObjsOk(h);
    assert Vals(h.objs, h.main)[0] == h.objs[h.main].b.env;
    RefsIn(h.objs, A, h.main);
  }

  /** The whole heap is a larger scope. */
  lemma Widen(h: Heap, E: set<Id>, stage: Stage, A: set<Id>, B: set<Id>)
    requires Marking(h, E, stage, A) && ClosedSet(h.objs, B) && (forall x :: Marked(h.objs, x) ==> x in B)
    ensures Marking(h, E, stage, B)
  {
  }

  /** The set of open upvalues from position i of uvhead on. */
  ghost function From(s: seq<Id>, i: nat): set<Id>
    requires i <= |s|
  {
    set x | x in s[i..]
  }

  lemma BeginRemark(h: Heap, A: set<Id>)
    requires Marking(h, {}, Incremental, A) && UpvalsOk(h)
    ensures Marking(h, From(h.uvhead, 0), Remarked, A)
  {
    assert h.uvhead[0..] == h.uvhead;
    forall x | x in h.objs && x !in From(h.uvhead, 0) ensures Covered(h, x, Remarked) {
      assert Covered(h, x, Incremental);
      assert !h.objs[x].b.Open?;
    }
  }

  lemma NextUpval(h: Heap, i: nat, A: set<Id>)
    requires i < |h.uvhead| && Marking(h, From(h.uvhead, i), Remarked, A) && Distinct(h.uvhead)
    requires h.uvhead[i] in h.objs ==> Covered(h, h.uvhead[i], Remarked)
    ensures Marking(h, From(h.uvhead, i + 1), Remarked, A)
  {
    assert h.uvhead[i..] == [h.uvhead[i]] + h.uvhead[i + 1..];
    assert From(h.uvhead, i) == From(h.uvhead, i + 1) + {h.uvhead[i]};
    Uncover(h, h.uvhead[i], From(h.uvhead, i + 1), Remarked, A);
  }

  /** The last propagation starts from the objects caught by barriers and the threads. */
  lemma BeginLast(h: Heap, A: set<Id>, h': Heap)
    requires Marking(h, {}, Remarked, A) && h.gray == [] && h' == h.(gray := h.grayagain, grayagain := [])
    ensures Marking(h', {}, Last, A)
  {
    assert h.gray + h.grayagain == h.grayagain == h'.gray + h'.grayagain;
    forall x | x in h'.objs && x !in {} ensures Covered(h', x, Last) {
      assert x !in {} && Covered(h, x, Remarked);
    }
  }

  /** At the end of the atomic step every marked object refers to marked objects only. */
  lemma LastCovered(h: Heap, A: set<Id>, x: Id)
    requires Marking(h, {}, Last, A) && h.gray == [] && Marked(h.objs, x)
    ensures AllMarked(h.objs, x)
  {
    assert x !in {} && Covered(h, x, Last);
  }

  /** Flipping the current white: exactly the marked objects are live, and the heap is safe. */
  lemma Flip(h: Heap, A: set<Id>, h': Heap)
    requires Marking(h, {}, Last, A) && h.gray == []
    requires forall r :: r in Roots(h) && r.Some? ==> Marked(h.objs, r.value)
    requires h'.objs == h.objs && h'.cw == !h.cw && Roots(h') == Roots(h)
    ensures Safe(h') && forall x :: Live(h', x) <==> Marked(h.objs, x)
  {
    forall x ensures Live(h', x) <==> Marked(h.objs, x) {
      if x in h.objs { assert MarkOk(h.objs[x].m); }
    }
    forall x ensures LiveAt(h', x) {
      if Live(h', x) {
        LastCovered(h, A, x);
        forall y | Holds(h'.objs, x, y) ensures Live(h', y) { assert Holds(h.objs, x, y) && Marked(h.objs, y); }
      }
    }
  }

  lemma FlipShape(h: Heap, h': Heap, hash: string -> nat)
    requires Shape(h, hash)
    requires h' == h.(cw := h'.cw, sweepstrgc := h'.sweepstrgc, sweepgc := h'.sweepgc, gcstate := h'.gcstate)
    ensures Shape(h', hash)
  {
    ShapeKept(h, h', hash) by { ObjsOkSame(h, h'); }
  }

  /** h' with the fields that the atomic step changes besides marks and lists set back. */
  function Restored(h': Heap, h: Heap): Heap {
    h'.(cw := h.cw, sweepstrgc := h.sweepstrgc, sweepgc := h.sweepgc, gcstate := h.gcstate)
  }

  lemma StateShape(h: Heap, h': Heap, hash: string -> nat)
    requires Shape(h, hash) && h' == h.(gcstate := h'.gcstate)
    ensures Shape(h', hash)
  {
    FlipShape(h, h', hash);
  }

  lemma ShapeLists(h: Heap, h': Heap, hash: string -> nat)
    requires Shape(h, hash) && h' == h.(gray := h'.gray, grayagain := h'.grayagain)
    ensures Shape(h', hash)
  {
    ShapeKept(h, h', hash) by { ObjsOkSame(h, h'); }
  }

  lemma StateMarking(h: Heap, h': Heap, E: set<Id>, stage: Stage, A: set<Id>)
    requires Marking(h, E, stage, A) && h' == h.(gcstate := h'.gcstate)
    ensures Marking(h', E, stage, A)
  {
    forall x | x in h'.objs && x !in E ensures Covered(h', x, stage) { assert Covered(h, x, stage); }
  }

  lemma ThreadEnv(h: Heap, h': Heap, x: Id, hash: string -> nat)
    requires Spread(h, h') && IsThread(h.objs, x) && Shape(h', hash) && x == h'.main
    ensures IsThread(h'.objs, x) && h'.objs[x].b.env == h.objs[x].b.env
  {
    assert ObjsOk(h');
    assert Vals(h.objs, x)[0] == h.objs[x].b.env && Vals(h'.objs, x)[0] == h'.objs[x].b.env;
  }

  lemma SpreadMarks(h2: Heap, h3: Heap, h4: Heap, h5: Heap, x: Id, y: Id)
    requires Spread(h2, h3) && Spread(h3, h4) && Spread(h4, h5) && Marked(h2.objs, x) && Marked(h4.objs, y)
    ensures Marked(h5.objs, x) && Marked(h5.objs, y)
  {
  }

  lemma RootsMarked(h: Heap, h3: Heap, h4: Heap, h5: Heap, h6: Heap, h7: Heap)
    requires Spread(h, h7) && Spread(h3, h4) && Spread(h4, h5) && Spread(h5, h6) && Spread(h6, h7)
    requires Marked(h.objs, h.main) && Marked(h.objs, h.registry) && Marked(h3.objs, h.running)
    requires forall r :: r in h.mt && r.Some? ==> Marked(h4.objs, r.value)
    ensures forall r :: r in Roots(h7) && r.Some? ==> Marked(h7.objs, r.value)
  {
    forall r | r in Roots(h7) && r.Some? ensures Marked(h7.objs, r.value) {
      assert r == Some(h.main) || r == Some(h.running) || r == Some(h.registry) || r in h.mt;
    }
  }

  lemma DistinctUpvals(h: Heap, hash: string -> nat)
    requires Shape(h, hash)
    ensures Distinct(h.uvhead)
  {
  }

  lemma OpenInHeap(h: Heap, u: Id, hash: string -> nat)
    requires Shape(h, hash) && u in h.uvhead
    ensures u in h.objs && h.objs[u].b.Open? && !h.objs[u].m.black
  {
    assert ObjOk(h, u);
  }

  lemma MarkedInScope(h: Heap, E: set<Id>, stage: Stage, A: set<Id>, x: Id)
    requires Marking(h, E, stage, A) && Marked(h.objs, x)
    ensures x in A
  {
  }

  lemma AllInScope(h: Heap, A: set<Id>)
    requires Marking(h, {}, Last, A)
    ensures forall x :: Marked(h.objs, x) ==> x in A
  {
  }

  lemma FromEnd(s: seq<Id>)
    ensures From(s, |s|) == {}
  {
  }

  lemma ShapeBuckets(h: Heap, hash: string -> nat)
    requires Shape(h, hash)
    ensures |h.strt| > 0
  {
  }
}
