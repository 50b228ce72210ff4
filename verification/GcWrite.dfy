/** Stores and their barriers (lgc.h: luaC_barrier, luaC_barriert; lgc.c: luaC_barrierf, luaC_barrierback). */
module GcWrite {
  import opened Wrappers
  import opened GcHeap
  import opened GcMark
  import opened GcAtomic
  import opened GcSweep
  import opened GcUpvals
  import opened GcMutate

  predicate Plain(b: Body) { b.Udata? || b.Func? || b.Table? || b.Proto? || b.Closed? }

  function RefsOf(b: Body): seq<Ref>
    requires Plain(b)
  {
    match b
    case Udata(refs) => refs
    case Func(refs) => refs
    case Table(refs) => refs
    case Proto(refs) => refs
    case Closed(v) => [v]
  }

  predicate SameKind(b: Body, b': Body) {
    || (b.Udata? && b'.Udata?) || (b.Func? && b'.Func?) || (b.Table? && b'.Table?)
    || (b.Proto? && b'.Proto?) || (b.Closed? && b'.Closed?)
  }

  /** b' is b after storing v (or dropping references). */
  predicate Stores(b: Body, b': Body, v: Ref) {
    SameKind(b, b') && forall r :: r in RefsOf(b') ==> r in RefsOf(b) || r == v
  }

  function Wr(h: Heap, o: Id, b: Body): Heap
    requires o in h.objs
  {
    h.(objs := SetBody(h.objs, o, b))
  }

  /** A live object gets a body whose new reference is live. */
  ghost predicate WriteOk(h: Heap, o: Id, b: Body, v: Ref) {
    Live(h, o) && Stores(h.objs[o].b, b, v) && LiveRef(h, v)
  }

  lemma WriteShape(h: Heap, o: Id, b: Body, v: Ref, hash: string -> nat)
    requires Shape(h, hash) && WriteOk(h, o, b, v)
    ensures Shape(Wr(h, o, b), hash)
  {
    hide ObjsOk, StringsOk, UpvalsOk;
    var h' := Wr(h, o, b);
    assert RootOk(h');
    StringsSame(h, hash, h');
    WriteUpvals(h, o, b, v);
    WriteObjs(h, o, b, v);
  }

  lemma WriteObjs(h: Heap, o: Id, b: Body, v: Ref)
    requires ObjsOk(h) && WriteOk(h, o, b, v)
    ensures ObjsOk(Wr(h, o, b))
  {
    forall x | x in h.objs ensures ObjOk(Wr(h, o, b), x) { assert ObjOk(h, x); }
  }

  lemma WriteUpvals(h: Heap, o: Id, b: Body, v: Ref)
    requires UpvalsOk(h) && WriteOk(h, o, b, v)
    ensures UpvalsOk(Wr(h, o, b))
  {
    hide OpenAt, OpenList;
    var h' := Wr(h, o, b);
    forall u | u in h'.objs && h'.objs[u].b.Open? ensures OpenAt(h'.objs, u, h'.objs[u].b.th) {
      assert OpenAt(h.objs, u, h.objs[u].b.th);
      WriteOpenAt(h, o, b, v, u, h.objs[u].b.th);
    }
    forall th | th in h'.objs && h'.objs[th].b.Thread? ensures OpenList(h'.objs, th) {
      assert OpenList(h.objs, th);
      WriteOpenList(h, o, b, v, th);
    }
  }

  lemma WriteOpenAt(h: Heap, o: Id, b: Body, v: Ref, u: Id, th: Id)
    requires OpenAt(h.objs, u, th) && WriteOk(h, o, b, v)
    ensures OpenAt(Wr(h, o, b).objs, u, th)
  {
  }

  lemma WriteOpenList(h: Heap, o: Id, b: Body, v: Ref, th: Id)
    requires OpenList(h.objs, th) && WriteOk(h, o, b, v)
    ensures OpenList(Wr(h, o, b).objs, th)
  {
    var objs' := Wr(h, o, b).objs;
    forall u | u in h.objs[th].b.open ensures OpenAt(objs', u, th) && LevelOf(objs', u) == LevelOf(h.objs, u) {
      assert OpenAt(h.objs, u, th);
      WriteOpenAt(h, o, b, v, u, th);
    }
  }

  lemma WriteVals(h: Heap, o: Id, b: Body, v: Ref, x: Id)
    requires WriteOk(h, o, b, v) && x in h.objs
    ensures x != o ==>
      AllVals(Wr(h, o, b).objs, x) == AllVals(h.objs, x) && Vals(Wr(h, o, b).objs, x) == Vals(h.objs, x)
    ensures forall y: Id :: Holds(Wr(h, o, b).objs, o, y) ==> Holds(h.objs, o, y) || v == Some(y)
  {
    NewRefs(h, o, b, v, Wr(h, o, b).objs);
  }

  lemma NewRefs(h: Heap, o: Id, b: Body, v: Ref, objs': Objs)
    requires WriteOk(h, o, b, v) && o in objs' && objs'[o].b == b
    ensures forall y: Id :: Holds(objs', o, y) ==> Holds(h.objs, o, y) || v == Some(y)
  {
    assert AllVals(objs', o) == RefsOf(b) && AllVals(h.objs, o) == RefsOf(h.objs[o].b);
  }

  lemma WriteSafe(h: Heap, o: Id, b: Body, v: Ref)
    requires Safe(h) && WriteOk(h, o, b, v)
    ensures Safe(Wr(h, o, b))
  {
    var h' := Wr(h, o, b);
    assert forall y :: Live(h, y) <==> Live(h', y);
    RootsKept(h, h');
    forall x ensures LiveAt(h', x) {
      if Live(h', x) {
        WriteVals(h, o, b, v, x);
        assert LiveAt(h, x);
        forall y: Id | Holds(h'.objs, x, y) ensures Live(h', y) {
          assert Holds(h.objs, x, y) || v == Some(y);
        }
      }
    }
  }

  /** During a mark phase the store exempts o until its barrier has run. */
  lemma WriteMarking(h: Heap, o: Id, b: Body, v: Ref)
    requires Marking(h, {}, Incremental, h.objs.Keys) && Safe(h) && WriteOk(h, o, b, v)
    ensures Marking(Wr(h, o, b), {o}, Incremental, Wr(h, o, b).objs.Keys)
  {
    var h' := Wr(h, o, b);
    WriteSafe(h, o, b, v);
    hide Safe, ClosedSet, Covered, WriteOk;
    WriteColours(h, o, b);
    WholeScope(h');
    forall x | x in h'.objs && x !in {o} ensures Covered(h', x, Incremental) {
      assert x !in {} && Covered(h, x, Incremental);
      WriteCovered(h, o, b, v, x);
    }
  }

  lemma WriteColours(h: Heap, o: Id, b: Body)
    requires Marking(h, {}, Incremental, h.objs.Keys) && o in h.objs && (Listed(h.objs[o].b) ==> Listed(b))
    ensures var h' := Wr(h, o, b);
      && GrayLists(h') && h'.objs.Keys == h.objs.Keys
      && forall x :: x in h'.objs ==> !IsDead(h'.objs[x].m, h'.cw) && MarkOk(h'.objs[x].m)
  {
    hide Covered, ClosedSet;
  }

  lemma WriteCovered(h: Heap, o: Id, b: Body, v: Ref, x: Id)
    requires WriteOk(h, o, b, v) && x in h.objs && x != o && Covered(h, x, Incremental)
    ensures Covered(Wr(h, o, b), x, Incremental)
  {
    WriteVals(h, o, b, v, x);
    if AllMarked(h.objs, x) {
      forall y: Id | Holds(Wr(h, o, b).objs, x, y) ensures Marked(Wr(h, o, b).objs, y) { assert Holds(h.objs, x, y); }
    }
  }

  /** Without a barrier: o is not black, or what was stored is marked. */
  lemma NoBarrier(h: Heap, o: Id, b: Body, v: Ref)
    requires WriteOk(h, o, b, v) && Covered(h, o, Incremental)
    requires h.objs[o].m.black && v.Some? ==> Marked(h.objs, v.value)
    ensures Covered(Wr(h, o, b), o, Incremental)
  {
    if h.objs[o].m.black {
      StoredMarked(h, o, b, v, Wr(h, o, b).objs);
    }
  }

  lemma StoredMarked(h: Heap, o: Id, b: Body, v: Ref, objs': Objs)
    requires WriteOk(h, o, b, v) && o in objs' && objs'[o].b == b
    requires forall x :: Marked(h.objs, x) ==> Marked(objs', x)
    requires v.Some? ==> Marked(objs', v.value)
    ensures AllMarked(h.objs, o) ==> AllMarked(objs', o)
  {
    NewRefs(h, o, b, v, objs');
    if AllMarked(h.objs, o) {
      forall y: Id | Holds(objs', o, y) ensures Marked(objs', y) {
        assert Holds(h.objs, o, y) || v == Some(y);
      }
    }
  }

  /** luaC_barrierf in the mark phase: the stored object has been marked. */
  lemma ForwardDone(h: Heap, o: Id, b: Body, v: Ref, h2: Heap)
    requires WriteOk(h, o, b, v) && Covered(h, o, Incremental) && h.objs[o].m.black && !IsWhite(h.objs[o].m)
    requires !h.objs[o].b.Str?
    requires o !in h.gray && o !in h.grayagain && !h.objs[o].b.Open?
    requires MarkStep(Wr(h, o, b), h2) && v.Some? && Marked(h2.objs, v.value)
    ensures Covered(h2, o, Incremental)
  {
    StaysMarked(Wr(h, o, b), h2, o);
    forall x | Marked(h.objs, x) ensures Marked(h2.objs, x) { StaysMarked(Wr(h, o, b), h2, x); }
    StoredMarked(h, o, b, v, h2.objs);
  }

  /** luaC_barrierback: the table is gray again. */
  function Regray(h: Heap, o: Id): Heap
    requires o in h.objs
  {
    h.(objs := h.objs[o := h.objs[o].(m := h.objs[o].m.(black := false))], grayagain := [o] + h.grayagain)
  }

  lemma RegrayMarking(h: Heap, o: Id, A: set<Id>)
    requires Marking(h, {o}, Incremental, A) && o in h.objs && h.objs[o].m.black && h.objs[o].b.Table?
    ensures Marking(Regray(h, o), {}, Incremental, A)
  {
    var h1 := h.(objs := h.objs[o := h.objs[o].(m := h.objs[o].m.(black := false))]);
    assert SameBodies(h.objs, h1.objs);
    SamePoints(h.objs, h1.objs);
    assert MarkOk(h.objs[o].m);
    forall x | x in h1.objs && x !in {o} ensures Covered(h1, x, Incremental) {
      assert Covered(h, x, Incremental);
      if AllMarked(h.objs, x) {
        forall y: Id | Holds(h1.objs, x, y)
          ensures Marked(h1.objs, y)
        {
          assert Holds(h.objs, x, y) && Marked(h.objs, y);
        }
      }
    }
    assert o !in h.gray && o !in h.grayagain;
    assert {} + {o} == {o};
    hide Marking, Covered;
    assert Marking(h1, {o}, Incremental, A) by { RecolMarking(h, o, A, h1); }
    PushAgain(h1, o, {}, Incremental, A, Regray(h, o));
    AgainCovered(Regray(h, o), o);
    Uncover(Regray(h, o), o, {}, Incremental, A);
  }

  lemma RecolMarking(h: Heap, o: Id, A: set<Id>, h1: Heap)
    requires Marking(h, {o}, Incremental, A) && o in h.objs && h.objs[o].m.black
    requires h1 == h.(objs := h.objs[o := h.objs[o].(m := h.objs[o].m.(black := false))])
    requires forall x :: x in h1.objs && x !in {o} ==> Covered(h1, x, Incremental)
    ensures Marking(h1, {o}, Incremental, A)
  {
    hide Covered;
    SamePoints(h.objs, h1.objs);
  }

  lemma AgainCovered(h: Heap, o: Id)
    requires o in h.objs && o in h.grayagain
    ensures Covered(h, o, Incremental)
  {
  }

  // ----- stores outside the mark phase -----

  /** h' is h after a store into o, whose mark may have changed too. */
  ghost predicate StoreStep(h: Heap, o: Id, b: Body, h': Heap) {
    && o in h.objs && h' == h.(objs := h'.objs, gray := h'.gray, grayagain := h'.grayagain)
    && SameBodies(Wr(h, o, b).objs, h'.objs)
    && (forall x :: x in h.objs && x != o ==> h'.objs[x].m == h.objs[x].m)
    && (CleanId(h, o) ==> CleanId(h', o))
  }

  lemma StorePhase(h: Heap, o: Id, b: Body, v: Ref, h': Heap)
    requires Phase(h) && !h.gcstate.GCSpropagate? && WriteOk(h, o, b, v) && StoreStep(h, o, b, h')
    ensures Phase(h')
  {
    assert CleanMono(h, h') && OpenMono(h, h');
    assert ListMono(h, h') by { StoreLists(h, o, b, v, h'); }
    hide CleanMono, OpenMono, ListMono;
    PhaseKept(h, h');
  }

  lemma StoreLists(h: Heap, o: Id, b: Body, v: Ref, h': Heap)
    requires Phase(h) && !h.gcstate.GCSpropagate? && WriteOk(h, o, b, v) && StoreStep(h, o, b, h')
    ensures ListMono(h, h')
  {
    if h.gcstate.GCSsweep? {
      forall i | 0 <= i < h'.sweepgc ensures InPrefix(h, h'.rootgc[i]) {
        assert h.rootgc[..h.sweepgc][i] == h'.rootgc[i];
      }
    }
  }

  /** Black objects exist only while marking or sweeping: the barriers' assertions hold. */
  lemma BlackPhase(h: Heap, o: Id)
    requires Phase(h) && o in h.objs && h.objs[o].m.black
    ensures !h.gcstate.GCSpause? && !h.gcstate.GCSfinalize?
  {
  }

  lemma GrayShape(h: Heap, o: Id, hash: string -> nat)
    requires Shape(h, hash) && o in h.objs
    ensures Shape(Regray(h, o), hash)
  {
    hide RootOk, StringsOk, UpvalsOk;
    var h' := Regray(h, o);
    forall y | y in h'.objs ensures ObjOk(h', y) { assert ObjOk(h, y); }
    ShapeKept(h, h', hash);
  }

  lemma GraySafe(h: Heap, o: Id)
    requires Safe(h) && o in h.objs
    ensures Safe(Regray(h, o))
  {
    var h' := Regray(h, o);
    SamePoints(h.objs, h'.objs);
    assert forall y :: Live(h, y) <==> Live(h', y);
    RootsKept(h, h');
    SafeMono(h, h');
  }

  /** The outcome of a store in a mark phase. */
  lemma StoreMarked(h: Heap, h2: Heap, hash: string -> nat)
    requires Inv(h, hash) && h.gcstate.GCSpropagate? && Marking(h2, {}, Incremental, h2.objs.Keys)
    requires Shape(h2, hash) && Safe(h2) && h2.gcstate == h.gcstate && h2.main == h.main && h2.registry == h.registry
    requires forall x :: Marked(h.objs, x) ==> Marked(h2.objs, x)
    ensures Inv(h2, hash)
  {
    hide Shape, Safe, Marking;
  }

  lemma BlackUnlisted(h: Heap, o: Id)
    requires Marking(h, {}, Incremental, h.objs.Keys) && o in h.objs
    ensures Covered(h, o, Incremental) && MarkOk(h.objs[o].m) && !IsDead(h.objs[o].m, h.cw)
    ensures h.objs[o].m.black ==> o !in h.gray && o !in h.grayagain
  {
    assert o !in {} && Covered(h, o, Incremental);
  }

  lemma ForwardMarks(h: Heap, o: Id, b: Body, h1: Heap, h2: Heap)
    requires o in h.objs && h1 == Wr(h, o, b) && MarkStep(h1, h2)
    ensures forall x :: Marked(h.objs, x) ==> Marked(h2.objs, x)
  {
    forall x | Marked(h.objs, x) ensures Marked(h2.objs, x) { StaysMarked(h1, h2, x); }
  }

  lemma MainLinked(h: Heap, hash: string -> nat)
    requires Inv(h, hash)
    ensures |h.rootgc| > 0 && exists j :: 0 <= j < |h.rootgc| && h.rootgc[j] == h.main
  {
    assert ObjsOk(h) && RootOk(h) && h.main in h.rootgc;
  }
}
