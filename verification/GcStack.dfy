/** Unbarriered stack writes, open upvalues and strings between collector steps
    (lfunc.c: luaF_findupval; lstring.c: luaS_newlstr, luaS_resize). */
module GcStack {
  import opened Wrappers
  import opened GcHeap
  import opened GcMark
  import opened GcAtomic
  import opened GcSweep
  import opened GcUpvals
  import opened GcMutate

  // ----- a thread's stack -----

  /** A value that is live, or was in the same place before. */
  ghost predicate PlaceOk(h: Heap, old0: seq<Ref>, s: seq<Ref>, j: int)
    requires 0 <= j < |s|
  {
    LiveRef(h, s[j]) || (j < |old0| && s[j] == old0[j])
  }

  /** The thread th may take the stack b: what is new in it is live, and all its open upvalues are below the top. */
  ghost predicate StackOk(h: Heap, th: Id, b: Body) {
    && ThreadOk(h.objs, th, b) && (LiveRef(h, b.env) || b.env == h.objs[th].b.env)
    && forall j :: 0 <= j < |b.stack| ==> PlaceOk(h, h.objs[th].b.stack, b.stack, j)
  }

  lemma StackSafe(h: Heap, th: Id, b: Body)
    requires Safe(h) && StackOk(h, th, b)
    ensures Safe(h.(objs := SetBody(h.objs, th, b)))
  {
    var h' := h.(objs := SetBody(h.objs, th, b));
    assert forall y :: Live(h, y) <==> Live(h', y);
    RootsKept(h, h');
    forall x ensures LiveAt(h', x) {
      if Live(h', x) {
        assert LiveAt(h, x);
        StackVals(h, th, b, x);
        forall y: Id | Holds(h'.objs, x, y) ensures Live(h', y) {
          assert Holds(h.objs, x, y) || Live(h, y);
        }
      }
    }
  }

  lemma StackVals(h: Heap, th: Id, b: Body, x: Id)
    requires StackOk(h, th, b) && x in h.objs
    ensures forall y: Id :: Holds(SetBody(h.objs, th, b), x, y) ==> Holds(h.objs, x, y) || Live(h, y)
    ensures x != th && !h.objs[x].b.Open? ==> AllVals(SetBody(h.objs, th, b), x) == AllVals(h.objs, x)
  {
    var objs' := SetBody(h.objs, th, b);
    if h.objs[x].b.Open? {
      var t, level := h.objs[x].b.th, h.objs[x].b.level;
      assert AllVals(objs', x) == [SlotOf(objs', t, level)];
      assert AllVals(h.objs, x) == [SlotOf(h.objs, t, level)];
      assert t == th && level < |b.stack| ==> PlaceOk(h, h.objs[th].b.stack, b.stack, level);
    } else if x == th {
      forall y: Id | Holds(objs', x, y) ensures Holds(h.objs, x, y) || Live(h, y) { StackHolds(h, th, b, y); }
    }
  }

  lemma StackHolds(h: Heap, th: Id, b: Body, y: Id)
    requires StackOk(h, th, b) && Holds(SetBody(h.objs, th, b), th, y)
    ensures Holds(h.objs, th, y) || Live(h, y)
  {
    var s := h.objs[th].b.stack;
    if Some(y) != b.env {
      var j :| 0 <= j < |b.stack| && b.stack[j] == Some(y);
      assert PlaceOk(h, s, b.stack, j);
      assert j < |s| && s[j] == Some(y) ==> Some(y) in [h.objs[th].b.env] + s;
    } else if b.env == h.objs[th].b.env {
      assert Some(y) in [h.objs[th].b.env] + s;
    }
  }

  /** Threads and open upvalues are never black, so no barrier is needed. */
  lemma StackMarking(h: Heap, th: Id, b: Body)
    requires Marking(h, {}, Incremental, h.objs.Keys) && Safe(h) && ObjsOk(h) && StackOk(h, th, b)
    ensures var h' := h.(objs := SetBody(h.objs, th, b)); Marking(h', {}, Incremental, h'.objs.Keys)
  {
    var h' := h.(objs := SetBody(h.objs, th, b));
    StackSafe(h, th, b);
    hide Safe, ClosedSet, Covered, StackOk, ObjsOk;
    StackColours(h, th, b);
    WholeScope(h');
    forall x | x in h'.objs && x !in {} ensures Covered(h', x, Incremental) {
      assert x !in {} && Covered(h, x, Incremental);
      StackCovered(h, th, b, x);
    }
  }

  lemma StackColours(h: Heap, th: Id, b: Body)
    requires Marking(h, {}, Incremental, h.objs.Keys) && StackOk(h, th, b)
    ensures var h' := h.(objs := SetBody(h.objs, th, b));
      && GrayLists(h') && h'.objs.Keys == h.objs.Keys
      && forall x :: x in h'.objs ==> !IsDead(h'.objs[x].m, h'.cw) && MarkOk(h'.objs[x].m)
  {
    hide Covered, ClosedSet;
  }

  lemma StackCovered(h: Heap, th: Id, b: Body, x: Id)
    requires StackOk(h, th, b) && ObjsOk(h) && x in h.objs && Covered(h, x, Incremental)
    ensures Covered(h.(objs := SetBody(h.objs, th, b)), x, Incremental)
  {
    var h' := h.(objs := SetBody(h.objs, th, b));
    assert ObjOk(h, x);
    StackVals(h, th, b, x);
    if AllMarked(h.objs, x) && x != th && !h.objs[x].b.Open? {
      forall y: Id | Holds(h'.objs, x, y) ensures Marked(h'.objs, y) { assert Holds(h.objs, x, y); }
    }
  }

  /** Any write to the stack keeps the invariant. */
  lemma StackInv(h: Heap, th: Id, b: Body, hash: string -> nat)
    requires Inv(h, hash) && StackOk(h, th, b)
    ensures Inv(h.(objs := SetBody(h.objs, th, b)), hash)
  {
    var h' := h.(objs := SetBody(h.objs, th, b));
    hide Shape, Safe, Marking, StackOk, AllClean, Swept;
    ThreadShape(h, th, b, hash, h') by { StackThreadOk(h, th, b); }
    StackSafe(h, th, b);
    if h.gcstate.GCSpropagate? {
      StackMarking(h, th, b);
    } else {
      StackPhase(h, th, b);
    }
  }

  lemma StackThreadOk(h: Heap, th: Id, b: Body)
    requires StackOk(h, th, b)
    ensures ThreadOk(h.objs, th, b)
  {
  }

  lemma StackPhase(h: Heap, th: Id, b: Body)
    requires Phase(h) && !h.gcstate.GCSpropagate? && StackOk(h, th, b)
    ensures Phase(h.(objs := SetBody(h.objs, th, b)))
  {
    var h' := h.(objs := SetBody(h.objs, th, b));
    assert CleanMono(h, h') && OpenMono(h, h');
    assert ListMono(h, h') by { PrefixMono(h, h'); }
    hide CleanMono, OpenMono, ListMono, StackOk;
    PhaseKept(h, h');
  }

  lemma PrefixMono(h: Heap, h': Heap)
    requires Phase(h) && h'.rootgc == h.rootgc && h'.sweepgc == h.sweepgc
    ensures h.gcstate.GCSsweep? ==> forall i :: 0 <= i < h'.sweepgc ==> InPrefix(h, h'.rootgc[i])
  {
    if h.gcstate.GCSsweep? {
      forall i | 0 <= i < h'.sweepgc ensures InPrefix(h, h'.rootgc[i]) {
        assert h.rootgc[..h.sweepgc][i] == h'.rootgc[i];
      }
    }
  }

  // ----- resurrection -----

  /** changewhite on a dead object. */
  function Resurrect(h: Heap, x: Id): Heap
    requires x in h.objs
  {
    h.(objs := h.objs[x := h.objs[x].(m := h.objs[x].m.(w0 := !h.objs[x].m.w0, w1 := !h.objs[x].m.w1))])
  }

  /** A dead object that refers to live ones only may be brought back. */
  lemma ResurrectInv(h: Heap, x: Id, hash: string -> nat)
    requires Inv(h, hash) && x in h.objs && IsDead(h.objs[x].m, h.cw) && LiveRefs(h, AllVals(h.objs, x))
    ensures Inv(Resurrect(h, x), hash) && Live(Resurrect(h, x), x)
    ensures forall y :: Live(h, y) ==> Live(Resurrect(h, x), y)
  {
    hide Shape, Phase;
    Recoloured(h, x, hash);
    ResurrectShape(h, x, hash);
    ResurrectSafe(h, x);
    assert !h.gcstate.GCSpropagate? by { DeadPhase(h, x); }
    ResurrectPhase(h, x);
  }

  lemma Recoloured(h: Heap, x: Id, hash: string -> nat)
    requires Shape(h, hash) && x in h.objs && IsDead(h.objs[x].m, h.cw)
    ensures x in Resurrect(h, x).objs && Clean(Resurrect(h, x).objs[x].m, h.cw)
  {
    assert ObjOk(h, x) && MarkOk(h.objs[x].m);
  }

  lemma DeadPhase(h: Heap, x: Id)
    requires Phase(h) && x in h.objs && IsDead(h.objs[x].m, h.cw)
    ensures !h.gcstate.GCSpropagate?
  {
  }

  lemma ResurrectShape(h: Heap, x: Id, hash: string -> nat)
    requires Shape(h, hash) && x in h.objs && IsDead(h.objs[x].m, h.cw)
    ensures Shape(Resurrect(h, x), hash)
  {
    hide RootOk, StringsOk, UpvalsOk;
    var h' := Resurrect(h, x);
    forall y | y in h'.objs ensures ObjOk(h', y) { assert ObjOk(h, y); }
    ShapeKept(h, h', hash);
  }

  lemma ResurrectSafe(h: Heap, x: Id)
    requires Safe(h) && x in h.objs && Clean(Resurrect(h, x).objs[x].m, h.cw) && LiveRefs(h, AllVals(h.objs, x))
    ensures Safe(Resurrect(h, x))
  {
    var h' := Resurrect(h, x);
    SamePoints(h.objs, h'.objs);
    assert forall y :: Live(h, y) ==> Live(h', y);
    RootsKept(h, h');
    forall y ensures LiveAt(h', y) {
      assert LiveAt(h, y);
      forall z: Id | Holds(h'.objs, y, z) && Live(h', y) ensures Live(h', z) {
        assert Holds(h.objs, y, z);
        assert y == x ==> LiveRef(h, Some(z));
      }
    }
  }

  lemma ResurrectPhase(h: Heap, x: Id)
    requires Phase(h) && !h.gcstate.GCSpropagate? && x in h.objs && Clean(Resurrect(h, x).objs[x].m, h.cw)
    ensures Phase(Resurrect(h, x))
  {
    var h' := Resurrect(h, x);
    assert CleanMono(h, h') && OpenMono(h, h');
    assert ListMono(h, h') by { PrefixMono(h, h'); }
    hide CleanMono, OpenMono, ListMono;
    PhaseKept(h, h');
  }

  /** A dead string refers to nothing; a dead open upvalue of a live thread to a live value. */
  lemma Resurrectable(h: Heap, x: Id, hash: string -> nat)
    requires Shape(h, hash) && Safe(h) && x in h.objs
    requires (h.objs[x].b.Str? || (h.objs[x].b.Open? && Live(h, h.objs[x].b.th)))
    ensures LiveRefs(h, AllVals(h.objs, x))
  {
    if h.objs[x].b.Open? {
      assert UpvalsOk(h) && OpenAt(h.objs, x, h.objs[x].b.th);
      var th, level := h.objs[x].b.th, h.objs[x].b.level;
      SlotLive(h, th, level);
    }
  }

  lemma SlotLive(h: Heap, th: Id, level: nat)
    requires Safe(h) && Live(h, th)
    ensures LiveRef(h, SlotOf(h.objs, th, level))
  {
    assert LiveAt(h, th);
    if SlotOf(h.objs, th, level).Some? {
      assert SlotOf(h.objs, th, level) in h.objs[th].b.stack;
      assert Holds(h.objs, th, SlotOf(h.objs, th, level).value);
    }
  }

  // ----- a new string -----

  function AddStr(h: Heap, text: string, i: nat): Heap
    requires i < |h.strt|
  {
    Add(h, Str(text)).(strt := h.strt[i := [h.next] + h.strt[i]])
  }

  lemma AddStrShape(h: Heap, text: string, i: nat, hash: string -> nat)
    requires Shape(h, hash) && i < |h.strt| && i == hash(text) % |h.strt|
    requires forall x :: x in h.strt[i] ==> x in h.objs && h.objs[x].b != Str(text)
    ensures Shape(AddStr(h, text, i), hash)
  {
    hide ObjsOk, UpvalsOk, RootOk, StringsOk;
    var h' := AddStr(h, text, i);
    FreshId(h, hash);
    AddObjs(h, Str(text), h');
    AddUpvals(h, Str(text), h');
    assert RootOk(h') by { AddStrRoot(h, text, i); }
    AddStrTable(h, text, i, hash);
  }

  lemma AddStrRoot(h: Heap, text: string, i: nat)
    requires RootOk(h) && h.next !in h.objs && i < |h.strt|
    ensures RootOk(AddStr(h, text, i))
  {
  }

  lemma AddStrTable(h: Heap, text: string, i: nat, hash: string -> nat)
    requires StringsOk(h, hash) && i < |h.strt| && i == hash(text) % |h.strt| && h.next !in h.objs
    requires forall k :: 0 <= k < |h.strt| ==> h.next !in h.strt[k]
    requires forall x :: x in h.strt[i] ==> x in h.objs && h.objs[x].b != Str(text)
    ensures StringsOk(AddStr(h, text, i), hash)
  {
    var h' := AddStr(h, text, i);
    forall k | 0 <= k < |h'.strt| ensures Distinct(h'.strt[k]) {
      if k == i { PushDistinct(h.strt[i], h.next); }
    }
    forall x | x in h.objs && h.objs[x].b.Str? ensures x in h'.strt[hash(h.objs[x].b.text) % |h.strt|] {
      assert x in h.strt[hash(h.objs[x].b.text) % |h.strt|];
    }
    assert forall z :: z in h.objs && h.objs[z].b.Str? && h.objs[z].b.text == text ==> z in h.strt[i];
  }

  lemma PushDistinct(s: seq<Id>, x: Id)
    requires Distinct(s) && x !in s
    ensures Distinct([x] + s)
  {
    var r := [x] + s;
    forall j, k | 0 <= j < k < |r| ensures r[j] != r[k] {
      assert r[k] == s[k - 1];
      if j > 0 { assert r[j] == s[j - 1]; }
    }
  }

  lemma AddStrInv(h: Heap, text: string, i: nat, hash: string -> nat)
    requires Inv(h, hash) && i < |h.strt| && i == hash(text) % |h.strt|
    requires forall x :: x in h.strt[i] ==> x in h.objs && h.objs[x].b != Str(text)
    ensures Inv(AddStr(h, text, i), hash) && Live(AddStr(h, text, i), h.next)
    ensures forall x :: Live(h, x) ==> Live(AddStr(h, text, i), x)
  {
    hide Shape, Safe, Phase;
    AddStrShape(h, text, i, hash);
    AddStrPhase(h, text, i, hash);
    AddedLive(h, Str(text), AddStr(h, text, i), hash);
  }

  lemma AddedLive(h: Heap, b: Body, h': Heap, hash: string -> nat)
    requires Shape(h, hash)
    requires (forall x :: x in Add(h, b).objs ==> x in h'.objs && h'.objs[x].m == Add(h, b).objs[x].m)
    requires h'.cw == h.cw
    ensures Live(h', h.next) && forall x :: Live(h, x) ==> Live(h', x)
  {
    FreshId(h, hash);
    hide Shape;
  }

  lemma AddStrPhase(h: Heap, text: string, i: nat, hash: string -> nat)
    requires Shape(h, hash) && Safe(h) && Phase(h) && i < |h.strt|
    ensures Safe(AddStr(h, text, i)) && Phase(AddStr(h, text, i))
  {
    assert NewBody(h, Str(text));
    hide Shape, Safe, Marking, CleanMono, OpenMono, ListMono, AllClean, Swept, NewBody;
    var h' := AddStr(h, text, i);
    FreshId(h, hash);
    AddSafe(h, Str(text), hash, h');
    if h.gcstate.GCSpropagate? {
      AddMarking(h, Str(text), hash, h');
      AddMarks(h, Str(text), h');
    } else {
      AddStrLists(h, text, i);
      PhaseKept(h, h');
    }
  }

  lemma AddStrLists(h: Heap, text: string, i: nat)
    requires i < |h.strt| && h.next !in h.objs && Phase(h)
    ensures var h' := AddStr(h, text, i); CleanMono(h, h') && OpenMono(h, h') && ListMono(h, h')
  {
    var h' := AddStr(h, text, i);
    PrefixMono(h, h');
  }

  // ----- a new open upvalue -----

  /** luaF_findupval's new upvalue, the j-th in the thread's list. */
  function AddOpen(h: Heap, th: Id, level: nat, j: nat): Heap
    requires IsThread(h.objs, th) && j <= |h.objs[th].b.open|
  {
    Add(h, Open(th, level)).(
      objs := SetBody(Add(h, Open(th, level)).objs, th, h.objs[th].b.(open := InsertAt(h.objs[th].b.open, j, h.next))),
      uvhead := [h.next] + h.uvhead)
  }

  /** The place of level in the list: above all lower ones. */
  ghost predicate Place(objs: Objs, th: Id, level: nat, j: nat) {
    && IsThread(objs, th) && j <= |objs[th].b.open|
    && (forall i :: 0 <= i < j ==> LevelOf(objs, objs[th].b.open[i]) > level)
    && (forall i :: j <= i < |objs[th].b.open| ==> LevelOf(objs, objs[th].b.open[i]) < level)
  }

  lemma AddOpenUpvals(h: Heap, th: Id, level: nat, j: nat)
    requires UpvalsOk(h) && h.next !in h.objs && h.next !in h.uvhead && Place(h.objs, th, level, j)
    requires level < h.objs[th].b.top <= |h.objs[th].b.stack| && h.next !in h.objs[th].b.open
    ensures UpvalsOk(AddOpen(h, th, level, j))
  {
    hide OpenAt, OpenList;
    var h' := AddOpen(h, th, level, j);
    PushDistinct(h.uvhead, h.next);
    forall u | u in h'.objs && h'.objs[u].b.Open? ensures OpenAt(h'.objs, u, h'.objs[u].b.th) {
      if u != h.next {
        assert OpenAt(h.objs, u, h.objs[u].b.th);
      }
      AddOpenAt2(h, th, level, j, u);
    }
    forall t | t in h'.objs && h'.objs[t].b.Thread? ensures OpenList(h'.objs, t) {
      assert IsThread(h.objs, t) && OpenList(h.objs, t);
      AddOpenList2(h, th, level, j, t);
    }
  }

  lemma AddOpenAt2(h: Heap, th: Id, level: nat, j: nat, u: Id)
    requires h.next !in h.objs && Place(h.objs, th, level, j) && level < h.objs[th].b.top <= |h.objs[th].b.stack|
    requires u == h.next || (u in h.objs && h.objs[u].b.Open? && OpenAt(h.objs, u, h.objs[u].b.th))
    ensures var h' := AddOpen(h, th, level, j); OpenAt(h'.objs, u, h'.objs[u].b.th)
  {
    InsertMembers(h.objs[th].b.open, j, h.next);
  }

  lemma AddOpenList2(h: Heap, th: Id, level: nat, j: nat, t: Id)
    requires h.next !in h.objs && Place(h.objs, th, level, j) && level < h.objs[th].b.top <= |h.objs[th].b.stack|
    requires OpenList(h.objs, t)
    ensures OpenList(AddOpen(h, th, level, j).objs, t)
  {
    var objs' := AddOpen(h, th, level, j).objs;
    InsertMembers(h.objs[th].b.open, j, h.next);
    forall u | u in h.objs[t].b.open ensures OpenAt(objs', u, t) && LevelOf(objs', u) == LevelOf(h.objs, u) {
      assert OpenAt(h.objs, u, t);
      AddOpenAt2(h, th, level, j, u);
    }
    if t == th {
      AddOpenAt2(h, th, level, j, h.next);
      var open, r := h.objs[th].b.open, objs'[th].b.open;
      forall a, b | 0 <= a < b < |r| ensures LevelOf(objs', r[a]) > LevelOf(objs', r[b]) {
        assert a < j ==> r[a] == open[a] && open[a] in open;
        assert a > j ==> r[a] == open[a - 1] && open[a - 1] in open;
        assert b < j ==> r[b] == open[b] && open[b] in open;
        assert b > j ==> r[b] == open[b - 1] && open[b - 1] in open;
      }
    }
  }

  lemma AddOpenShape(h: Heap, th: Id, level: nat, j: nat, hash: string -> nat)
    requires Shape(h, hash) && Place(h.objs, th, level, j) && level < h.objs[th].b.top <= |h.objs[th].b.stack|
    ensures Shape(AddOpen(h, th, level, j), hash)
  {
    hide UpvalsOk, RootOk, StringsOk, ObjsOk;
    FreshId(h, hash);
    AddOpenUpvals(h, th, level, j);
    AddOpenRest(h, th, level, j, hash);
    AddOpenObjs(h, th, level, j);
  }

  lemma AddOpenRest(h: Heap, th: Id, level: nat, j: nat, hash: string -> nat)
    requires RootOk(h) && StringsOk(h, hash) && h.next !in h.objs && IsThread(h.objs, th) && j <= |h.objs[th].b.open|
    ensures RootOk(AddOpen(h, th, level, j)) && StringsOk(AddOpen(h, th, level, j), hash)
  {
    hide StringsOk;
    var h' := AddOpen(h, th, level, j);
    assert forall x :: x in h'.objs && x != h.next && x != th ==> x in h.objs && h'.objs[x].b == h.objs[x].b;
    StringsSame(h, hash, h');
  }

  lemma AddOpenObjs(h: Heap, th: Id, level: nat, j: nat)
    requires ObjsOk(h) && h.next !in h.objs && IsThread(h.objs, th) && j <= |h.objs[th].b.open|
    ensures ObjsOk(AddOpen(h, th, level, j))
  {
    var h' := AddOpen(h, th, level, j);
    forall x | x in h'.objs ensures ObjOk(h', x) {
      if x in h.objs { assert ObjOk(h, x); }
    }
  }

  lemma AddOpenInv(h: Heap, th: Id, level: nat, j: nat, hash: string -> nat)
    requires Inv(h, hash) && Live(h, th) && Place(h.objs, th, level, j)
    requires level < h.objs[th].b.top <= |h.objs[th].b.stack|
    ensures Inv(AddOpen(h, th, level, j), hash) && Live(AddOpen(h, th, level, j), h.next)
    ensures forall x :: Live(h, x) ==> Live(AddOpen(h, th, level, j), x)
  {
    hide Shape, Safe, Phase;
    AddOpenShape(h, th, level, j, hash);
    AddOpenPhase(h, th, level, j, hash);
    AddOpenSafe(h, th, level, j, hash);
    AddedLive(h, Open(th, level), AddOpen(h, th, level, j), hash);
  }

  lemma AddOpenPhase(h: Heap, th: Id, level: nat, j: nat, hash: string -> nat)
    requires Inv(h, hash) && Live(h, th) && IsThread(h.objs, th) && j <= |h.objs[th].b.open|
    ensures Phase(AddOpen(h, th, level, j))
  {
    hide Shape, Safe, Marking, CleanMono, OpenMono, ListMono, AllClean, Swept;
    FreshId(h, hash);
    if h.gcstate.GCSpropagate? {
      AddOpenMark(h, th, level, j, hash);
    } else {
      AddOpenLists(h, th, level, j);
      PhaseKept(h, AddOpen(h, th, level, j));
    }
  }

  lemma AddOpenSafe(h: Heap, th: Id, level: nat, j: nat, hash: string -> nat)
    requires Shape(h, hash) && Safe(h) && Live(h, th) && IsThread(h.objs, th) && j <= |h.objs[th].b.open|
    ensures Safe(AddOpen(h, th, level, j))
  {
    hide Shape, Safe;
    var h', h1 := AddOpen(h, th, level, j), Add(h, Open(th, level));
    FreshId(h, hash);
    SlotLive(h, th, level);
    AddSafe(h, Open(th, level), hash, h1);
    OpenSafe(h1, th, h'.objs[th].b, h');
  }

  lemma AddOpenMark(h: Heap, th: Id, level: nat, j: nat, hash: string -> nat)
    requires Shape(h, hash) && Safe(h) && Live(h, th) && IsThread(h.objs, th) && j <= |h.objs[th].b.open|
    requires Marking(h, {}, Incremental, h.objs.Keys)
    ensures var h' := AddOpen(h, th, level, j);
      Marking(h', {}, Incremental, h'.objs.Keys) && forall x :: Marked(h.objs, x) ==> Marked(h'.objs, x)
  {
    hide Shape, Safe, Marking;
    var h', h1 := AddOpen(h, th, level, j), Add(h, Open(th, level));
    FreshId(h, hash);
    SlotLive(h, th, level);
    AddMarking(h, Open(th, level), hash, h1);
    OpenMarking(h1, th, h'.objs[th].b, h');
    AddMarks(h, Open(th, level), h1);
  }

  /** The open list is no reference. */
  lemma OpenSafe(h: Heap, th: Id, b: Body, h': Heap)
    requires Safe(h) && IsThread(h.objs, th) && b.Thread? && b == h.objs[th].b.(open := b.open)
    requires h'.objs == SetBody(h.objs, th, b) && h'.cw == h.cw && Roots(h') == Roots(h)
    ensures Safe(h')
  {
    forall x | x in h.objs ensures AllVals(h'.objs, x) == AllVals(h.objs, x) { }
    assert forall y :: Live(h, y) <==> Live(h', y);
    RootsKept(h, h');
    hide AllVals;
    SafeMono(h, h');
  }

  lemma OpenMarking(h: Heap, th: Id, b: Body, h': Heap)
    requires Marking(h, {}, Incremental, h.objs.Keys) && IsThread(h.objs, th) && b.Thread?
    requires b == h.objs[th].b.(open := b.open)
    requires h'.objs == SetBody(h.objs, th, b) && h'.cw == h.cw && h'.gray == h.gray && h'.grayagain == h.grayagain
    ensures Marking(h', {}, Incremental, h'.objs.Keys)
  {
    forall x | x in h.objs ensures AllVals(h'.objs, x) == AllVals(h.objs, x) && Vals(h'.objs, x) == Vals(h.objs, x) { }
    hide AllVals, Vals;
    assert ClosedSet(h'.objs, h'.objs.Keys) by {
      forall x, y | x in h'.objs && Points(h'.objs, x, y) ensures y in h'.objs { assert Points(h.objs, x, y); }
    }
    assert GrayLists(h');
    forall x | x in h'.objs && x !in {} ensures Covered(h', x, Incremental) {
      assert x !in {} && Covered(h, x, Incremental);
      assert forall y: Id :: Holds(h'.objs, x, y) == Holds(h.objs, x, y);
      assert AllMarked(h.objs, x) ==> AllMarked(h'.objs, x);
    }
  }

  lemma AddOpenLists(h: Heap, th: Id, level: nat, j: nat)
    requires IsThread(h.objs, th) && j <= |h.objs[th].b.open| && h.next !in h.objs && Phase(h)
    ensures var h' := AddOpen(h, th, level, j); CleanMono(h, h') && OpenMono(h, h') && ListMono(h, h')
  {
    var h' := AddOpen(h, th, level, j);
    InsertMembers(h.objs[th].b.open, j, h.next);
    PrefixMono(h, h');
  }
}
