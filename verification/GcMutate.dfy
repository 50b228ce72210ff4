/** What the program may do between collector steps, and why it keeps the invariant. */
module GcMutate {
  import opened Wrappers
  import opened GcHeap
  import opened GcAtomic
  import opened GcSweep
  import opened GcUpvals

  // ----- phases without marking -----

  ghost predicate CleanMono(h: Heap, h': Heap) { forall x :: CleanId(h, x) ==> CleanId(h', x) }

  /** A thread gains only clean open upvalues. */
  ghost predicate OpenMono(h: Heap, h': Heap) {
    forall x, u :: IsThread(h'.objs, x) && u in h'.objs[x].b.open ==>
      (IsThread(h.objs, x) && u in h.objs[x].b.open) || CleanId(h', u)
  }

  lemma SweptMono(h: Heap, h': Heap, x: Id)
    requires CleanMono(h, h') && OpenMono(h, h') && SweptObj(h, x)
    ensures SweptObj(h', x)
  {
    assert CleanId(h, x);
    if IsThread(h'.objs, x) {
      forall u | u in h'.objs[x].b.open ensures CleanId(h', u) { assert CleanId(h, u) || CleanId(h', u); }
    }
  }

  /** New members of the swept lists are clean. */
  ghost predicate ListMono(h: Heap, h': Heap) {
    match h.gcstate
    case GCSsweepstring =>
      && h'.sweepstrgc == h.sweepstrgc && |h'.strt| == |h.strt| && h'.sweepgc == 0
      && forall i, y :: 0 <= i < h.sweepstrgc && i < |h.strt| && y in h'.strt[i] ==> y in h.strt[i] || CleanId(h', y)
    case GCSsweep =>
      && h'.sweepgc <= |h'.rootgc|
      && (forall y :: y in h'.objs && h'.objs[y].b.Str? ==> (y in h.objs && h.objs[y].b.Str?) || CleanId(h', y))
      && (forall i :: 0 <= i < h'.sweepgc ==> SweptObj(h', h'.rootgc[i]) || InPrefix(h, h'.rootgc[i]))
    case _ => true
  }

  predicate InPrefix(h: Heap, x: Id) { h.sweepgc <= |h.rootgc| && x in h.rootgc[..h.sweepgc] }

  lemma PhaseKept(h: Heap, h': Heap)
    requires Phase(h) && !h.gcstate.GCSpropagate? && h'.gcstate == h.gcstate
    requires CleanMono(h, h') && OpenMono(h, h') && ListMono(h, h')
    ensures Phase(h')
  {
    match h.gcstate
    case GCSsweepstring =>
      forall i, x: Id | 0 <= i < h'.sweepstrgc && i < |h'.strt| && x in h'.strt[i] ensures CleanId(h', x) {
        if x in h.strt[i] { assert CleanId(h, x); }
      }
    case GCSsweep =>
      forall x | x in h'.objs && h'.objs[x].b.Str? ensures CleanId(h', x) {
        if x in h.objs && h.objs[x].b.Str? { assert CleanId(h, x); }
      }
      forall i | 0 <= i < h'.sweepgc && i < |h'.rootgc| ensures SweptObj(h', h'.rootgc[i]) {
        if InPrefix(h, h'.rootgc[i]) {
          var j :| 0 <= j < h.sweepgc && h.rootgc[j] == h'.rootgc[i];
          SweptMono(h, h', h.rootgc[j]);
        }
      }
    case _ => CleanEverywhere(h, h');
  }

  lemma CleanEverywhere(h: Heap, h': Heap)
    requires AllClean(h) && CleanMono(h, h')
    ensures AllClean(h')
  {
    forall x | x in h'.objs ensures Clean(h'.objs[x].m, h'.cw) { assert CleanId(h, x); }
  }

  // ----- a new object -----

  /** The mark luaC_link gives: current white. */
  function NewMark(cw: bool): Mark { Mark(cw, !cw, false, false) }

  ghost predicate LiveRefs(h: Heap, vs: seq<Ref>) { forall r :: r in vs ==> LiveRef(h, r) }

  /** A body all of whose references are live; a new thread has no open upvalues. */
  ghost predicate NewBody(h: Heap, b: Body) {
    match b
    case Str(_) => true
    case Udata(refs) => LiveRefs(h, refs)
    case Func(refs) => LiveRefs(h, refs)
    case Table(refs) => LiveRefs(h, refs)
    case Proto(refs) => LiveRefs(h, refs)
    case Closed(v) => LiveRef(h, v)
    case Open(th, level) => LiveRef(h, SlotOf(h.objs, th, level))
    case Thread(env, stack, top, open) => LiveRef(h, env) && LiveRefs(h, stack) && top <= |stack| && open == []
  }

  function Add(h: Heap, b: Body): Heap {
    h.(objs := h.objs[h.next := Obj(NewMark(h.cw), b)], next := h.next + 1)
  }

  /** No object has the next id yet, and none refers to it. */
  lemma FreshId(h: Heap, hash: string -> nat)
    requires Shape(h, hash)
    ensures h.next !in h.objs && h.next !in h.rootgc && h.next !in h.uvhead
    ensures forall u :: u in h.objs && h.objs[u].b.Open? ==> h.objs[u].b.th != h.next
    ensures forall th :: IsThread(h.objs, th) ==> h.next !in h.objs[th].b.open
    ensures forall i :: 0 <= i < |h.strt| ==> h.next !in h.strt[i]
  {
    assert ObjsOk(h);
    assert h.next in h.objs ==> ObjOk(h, h.next);
    FreshLists(h, hash);
  }

  lemma FreshLists(h: Heap, hash: string -> nat)
    requires Shape(h, hash) && h.next !in h.objs
    ensures h.next !in h.rootgc && h.next !in h.uvhead
    ensures forall u :: u in h.objs && h.objs[u].b.Open? ==> h.objs[u].b.th != h.next
    ensures forall th :: IsThread(h.objs, th) ==> h.next !in h.objs[th].b.open
    ensures forall i :: 0 <= i < |h.strt| ==> h.next !in h.strt[i]
  {
    hide OpenAt, ObjsOk;
    forall u | u in h.objs && h.objs[u].b.Open? ensures h.objs[u].b.th != h.next {
      assert OpenAt(h.objs, u, h.objs[u].b.th);
      OpenIn(h.objs, u, h.objs[u].b.th);
    }
    forall th | IsThread(h.objs, th) ensures h.next !in h.objs[th].b.open {
      assert OpenList(h.objs, th);
      if h.next in h.objs[th].b.open { OpenIn(h.objs, h.next, th); }
    }
  }

  lemma OpenIn(objs: Objs, u: Id, th: Id)
    requires OpenAt(objs, u, th)
    ensures u in objs && th in objs
  {
  }

  lemma AddVals(h: Heap, b: Body, x: Id)
    requires h.next !in h.objs && x in h.objs
    requires (forall u :: u in h.objs && h.objs[u].b.Open? ==> h.objs[u].b.th != h.next)
    ensures Vals(Add(h, b).objs, x) == Vals(h.objs, x) && AllVals(Add(h, b).objs, x) == AllVals(h.objs, x)
  {
  }

  lemma AddSafe(h: Heap, b: Body, hash: string -> nat, h': Heap)
    requires Shape(h, hash) && Safe(h) && NewBody(h, b)
    requires h'.objs == Add(h, b).objs && h'.cw == h.cw && Roots(h') == Roots(h)
    requires b.Open? ==> b.th != h.next
    ensures Safe(h')
  {
    FreshId(h, hash);
    hide Shape;
    assert forall y :: Live(h, y) ==> Live(h', y);
    RootsKept(h, h');
    forall x ensures LiveAt(h', x) {
      if x in h.objs {
        AddVals(h, b, x);
        assert LiveAt(h, x);
        forall y | Holds(h'.objs, x, y) && Live(h', x) ensures Live(h', y) { assert Holds(h.objs, x, y); }
      } else if x == h.next {
        forall y | Holds(h'.objs, x, y) ensures Live(h', y) { NewRef(h, b, h', y); }
      }
    }
  }

  lemma NewRef(h: Heap, b: Body, h': Heap, y: Id)
    requires NewBody(h, b) && h'.objs == Add(h, b).objs && Holds(h'.objs, h.next, y) && (b.Open? ==> b.th != h.next)
    ensures Live(h, y)
  {
    match b
    case Thread(env, stack, top, open) => assert Some(y) == env || Some(y) in stack;
    case Open(th, level) => assert SlotOf(h'.objs, th, level) == SlotOf(h.objs, th, level);
    case _ =>
  }

  /** A new white object disturbs no mark phase. */
  lemma AddMarking(h: Heap, b: Body, hash: string -> nat, h': Heap)
    requires Shape(h, hash) && Marking(h, {}, Incremental, h.objs.Keys) && Safe(h) && NewBody(h, b)
    requires (b.Open? ==> b.th != h.next)
    requires h'.objs == Add(h, b).objs && h'.cw == h.cw && h'.gray == h.gray && h'.grayagain == h.grayagain
    requires Roots(h') == Roots(h)
    ensures Marking(h', {}, Incremental, h'.objs.Keys)
  {
    FreshId(h, hash);
    AddSafe(h, b, hash, h');
    hide Shape, Safe, ClosedSet, Covered, NewBody, Roots;
    AddColours(h, b, h');
    WholeScope(h');
    forall x | x in h'.objs && x !in {} ensures Covered(h', x, Incremental) {
      if x in h.objs {
        assert x !in {} && Covered(h, x, Incremental);
        AddCovered(h, b, x, h');
      } else {
        NewCovered(h, b, h');
      }
    }
  }

  lemma AddColours(h: Heap, b: Body, h': Heap)
    requires Marking(h, {}, Incremental, h.objs.Keys) && h.next !in h.objs
    requires h'.objs == Add(h, b).objs && h'.cw == h.cw && h'.gray == h.gray && h'.grayagain == h.grayagain
    ensures GrayLists(h') && (forall x :: x in h'.objs ==> !IsDead(h'.objs[x].m, h'.cw) && MarkOk(h'.objs[x].m))
    ensures h'.objs.Keys == h.objs.Keys + {h.next}
    ensures forall x :: x in h'.objs && x !in h.objs ==> x == h.next
  {
    hide Covered, ClosedSet;
  }

  lemma NewCovered(h: Heap, b: Body, h': Heap)
    requires h'.objs == Add(h, b).objs
    ensures Covered(h', h.next, Incremental)
  {
  }

  lemma AddCovered(h: Heap, b: Body, x: Id, h': Heap)
    requires h.next !in h.objs && x in h.objs
    requires (forall u :: u in h.objs && h.objs[u].b.Open? ==> h.objs[u].b.th != h.next)
    requires h'.objs == Add(h, b).objs && h'.gray == h.gray && h'.grayagain == h.grayagain
    requires Covered(h, x, Incremental)
    ensures Covered(h', x, Incremental)
  {
    AddVals(h, b, x);
    if AllMarked(h.objs, x) {
      forall y: Id | Holds(h'.objs, x, y) ensures Marked(h'.objs, y) { assert Holds(h.objs, x, y); }
    }
  }

  // ----- where a new object is linked -----

  function InsertAt(s: seq<Id>, i: nat, x: Id): (r: seq<Id>)
    requires i <= |s|
    ensures |r| == |s| + 1
    ensures forall j :: 0 <= j < |r| ==> r[j] == if j < i then s[j] else if j == i then x else s[j - 1]
  {
    s[..i] + [x] + s[i..]
  }

  lemma InsertDistinct(s: seq<Id>, i: nat, x: Id)
    requires i <= |s| && Distinct(s) && x !in s
    ensures Distinct(InsertAt(s, i, x)) && forall y :: y in InsertAt(s, i, x) <==> y in s || y == x
  {
    var r := InsertAt(s, i, x);
    forall y: Id ensures y in r <==> y in s || y == x {
      if y in s {
        var j :| 0 <= j < |s| && s[j] == y;
        assert r[if j < i then j else j + 1] == y;
      }
      assert r[i] == x;
    }
    forall j, k | 0 <= j < k < |r| ensures r[j] != r[k] {
      assert j < i ==> r[j] == s[j];
      assert j > i ==> r[j] == s[j - 1];
      assert k < i ==> r[k] == s[k];
      assert k > i ==> r[k] == s[k - 1];
    }
  }

  lemma InsertMembers(s: seq<Id>, i: nat, x: Id)
    requires i <= |s|
    ensures forall y :: y in InsertAt(s, i, x) <==> y in s || y == x
  {
    assert s == s[..i] + s[i..];
  }

  /** Linking a new object into rootgc at position i; a sweep in progress keeps its place. */
  function AddRoot(h: Heap, b: Body, i: nat): Heap
    requires i <= |h.rootgc|
  {
    Add(h, b).(rootgc := InsertAt(h.rootgc, i, h.next), sweepgc := if h.sweepgc > i then h.sweepgc + 1 else h.sweepgc)
  }

  lemma AddRootShape(h: Heap, b: Body, i: nat, hash: string -> nat)
    requires Shape(h, hash) && Rooted(b) && NewBody(h, b) && i <= |h.rootgc|
    ensures Shape(AddRoot(h, b, i), hash)
  {
    var h' := AddRoot(h, b, i);
    FreshId(h, hash);
    hide OpenAt, OpenList, ObjsOk, StringsOk, UpvalsOk, NewBody;
    InsertDistinct(h.rootgc, i, h.next);
    assert RootOk(h');
    AddObjs(h, b, h');
    AddUpvals(h, b, h');
    StringsSame(h, hash, h');
  }

  lemma AddObjs(h: Heap, b: Body, h': Heap)
    requires ObjsOk(h) && h.next !in h.objs && (b.Thread? ==> b.top <= |b.stack|)
    requires h'.objs == Add(h, b).objs && h'.next == h.next + 1 && h'.main == h.main && h'.running == h.running
    ensures ObjsOk(h')
  {
    forall x | x in h'.objs ensures ObjOk(h', x) { if x in h.objs { assert ObjOk(h, x); } }
  }

  lemma AddUpvals(h: Heap, b: Body, h': Heap)
    requires UpvalsOk(h) && h.next !in h.objs && !b.Open? && (b.Thread? ==> b.open == [])
    requires h'.objs == Add(h, b).objs && h'.uvhead == h.uvhead
    ensures UpvalsOk(h')
  {
    hide OpenAt, OpenList;
    forall u | u in h'.objs && h'.objs[u].b.Open? ensures OpenAt(h'.objs, u, h'.objs[u].b.th) {
      assert OpenAt(h.objs, u, h.objs[u].b.th);
      AddOpenAt(h, b, u, h.objs[u].b.th);
    }
    forall th | th in h'.objs && h'.objs[th].b.Thread? ensures OpenList(h'.objs, th) {
      if th in h.objs {
        assert OpenList(h.objs, th);
        AddOpenList(h, b, th);
      } else {
        NoneOpen(h'.objs, th);
      }
    }
  }

  lemma NoneOpen(objs: Objs, th: Id)
    requires IsThread(objs, th) && objs[th].b.open == []
    ensures OpenList(objs, th)
  {
  }

  lemma AddOpenAt(h: Heap, b: Body, u: Id, th: Id)
    requires OpenAt(h.objs, u, th) && h.next !in h.objs
    ensures OpenAt(Add(h, b).objs, u, th)
  {
  }

  lemma AddOpenList(h: Heap, b: Body, th: Id)
    requires OpenList(h.objs, th) && h.next !in h.objs
    ensures OpenList(Add(h, b).objs, th)
  {
    forall u | u in h.objs[th].b.open
      ensures OpenAt(Add(h, b).objs, u, th) && LevelOf(Add(h, b).objs, u) == LevelOf(h.objs, u)
    {
      assert OpenAt(h.objs, u, th);
      AddOpenAt(h, b, u, th);
    }
  }

  lemma AddRootLists(h: Heap, b: Body, i: nat, hash: string -> nat)
    requires Shape(h, hash) && Rooted(b) && (b.Thread? ==> b.open == []) && i <= |h.rootgc|
    requires (h.gcstate.GCSsweep? || h.gcstate.GCSsweepstring? ==> Swept(h))
    ensures var h' := AddRoot(h, b, i); CleanMono(h, h') && OpenMono(h, h') && ListMono(h, h')
  {
    FreshId(h, hash);
    hide Shape, SweptRoot;
    var h' := AddRoot(h, b, i);
    AddMonos(h, b, h');
    NewSwept(h, b, h');
    hide CleanMono, OpenMono, SweptObj;
    if h.gcstate.GCSsweep? {
      assert forall y :: y in h'.objs && h'.objs[y].b.Str? ==> y in h.objs && h.objs[y].b.Str?;
      hide Add;
      AddRootPrefix(h, h', i);
    }
  }

  lemma AddRootPrefix(h: Heap, h': Heap, i: nat)
    requires i <= |h.rootgc| && h'.rootgc == InsertAt(h.rootgc, i, h.next) && h.sweepgc <= |h.rootgc|
    requires h'.sweepgc == (if h.sweepgc > i then h.sweepgc + 1 else h.sweepgc) && SweptObj(h', h.next)
    ensures forall j :: 0 <= j < h'.sweepgc ==> SweptObj(h', h'.rootgc[j]) || InPrefix(h, h'.rootgc[j])
  {
    hide SweptObj;
    forall j | 0 <= j < h'.sweepgc ensures SweptObj(h', h'.rootgc[j]) || InPrefix(h, h'.rootgc[j]) {
      if j < i { assert h'.rootgc[j] == h.rootgc[..h.sweepgc][j]; }
      if j > i { assert h'.rootgc[j] == h.rootgc[..h.sweepgc][j - 1]; }
    }
  }

  lemma AddMonos(h: Heap, b: Body, h': Heap)
    requires h.next !in h.objs && h'.objs == Add(h, b).objs && h'.cw == h.cw && (b.Thread? ==> b.open == [])
    ensures CleanMono(h, h') && OpenMono(h, h')
  {
  }

  lemma NewSwept(h: Heap, b: Body, h': Heap)
    requires h'.objs == Add(h, b).objs && h'.cw == h.cw && (b.Thread? ==> b.open == [])
    ensures SweptObj(h', h.next)
  {
  }

  /** Allocating a rooted object keeps the invariant in every phase. */
  lemma AddRootInv(h: Heap, b: Body, i: nat, hash: string -> nat)
    requires Inv(h, hash) && Rooted(b) && NewBody(h, b) && i <= |h.rootgc|
    ensures Inv(AddRoot(h, b, i), hash) && Live(AddRoot(h, b, i), h.next)
    ensures forall x :: Live(h, x) ==> Live(AddRoot(h, b, i), x)
  {
    hide Shape, Safe, Marking, NewBody, CleanMono, OpenMono, ListMono, AllClean, SweptRoot;
    var h' := AddRoot(h, b, i);
    FreshId(h, hash);
    AddRootShape(h, b, i, hash);
    AddSafe(h, b, hash, h');
    if h.gcstate.GCSpropagate? {
      AddMarking(h, b, hash, h');
      AddMarks(h, b, h');
    } else {
      NewThreadOpen(h, b);
      AddRootLists(h, b, i, hash);
      PhaseKept(h, h');
    }
  }

  lemma NewThreadOpen(h: Heap, b: Body)
    requires NewBody(h, b)
    ensures b.Thread? ==> b.open == []
  {
  }

  lemma AddMarks(h: Heap, b: Body, h': Heap)
    requires h'.objs == Add(h, b).objs && h.next !in h.objs
    ensures forall x :: Marked(h.objs, x) ==> Marked(h'.objs, x)
  {
  }

  /** The main thread, its table of globals and the registry. */
  ghost predicate FirstObjs(h: Heap) {
    && h.objs.Keys == {0, 1, 2} && h.next == 3 && h.main == 0 && h.running == 0 && h.rootgc == [2, 1, 0]
    && h.objs[0] == Obj(Mark(true, false, false, true), Thread(Some(1), [], 0, []))
    && h.objs[1] == Obj(NewMark(true), Table([])) && h.objs[2] == Obj(NewMark(true), Table([]))
  }

  /** The first heap meets the invariant. */
  lemma FirstInv(h: Heap, hash: string -> nat)
    requires FirstObjs(h) && h.uvhead == [] && |h.strt| > 0 && (forall i :: 0 <= i < |h.strt| ==> h.strt[i] == [])
    requires h.gcstate.GCSpause? && h.cw && h.registry == 2
    requires forall i :: 0 <= i < |h.mt| ==> h.mt[i] == None
    ensures Inv(h, hash)
  {
    FirstRoots(h);
    FirstObjects(h);
    FirstStrings(h, hash);
    NoneOpenFirst(h);
    FirstSafe(h);
    hide RootOk, ObjsOk, StringsOk, UpvalsOk, Safe, FirstObjs;
  }

  lemma FirstRoots(h: Heap)
    requires FirstObjs(h)
    ensures RootOk(h)
  {
    assert h.rootgc[0] == 2 && h.rootgc[1] == 1 && h.rootgc[2] == 0;
  }

  lemma FirstObjects(h: Heap)
    requires FirstObjs(h)
    ensures ObjsOk(h)
  {
  }

  lemma FirstStrings(h: Heap, hash: string -> nat)
    requires FirstObjs(h) && |h.strt| > 0 && (forall i :: 0 <= i < |h.strt| ==> h.strt[i] == [])
    ensures StringsOk(h, hash)
  {
  }

  lemma NoneOpenFirst(h: Heap)
    requires FirstObjs(h) && h.uvhead == []
    ensures UpvalsOk(h)
  {
    assert forall x :: x in h.objs ==> !h.objs[x].b.Open?;
    forall th | th in h.objs && h.objs[th].b.Thread?
      ensures OpenList(h.objs, th)
    {
      assert IsThread(h.objs, th); NoneOpen(h.objs, th);
    }
  }

  lemma FirstSafe(h: Heap)
    requires FirstObjs(h) && h.cw && h.registry == 2 && forall i :: 0 <= i < |h.mt| ==> h.mt[i] == None
    ensures Safe(h)
  {
    forall x ensures LiveAt(h, x) {
      if x in h.objs {
        forall y: Id | Holds(h.objs, x, y) ensures Live(h, y) { assert x == 0 && Some(y) in [Some(1)] + []; }
      }
    }
  }
}
