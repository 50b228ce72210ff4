/** The incremental collector (lgc.c) with the mutator operations that share its state
    (lgc.h, lstring.c, lfunc.c): a global_State updated in place. */
module Lgc {
  import opened Wrappers
  import opened GcHeap
  import opened GcMark
  import opened GcAtomic
  import opened GcSweep
  import opened GcUpvals
  import opened GcStep
  import opened GcMutate
  import opened GcWrite
  import opened GcStack
  import opened GcClose
  import opened GcCells
  import opened GcMoves
  import opened GcEffects

  const GCSWEEPMAX: nat := 40
  const MINSTRTABSIZE: nat := 32
  const NUM_TAGS: nat := 9
  const MAX_INT: int := 0x7fffffff - 2

  class GlobalState {
    var objs: Objs
    var rootgc: seq<Id>
    var strt: seq<seq<Id>>
    var uvhead: seq<Id>
    var gray: seq<Id>
    var grayagain: seq<Id>
    var gcstate: GcState
    var cw: bool
    var sweepstrgc: nat
    var sweepgc: nat
    var next: Id
    const main: Id
    var running: Id
    var registry: Id
    var mt: seq<Ref>
    const hash: string -> nat
    var nuse: int

    ghost function Snap(): (h: Heap)
      reads this
    {
      Heap(objs, rootgc, strt, uvhead, gray, grayagain, gcstate, cw, sweepstrgc, sweepgc, next, main, running, registry, mt)
    }

    /** lua_newstate and f_luaopen: the main thread, its table of globals and the registry. */
    constructor (hash: string -> nat)
      ensures Inv(Snap(), hash) && this.hash == hash && gcstate == GCSpause
    {
      objs := map[0 := Obj(Mark(true, false, false, true), Thread(Some(1), [], 0, [])),
                  1 := Obj(NewMark(true), Table([])),
                  2 := Obj(NewMark(true), Table([]))];
      rootgc, uvhead, gray, grayagain := [2, 1, 0], [], [], [];
      strt := seq(MINSTRTABSIZE, _ => []);
      gcstate, cw, sweepstrgc, sweepgc := GCSpause, true, 0, 0;
      next, main, running, registry := 3, 0, 0, 2;
      mt := seq(NUM_TAGS, _ => None);
      this.hash := hash;
      nuse := 0;
      new;
      FirstInv(Snap(), hash);
    }

    // ----- marking -----

    /** reallymarkobject */
    method ReallyMark(o: Id, ghost E: set<Id>, ghost stage: Stage, ghost A: set<Id>)
      requires Marking(Snap(), E, stage, A) && ObjsOk(Snap())
      requires o in A && o in objs && IsWhite(objs[o].m) && !IsDead(objs[o].m, cw)
      modifies `objs, `gray
      ensures Marking(Snap(), E, stage, A) && ObjsOk(Snap()) && Marked(objs, o) && MarkStep(old(Snap()), Snap())
      ensures |Whites(objs)| < old(|Whites(objs)|) && Work(Snap()) < old(Work(Snap()))
      decreases |Whites(objs)|, 0
    {
      hide Marking, Covered, ObjsOk, ClosedSet, GrayLists, MarkStep, MarkStepBut, Whites;
      ghost var h := Snap();
      WhiteUnlistedIn(h, o, E, stage, A);
      objs := objs[o := objs[o].(m := objs[o].m.(w0 := false, w1 := false))];
      MarkOne(h, o, objs[o].m, E, stage, A, Snap());
      OneMoreOk(h, o, objs[o].m, Snap());
      ghost var h1 := Snap();
      MarkOwn(o, E, stage, A);
      MarkOwnTrans(h, o, h1.objs[o].m, h1, Snap());
    }

    /** The part of reallymarkobject that depends on the kind of object. */
    method MarkOwn(o: Id, ghost E: set<Id>, ghost stage: Stage, ghost A: set<Id>)
      requires Marking(Snap(), E + {o}, stage, A) && ObjsOk(Snap()) && o in A
      requires o in objs && IsGray(objs[o].m) && o !in gray && o !in grayagain
      modifies `objs, `gray
      ensures Marking(Snap(), E, stage, A) && ObjsOk(Snap()) && MarkStepBut(old(Snap()), Snap(), o)
      decreases |Whites(objs)|, 4
    {
      hide Marking, ObjsOk, MarkStep, MarkStepBut, Whites;
      ghost var h1 := Snap();
      match objs[o].b {
        case Str(_) =>
          StrCovered(h1, o, stage);
          Uncover(h1, o, E, stage, A);
          NoStep(h1);
          StepBut(h1, h1, h1, o);
        case Udata(refs) => MarkUdata(o, refs, E, stage, A);
        case Closed(v) => MarkClosed(o, v, E, stage, A);
        case Open(th, level) => MarkOpen(o, th, level, E, stage, A);
        case _ =>
          gray := [o] + gray;
          PushGray(h1, o, E, stage, A, Snap());
          ObjsOkSame(h1, Snap());
          PushStep(h1, o, Snap());
      }
    }

    /** Userdata are never gray. */
    method MarkUdata(o: Id, refs: seq<Ref>, ghost E: set<Id>, ghost stage: Stage, ghost A: set<Id>)
      requires Marking(Snap(), E + {o}, stage, A) && ObjsOk(Snap()) && o in A
      requires o in objs && IsGray(objs[o].m) && o !in gray && o !in grayagain && objs[o].b == Udata(refs)
      modifies `objs, `gray
      ensures Marking(Snap(), E, stage, A) && ObjsOk(Snap()) && MarkStepBut(old(Snap()), Snap(), o)
      decreases |Whites(objs)|, 3
    {
      hide Marking, Covered, ObjsOk, MarkStepBut, Whites;
      ghost var h := Snap();
      RefsInA(h, E + {o}, stage, A, o);
      GrayToBlack(o, E, stage, A);
      ghost var h1 := Snap();
      MarkValues(refs, E + {o}, stage, A);
      StaysMarked(h1, Snap(), o);
      BlackCovered(Snap(), o, stage);
      Uncover(Snap(), o, E, stage, A);
      ButStep(h, h1, Snap(), o);
    }

    /** A closed upvalue turns black once its value is marked. */
    method MarkClosed(o: Id, v: Ref, ghost E: set<Id>, ghost stage: Stage, ghost A: set<Id>)
      requires Marking(Snap(), E + {o}, stage, A) && ObjsOk(Snap()) && o in A
      requires o in objs && IsGray(objs[o].m) && o !in gray && o !in grayagain && objs[o].b == Closed(v)
      modifies `objs, `gray
      ensures Marking(Snap(), E, stage, A) && ObjsOk(Snap()) && MarkStepBut(old(Snap()), Snap(), o)
      decreases |Whites(objs)|, 3
    {
      hide Marking, Covered, ObjsOk, MarkStepBut, Whites;
      ghost var h := Snap();
      RefsInA(h, E + {o}, stage, A, o);
      MarkValues([v], E + {o}, stage, A);
      ghost var h1 := Snap();
      StaysMarked(h, h1, o);
      GrayToBlack(o, E, stage, A);
      BlackCovered(Snap(), o, stage);
      Uncover(Snap(), o, E, stage, A);
      StepBut(h, h1, Snap(), o);
    }

    /** Open upvalues are never black. */
    method MarkOpen(o: Id, th: Id, level: nat, ghost E: set<Id>, ghost stage: Stage, ghost A: set<Id>)
      requires Marking(Snap(), E + {o}, stage, A) && ObjsOk(Snap()) && o in A
      requires o in objs && IsGray(objs[o].m) && o !in gray && o !in grayagain && objs[o].b == Open(th, level)
      modifies `objs, `gray
      ensures Marking(Snap(), E, stage, A) && ObjsOk(Snap()) && MarkStepBut(old(Snap()), Snap(), o)
      decreases |Whites(objs)|, 3
    {
      hide Marking, Covered, ObjsOk, MarkStepBut, Whites;
      ghost var h := Snap();
      RefsInA(h, E + {o}, stage, A, o);
      MarkValues([SlotOf(objs, th, level)], E + {o}, stage, A);
      ghost var h1 := Snap();
      StaysMarked(h, h1, o);
      SameVals(h.objs, h1.objs, o);
      OpenCovered(h1, o, stage);
      Uncover(h1, o, E, stage, A);
      StepBut(h, h1, h1, o);
    }

    /** gray2black on an object that is being traversed */
    method GrayToBlack(o: Id, ghost E: set<Id>, ghost stage: Stage, ghost A: set<Id>)
      requires Marking(Snap(), E + {o}, stage, A) && ObjsOk(Snap()) && o in objs && IsGray(objs[o].m) && o !in gray
      requires o !in grayagain
      requires !(objs[o].b.Open? || objs[o].b.Thread? || objs[o].b.Str?)
      modifies `objs
      ensures Marking(Snap(), E + {o}, stage, A) && ObjsOk(Snap())
      ensures objs == old(objs)[o := old(objs)[o].(m := old(objs)[o].m.(black := true))]
      ensures Whites(objs) == Whites(old(objs))
    {
      hide Marking;
      ghost var h := Snap();
      objs := objs[o := objs[o].(m := objs[o].m.(black := true))];
      Blacken(h, o, E, stage, A, Snap());
      OneMoreOk(h, o, objs[o].m, Snap());
    }

    /** markvalue on each of vs */
    method MarkValues(vs: seq<Ref>, ghost E: set<Id>, ghost stage: Stage, ghost A: set<Id>)
      requires Marking(Snap(), E, stage, A) && ObjsOk(Snap())
      requires forall r :: r in vs && r.Some? ==> r.value in A
      modifies `objs, `gray
      ensures Marking(Snap(), E, stage, A) && ObjsOk(Snap()) && MarkStep(old(Snap()), Snap())
      ensures forall r :: r in vs && r.Some? ==> Marked(objs, r.value)
      decreases |Whites(objs)|, 2
    {
      hide Covered, ObjsOk, GrayLists, MarkStep, Marking, Whites;
      var i := 0;
      NoStep(Snap());
      while i < |vs|
        invariant 0 <= i <= |vs|
        invariant Marking(Snap(), E, stage, A) && ObjsOk(Snap()) && MarkStep(old(Snap()), Snap())
        invariant forall j :: 0 <= j < i && vs[j].Some? ==> Marked(objs, vs[j].value)
      {
        assert vs[i] in vs;
        StepWhites(old(Snap()), Snap());
        MarkValue(vs[i], E, stage, A, old(Snap()));
        i := i + 1;
      }
    }

    /** markvalue */
    method MarkValue(v: Ref, ghost E: set<Id>, ghost stage: Stage, ghost A: set<Id>, ghost h0: Heap)
      requires Marking(Snap(), E, stage, A) && ObjsOk(Snap()) && (v.Some? ==> v.value in A) && MarkStep(h0, Snap())
      modifies `objs, `gray
      ensures Marking(Snap(), E, stage, A) && ObjsOk(Snap()) && MarkStep(h0, Snap()) && MarkStep(old(Snap()), Snap())
      ensures v.Some? ==> Marked(objs, v.value)
      ensures forall x :: Marked(old(objs), x) ==> Marked(objs, x)
      decreases |Whites(objs)|, 1
    {
      hide Covered, ObjsOk, GrayLists, MarkStep, Whites;
      ghost var h := Snap();
      NoStep(h);
      if v.Some? && IsWhite(objs[v.value].m) {
        ReallyMark(v.value, E, stage, A);
        MarkTrans(h0, h, Snap());
      }
      forall x | Marked(h.objs, x) ensures Marked(objs, x) { StaysMarked(h, Snap(), x); }
    }

    // ----- propagation -----

    /** traversestack: marks the live part of the stack and clears the rest. */
    method TraverseStack(o: Id, ghost stage: Stage, ghost A: set<Id>)
      requires Marking(Snap(), {o}, stage, A) && Shape(Snap(), hash) && IsThread(objs, o) && o in A && o in grayagain
      modifies `objs, `gray
      ensures Marking(Snap(), {}, stage, A) && Shape(Snap(), hash) && Spread(old(Snap()), Snap())
      ensures Work(Snap()) <= old(Work(Snap()))
      ensures IsThread(objs, o) && AllMarked(objs, o) && StaleCleared(objs[o].b)
    {
      hide Marking, Covered, ObjsOk, StringsOk, UpvalsOk, RootOk, MarkStep, Whites, Spread;
      ghost var h := Snap();
      ThreadTop(h, o, hash);
      RefsInA(h, {o}, stage, A, o);
      var b := objs[o].b;
      MarkValues([b.env], {o}, stage, A);
      ghost var h1 := Snap();
      StepSpreads(h, h1);
      MarkValues(b.stack[..b.top], {o}, stage, A);
      ghost var h2 := Snap();
      StepSpreads(h1, h2);
      StepWhites(h, h1);
      StepWhites(h1, h2);
      SpreadTrans(h, h1, h2);
      ShapeKept(h, h2, hash);
      BothMarked(h1, h2, [b.env], b.stack[..b.top], Vals(objs, o));
      objs := objs[o := objs[o].(b := b.(stack := b.stack[..b.top] + seq(|b.stack| - b.top, i => None)))];
      ClearAgain(h2, o, stage, A, hash, Snap());
      Traversed(h2, o, Snap());
      SpreadTrans(h, h2, Snap());
    }

    /** propagatemark */
    method PropagateMark(ghost stage: Stage, ghost A: set<Id>)
      requires Marking(Snap(), {}, stage, A) && Shape(Snap(), hash) && gray != []
      modifies `objs, `gray, `grayagain
      ensures Marking(Snap(), {}, stage, A) && Shape(Snap(), hash) && Spread(old(Snap()), Snap())
      ensures Work(Snap()) < old(Work(Snap()))
    {
      hide Marking, Covered, ObjsOk, StringsOk, UpvalsOk, RootOk, MarkStep, Whites, Spread;
      ghost var h := Snap();
      var o := gray[0];
      gray := gray[1..];
      ghost var h1 := Snap();
      PopGray(h, {}, stage, A, h1);
      assert {} + {o} == {o};
      ListSpreads(h, h1);
      ShapeKept(h, h1, hash) by { ObjsOkSame(h, h1); }
      if objs[o].b.Thread? {
        grayagain := [o] + grayagain;
        ghost var h2 := Snap();
        PushAgain(h1, o, {}, stage, A, h2);
        ListSpreads(h, h2);
        ShapeKept(h, h2, hash) by { ObjsOkSame(h, h2); }
        TraverseStack(o, stage, A);
        SpreadTrans(h, h2, Snap());
      } else {
        TraverseRefs(o, stage, A);
        SpreadTrans(h, h1, Snap());
      }
    }

    /** traversetable, traverseclosure, traverseproto: the object turns black and its references are marked. */
    method TraverseRefs(o: Id, ghost stage: Stage, ghost A: set<Id>)
      requires Marking(Snap(), {o}, stage, A) && Shape(Snap(), hash) && o in A
      requires o in objs && IsGray(objs[o].m) && o !in gray && o !in grayagain && Listed(objs[o].b)
      requires !objs[o].b.Thread?
      modifies `objs, `gray
      ensures Marking(Snap(), {}, stage, A) && Shape(Snap(), hash) && Spread(old(Snap()), Snap())
      ensures Work(Snap()) <= old(Work(Snap()))
    {
      hide Marking, Covered, ObjsOk, StringsOk, UpvalsOk, RootOk, MarkStep, Whites, Spread;
      ghost var h := Snap();
      RefsInA(h, {o}, stage, A, o);
      assert {} + {o} == {o};
      GrayToBlack(o, {}, stage, A);
      ghost var h1 := Snap();
      BlackSpreads(h, o, h1);
      MarkValues(objs[o].b.refs, {o}, stage, A);
      ghost var h2 := Snap();
      StepSpreads(h1, h2);
      StepWhites(h1, h2);
      StaysMarked(h1, h2, o);
      BlackCovered(h2, o, stage);
      Uncover(h2, o, {}, stage, A);
      ShapeKept(h, h2, hash);
      SpreadTrans(h, h1, h2);
    }

    /** propagateall */
    method PropagateAll(ghost stage: Stage, ghost A: set<Id>)
      requires Marking(Snap(), {}, stage, A) && Shape(Snap(), hash)
      modifies `objs, `gray, `grayagain
      ensures Marking(Snap(), {}, stage, A) && Shape(Snap(), hash) && Spread(old(Snap()), Snap()) && gray == []
    {
      hide Marking, Shape, Spread, Whites;
      ghost var h := Snap();
      ListSpreads(h, h);
      while gray != []
        invariant Marking(Snap(), {}, stage, A) && Shape(Snap(), hash) && Spread(h, Snap())
        decreases Work(Snap())
      {
        ghost var h1 := Snap();
        PropagateMark(stage, A);
        SpreadTrans(h, h1, Snap());
      }
    }

    // ----- the mark phase -----

    /** markmt */
    method MarkMt(ghost stage: Stage, ghost A: set<Id>)
      requires Marking(Snap(), {}, stage, A) && Shape(Snap(), hash)
      requires forall r :: r in mt && r.Some? ==> r.value in A
      modifies `objs, `gray
      ensures Marking(Snap(), {}, stage, A) && Shape(Snap(), hash) && Spread(old(Snap()), Snap())
      ensures forall r :: r in mt && r.Some? ==> Marked(objs, r.value)
    {
      hide Marking, ObjsOk, StringsOk, UpvalsOk, RootOk, MarkStep, Spread;
      ghost var h := Snap();
      MarkValues(mt, {}, stage, A);
      StepSpreads(h, Snap());
      ShapeKept(h, Snap(), hash);
    }

    /** markobject on a root */
    method MarkObjects(vs: seq<Ref>, ghost stage: Stage, ghost A: set<Id>)
      requires Marking(Snap(), {}, stage, A) && Shape(Snap(), hash)
      requires forall r :: r in vs && r.Some? ==> r.value in A
      modifies `objs, `gray
      ensures Marking(Snap(), {}, stage, A) && Shape(Snap(), hash) && Spread(old(Snap()), Snap())
      ensures forall r :: r in vs && r.Some? ==> Marked(objs, r.value)
    {
      hide Marking, ObjsOk, StringsOk, UpvalsOk, RootOk, MarkStep, Spread;
      ghost var h := Snap();
      MarkValues(vs, {}, stage, A);
      StepSpreads(h, Snap());
      ShapeKept(h, Snap(), hash);
    }

    /** markroot */
    method MarkRoot(ghost A: set<Id>)
      requires Shape(Snap(), hash) && AllClean(Snap()) && Scope(Snap().(gcstate := GCSpause), A)
      modifies `objs, `gray, `grayagain, `gcstate
      ensures Marking(Snap(), {}, Incremental, A) && Shape(Snap(), hash) && gcstate == GCSpropagate
      ensures Spread(old(Snap()), Snap().(gcstate := old(gcstate)))
      ensures Marked(objs, main) && Marked(objs, registry)
    {
      hide Marking, Shape, AllClean, Spread, Vals, Marked, Scope, ClosedSet;
      ghost var h := Snap();
      RootsIn(h.(gcstate := GCSpause), A, hash) by { StateShape(h, h.(gcstate := GCSpause), hash); }
      gray, grayagain := [], [];
      ghost var h1 := Snap();
      StartMarking(h, A, h1);
      ListSpreads(h, h1);
      ShapeLists(h, h1, hash);
      MarkRoots(A);
      ghost var h5 := Snap();
      SpreadTrans(h, h1, h5);
      gcstate := GCSpropagate;
      StateMarking(h5, Snap(), {}, Incremental, A);
      StateShape(h5, Snap(), hash);
    }

    method MarkRoots(ghost A: set<Id>)
      requires Marking(Snap(), {}, Incremental, A) && Shape(Snap(), hash)
      requires main in A && registry in A && (forall r :: r in mt && r.Some? ==> r.value in A)
      requires IsThread(objs, main) && (objs[main].b.env.Some? ==> objs[main].b.env.value in A)
      modifies `objs, `gray
      ensures Marking(Snap(), {}, Incremental, A) && Shape(Snap(), hash) && Spread(old(Snap()), Snap())
      ensures Marked(objs, main) && Marked(objs, registry)
    {
      hide Marking, Shape, AllClean, Spread, Vals, Marked;
      ghost var h1 := Snap();
      MarkObjects([Some(main)], Incremental, A);
      ghost var h2 := Snap();
      ThreadEnv(h1, h2, main, hash);
      MarkObjects([objs[main].b.env], Incremental, A);
      ghost var h3 := Snap();
      SpreadTrans(h1, h2, h3);
      MarkObjects([Some(registry)], Incremental, A);
      ghost var h4 := Snap();
      SpreadTrans(h1, h3, h4);
      MarkMt(Incremental, A);
      SpreadTrans(h1, h4, Snap());
      assert Some(main) in [Some(main)] && Some(registry) in [Some(registry)];
      SpreadMarks(h2, h3, h4, Snap(), main, registry);
    }

    /** remarkupvals: the values of marked open upvalues, whose stack slots have no barrier. */
    method RemarkUpvals(ghost A: set<Id>)
      requires Marking(Snap(), {}, Incremental, A) && Shape(Snap(), hash)
      modifies `objs, `gray
      ensures Marking(Snap(), {}, Remarked, A) && Shape(Snap(), hash) && Spread(old(Snap()), Snap())
    {
      hide Marking, Covered, ObjsOk, StringsOk, UpvalsOk, RootOk, MarkStep, Spread, From;
      ghost var h := Snap();
      BeginRemark(h, A);
      ListSpreads(h, h);
      var i := 0;
      while i < |uvhead|
        invariant 0 <= i <= |uvhead|
        invariant Marking(Snap(), From(uvhead, i), Remarked, A) && Shape(Snap(), hash) && Spread(h, Snap())
      {
        ghost var h1 := Snap();
        RemarkUpval(uvhead[i], From(uvhead, i), A);
        SpreadTrans(h, h1, Snap());
        DistinctUpvals(Snap(), hash);
        NextUpval(Snap(), i, A);
        i := i + 1;
      }
      assert From(uvhead, i) == {} by { FromEnd(uvhead); }
    }

    method RemarkUpval(u: Id, ghost E: set<Id>, ghost A: set<Id>)
      requires Marking(Snap(), E, Remarked, A) && Shape(Snap(), hash) && u in uvhead
      modifies `objs, `gray
      ensures Marking(Snap(), E, Remarked, A) && Shape(Snap(), hash) && Spread(old(Snap()), Snap())
      ensures u in objs && Covered(Snap(), u, Remarked)
    {
      hide Marking, ObjsOk, StringsOk, UpvalsOk, RootOk, MarkStep, Spread;
      ghost var h := Snap();
      OpenInHeap(h, u, hash);
      ListSpreads(h, h);
      if IsGray(objs[u].m) {
        MarkedInScope(h, E, Remarked, A, u);
        RefsInA(h, E, Remarked, A, u);
        MarkValues([SlotOf(objs, objs[u].b.th, objs[u].b.level)], E, Remarked, A);
        StepSpreads(h, Snap());
        SameVals(h.objs, objs, u);
        ShapeKept(h, Snap(), hash);
        OpenCovered(Snap(), u, Remarked);
      }
    }

    /** The marking done by the atomic step. */
    method AtomicMark(ghost A: set<Id>)
      requires Marking(Snap(), {}, Incremental, A) && Shape(Snap(), hash) && Scope(Snap(), A)
      requires Marked(objs, main) && Marked(objs, registry)
      modifies `objs, `gray, `grayagain
      ensures Marking(Snap(), {}, Last, A) && gray == [] && Shape(Snap(), hash) && Spread(old(Snap()), Snap())
      ensures forall r :: r in Roots(Snap()) && r.Some? ==> Marked(objs, r.value)
    {
      hide Marking, Shape, Spread, ClosedSet, Marked, Roots;
      ghost var h := Snap();
      RootsIn(h, A, hash);
      hide Scope;
      RemarkUpvals(A);
      ghost var h1 := Snap();
      PropagateAll(Remarked, A);
      ghost var h2 := Snap();
      SpreadTrans(h, h1, h2);
      MarkObjects([Some(running)], Remarked, A);
      ghost var h3 := Snap();
      SpreadTrans(h, h2, h3);
      MarkMt(Remarked, A);
      ghost var h4 := Snap();
      SpreadTrans(h, h3, h4);
      PropagateAll(Remarked, A);
      ghost var h5 := Snap();
      SpreadTrans(h, h4, h5);
      gray, grayagain := grayagain, [];
      ghost var h6 := Snap();
      BeginLast(h5, A, h6);
      ListSpreads(h5, h6);
      ShapeLists(h5, h6, hash);
      SpreadTrans(h, h5, h6);
      PropagateAll(Last, A);
      ghost var h7 := Snap();
      SpreadTrans(h, h6, h7);
      assert Some(running) in [Some(running)];
      RootsMarked(h, h3, h4, h5, h6, h7);
    }

    /** atomic, without weak tables and finalizers */
    method Atomic(ghost A: set<Id>)
      requires Marking(Snap(), {}, Incremental, A) && Shape(Snap(), hash) && Scope(Snap(), A)
      requires Marked(objs, main) && Marked(objs, registry)
      modifies `objs, `gray, `grayagain, `cw, `sweepstrgc, `sweepgc, `gcstate
      ensures Shape(Snap(), hash) && Safe(Snap()) && Phase(Snap()) && gcstate == GCSsweepstring
      ensures Spread(old(Snap()), Restored(Snap(), old(Snap())))
      ensures forall x :: Live(Snap(), x) ==> x in A
    {
      hide Marking, Shape, Spread, ClosedSet, Marked, Scope;
      AtomicMark(A);
      ghost var h7 := Snap();
      cw := !cw;
      sweepstrgc := 0;
      sweepgc := 0;
      gcstate := GCSsweepstring;
      Flip(h7, A, Snap());
      FlipShape(h7, Snap(), hash);
      AllInScope(h7, A);
      assert |strt| > 0 by { ShapeBuckets(Snap(), hash); }
    }

    // ----- sweeping -----

    /** sweepwholelist on a bucket of the string table */
    method SweepBucket(i: nat)
      requires Sound(Snap(), hash) && i < |strt|
      modifies `objs, `strt, `nuse
      ensures Sound(Snap(), hash) && Kept(Snap()) == old(Kept(Snap())) && SweepStep(old(Snap()), Snap())
      ensures OpenStep(old(Snap()), Snap())
      ensures |strt| == old(|strt|) && (forall k :: 0 <= k < |strt| && k != i ==> strt[k] == old(strt[k]))
      ensures forall x :: x in strt[i] ==> CleanId(Snap(), x)
    {
      hide Sound, Kept, SweepStep, OpenStep, CleanId;
      ghost var h0 := Snap();
      NoSweep(h0);
      OpenSelf(h0);
      var p := 0;
      while p < |strt[i]|
        invariant |strt| == old(|strt|) && 0 <= p <= |strt[i]|
        invariant Sound(Snap(), hash) && Kept(Snap()) == Kept(h0) && SweepStep(h0, Snap())
        invariant OpenStep(h0, Snap())
        invariant forall k :: 0 <= k < |strt| && k != i ==> strt[k] == old(strt[k])
        invariant forall j :: 0 <= j < p ==> CleanId(Snap(), strt[i][j])
        decreases |strt[i]| - p
      {
        ghost var h := Snap();
        p := SweepString(i, p);
        SweepTrans(h0, h, Snap());
        OpenTrans(h0, h, Snap());
      }
    }

    /** One turn of sweeplist's loop on a bucket. */
    method SweepString(i: nat, p0: nat) returns (p: nat)
      requires Sound(Snap(), hash) && i < |strt| && p0 < |strt[i]|
      requires forall j :: 0 <= j < p0 ==> CleanId(Snap(), strt[i][j])
      modifies `objs, `strt, `nuse
      ensures Sound(Snap(), hash) && Kept(Snap()) == old(Kept(Snap())) && SweepStep(old(Snap()), Snap())
      ensures OpenStep(old(Snap()), Snap())
      ensures |strt| == old(|strt|) && (forall k :: 0 <= k < |strt| && k != i ==> strt[k] == old(strt[k]))
      ensures p <= |strt[i]| && |strt[i]| - p < old(|strt[i]|) - p0
      ensures forall j :: 0 <= j < p ==> CleanId(Snap(), strt[i][j])
    {
      hide Sound, Kept, SweepStep, OpenStep, CleanId;
      ghost var h := Snap();
      InBucket(h, i, p0, hash);
      var curr := strt[i][p0];
      p := p0;
      if !IsDead(objs[curr].m, cw) || objs[curr].m.fixed {
        objs := objs[curr := objs[curr].(m := MakeWhite(objs[curr].m, cw))];
        WhitenSound(h, curr, hash);
        WhitenOpen(h, curr);
        p := p0 + 1;
      } else {
        strt := strt[i := RemoveAt(strt[i], p0)];
        objs := objs - {curr};
        nuse := nuse - 1;
        FreeStrSound(h, i, p0, hash);
        FreeOpen(h, curr, Snap());
      }
      forall j | 0 <= j < p0 ensures CleanId(Snap(), strt[i][j]) { CleanKept(h, Snap(), strt[i][j]); }
    }

    /** sweepwholelist on the open upvalues of a thread */
    method SweepOpen(th: Id)
      requires Sound(Snap(), hash) && IsThread(objs, th)
      modifies `objs, `uvhead
      ensures Sound(Snap(), hash) && Kept(Snap()) == old(Kept(Snap())) && SweepStep(old(Snap()), Snap())
      ensures OpenStep(old(Snap()), Snap())
      ensures IsThread(objs, th) && objs[th].m == old(objs[th].m) && |uvhead| <= old(|uvhead|)
      ensures forall u :: u in objs[th].b.open ==> CleanId(Snap(), u)
    {
      hide Sound, Kept, SweepStep, OpenStep, CleanId;
      ghost var h0 := Snap();
      NoSweep(h0);
      OpenSelf(h0);
      var p := 0;
      while p < |objs[th].b.open|
        invariant IsThread(objs, th) && 0 <= p <= |objs[th].b.open| && objs[th].m == old(objs[th].m)
        invariant |uvhead| <= old(|uvhead|)
        invariant Sound(Snap(), hash) && Kept(Snap()) == Kept(h0) && SweepStep(h0, Snap())
        invariant OpenStep(h0, Snap())
        invariant forall j :: 0 <= j < p ==> CleanId(Snap(), objs[th].b.open[j])
        decreases |objs[th].b.open| - p
      {
        ghost var h := Snap();
        InOpen(h, th, p, hash);
        var u := objs[th].b.open[p];
        if !IsDead(objs[u].m, cw) || objs[u].m.fixed {
          objs := objs[u := objs[u].(m := MakeWhite(objs[u].m, cw))];
          WhitenSound(h, u, hash);
          WhitenOpen(h, u);
          p := p + 1;
        } else {
          objs := SetBody(objs, th, Unlinked(objs[th].b, p)) - {u};
          uvhead := Without(uvhead, u);
          FreeUvSound(h, th, p, hash);
          FreeUvOpen(h, th, p);
        }
        SweepTrans(h0, h, Snap());
        OpenTrans(h0, h, Snap());
        forall j | 0 <= j < p ensures CleanId(Snap(), objs[th].b.open[j]) {
          CleanKept(h, Snap(), objs[th].b.open[j]);
        }
      }
    }

    /** The first open upvalue of th leaves the thread with its own copy of the value. */
    method CloseHead(th: Id) returns (u: Id)
      requires IsThread(objs, th) && objs[th].b.open != []
      requires objs[th].b.open[0] in objs && objs[objs[th].b.open[0]].b.Open?
      requires objs[objs[th].b.open[0]].b.th == th && objs[th].b.open[0] != th
      modifies `objs, `uvhead, `rootgc, `sweepgc
      ensures u == old(objs[th].b.open[0]) && Snap() == CloseUv(old(Snap()), th, 0)
    {
      u := objs[th].b.open[0];
      var v := SlotOf(objs, th, objs[u].b.level);
      objs := SetBody(objs, th, Unlinked(objs[th].b, 0));
      uvhead := Without(uvhead, u);
      objs := SetBody(objs, u, Closed(v));
      rootgc := [u] + rootgc;
      sweepgc := if sweepgc == 0 then 0 else sweepgc + 1;
    }

    /** luaE_freethread closes the upvalues that the sweep has left open. */
    method CloseAll(th: Id) returns (k: nat)
      requires Sound(Snap(), hash) && IsThread(objs, th) && (forall u :: u in objs[th].b.open ==> CleanId(Snap(), u))
      requires Doomed(Snap(), th)
      modifies `objs, `uvhead, `rootgc, `sweepgc
      ensures Sound(Snap(), hash) && Kept(Snap()) == old(Kept(Snap())) && SweepStep(old(Snap()), Snap())
      ensures OpenStep(old(Snap()), Snap())
      ensures IsThread(objs, th) && objs[th].m == old(objs[th].m) && objs[th].b.open == []
      ensures |rootgc| == old(|rootgc|) + k && rootgc[k..] == old(rootgc) && |uvhead| + k == old(|uvhead|)
      ensures sweepgc == if old(sweepgc) == 0 then 0 else old(sweepgc) + k
      ensures forall j :: 0 <= j < k ==> SweptObj(Snap(), rootgc[j])
    {
      hide Sound, Kept, SweepStep, OpenStep, CleanId, SweptObj;
      ghost var h0 := Snap();
      NoSweep(h0);
      OpenSelf(h0);
      k := 0;
      while objs[th].b.open != []
        invariant IsThread(objs, th) && objs[th].m == old(objs[th].m)
        invariant Sound(Snap(), hash) && Kept(Snap()) == Kept(h0) && SweepStep(h0, Snap())
        invariant OpenStep(h0, Snap())
        invariant |rootgc| == old(|rootgc|) + k && rootgc[k..] == old(rootgc) && |uvhead| + k == old(|uvhead|)
        invariant sweepgc == if old(sweepgc) == 0 then 0 else old(sweepgc) + k
        invariant forall j :: 0 <= j < k ==> SweptObj(Snap(), rootgc[j])
        invariant forall u :: u in objs[th].b.open ==> CleanId(Snap(), u)
        decreases |objs[th].b.open|
      {
        ghost var h := Snap();
        CloseFirst(th, k);
        SweepTrans(h0, h, Snap());
        OpenTrans(h0, h, Snap());
        k := k + 1;
      }
    }

    /** One of them; those closed before are at the head of rootgc. */
    method CloseFirst(th: Id, ghost k: nat)
      requires Sound(Snap(), hash) && IsThread(objs, th) && (forall u :: u in objs[th].b.open ==> CleanId(Snap(), u))
      requires Doomed(Snap(), th) && objs[th].b.open != [] && k <= |rootgc|
      requires forall j :: 0 <= j < k ==> SweptObj(Snap(), rootgc[j])
      modifies `objs, `uvhead, `rootgc, `sweepgc
      ensures Sound(Snap(), hash) && Kept(Snap()) == old(Kept(Snap())) && SweepStep(old(Snap()), Snap())
      ensures OpenStep(old(Snap()), Snap())
      ensures IsThread(objs, th) && objs[th].m == old(objs[th].m) && |objs[th].b.open| < |old(objs[th].b.open)|
      ensures |rootgc| == old(|rootgc|) + 1 && rootgc[1..] == old(rootgc) && |uvhead| + 1 == old(|uvhead|)
      ensures sweepgc == if old(sweepgc) == 0 then 0 else old(sweepgc) + 1
      ensures forall j :: 0 <= j < k + 1 ==> SweptObj(Snap(), rootgc[j])
      ensures forall u :: u in objs[th].b.open ==> CleanId(Snap(), u)
    {
      hide Sound, Kept, SweepStep, OpenStep, CleanId, SweptObj;
      ghost var h := Snap();
      CloseUvSound(h, th, 0, hash);
      InOpen(h, th, 0, hash);
      CloseUvOpen(h, th, 0);
      var u := CloseHead(th);
      assert u in h.objs[th].b.open;
      ClosedSwept(h, th, 0);
      forall j | 1 <= j < k + 1 ensures SweptObj(Snap(), rootgc[j]) { StaysSwept(h, Snap(), h.rootgc[j - 1]); }
      forall w | w in objs[th].b.open ensures CleanId(Snap(), w) { CleanKept(h, Snap(), w); }
    }

    /** One turn of sweeplist's loop on rootgc. */
    method SweepOne()
      requires Sweeping(Snap(), hash) && sweepgc < |rootgc|
      modifies `objs, `uvhead, `rootgc, `sweepgc
      ensures Sweeping(Snap(), hash) && Kept(Snap()) == old(Kept(Snap())) && SweepStep(old(Snap()), Snap())
      ensures OpenStep(old(Snap()), Snap())
      ensures Left(Snap()) < old(Left(Snap()))
    {
      hide Sound, Kept, SweepStep, OpenStep, CleanId, SweptObj, SweptRoot;
      ghost var h0 := Snap();
      NoSweep(h0);
      OpenSelf(h0);
      InRoot(h0, sweepgc, hash);
      var curr := rootgc[sweepgc];
      if objs[curr].b.Thread? {
        SweepOpen(curr);
      }
      ghost var h := Snap();
      StringsStayClean(h0, h);
      PrefixSwept(h0, h, 0);
      if !IsDead(objs[curr].m, cw) || objs[curr].m.fixed {
        Survive(curr);
      } else {
        FreeCurrent(curr);
      }
      SweepTrans(h0, h, Snap());
      OpenTrans(h0, h, Snap());
    }

    /** The current object survives: white again, for the next cycle. */
    method Survive(curr: Id)
      requires Sweeping(Snap(), hash) && sweepgc < |rootgc| && curr == rootgc[sweepgc] && curr in objs
      requires !IsDead(objs[curr].m, cw) || objs[curr].m.fixed
      requires IsThread(objs, curr) ==> forall u :: u in objs[curr].b.open ==> CleanId(Snap(), u)
      modifies `objs, `sweepgc
      ensures Sweeping(Snap(), hash) && Kept(Snap()) == old(Kept(Snap())) && SweepStep(old(Snap()), Snap())
      ensures OpenStep(old(Snap()), Snap())
      ensures Left(Snap()) < old(Left(Snap()))
    {
      hide Sweeping, Kept, SweepStep, OpenStep, CleanId, Left;
      ghost var h := Snap();
      objs := objs[curr := objs[curr].(m := MakeWhite(objs[curr].m, cw))];
      sweepgc := sweepgc + 1;
      SurviveStep(h, curr, hash);
      WhitenOpen(h, curr);
      OpenMoved(h, Whiten(h, curr), Snap());
    }

    /** The current object is freed; a thread closes its upvalues first. */
    method FreeCurrent(curr: Id)
      requires Sweeping(Snap(), hash) && sweepgc < |rootgc| && curr == rootgc[sweepgc] && curr in objs
      requires IsDead(objs[curr].m, cw) && !objs[curr].m.fixed
      requires IsThread(objs, curr) ==> forall u :: u in objs[curr].b.open ==> CleanId(Snap(), u)
      modifies `objs, `uvhead, `rootgc, `sweepgc
      ensures Sweeping(Snap(), hash) && Kept(Snap()) == old(Kept(Snap())) && SweepStep(old(Snap()), Snap())
      ensures OpenStep(old(Snap()), Snap())
      ensures Left(Snap()) < old(Left(Snap()))
    {
      hide Sound, Kept, SweptRoot, SweepStep, OpenStep, CleanId, SweptObj;
      ghost var h := Snap();
      NoSweep(h);
      OpenSelf(h);
      var k := 0;
      if objs[curr].b.Thread? {
        k := CloseAll(curr);
      }
      ghost var h1 := Snap();
      var i := if sweepgc == 0 then k else sweepgc;
      assert rootgc[k..][i - k] == rootgc[i] == curr;
      rootgc := RemoveAt(rootgc, i);
      objs := objs - {curr};
      FreeRootSound(h1, i, hash);
      FreeOpen(h1, curr, Snap());
      ghost var h2 := Snap();
      SweepTrans(h, h1, h2);
      OpenTrans(h, h1, h2);
      StringsStayClean(h, h2);
      AfterFree(h, h1, k, h2, i);
    }

    /** sweeplist on rootgc, at most `count` objects */
    method SweepRoot(count: nat)
      requires Sweeping(Snap(), hash)
      modifies `objs, `uvhead, `rootgc, `sweepgc
      ensures Sweeping(Snap(), hash) && Kept(Snap()) == old(Kept(Snap())) && SweepStep(old(Snap()), Snap())
      ensures OpenStep(old(Snap()), Snap())
      ensures Left(Snap()) <= old(Left(Snap()))
      ensures (count > 0 && old(sweepgc < |rootgc|) ==> Left(Snap()) < old(Left(Snap())))
      ensures old(sweepgc >= |rootgc|) ==> Snap() == old(Snap())
    {
      hide Sweeping, Kept, SweepStep, OpenStep, Left;
      ghost var h0 := Snap();
      NoSweep(h0);
      OpenSelf(h0);
      var n := 0;
      while n < count && sweepgc < |rootgc|
        invariant Sweeping(Snap(), hash) && Kept(Snap()) == Kept(h0) && SweepStep(h0, Snap())
        invariant OpenStep(h0, Snap())
        invariant Left(Snap()) <= Left(h0) && (n > 0 ==> Left(Snap()) < Left(h0) && h0.sweepgc < |h0.rootgc|)
        invariant (n == 0 ==> Snap() == h0)
      {
        ghost var h := Snap();
        SweepOne();
        SweepTrans(h0, h, Snap());
        OpenTrans(h0, h, Snap());
        n := n + 1;
      }
    }

    // ----- singlestep -----

    /** GCSpause: start a new collection. */
    method StepPause(ghost A: set<Id>)
      requires Shape(Snap(), hash) && Safe(Snap()) && AllClean(Snap()) && Scope(Snap().(gcstate := GCSpause), A)
      modifies `objs, `gray, `grayagain, `gcstate
      ensures Inv(Snap(), hash) && gcstate == GCSpropagate && Scope(Snap(), A) && SameHeap(old(Snap()), Snap())
    {
      hide Shape, Safe, Marking, Spread, AllClean, Scope, SameHeap;
      ghost var h := Snap();
      MarkRoot(A);
      ghost var h1 := Snap().(gcstate := h.gcstate);
      SpreadSame(h, h1, Snap());
      CleanNoDead(h);
      MarkingNoDead(Snap(), {}, Incremental, A);
      SpreadSafe(h, h1);
      SafeState(h1, Snap());
      Propagating(Snap(), A, hash);
      ScopeKept(h.(gcstate := GCSpause), Snap(), A) by { SameHeapState(h, Snap()); }
    }

    /** GCSpropagate: visit one gray object, or finish the mark phase. */
    method StepPropagate(ghost A: set<Id>)
      requires Inv(Snap(), hash) && gcstate == GCSpropagate && Scope(Snap(), A)
      modifies `objs, `gray, `grayagain, `cw, `sweepstrgc, `sweepgc, `gcstate
      ensures Inv(Snap(), hash) && SameHeap(old(Snap()), Snap())
      ensures if gcstate == GCSpropagate then Scope(Snap(), A) && Work(Snap()) < old(Work(Snap())) && Snap() == old(Snap()).(objs := objs, gray := gray, grayagain := grayagain)
              else gcstate == GCSsweepstring && forall x :: Live(Snap(), x) ==> x in A
    {
      hide Shape, Safe, Marking, Spread, Scope, SameHeap, Marked;
      ghost var h := Snap();
      InScope(h, A, hash);
      if gray != [] {
        PropagateMark(Incremental, A);
        SpreadSame(h, Snap(), Snap());
        MarkingNoDead(h, {}, Incremental, A);
        MarkingNoDead(Snap(), {}, Incremental, A);
        SpreadSafe(h, Snap());
        StaysMarkedAll(h, Snap());
        Propagating(Snap(), A, hash);
        ScopeKept(h, Snap(), A);
      } else {
        Atomic(A);
        SpreadSame(h, Restored(Snap(), h), Snap());
      }
    }

    /** GCSsweepstring: sweep one bucket. */
    method StepSweepString()
      requires Inv(Snap(), hash) && gcstate == GCSsweepstring
      modifies `objs, `strt, `nuse, `sweepstrgc, `gcstate
      ensures Inv(Snap(), hash) && Survivors(old(Snap()), Snap()) && Kept(Snap()) == old(Kept(Snap()))
      ensures |strt| == old(|strt|)
      ensures gcstate == GCSsweepstring || gcstate == GCSsweep
      ensures gcstate == GCSsweepstring ==> sweepstrgc == old(sweepstrgc) + 1 < |strt|
    {
      hide Shape, Safe, Kept, SweepStep, OpenStep, CleanId, Survivors;
      ghost var h := Snap();
      SweepBucket(sweepstrgc);
      ghost var h1 := Snap();
      BucketsSwept(h, h1);
      sweepstrgc := sweepstrgc + 1;
      if sweepstrgc >= |strt| {
        gcstate := GCSsweep;
        StringsClean(h1, hash);
      }
      SoundState(h1, Snap(), hash);
      KindsSame(h1, Snap());
      SweptNone(Snap());
      SweepSurvivors(h, h1, Snap());
    }

    /** checkSizes, for the string table */
    method CheckSizes()
      requires Inv(Snap(), hash)
      modifies `strt
      ensures Inv(Snap(), hash) && Snap() == old(Snap()).(strt := strt)
    {
      if nuse < |strt| / 4 && |strt| > MINSTRTABSIZE * 2 {
        Resize(|strt| / 2);
      }
    }

    /** GCSsweep: sweep up to GCSWEEPMAX objects. */
    method StepSweep()
      requires Inv(Snap(), hash) && gcstate == GCSsweep
      modifies `objs, `strt, `uvhead, `rootgc, `sweepgc, `gcstate
      ensures Inv(Snap(), hash) && Survivors(old(Snap()), Snap()) && Kept(Snap()) == old(Kept(Snap()))
      ensures gcstate == GCSsweep || gcstate == GCSfinalize
      ensures gcstate == GCSsweep ==> Left(Snap()) < old(Left(Snap())) && 0 <= Left(Snap())
    {
      hide Shape, Safe, Kept, SweepStep, OpenStep, CleanId, Survivors, SweptRoot, AllClean;
      ghost var h := Snap();
      SweepRoot(GCSWEEPMAX);
      ghost var h1 := Snap();
      if sweepgc == |rootgc| {
        AllSwept(h1, hash);
        CheckSizes();
        gcstate := GCSfinalize;
        EndSweep(h1, Snap(), hash);
      }
      SweepSurvivors(h, h1, Snap());
    }

    /** GCSfinalize, with no finalizers pending: end collection. */
    method StepFinalize()
      requires Inv(Snap(), hash) && gcstate == GCSfinalize
      modifies `gcstate
      ensures Inv(Snap(), hash) && Snap() == old(Snap()).(gcstate := GCSpause)
    {
      hide Shape, Safe, AllClean;
      ghost var h := Snap();
      gcstate := GCSpause;
      SoundState(h, Snap(), hash);
      CleanSame(h, Snap());
    }

    /** singlestep: whatever the phase, the invariant is kept, the roots and the references
        of what is left do not change, and only dead objects are freed. */
    method SingleStep(ghost A: set<Id>)
      requires Inv(Snap(), hash) && (gcstate == GCSpause || gcstate == GCSpropagate ==> Scope(Snap(), A))
      modifies this
      ensures Inv(Snap(), hash) && StepResult(old(Snap()), Snap(), A)
      ensures Same(old(Snap()), Snap()) && OnlyDeadFreed(old(Snap()), Snap())
      ensures next == old(next)
    {
      hide Shape, Safe, SameHeap, Survivors, Kept, Scope, Work, Left, Same, OnlyDeadFreed;
      ghost var h := Snap();
      match gcstate {
        case GCSpause => StepPause(A);
        case GCSpropagate => StepPropagate(A);
        case GCSsweepstring => StepSweepString();
        case GCSsweep => StepSweep();
        case GCSfinalize => StepFinalize();
      }
      StepFrees(h, Snap(), A);
    }

    /** luaC_fullgc's first half: drop an unfinished mark phase, finish a pending sweep. */
    method FinishSweep()
      requires Inv(Snap(), hash)
      modifies this
      ensures Inv(Snap(), hash) && gcstate == GCSfinalize
      ensures Reachable(Snap()) == old(Reachable(Snap())) && Fixed(Snap()) == old(Fixed(Snap()))
      ensures objs.Keys == old(Kept(Snap()))
      ensures old(gcstate == GCSpause || gcstate == GCSpropagate) ==> objs.Keys == old(objs.Keys)
      ensures next == old(next) && Survivors(old(Snap()), Snap())
    {
      hide Shape, Safe, Kept, Survivors, SameHeap, Same, Phase, Reach, Reachable, Fixed, StepResult;
      ghost var h0 := Snap();
      if gcstate == GCSpause || gcstate == GCSpropagate {
        sweepstrgc, sweepgc := 0, 0;
        gray, grayagain := [], [];
        gcstate := GCSsweepstring;
        Aborted(h0, Snap(), hash);
      }
      SameObjs(h0, Snap());
      while gcstate != GCSfinalize
        invariant Inv(Snap(), hash) && gcstate != GCSpause && gcstate != GCSpropagate
        invariant Reachable(Snap()) == Reachable(h0) && Fixed(Snap()) == Fixed(h0) && Kept(Snap()) == Kept(h0)
        invariant next == h0.next
        invariant Survivors(h0, Snap())
        decreases Rank(gcstate), Rest(Snap())
      {
        ghost var h := Snap();
        StillReached(h0, h, hash);
        SingleStep({});
        ReachableKept(h, Snap());
        SameSurvivors(h0, h, Snap());
        RestPositive(h, hash);
        Progress(h, Snap(), {});
        SweepKeeps(h, Snap(), {});
      }
      CleanKeeps(Snap()) by { FinalClean(Snap(), hash); }
    }

    /** luaC_fullgc: whatever the phase it starts in, exactly the reachable and the fixed objects are left. */
    method FullGC()
      requires Inv(Snap(), hash)
      modifies this
      ensures Inv(Snap(), hash) && gcstate == GCSpause
      ensures objs.Keys == old(Reachable(Snap()) + Fixed(Snap()))
      ensures Reachable(Snap()) == old(Reachable(Snap())) && Fixed(Snap()) == old(Fixed(Snap()))
      ensures next == old(next) && Survivors(old(Snap()), Snap())
    {
      hide Shape, Safe, Kept, Survivors, SameHeap, Same, Phase, Reach, Reachable, Fixed, StepResult, Scope, LiveIn,
        AllClean;
      ghost var h0 := Snap();
      FinishSweep();
      ghost var A := Reachable(Snap());
      ghost var h1 := Snap();
      ReachScope(h1);
      FinalClean(h1, hash);
      StepPause(A) by { PauseForm(h1, A); }
      Restarted(h0, h1, Snap());
      RestartSame(h1, Snap());
      StillReached(h0, Snap(), hash);
      ghost var h2 := Snap();
      RunCycle(A);
      SameSurvivors(h0, h2, Snap());
    }

    /** A cycle that has begun, left alone, comes to its end, and leaves exactly the reachable and the fixed objects. */
    method RunCycle(ghost A: set<Id>)
      requires Inv(Snap(), hash) && gcstate == GCSpropagate && A == Reachable(Snap()) && Scope(Snap(), A)
      modifies this
      ensures Inv(Snap(), hash) && gcstate == GCSpause
      ensures objs.Keys == A + old(Fixed(Snap())) && Reachable(Snap()) == A && Fixed(Snap()) == old(Fixed(Snap()))
      ensures next == old(next) && Survivors(old(Snap()), Snap()) && Same(old(Snap()), Snap())
    {
      hide Shape, Safe, Kept, Survivors, SameHeap, Phase, Reach, Reachable, Fixed, StepResult, Scope, LiveIn, AllClean;
      ghost var h0 := Snap();
      SameObjs(h0, Snap());
      while gcstate != GCSpause
        invariant Inv(Snap(), hash) && Reachable(Snap()) == A && Fixed(Snap()) == Fixed(h0) && next == h0.next
        invariant Survivors(h0, Snap())
        invariant gcstate == GCSpropagate ==> Scope(Snap(), A)
        invariant gcstate != GCSpropagate ==> Kept(Snap()) == A + Fixed(h0)
        decreases Rank(gcstate), Rest(Snap())
      {
        ghost var h := Snap();
        StillReached(h0, h, hash);
        SingleStep(A);
        ReachableKept(h, Snap());
        SameSurvivors(h0, h, Snap());
        RestPositive(h, hash);
        Progress(h, Snap(), A);
        CycleKeeps(h, Snap(), A);
      }
      CleanKeeps(Snap()) by { FinalClean(Snap(), hash); }
    }

    /** lua_gc(LUA_GCSTEP), asked to finish: from GCSpause, steps until the cycle is over do what a full collection does. */
    method WholeCycle()
      requires Inv(Snap(), hash) && gcstate == GCSpause
      modifies this
      ensures Inv(Snap(), hash) && gcstate == GCSpause
      ensures objs.Keys == old(Reachable(Snap()) + Fixed(Snap()))
      ensures Reachable(Snap()) == old(Reachable(Snap())) && Fixed(Snap()) == old(Fixed(Snap()))
    {
      hide Shape, Safe, Kept, Survivors, SameHeap, Same, Phase, Reach, Reachable, Fixed, Scope, LiveIn, AllClean;
      ghost var h0 := Snap();
      ghost var A := Reachable(h0);
      SafeOf(h0, hash);
      ReachScope(h0);
      SingleStep(A);
      ReachableKept(h0, Snap());
      RunCycle(A);
    }

    // ----- what the program does between steps -----

    /** A new object, in the current white, becomes the i-th of rootgc. */
    method LinkAt(b: Body, i: nat) returns (x: Id)
      requires Inv(Snap(), hash) && Rooted(b) && NewBody(Snap(), b) && i <= |rootgc|
      modifies `objs, `next, `rootgc, `sweepgc
      ensures Inv(Snap(), hash) && x == old(next) && Snap() == AddRoot(old(Snap()), b, i) && Live(Snap(), x)
      ensures forall y :: old(Live(Snap(), y)) ==> Live(Snap(), y)
    {
      hide Inv;
      AddRootInv(Snap(), b, i, hash);
      x := next;
      objs := objs[x := Obj(NewMark(cw), b)];
      next := next + 1;
      rootgc := InsertAt(rootgc, i, x);
      sweepgc := if sweepgc > i then sweepgc + 1 else sweepgc;
    }

    /** luaC_link: a new object at the head of rootgc. */
    method Link(b: Body) returns (x: Id)
      requires Inv(Snap(), hash) && Rooted(b) && NewBody(Snap(), b)
      modifies `objs, `next, `rootgc, `sweepgc
      ensures Inv(Snap(), hash) && x == old(next) && Snap() == AddRoot(old(Snap()), b, 0) && Live(Snap(), x)
      ensures forall y :: old(Live(Snap(), y)) ==> Live(Snap(), y)
    {
      hide Inv, NewBody;
      x := LinkAt(b, 0);
    }

    /** luaS_newudata: userdata are chained after the main thread. */
    method NewUdata(refs: seq<Ref>) returns (x: Id)
      requires Inv(Snap(), hash) && NewBody(Snap(), Udata(refs))
      modifies `objs, `next, `rootgc, `sweepgc
      ensures Inv(Snap(), hash) && x == old(next) && objs == old(Add(Snap(), Udata(refs)).objs) && Live(Snap(), x)
      ensures next == old(next) + 1
      ensures forall y :: old(Live(Snap(), y)) ==> Live(Snap(), y)
      ensures exists i: nat :: i < old(|rootgc|) && old(rootgc)[i] == main && rootgc == InsertAt(old(rootgc), i + 1, x)
    {
      MainLinked(Snap(), hash);
      hide Inv, NewBody;
      ghost var s := rootgc;
      var i: nat :| i < |rootgc| && rootgc[i] == main;
      x := LinkAt(Udata(refs), i + 1);
      assert i < |s| && s[i] == main && rootgc == InsertAt(s, i + 1, x);
    }

    /** Storing v in the object o, with its barrier: luaC_barriert for tables, luaC_barrier for the others. */
    method Store(o: Id, b: Body, v: Ref)
      requires Inv(Snap(), hash) && WriteOk(Snap(), o, b, v)
      modifies `objs, `gray, `grayagain
      ensures Inv(Snap(), hash) && SameBodies(SetBody(old(objs), o, b), objs)
      ensures forall x :: old(Live(Snap(), x)) ==> Live(Snap(), x)
      ensures MarksWithin(old(Snap()), Snap(), Target(v)) && SameFixed(old(Snap()), Snap())
      ensures forall x :: Live(Snap(), x) ==> old(Live(Snap(), x))
    {
      if v.Some? && IsWhite(objs[v.value].m) && objs[o].m.black {
        if b.Table? {
          StoreBack(o, b, v);
        } else {
          StoreForward(o, b, v);
        }
      } else {
        StorePlain(o, b, v);
      }
    }

    method StorePlain(o: Id, b: Body, v: Ref)
      requires Inv(Snap(), hash) && WriteOk(Snap(), o, b, v)
      requires objs[o].m.black && v.Some? ==> !IsWhite(objs[v.value].m)
      modifies `objs
      ensures Inv(Snap(), hash) && SameBodies(SetBody(old(objs), o, b), objs)
      ensures forall x :: old(Live(Snap(), x)) ==> Live(Snap(), x)
      ensures MarksWithin(old(Snap()), Snap(), Target(v)) && SameFixed(old(Snap()), Snap())
      ensures forall x :: Live(Snap(), x) ==> old(Live(Snap(), x))
    {
      hide Shape, Safe, Marking, Covered, MarksWithin;
      ghost var h := Snap();
      objs := SetBody(objs, o, b);
      NoMarks(h, Snap(), Target(v));
      WriteShape(h, o, b, v, hash);
      WriteSafe(h, o, b, v);
      if gcstate == GCSpropagate {
        WriteMarking(h, o, b, v);
        BlackUnlisted(h, o);
        NoBarrier(h, o, b, v);
        assert {} + {o} == {o};
        Uncover(Snap(), o, {}, Incremental, objs.Keys);
        StoreMarked(h, Snap(), hash);
      } else {
        StorePhase(h, o, b, v, Snap());
      }
    }

    /** A white object stored in a black table: luaC_barrierback. */
    method StoreBack(o: Id, b: Body, v: Ref)
      requires Inv(Snap(), hash) && WriteOk(Snap(), o, b, v) && b.Table? && objs[o].m.black
      modifies `objs, `grayagain
      ensures Inv(Snap(), hash) && SameBodies(SetBody(old(objs), o, b), objs)
      ensures forall x :: old(Live(Snap(), x)) ==> Live(Snap(), x)
      ensures MarksWithin(old(Snap()), Snap(), Target(v)) && SameFixed(old(Snap()), Snap())
      ensures forall x :: Live(Snap(), x) ==> old(Live(Snap(), x))
    {
      hide Shape, Safe, Marking, Covered, MarksWithin;
      ghost var h := Snap();
      objs := SetBody(objs, o, b);
      ghost var h1 := Snap();
      WriteShape(h, o, b, v, hash);
      WriteSafe(h, o, b, v);
      BlackPhase(h, o);
      BarrierBack(o);
      NoMarks(h, Snap(), Target(v));
      GrayShape(h1, o, hash);
      GraySafe(h1, o);
      if gcstate == GCSpropagate {
        WriteMarking(h, o, b, v);
        RegrayMarking(h1, o, h1.objs.Keys);
        assert objs.Keys == h1.objs.Keys;
        StoreMarked(h, Snap(), hash);
      } else {
        StorePhase(h, o, b, v, Snap());
      }
    }

    /** luaC_barrierback */
    method BarrierBack(o: Id)
      requires o in objs && objs[o].b.Table? && objs[o].m.black && gcstate != GCSfinalize && gcstate != GCSpause
      modifies `objs, `grayagain
      ensures Snap() == Regray(old(Snap()), o)
    {
      objs := objs[o := objs[o].(m := objs[o].m.(black := false))];
      grayagain := [o] + grayagain;
    }

    /** A white object stored in a black object that is not a table: luaC_barrierf. */
    method StoreForward(o: Id, b: Body, v: Ref)
      requires Inv(Snap(), hash) && WriteOk(Snap(), o, b, v) && !b.Table? && objs[o].m.black && v.Some?
      requires IsWhite(objs[v.value].m)
      modifies `objs, `gray
      ensures Inv(Snap(), hash) && SameBodies(SetBody(old(objs), o, b), objs)
      ensures forall x :: old(Live(Snap(), x)) ==> Live(Snap(), x)
      ensures MarksWithin(old(Snap()), Snap(), Target(v)) && SameFixed(old(Snap()), Snap())
      ensures forall x :: Live(Snap(), x) ==> old(Live(Snap(), x))
    {
      hide Inv, WriteOk, MarksWithin;
      if gcstate == GCSpropagate {
        ForwardMark(o, b, v);
      } else {
        ForwardWhite(o, b, v);
      }
    }

    /** In a mark phase the barrier marks the value. */
    method ForwardMark(o: Id, b: Body, v: Ref)
      requires Inv(Snap(), hash) && WriteOk(Snap(), o, b, v) && !b.Table? && objs[o].m.black && v.Some?
      requires IsWhite(objs[v.value].m)
      requires gcstate == GCSpropagate
      modifies `objs, `gray
      ensures Inv(Snap(), hash) && SameBodies(SetBody(old(objs), o, b), objs)
      ensures forall x :: old(Live(Snap(), x)) ==> Live(Snap(), x)
      ensures MarksWithin(old(Snap()), Snap(), Target(v)) && SameFixed(old(Snap()), Snap())
      ensures forall x :: Live(Snap(), x) ==> old(Live(Snap(), x))
    {
      hide Shape, Safe, Marking, Covered, MarkStep, MarksWithin;
      ghost var h := Snap();
      objs := SetBody(objs, o, b);
      ghost var h1 := Snap();
      WriteShape(h, o, b, v, hash);
      WriteSafe(h, o, b, v);
      WriteMarking(h, o, b, v);
      BlackUnlisted(h, o);
      ReallyMarkHere(v.value, {o});
      MarksAfter(h, o, b, v, h1, Snap());
      ForwardDone(h, o, b, v, Snap());
      assert {} + {o} == {o};
      Uncover(Snap(), o, {}, Incremental, objs.Keys);
      ForwardMarks(h, o, b, h1, Snap());
      StoreMarked(h, Snap(), hash);
    }

    /** In a sweep the barrier makes the object white, so that it needs no more barriers. */
    method ForwardWhite(o: Id, b: Body, v: Ref)
      requires Inv(Snap(), hash) && WriteOk(Snap(), o, b, v) && !b.Table? && objs[o].m.black && v.Some?
      requires IsWhite(objs[v.value].m)
      requires gcstate != GCSpropagate
      modifies `objs, `gray
      ensures Inv(Snap(), hash) && SameBodies(SetBody(old(objs), o, b), objs)
      ensures forall x :: old(Live(Snap(), x)) ==> Live(Snap(), x)
      ensures MarksWithin(old(Snap()), Snap(), Target(v)) && SameFixed(old(Snap()), Snap())
      ensures forall x :: Live(Snap(), x) ==> old(Live(Snap(), x))
    {
      hide Shape, Safe, Marking, Covered, MarksWithin;
      ghost var h := Snap();
      objs := SetBody(objs, o, b);
      ghost var h1 := Snap();
      WriteShape(h, o, b, v, hash);
      WriteSafe(h, o, b, v);
      BlackPhase(h, o);
      objs := objs[o := objs[o].(m := MakeWhite(objs[o].m, cw))];
      NoMarks(h, Snap(), Target(v));
      WhitenShape(h1, o, hash);
      WhitenSafe(h1, o);
      StorePhase(h, o, b, v, Snap());
    }

    /** reallymarkobject from outside a collector step */
    method ReallyMarkHere(v: Id, ghost E: set<Id>)
      requires Marking(Snap(), E, Incremental, objs.Keys) && Shape(Snap(), hash) && Safe(Snap()) && v in objs
      requires IsWhite(objs[v].m) && !IsDead(objs[v].m, cw)
      modifies `objs, `gray
      ensures Marking(Snap(), E, Incremental, objs.Keys) && Shape(Snap(), hash) && Safe(Snap())
      ensures MarkStep(old(Snap()), Snap()) && Marked(objs, v) && SameBodies(old(objs), objs)
      ensures objs.Keys == old(objs.Keys)
      ensures forall x :: old(Live(Snap(), x)) ==> Live(Snap(), x)
      ensures MarksWithin(old(Snap()), Snap(), iset{v}) && SameFixed(old(Snap()), Snap())
      ensures forall x :: Live(Snap(), x) ==> old(Live(Snap(), x))
    {
      hide Marking, Safe, RootOk, StringsOk, UpvalsOk, ObjsOk, MarkStep;
      ghost var h := Snap();
      ghost var A := Followers(h, v);
      FollowersScope(h, E, v);
      ReallyMark(v, E, Incremental, A);
      WidenBack(h, Snap(), E, A);
      FollowersMarks(h, Snap(), v);
      FixedStays(h, Snap());
      StepSpreads(h, Snap());
      MarkingNoDead(h, E, Incremental, h.objs.Keys);
      MarkingNoDead(Snap(), E, Incremental, h.objs.Keys);
      SpreadSafe(h, Snap());
      ShapeKept(h, Snap(), hash);
    }

    /** A write to the stack of th, which needs no barrier. */
    method SetStack(th: Id, b: Body)
      requires Inv(Snap(), hash) && StackOk(Snap(), th, b)
      modifies `objs
      ensures Inv(Snap(), hash) && objs == SetBody(old(objs), th, b)
      ensures forall x :: old(Live(Snap(), x)) ==> Live(Snap(), x)
    {
      hide Inv, StackOk;
      ghost var h := Snap();
      assert IsThread(objs, th) by { StackThread(h, th, b); }
      StackInv(h, th, b, hash);
      objs := SetBody(objs, th, b);
    }

    /** luaS_newlstr: an equal string already in the table is reused, even a dead one. */
    method NewString(text: string) returns (x: Id)
      requires Inv(Snap(), hash)
      modifies `objs, `next, `strt, `nuse
      ensures Inv(Snap(), hash) && Live(Snap(), x) && objs[x].b == Str(text)
      ensures forall y :: old(Live(Snap(), y)) ==> Live(Snap(), y)
      ensures (exists y :: y in old(objs) && old(objs)[y].b == Str(text)) ==>
        x in old(objs) && old(objs)[x].b == Str(text)
      ensures Within(old(Snap()), Snap(), StrIds(old(Snap()), text)) && x in StrIds(old(Snap()), text)
      ensures forall y :: y in old(objs) ==> y in objs && objs[y].b == old(objs)[y].b
    {
      hide Inv, Shape, Safe, Phase, Within;
      ghost var h := Snap();
      TableFacts(h, hash);
      var i := hash(text) % |strt|;
      var p := 0;
      while p < |strt[i]|
        invariant 0 <= p <= |strt[i]|
        invariant forall j :: 0 <= j < p ==> strt[i][j] in objs && objs[strt[i][j]].b != Str(text)
      {
        x := strt[i][p];
        assert x in strt[i];
        if objs[x].b == Str(text) {
          if IsDead(objs[x].m, cw) {
            objs := objs[x := objs[x].(m := objs[x].m.(w0 := !objs[x].m.w0, w1 := !objs[x].m.w1))];
            StringBack(h, x, hash);
            MarkOkHere(h, x, hash);
            BackWithin(h, x, StrIds(h, text));
          } else {
            WithinSelf(h, StrIds(h, text));
          }
          return;
        }
        p := p + 1;
      }
      NotInTable(h, text, i, hash);
      x := NewLstr(text, i);
    }

    /** newlstr: a white string, at the head of its bucket. */
    method NewLstr(text: string, i: nat) returns (x: Id)
      requires Inv(Snap(), hash) && i < |strt| && i == hash(text) % |strt|
      requires forall y :: y in strt[i] ==> y in objs && objs[y].b != Str(text)
      modifies `objs, `next, `strt, `nuse
      ensures Inv(Snap(), hash) && Live(Snap(), x) && objs[x].b == Str(text)
      ensures forall y :: old(Live(Snap(), y)) ==> Live(Snap(), y)
      ensures forall y :: y in old(objs) ==> y in objs && objs[y].b == old(objs)[y].b
      ensures Within(old(Snap()), Snap(), StrIds(old(Snap()), text)) && x >= old(next)
    {
      hide Inv, Shape, Safe, Phase, Within, Live;
      ghost var h := Snap();
      AddStrInv(h, text, i, hash);
      x := next;
      FreshIn(h, hash);
      objs := objs[x := Obj(NewMark(cw), Str(text))];
      next := next + 1;
      strt := strt[i := [x] + strt[i]];
      nuse := nuse + 1;
      assert Snap() == AddStr(h, text, i);
      GrowTable();
      AddStrWithin(h, text, i, Snap(), hash);
      GrownLive(h, text, i, Snap());
    }

    /** The end of newlstr: a crowded table doubles. */
    method GrowTable()
      requires Inv(Snap(), hash)
      modifies `strt
      ensures Inv(Snap(), hash) && Snap() == old(Snap()).(strt := strt)
    {
      hide Inv;
      NonEmptyTable(Snap(), hash);
      if nuse > |strt| && |strt| <= MAX_INT / 2 {
        Resize(|strt| * 2);
      }
    }

    /** luaS_resize */
    method Resize(newsize: nat)
      requires Inv(Snap(), hash) && newsize > 0
      modifies `strt
      ensures Inv(Snap(), hash) && Snap() == old(Snap()).(strt := strt)
      ensures if gcstate == GCSsweepstring then strt == old(strt) else |strt| == newsize
    {
      hide Inv, Rehashed, Done, StringsOk;
      if gcstate == GCSsweepstring {
        return;
      }
      ghost var h := Snap();
      TableOk(h, hash);
      var newhash := NewTable(newsize);
      AllDone(h, newhash, hash);
      ResizedInv(h, newhash, hash);
      strt := newhash;
    }

    /** The strings of all buckets, chained anew. */
    method NewTable(newsize: nat) returns (newhash: seq<seq<Id>>)
      requires StringsOk(Snap(), hash) && newsize > 0
      ensures Rehashed(objs, newhash, Done(strt, |strt|, 0), hash) && |newhash| == newsize
    {
      hide Rehashed, Done, StringsOk;
      newhash := seq(newsize, _ => []);
      var i := 0;
      EmptyTable(objs, newhash, strt, hash);
      while i < |strt|
        invariant 0 <= i <= |strt| && |newhash| == newsize
        invariant Rehashed(objs, newhash, Done(strt, i, 0), hash)
      {
        newhash := RehashBucket(newhash, i);
        DoneBucket(strt, i);
        i := i + 1;
      }
    }

    method RehashBucket(newhash0: seq<seq<Id>>, i: nat) returns (newhash: seq<seq<Id>>)
      requires StringsOk(Snap(), hash) && i < |strt| && |newhash0| > 0
      requires Rehashed(objs, newhash0, Done(strt, i, 0), hash)
      ensures |newhash| == |newhash0| && Rehashed(objs, newhash, Done(strt, i, |strt[i]|), hash)
    {
      hide Rehashed, Done, StringsOk;
      newhash := newhash0;
      var p := 0;
      while p < |strt[i]|
        invariant 0 <= p <= |strt[i]| && |newhash| == |newhash0|
        invariant Rehashed(objs, newhash, Done(strt, i, p), hash)
      {
        NotDone(Snap(), i, p, hash);
        var x := strt[i][p];
        Rehash(objs, newhash, Done(strt, i, p), hash, x);
        DoneNext(strt, i, p);
        var h1 := hash(objs[x].b.text) % |newhash|;
        newhash := newhash[h1 := [x] + newhash[h1]];
        p := p + 1;
      }
    }

    /** luaF_findupval: the one open upvalue of a stack slot, new or brought back. */
    method FindUpval(th: Id, level: nat) returns (u: Id)
      requires Inv(Snap(), hash) && Live(Snap(), th) && IsThread(objs, th) && level < objs[th].b.top
      modifies `objs, `next, `uvhead
      ensures Inv(Snap(), hash) && Live(Snap(), u) && objs[u].b == Open(th, level)
      ensures forall y :: old(Live(Snap(), y)) ==> Live(Snap(), y)
      ensures forall y :: y in old(objs) ==> y in objs && (y != th ==> objs[y].b == old(objs)[y].b)
      ensures IsThread(objs, th) && objs[th].b == old(objs[th].b).(open := objs[th].b.open)
      ensures forall y :: y in old(objs) && old(objs)[y].b == Open(th, level) ==> y == u
      ensures Within(old(Snap()), Snap(), SlotIds(old(Snap()), th, level)) && u in SlotIds(old(Snap()), th, level)
      ensures (exists y :: y in old(objs) && old(objs)[y].b == Open(th, level)) ==> u in old(objs)
    {
      hide Inv, Shape, Safe, Phase, Within;
      ghost var h := Snap();
      OpenFacts(h, th, hash);
      var j := 0;
      while j < |objs[th].b.open| && LevelOf(objs, objs[th].b.open[j]) >= level
        invariant Snap() == h && 0 <= j <= |objs[th].b.open|
        invariant forall i :: 0 <= i < j ==> LevelOf(objs, objs[th].b.open[i]) > level
      {
        u := objs[th].b.open[j];
        OpenMember(h, th, j, hash);
        if objs[u].b.level == level {
          if IsDead(objs[u].m, cw) {
            objs := objs[u := objs[u].(m := objs[u].m.(w0 := !objs[u].m.w0, w1 := !objs[u].m.w1))];
            UpvalBack(h, u, hash);
            MarkOkHere(h, u, hash);
            BackWithin(h, u, SlotIds(h, th, level));
          } else {
            WithinSelf(h, SlotIds(h, th, level));
          }
          OnlyUpval(h, th, level, u, hash);
          return;
        }
        j := j + 1;
      }
      PlaceFound(h, th, level, j, hash);
      NoUpvalYet(h, th, level, j, hash);
      u := NewOpen(th, level, j);
    }

    /** The end of luaF_findupval: a new open upvalue, in its place in the list. */
    method NewOpen(th: Id, level: nat, j: nat) returns (u: Id)
      requires Inv(Snap(), hash) && Live(Snap(), th) && Place(objs, th, level, j)
      requires level < objs[th].b.top <= |objs[th].b.stack|
      modifies `objs, `next, `uvhead
      ensures Inv(Snap(), hash) && Live(Snap(), u) && objs[u].b == Open(th, level)
      ensures forall y :: old(Live(Snap(), y)) ==> Live(Snap(), y)
      ensures forall y :: y in old(objs) ==> y in objs && (y != th ==> objs[y].b == old(objs)[y].b)
      ensures IsThread(objs, th) && objs[th].b == old(objs[th].b).(open := objs[th].b.open)
      ensures Within(old(Snap()), Snap(), SlotIds(old(Snap()), th, level)) && u >= old(next)
    {
      hide Inv, Shape, Safe, Phase, Within;
      ghost var h := Snap();
      AddOpenInv(h, th, level, j, hash);
      AddOpenWithin(h, th, level, j, hash);
      FreshIn(h, hash);
      u := next;
      next := next + 1;
      objs := objs[u := Obj(NewMark(cw), Open(th, level))];
      objs := SetBody(objs, th, objs[th].b.(open := InsertAt(objs[th].b.open, j, u)));
      uvhead := [u] + uvhead;
    }

    /** luaF_close: every open upvalue of th at or above level gets its own copy of the value. */
    method CloseUpvals(th: Id, level: nat)
      requires Inv(Snap(), hash) && Live(Snap(), th) && IsThread(objs, th)
      modifies `objs, `uvhead, `rootgc, `sweepgc, `gray
      ensures Inv(Snap(), hash) && SameThread(old(objs), objs, th)
      ensures forall u :: u in objs[th].b.open ==> LevelOf(objs, u) < level
      ensures Within(old(Snap()), Snap(), iset{})
      ensures CellsKept(old(Snap()), Snap()) && ClosesFrom(old(Snap()), Snap(), th, level, {})
      ensures forall u :: u in objs && objs[u].b.Open? && objs[u].b.th == th ==> objs[u].b.level < level
      ensures forall y :: old(Live(Snap(), y)) ==> Live(Snap(), y)
    {
      hide Inv, CellsBut, Within, MayClose, ClosesFrom;
      ghost var h := Snap();
      CellsSame(h, h);
      WithinSelf(h, iset{});
      CloseNone(h, th, level);
      while objs[th].b.open != [] && LevelOf(objs, objs[th].b.open[0]) >= level
        invariant Inv(Snap(), hash) && SameThread(old(objs), objs, th) && CellsKept(h, Snap())
        invariant Within(h, Snap(), iset{}) && MayClose(h, Snap(), th, level)
        invariant forall y :: old(Live(Snap(), y)) ==> Live(Snap(), y)
        decreases |objs[th].b.open|
      {
        ghost var h1 := Snap();
        CloseOne(th, level);
        CellsTrans(h, h1, Snap());
        WithinTrans(h, h1, Snap(), iset{});
        ClosesTrans(h, h1, Snap(), th, level);
      }
      BelowLevel(Snap(), th, level, hash);
      NoneAbove(Snap(), th, level, hash);
      ClosesAll(h, Snap(), th, level);
    }

    method CloseOne(th: Id, ghost level: nat)
      requires Inv(Snap(), hash) && Live(Snap(), th) && IsThread(objs, th) && objs[th].b.open != []
      requires LevelOf(objs, objs[th].b.open[0]) >= level
      modifies `objs, `uvhead, `rootgc, `sweepgc, `gray
      ensures Inv(Snap(), hash) && SameThread(old(objs), objs, th) && |objs[th].b.open| < old(|objs[th].b.open|)
      ensures CellsKept(old(Snap()), Snap()) && Within(old(Snap()), Snap(), iset{})
      ensures MayClose(old(Snap()), Snap(), th, level)
      ensures forall y :: old(Live(Snap(), y)) ==> Live(Snap(), y)
    {
      hide Inv, CellsBut, SameBodies, Within, MayClose;
      ghost var h := Snap();
      HeadFacts(h, th, hash);
      var u := objs[th].b.open[0];
      assert !objs[u].m.black;
      if IsDead(objs[u].m, cw) {
        objs := SetBody(objs, th, Unlinked(objs[th].b, 0)) - {u};
        uvhead := Without(uvhead, u);
        FreeUvInv(h, th, hash);
        FreedThread(h, th);
        FreeWithin(h, th, hash);
      } else {
        u := CloseHead(th);
        LinkUpval(h, th, u);
      }
      CloseCells(h, th, Snap(), hash);
      CloseLooks(h, th, Snap(), level);
    }

    /** The rest of luaC_linkupval: a gray upvalue turns black, with a barrier, in a mark
        phase, and white in a sweep. */
    method LinkUpval(ghost h: Heap, ghost th: Id, u: Id)
      requires Inv(h, hash) && Live(h, th) && IsThread(h.objs, th) && h.objs[th].b.open != []
      requires u == h.objs[th].b.open[0]
      requires u in h.objs && h.objs[u].b.Open? && !h.objs[u].m.black && !h.objs[u].m.fixed
      requires !IsDead(h.objs[u].m, h.cw) && MarkOk(h.objs[u].m) && u != th
      requires Snap() == CloseUv(h, th, 0)
      modifies `objs, `gray
      ensures Inv(Snap(), hash) && SameThread(h.objs, objs, th) && |objs[th].b.open| < |h.objs[th].b.open|
      ensures SameBodies(CloseUv(h, th, 0).objs, objs) && Within(h, Snap(), iset{})
      ensures forall y :: Live(h, y) ==> Live(Snap(), y)
    {
      hide Shape, Safe, Phase, Marking, SameThread, Inv, SweepStep, Kept, MarksWithin, Within;
      ghost var h1 := Snap();
      InvSound(h, hash);
      CloseUvSound(h, th, 0, hash);
      hide Sound;
      ClosedMark(h, th, u);
      if gcstate == GCSpropagate {
        LinkMarking(h, th, u);
      } else {
        LinkWhite(h, th, u);
      }
      ClosedThread(h, th, objs);
      LinkWithin(h, th, Snap(), hash);
    }

    /** Outside the mark phase a gray upvalue turns white. */
    method LinkWhite(ghost h: Heap, ghost th: Id, u: Id)
      requires Inv(h, hash) && h.gcstate != GCSpropagate && IsThread(h.objs, th) && h.objs[th].b.open != []
      requires u == h.objs[th].b.open[0]
      requires u in h.objs && h.objs[u].b.Open? && !h.objs[u].m.black && MarkOk(h.objs[u].m) && u != th
      requires !IsDead(h.objs[u].m, h.cw) && !h.objs[u].m.fixed
      requires Snap() == CloseUv(h, th, 0) && Sound(Snap(), hash)
      requires u in objs && objs[u].m == h.objs[u].m
      requires forall x :: x in h.objs ==> x in objs && objs[x].m == h.objs[x].m
      modifies `objs
      ensures Inv(Snap(), hash) && SameBodies(old(objs), objs)
      ensures forall y :: Live(h, y) ==> Live(Snap(), y)
      ensures MarksWithin(old(Snap()), Snap(), iset{}) && SameFixed(old(Snap()), Snap())
      ensures forall x :: Live(Snap(), x) ==> old(Live(Snap(), x))
    {
      hide Inv, Sound, MarksWithin, Kept, SameBodies, SameFixed, Live, MarkOk, SweepStep;
      ghost var h1 := Snap();
      ClosedLive(h, h1);
      WhiteLike(h1, u);
      assert !IsDead(h1.objs[u].m, h1.cw);
      hide CloseUv, IsDead;
      if IsGray(objs[u].m) {
        objs := objs[u := objs[u].(m := MakeWhite(objs[u].m, cw))];
        WhitenSound(h1, u, hash);
      }
      LinkedPhase(h, th, Snap(), hash);
    }

    /** A closed upvalue needs a barrier. */
    method LinkMarking(ghost h: Heap, ghost th: Id, u: Id)
      requires Inv(h, hash) && h.gcstate == GCSpropagate && IsThread(h.objs, th) && h.objs[th].b.open != []
      requires u == h.objs[th].b.open[0]
      requires u in h.objs && h.objs[u].b.Open? && !h.objs[u].m.black && MarkOk(h.objs[u].m) && u != th
      requires Snap() == CloseUv(h, th, 0) && Sound(Snap(), hash)
      requires u in objs && objs[u].m == h.objs[u].m && objs[u].b.Closed?
      requires forall x :: x in h.objs ==> x in objs && objs[x].m == h.objs[x].m
      modifies `objs, `gray
      ensures Inv(Snap(), hash) && SameBodies(old(objs), objs)
      ensures forall y :: Live(h, y) ==> Live(Snap(), y)
      ensures MarksWithin(old(Snap()), Snap(), iset{}) && SameFixed(old(Snap()), Snap())
      ensures forall x :: Live(Snap(), x) ==> old(Live(Snap(), x))
    {
      hide Shape, Safe, Marking, SweepStep, Kept, Covered, Marked, Sound, Phase, SameBodies, MarksWithin;
      ghost var h1 := Snap();
      SoundParts(h1, hash);
      CloseMarkingInv(h, th, hash);
      SamePhase(h);
      if IsGray(objs[u].m) {
        BlackenClosed(u);
      } else {
        WhiteClosed(h1, u);
        NoChange(h1);
        NoMarks(h1, Snap(), iset{});
      }
      MarksKept(h, h1, Snap());
      LinkedInv(h, Snap(), hash);
      MarkedLive(h, Snap());
    }

    method BlackenClosed(u: Id)
      requires Marking(Snap(), {u}, Incremental, objs.Keys) && Shape(Snap(), hash) && Safe(Snap())
      requires u in objs && IsGray(objs[u].m) && u !in gray && u !in grayagain && objs[u].b.Closed?
      modifies `objs, `gray
      ensures Marking(Snap(), {}, Incremental, objs.Keys) && Shape(Snap(), hash) && Safe(Snap())
      ensures SameBodies(old(objs), objs) && objs.Keys == old(objs.Keys)
      ensures forall x :: Marked(old(objs), x) ==> Marked(objs, x)
      ensures MarksWithin(old(Snap()), Snap(), iset{}) && SameFixed(old(Snap()), Snap())
      ensures forall x :: Live(Snap(), x) ==> old(Live(Snap(), x))
    {
      hide Shape, Safe, Marking, Covered, MarkStep, MarksWithin;
      assert {} + {u} == {u};
      ghost var h := Snap();
      MarkingNoDead(h, {u}, Incremental, objs.Keys);
      GrayToBlackHere(u);
      ghost var h2 := Snap();
      BlackAlike(h, u, h2);
      var v := objs[u].b.v;
      ValueAlloc(h2, u, v);
      if v.Some? && IsWhite(objs[v.value].m) {
        ReallyMarkHere(v.value, {u});
        StaysMarked(h2, Snap(), u);
        MarksOwn(h2, Snap(), u, v.value);
      } else {
        NoMarks(h2, Snap(), iset{});
      }
      AlikeMarks(h, h2, Snap(), iset{});
      BlackCovered(Snap(), u, Incremental);
      Uncover(Snap(), u, {}, Incremental, objs.Keys);
      BarrierMarks(h2, Snap());
    }

    method GrayToBlackHere(u: Id)
      requires Marking(Snap(), {u}, Incremental, objs.Keys) && Shape(Snap(), hash) && Safe(Snap())
      requires u in objs && IsGray(objs[u].m) && u !in gray && u !in grayagain && objs[u].b.Closed?
      modifies `objs
      ensures Marking(Snap(), {u}, Incremental, objs.Keys) && Shape(Snap(), hash) && Safe(Snap())
      ensures objs == old(objs)[u := old(objs)[u].(m := old(objs)[u].m.(black := true))]
    {
      hide Safe, Marking, RootOk, StringsOk, UpvalsOk;
      ghost var h := Snap();
      assert {} + {u} == {u};
      GrayToBlack(u, {}, Incremental, h.objs.Keys);
      assert objs.Keys == h.objs.Keys;
      BlackSpreads(h, u, Snap());
      MarkingNoDead(h, {u}, Incremental, h.objs.Keys);
      MarkingNoDead(Snap(), {u}, Incremental, h.objs.Keys);
      SpreadSafe(h, Snap());
      ShapeKept(h, Snap(), hash);
    }
  }
}
