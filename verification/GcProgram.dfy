/** Programs: sequences of actions that reach objects only from the roots. */
module GcProgram {
  import opened Wrappers
  import opened GcHeap
  import opened GcMark
  import opened GcAtomic
  import opened GcSweep
  import opened GcStep
  import opened GcMutate
  import opened GcWrite
  import opened GcStack
  import opened GcClose
  import opened GcCells
  import opened GcMoves
  import opened GcEffects
  import opened Lgc

  /** How the program names a value: not collectable, or found by following references from a root. */
  datatype Operand = Plain0 | At(root: nat, steps: seq<nat>)

  /** What can happen next: a collector step, a full collection, or something the program does. */
  datatype Action =
    | Step
    | Collect
    | Create(kind: Kind, refs: seq<Operand>)
    | MakeString(text: string)
    | MakeClosure(refs: seq<Operand>, captured: seq<nat>)
    | SetField(o: Operand, i: nat, v: Operand)
    | DropField(o: Operand, i: nat)
    | SetUpval(u: Operand, v: Operand)
    | SetSlot(th: Operand, i: nat, v: Operand)
    | Push(v: Operand)
    | SetTop(n: nat)
    | Reframe(n: nat)
    | CloseFrom(level: nat)
    | SetEnv(th: Operand, v: Operand)
    | SetTypeMetatable(i: nat, v: Operand)
    | Resume(th: Operand)
    | Fix(o: Operand)

  /** Following references. */
  function Walk(objs: Objs, r: Ref, steps: seq<nat>): Ref
    decreases |steps|
  {
    if steps == [] || r == None then r
    else if r.value in objs && steps[0] < |Vals(objs, r.value)| then Walk(objs, Vals(objs, r.value)[steps[0]], steps[1..])
    else None
  }

  lemma {:induction false} WalkReach(h: Heap, r: Ref, steps: seq<nat>)
    requires r.Some? ==> Reach(h, r.value)
    ensures Walk(h.objs, r, steps).Some? ==> Reach(h, Walk(h.objs, r, steps).value)
    decreases |steps|
  {
    if steps != [] && r.Some? && r.value in h.objs && steps[0] < |Vals(h.objs, r.value)| {
      var next := Vals(h.objs, r.value)[steps[0]];
      if next.Some? {
        assert Points(h.objs, r.value, next.value);
        ReachStep(h, r.value, next.value);
      }
      WalkReach(h, next, steps[1..]);
    }
  }

  lemma PutStores(b: Body, i: nat, v: Ref)
    requires Plain(b)
    ensures Stores(b, WithRef(b, i, v), v)
  {
  }

  lemma BodyNew(h: Heap, kind: Kind, refs: seq<Ref>)
    requires LiveRefs(h, refs)
    ensures NewBody(h, BodyOf(kind, refs)) && Rooted(BodyOf(kind, refs))
  {
    assert refs != [] ==> refs[0] in refs;
  }

  lemma PushOk(h: Heap, th: Id, v: Ref, hash: string -> nat)
    requires Inv(h, hash) && IsThread(h.objs, th) && LiveRef(h, v)
    ensures h.objs[th].b.top <= |h.objs[th].b.stack| && StackOk(h, th, Pushed(h.objs[th].b, v))
  {
    LevelsBelow(h, th, hash);
  }

  /** Open upvalues are below the top. */
  lemma LevelsBelow(h: Heap, th: Id, hash: string -> nat)
    requires Inv(h, hash) && IsThread(h.objs, th)
    ensures h.objs[th].b.top <= |h.objs[th].b.stack|
    ensures forall u :: u in h.objs[th].b.open ==> LevelOf(h.objs, u) < h.objs[th].b.top
  {
    OpenFacts(h, th, hash);
    assert ObjsOk(h) && ObjOk(h, th);
    forall u | u in h.objs[th].b.open ensures LevelOf(h.objs, u) < h.objs[th].b.top { assert OpenAt(h.objs, u, th); }
  }

  lemma SlotOk(h: Heap, th: Id, i: nat, v: Ref, hash: string -> nat)
    requires Inv(h, hash) && IsThread(h.objs, th) && LiveRef(h, v) && i < |h.objs[th].b.stack|
    ensures StackOk(h, th, h.objs[th].b.(stack := h.objs[th].b.stack[i := v]))
  {
    LevelsBelow(h, th, hash);
  }

  lemma TopOk(h: Heap, th: Id, top: nat, n: nat, hash: string -> nat)
    requires Inv(h, hash) && IsThread(h.objs, th) && top <= n
    requires forall u :: u in h.objs[th].b.open ==> LevelOf(h.objs, u) < top
    ensures StackOk(h, th, h.objs[th].b.(top := top, stack := Resized(h.objs[th].b.stack, n)))
  {
  }

  lemma EnvOk(h: Heap, th: Id, v: Ref, hash: string -> nat)
    requires Inv(h, hash) && IsThread(h.objs, th) && LiveRef(h, v)
    ensures StackOk(h, th, h.objs[th].b.(env := v))
  {
    LevelsBelow(h, th, hash);
  }

  // ----- changes that no barrier guards -----

  /** The roots may change to any live value: the atomic step marks them again. */
  lemma RootsInv(h: Heap, h': Heap, hash: string -> nat)
    requires Inv(h, hash) && h' == h.(running := h'.running, mt := h'.mt)
    requires Live(h, h'.running) && IsThread(h.objs, h'.running) && LiveRefs(h, h'.mt)
    ensures Inv(h', hash)
  {
    hide RootOk, StringsOk, UpvalsOk, Marking, SweptRoot, AllClean;
    assert Safe(h') by {
      assert forall x :: Live(h, x) <==> Live(h', x);
      NewRoots(h, h');
      SafeMono(h, h');
    }
    assert Shape(h', hash) by { RootsShape(h, h', hash); }
    hide Safe, Shape;
    RootsPhase(h, h');
  }

  lemma NewRoots(h: Heap, h': Heap)
    requires Safe(h) && h' == h.(running := h'.running, mt := h'.mt) && Live(h, h'.running) && LiveRefs(h, h'.mt)
    ensures forall r :: r in Roots(h') ==> LiveRef(h', r)
  {
    forall r | r in Roots(h') ensures LiveRef(h', r) {
      assert r in Roots(h) || r == Some(h'.running) || r in h'.mt;
      if r in Roots(h) { assert LiveRef(h, r); }
    }
  }

  lemma RootsShape(h: Heap, h': Heap, hash: string -> nat)
    requires Shape(h, hash) && h' == h.(running := h'.running, mt := h'.mt) && IsThread(h.objs, h'.running)
    ensures Shape(h', hash)
  {
    hide RootOk, StringsOk, UpvalsOk;
    forall x | x in h'.objs ensures ObjOk(h', x) { assert ObjOk(h, x); }
    ShapeKept(h, h', hash);
  }

  lemma RootsPhase(h: Heap, h': Heap)
    requires Phase(h) && h' == h.(running := h'.running, mt := h'.mt)
    ensures Phase(h')
  {
    if h.gcstate.GCSpropagate? {
      forall x | x in h'.objs && x !in {}
        ensures Covered(h', x, Incremental)
      {
        assert x !in {} && Covered(h, x, Incremental);
      }
    } else {
      assert CleanMono(h, h') && OpenMono(h, h');
      PrefixMono(h, h');
      PhaseKept(h, h');
    }
  }

  /** luaS_fix: a fixed string survives every sweep. */
  function FixObj(objs: Objs, x: Id): Objs
    requires x in objs
  {
    objs[x := objs[x].(m := objs[x].m.(fixed := true))]
  }

  lemma FixInv(h: Heap, x: Id, hash: string -> nat)
    requires Inv(h, hash) && x in h.objs && h.objs[x].b.Str?
    ensures Inv(h.(objs := FixObj(h.objs, x)), hash)
    ensures forall y :: Live(h, y) ==> Live(h.(objs := FixObj(h.objs, x)), y)
  {
    hide Shape, Safe, Phase;
    FixShape(h, x, hash);
    FixSafe(h, x);
    FixPhase(h, x);
  }

  lemma FixShape(h: Heap, x: Id, hash: string -> nat)
    requires Shape(h, hash) && x in h.objs && h.objs[x].b.Str?
    ensures Shape(h.(objs := FixObj(h.objs, x)), hash)
  {
    hide RootOk, StringsOk, UpvalsOk;
    var h' := h.(objs := FixObj(h.objs, x));
    forall y | y in h'.objs ensures ObjOk(h', y) { assert ObjOk(h, y); }
    ShapeKept(h, h', hash);
  }

  lemma FixSafe(h: Heap, x: Id)
    requires Safe(h) && x in h.objs
    ensures Safe(h.(objs := FixObj(h.objs, x)))
  {
    var h' := h.(objs := FixObj(h.objs, x));
    SamePoints(h.objs, h'.objs);
    assert forall y :: Live(h, y) <==> Live(h', y);
    RootsKept(h, h');
    SafeMono(h, h');
  }

  lemma FixPhase(h: Heap, x: Id)
    requires Phase(h) && x in h.objs
    ensures Phase(h.(objs := FixObj(h.objs, x)))
  {
    var h' := h.(objs := FixObj(h.objs, x));
    SamePoints(h.objs, h'.objs);
    if h.gcstate.GCSpropagate? {
      FixMarking(h, x);
    } else {
      assert CleanMono(h, h') && OpenMono(h, h');
      PrefixMono(h, h');
      PhaseKept(h, h');
    }
  }

  lemma FixMarking(h: Heap, x: Id)
    requires Marking(h, {}, Incremental, h.objs.Keys) && x in h.objs
    ensures var h' := h.(objs := FixObj(h.objs, x));
      Marking(h', {}, Incremental, h'.objs.Keys) && forall y :: Marked(h.objs, y) ==>
        Marked(h'.objs, y)
  {
    var h' := h.(objs := FixObj(h.objs, x));
    SamePoints(h.objs, h'.objs);
    forall y | y in h'.objs && y !in {} ensures Covered(h', y, Incremental) {
      assert y !in {} && Covered(h, y, Incremental);
      if AllMarked(h.objs, y) {
        forall z: Id | Holds(h'.objs, y, z)
          ensures Marked(h'.objs, z)
        {
          assert Holds(h.objs, y, z) && Marked(h.objs, z);
        }
      }
    }
  }

  // ----- running a program -----

  /** The value an operand names. */
  ghost function Named(h: Heap, v: Operand): Ref {
    match v
    case Plain0 => None
    case At(root, steps) => if root < |Roots(h)| then Walk(h.objs, Roots(h)[root], steps) else None
  }

  ghost function NamedAll(h: Heap, vs: seq<Operand>): (rs: seq<Ref>)
    ensures |rs| == |vs| && forall i :: 0 <= i < |vs| ==> rs[i] == Named(h, vs[i])
  {
    seq(|vs|, i requires 0 <= i < |vs| => Named(h, vs[i]))
  }

  /** An operand is evaluated: what it names is reachable, hence live. */
  method Eval(g: GlobalState, v: Operand) returns (r: Ref)
    requires Inv(g.Snap(), g.hash)
    ensures r == Named(g.Snap(), v)
    ensures LiveRef(g.Snap(), r) && (r.Some? ==> Reach(g.Snap(), r.value))
  {
    hide Inv;
    match v {
      case Plain0 => r := None;
      case At(root, steps) =>
        var roots: seq<Ref> := [Some(g.main), Some(g.running), Some(g.registry)] + g.mt;
        if root >= |roots| {
          return None;
        }
        r := Walk(g.objs, roots[root], steps);
        ghost var h := g.Snap();
        assert roots == Roots(h) && roots[root] in Roots(h);
        if roots[root].Some? { ReachRoot(h, roots[root].value); }
        WalkReach(h, roots[root], steps);
        InvSafe(h, g.hash);
        if r.Some? { ReachSafe(h, r.value); }
    }
  }

  method EvalIn(g: GlobalState, v: Operand, ghost V: iset<Id>) returns (r: Ref)
    requires Inv(g.Snap(), g.hash) && Touching(g.Snap(), V)
    ensures r == Named(g.Snap(), v) && LiveRef(g.Snap(), r) && InV(r, V)
  {
    hide Inv, Touching, Named;
    r := Eval(g, v);
    if r.Some? { ReachIn(g.Snap(), V, r.value); }
  }

  lemma InvSafe(h: Heap, hash: string -> nat)
    requires Inv(h, hash)
    ensures Safe(h) && Live(h, h.running) && IsThread(h.objs, h.running)
  {
    assert Roots(h)[1] == Some(h.running);
    assert LiveRef(h, Some(h.running)) && ObjsOk(h);
  }

  method EvalAll(g: GlobalState, vs: seq<Operand>, ghost V: iset<Id>) returns (rs: seq<Ref>)
    requires Inv(g.Snap(), g.hash) && Touching(g.Snap(), V)
    ensures rs == NamedAll(g.Snap(), vs) && LiveRefs(g.Snap(), rs) && AllInV(rs, V)
  {
    hide Inv, Touching, Named;
    rs := [];
    var i := 0;
    while i < |vs|
      invariant 0 <= i <= |vs| && |rs| == i && LiveRefs(g.Snap(), rs) && AllInV(rs, V)
      invariant forall k :: 0 <= k < i ==> rs[k] == Named(g.Snap(), vs[k])
    {
      var r := EvalIn(g, vs[i], V);
      rs := rs + [r];
      i := i + 1;
    }
  }

  /** Pushing a live value on the running thread's stack. */
  method PushValue(g: GlobalState, v: Ref, ghost V: iset<Id>)
    requires Inv(g.Snap(), g.hash) && LiveRef(g.Snap(), v) && InV(v, V)
    modifies g
    ensures Inv(g.Snap(), g.hash) && Within(old(g.Snap()), g.Snap(), V) && Pushes(old(g.Snap()), g.Snap(), v)
  {
    hide Inv, StackOk, CellsBut, Within;
    ghost var h := g.Snap();
    InvSafe(g.Snap(), g.hash);
    PushOk(g.Snap(), g.running, v, g.hash);
    ghost var b := Pushed(g.objs[g.running].b, v);
    g.SetStack(g.running, Pushed(g.objs[g.running].b, v));
    StackCells(h, g.running, b, g.Snap(), g.hash);
    OpenLevels(h, g.running, g.hash);
    StackWithin(h, g.running, b, g.Snap(), V, g.hash);
    BodiesSame(h, g.Snap(), {g.running});
    PushedOnTop(h.objs[g.running].b, v, g.objs[g.running].b);
  }

  lemma OpenLevels(h: Heap, th: Id, hash: string -> nat)
    requires Inv(h, hash) && IsThread(h.objs, th)
    ensures forall u :: u in h.objs && h.objs[u].b.Open? && h.objs[u].b.th == th ==>
      h.objs[u].b.level < h.objs[th].b.top <= |h.objs[th].b.stack|
  {
    hide Inv;
    forall u | u in h.objs && h.objs[u].b.Open? && h.objs[u].b.th == th
      ensures h.objs[u].b.level < h.objs[th].b.top <= |h.objs[th].b.stack|
    {
      UpvalThread(h, u, hash);
    }
  }

  method CreateObject(g: GlobalState, kind: Kind, refs: seq<Ref>, ghost V: iset<Id>)
    requires Inv(g.Snap(), g.hash) && LiveRefs(g.Snap(), refs) && AllInV(refs, V) && g.next in V
    modifies g
    ensures Inv(g.Snap(), g.hash) && Within(old(g.Snap()), g.Snap(), V)
    ensures Makes(old(g.Snap()), g.Snap(), old(g.next), BodyOf(kind, refs))
  {
    hide Inv, NewBody, CellsBut, Within, Pushes, Looks;
    ghost var h := g.Snap();
    BodyNew(g.Snap(), kind, refs);
    FreshIn(h, g.hash);
    var x;
    if kind == UDATA {
      x := g.NewUdata(refs);
    } else {
      x := g.Link(BodyOf(kind, refs));
    }
    ghost var h1 := g.Snap();
    NewEdges(h, kind, refs, V);
    AddWithin(h, BodyOf(kind, refs), h1, V, g.hash);
    MadePushes(h, h1, x, BodyOf(kind, refs), g.hash);
    PushValue(g, Some(x), V);
    MadeThenPushed(h, h1, g.Snap(), x, BodyOf(kind, refs));
    WithinTrans(h, h1, g.Snap(), V);
  }

  /** The new object is there before it is pushed. */
  lemma MadePushes(h: Heap, h1: Heap, x: Id, b: Body, hash: string -> nat)
    requires Inv(h, hash) && x == h.next && x !in h.objs && x in h1.objs && h1.objs == Add(h, b).objs
    requires SameRoots(h, h1)
    requires forall y :: Live(h, y) ==> Live(h1, y)
    ensures Still(h, h1) && h1.objs[x].b == b && x != h.running
    ensures Live(h, h.running) && IsThread(h.objs, h.running)
    ensures h.objs[h.running].b.top <= |h.objs[h.running].b.stack|
  {
    BodiesSame(h, h1, {});
    AddCells(h, h1, x, hash);
    InvSafe(h, hash);
    TopInside(h, h.running, hash);
  }

  lemma MadeThenPushed(h: Heap, h1: Heap, h2: Heap, x: Id, b: Body)
    requires SameRoots(h, h1) && Still(h, h1) && Pushes(h1, h2, Some(x)) && Live(h1, x) && h1.objs[x].b == b
    requires x !in h.objs && Live(h, h.running) && IsThread(h.objs, h.running)
    requires h.objs[h.running].b.top <= |h.objs[h.running].b.stack|
    ensures Makes(h, h2, x, b)
  {
    hide CellsBut;
    ThenPushes(h, h1, h2, Some(x));
    assert x != h.running && x !in {h1.running};
    LooksTrans(b, h1.objs[x].b, h2.objs[x].b);
  }

  lemma NewEdges(h: Heap, kind: Kind, refs: seq<Ref>, V: iset<Id>)
    requires AllInV(refs, V)
    ensures forall y: Id :: Points(Add(h, BodyOf(kind, refs)).objs, h.next, y) ==> y in V
  {
    forall y: Id | Points(Add(h, BodyOf(kind, refs)).objs, h.next, y) ensures y in V {
      assert Some(y) in refs;
      assert InV(Some(y), V);
    }
  }

  /** OP_CLOSURE: a new closure, then its captured variables, with no step in between. */
  method CreateClosure(g: GlobalState, refs: seq<Ref>, captured: seq<nat>,
      ghost V: iset<Id>) returns (ghost us: seq<Id>)
    requires Inv(g.Snap(), g.hash) && LiveRefs(g.Snap(), refs) && AllInV(refs, V) && Touching(g.Snap(), V)
    requires CapturedIn(g.Snap(), captured, V)
    modifies g
    ensures Inv(g.Snap(), g.hash) && Within(old(g.Snap()), g.Snap(), V)
    ensures MakesClosure(old(g.Snap()), g.Snap(), old(g.next), refs, captured, us)
  {
    hide Inv, NewBody, CellsBut, WriteOk, LiveRefs, Within, Touching, CapturedIn, Captures, BodiesKept, Looks, Pushes;
    NextIn(g.Snap(), V);
    NewEdges(g.Snap(), FUNC, refs, V);
    ghost var h := g.Snap();
    BodyNew(g.Snap(), FUNC, refs);
    FreshIn(h, g.hash);
    var x := g.Link(Func(refs));
    MadePushes(h, g.Snap(), x, Func(refs), g.hash);
    AddWithin(h, Func(refs), g.Snap(), V, g.hash);
    AddCaptured(h, Func(refs), g.Snap(), captured, V, g.hash);
    TouchingStays(h, g.Snap(), V);
    var j := 0;
    us := [];
    CapturesNone(h, g.Snap(), h.running);
    ghost var top := h.objs[h.running].b.top;
    while j < |captured|
      invariant 0 <= j <= |captured| && Inv(g.Snap(), g.hash) && Live(g.Snap(), x)
      invariant g.objs[x].b == Func(refs + Somes(us))
      invariant Within(h, g.Snap(), V) && Touching(g.Snap(), V) && CapturedIn(g.Snap(), captured, V)
      invariant SameRoots(h, g.Snap()) && Still(h, g.Snap())
      invariant Captures(h, g.Snap(), h.running, InUse(captured[..j], top), us)
    {
      us := Capture(g, x, refs, us, captured, j, h, V);
      j := j + 1;
    }
    assert captured[..j] == captured;
    ghost var h1 := g.Snap();
    PushValue(g, Some(x), V);
    MadeThenPushed(h, h1, g.Snap(), x, Func(refs + Somes(us)));
    PushedCaptures(h, h1, g.Snap(), x, InUse(captured, top), us);
    WithinTrans(h, h1, g.Snap(), V);
  }

  lemma PushedCaptures(h: Heap, h1: Heap, h2: Heap, x: Id, slots: seq<nat>, us: seq<Id>)
    requires Captures(h, h1, h.running, slots, us) && Pushes(h1, h2, Some(x)) && h1.running == h.running
    ensures Captures(h, h2, h.running, slots, us)
  {
    hide CellsBut, Looks, Captures, BodiesKept;
    CapturesStay(h, h1, h2, h.running, slots, us, {h1.running});
  }

  /** The open upvalues that a new closure would share are in V. */
  ghost predicate CapturedIn(h: Heap, captured: seq<nat>, V: iset<Id>) {
    forall y: Id, j :: 0 <= j < |captured| && y in h.objs && h.objs[y].b == Open(h.running, captured[j]) ==> y in V
  }

  lemma NextIn(h: Heap, V: iset<Id>)
    requires Touching(h, V)
    ensures h.next in V && h.running in V
  {
    assert Roots(h)[1] == Some(h.running);
  }

  lemma AddCaptured(h: Heap, b: Body, h': Heap, captured: seq<nat>, V: iset<Id>, hash: string -> nat)
    requires CapturedIn(h, captured, V) && h'.objs == Add(h, b).objs && h'.running == h.running && h.next in V
    ensures CapturedIn(h', captured, V)
  {
  }

  /** So they stay when an upvalue is found and stored in the closure x. */
  lemma FoundCaptured(h: Heap, h': Heap, captured: seq<nat>, V: iset<Id>, th: Id)
    requires CapturedIn(h, captured, V) && Within(h, h', V) && h'.running == h.running && IsThread(h'.objs, th)
    requires forall y :: y in h.objs ==> y in h'.objs && (y != th ==> h'.objs[y].b == h.objs[y].b)
    ensures CapturedIn(h', captured, V)
  {
  }

  lemma StoredCaptured(h: Heap, x: Id, b: Body, h': Heap, captured: seq<nat>, V: iset<Id>)
    requires CapturedIn(h, captured, V) && x in h.objs && b.Func? && SameBodies(SetBody(h.objs, x, b), h'.objs)
    requires h'.running == h.running
    ensures CapturedIn(h', captured, V)
  {
  }

  lemma SlotIdsIn(h: Heap, captured: seq<nat>, j: nat, V: iset<Id>)
    requires Touching(h, V) && CapturedIn(h, captured, V) && j < |captured|
    ensures SlotIds(h, h.running, captured[j]) <= V
  {
    assert Roots(h)[1] == Some(h.running);
  }

  /** One captured variable of the closure x. */
  method Capture(g: GlobalState, x: Id, refs: seq<Ref>, ghost us0: seq<Id>, captured: seq<nat>, j: nat, ghost h: Heap,
      ghost V: iset<Id>) returns (ghost us: seq<Id>)
    requires Inv(g.Snap(), g.hash) && Live(g.Snap(), x) && g.objs[x].b == Func(refs + Somes(us0)) && j < |captured|
    requires Within(h, g.Snap(), V) && Touching(g.Snap(), V) && CapturedIn(g.Snap(), captured, V)
    requires SameRoots(h, g.Snap()) && Still(h, g.Snap()) && x !in h.objs && Live(h, h.running)
    requires IsThread(h.objs, h.running)
    requires Captures(h, g.Snap(), h.running, InUse(captured[..j], h.objs[h.running].b.top), us0)
    modifies g
    ensures Inv(g.Snap(), g.hash) && Live(g.Snap(), x) && g.objs[x].b == Func(refs + Somes(us))
    ensures Within(h, g.Snap(), V) && Touching(g.Snap(), V) && CapturedIn(g.Snap(), captured, V)
    ensures SameRoots(h, g.Snap()) && Still(h, g.Snap())
    ensures Captures(h, g.Snap(), h.running, InUse(captured[..j + 1], h.objs[h.running].b.top), us)
  {
    hide Inv, CellsBut, Within, Touching, CapturedIn, Captures, BodiesKept;
    us := us0;
    var level := captured[j];
    InvSafe(g.Snap(), g.hash);
    SameTop(h, g.Snap());
    ghost var slots := InUse(captured[..j], h.objs[h.running].b.top);
    InUseNext(captured, j, h.objs[h.running].b.top);
    if level < g.objs[g.running].b.top {
      var u := FindCaptured(g, x, captured, j, slots, h, us0, V);
      us := us0 + [u];
      assert Somes(us) == Somes(us0) + [Some(u)];
      assert refs + Somes(us) == (refs + Somes(us0)) + [Some(u)];
      StoreCaptured(g, x, u, us, captured, slots + [level], h, V);
    }
  }

  lemma InUseNext(captured: seq<nat>, j: nat, top: nat)
    requires j < |captured|
    ensures captured[j] < top ==> InUse(captured[..j + 1], top) == InUse(captured[..j], top) + [captured[j]]
    ensures captured[j] >= top ==> InUse(captured[..j + 1], top) == InUse(captured[..j], top)
  {
    assert captured[..j + 1][..j] == captured[..j];
  }

  lemma SameTop(h: Heap, h1: Heap)
    requires BodiesKept(h, h1, {}) && Live(h, h.running) && IsThread(h.objs, h.running)
    ensures IsThread(h1.objs, h.running) && h1.objs[h.running].b.top == h.objs[h.running].b.top
  {
    assert h.running !in {};
  }

  /** The upvalue of a captured variable. */
  method FindCaptured(g: GlobalState, x: Id, captured: seq<nat>, j: nat, ghost slots: seq<nat>, ghost h: Heap,
      ghost us: seq<Id>, ghost V: iset<Id>) returns (u: Id)
    requires Inv(g.Snap(), g.hash) && IsThread(g.objs, g.running) && Live(g.Snap(), g.running)
    requires j < |captured| && captured[j] < g.objs[g.running].b.top && Live(g.Snap(), x) && g.objs[x].b.Func?
    requires Within(h, g.Snap(), V) && Touching(g.Snap(), V) && CapturedIn(g.Snap(), captured, V)
    requires SameRoots(h, g.Snap()) && Still(h, g.Snap()) && Captures(h, g.Snap(), h.running, slots, us)
    modifies g
    ensures Inv(g.Snap(), g.hash) && Live(g.Snap(), u) && u in V
    ensures Within(h, g.Snap(), V) && Touching(g.Snap(), V) && CapturedIn(g.Snap(), captured, V)
    ensures SameRoots(h, g.Snap()) && Still(h, g.Snap())
    ensures Captures(h, g.Snap(), h.running, slots + [captured[j]], us + [u])
    ensures Live(g.Snap(), x) && g.objs[x].b == old(g.objs)[x].b
  {
    hide Inv, CellsBut, Within, Touching, CapturedIn, Captures, BodiesKept;
    ghost var h1 := g.Snap();
    u := g.FindUpval(g.running, captured[j]);
    ghost var h2 := g.Snap();
    FoundCells(h1, h2, g.running, g.hash);
    CellsTrans(h, h1, h2);
    FoundBodies(h1, h2, g.running);
    CapturesMore(h, h1, h2, g.running, slots, us, captured[j], u);
    BodiesTrans(h, h1, h2, {});
    SlotIdsIn(h1, captured, j, V);
    WithinMore(h1, h2, SlotIds(h1, g.running, captured[j]), V);
    WithinTrans(h, h1, h2, V);
    TouchingStays(h1, h2, V);
    FoundCaptured(h1, h2, captured, V, g.running);
  }

  lemma FoundBodies(h1: Heap, h2: Heap, th: Id)
    requires forall y :: Live(h1, y) ==> Live(h2, y)
    requires forall y :: y in h1.objs ==> y in h2.objs && (y != th ==> h2.objs[y].b == h1.objs[y].b)
    requires IsThread(h1.objs, th) && IsThread(h2.objs, th)
    requires h2.objs[th].b == h1.objs[th].b.(open := h2.objs[th].b.open)
    ensures BodiesKept(h1, h2, {})
  {
  }

  /** It becomes the closure's last upvalue. */
  method StoreCaptured(g: GlobalState, x: Id, u: Id, ghost us: seq<Id>, captured: seq<nat>, ghost slots: seq<nat>,
      ghost h: Heap, ghost V: iset<Id>)
    requires Inv(g.Snap(), g.hash) && Live(g.Snap(), x) && g.objs[x].b.Func?
    requires Live(g.Snap(), u) && u in V && x !in h.objs
    requires Within(h, g.Snap(), V) && Touching(g.Snap(), V) && CapturedIn(g.Snap(), captured, V)
    requires SameRoots(h, g.Snap()) && Still(h, g.Snap()) && Captures(h, g.Snap(), h.running, slots, us)
    modifies g
    ensures Inv(g.Snap(), g.hash) && Live(g.Snap(), x)
    ensures g.objs[x].b == Func(old(g.objs)[x].b.refs + [Some(u)])
    ensures Within(h, g.Snap(), V) && Touching(g.Snap(), V) && CapturedIn(g.Snap(), captured, V)
    ensures SameRoots(h, g.Snap()) && Still(h, g.Snap()) && Captures(h, g.Snap(), h.running, slots, us)
  {
    hide Inv, CellsBut, Within, Touching, CapturedIn, Captures, BodiesKept;
    ghost var h2 := g.Snap();
    var refs := g.objs[x].b.refs;
    g.Store(x, Func(refs + [Some(u)]), Some(u));
    WriteCells(h2, g.Snap(), x, Func(refs + [Some(u)]));
    CellsTrans(h, h2, g.Snap());
    BodiesSame(h2, g.Snap(), {x});
    BodiesButNew(h, h2, g.Snap(), x);
    CapturesStay(h, h2, g.Snap(), h.running, slots, us, {x});
    StoreWithin(h2, x, Func(refs + [Some(u)]), Some(u), g.Snap());
    WithinMore(h2, g.Snap(), Target(Some(u)), V);
    WithinTrans(h, h2, g.Snap(), V);
    TouchingStays(h2, g.Snap(), V);
    StoredCaptured(h2, x, Func(refs + [Some(u)]), g.Snap(), captured, V);
  }

  /** A store into an object, with its barrier. */
  method StoreAt(g: GlobalState, o: Id, i: nat, v: Ref, ghost V: iset<Id>)
    requires Inv(g.Snap(), g.hash) && Live(g.Snap(), o) && Plain(g.objs[o].b) && LiveRef(g.Snap(), v) && InV(v, V)
    modifies g
    ensures Inv(g.Snap(), g.hash) && CellsBut(old(g.Snap()), g.Snap(), Some(o)) && Within(old(g.Snap()), g.Snap(), V)
    ensures !old(g.objs)[o].b.Closed? ==> CellsKept(old(g.Snap()), g.Snap())
    ensures SameRoots(old(g.Snap()), g.Snap()) && BodiesKept(old(g.Snap()), g.Snap(), {o})
    ensures Live(g.Snap(), o) && g.objs[o].b == WithRef(old(g.objs)[o].b, i, v)
  {
    hide Inv, Stores, CellsBut, Within;
    ghost var h := g.Snap();
    PutStores(g.objs[o].b, i, v);
    ghost var b := WithRef(g.objs[o].b, i, v);
    g.Store(o, WithRef(g.objs[o].b, i, v), v);
    FieldCells(h, g.Snap(), o, b);
    if !h.objs[o].b.Closed? { WriteCells(h, g.Snap(), o, b); }
    BodiesSame(h, g.Snap(), {o});
    StoreWithin(h, o, b, v, g.Snap());
    WithinMore(h, g.Snap(), Target(v), V);
  }

  /** An assignment to a field: of a table, a closure, a prototype or a userdata. */
  method StoreField(g: GlobalState, o: Ref, i: nat, v: Ref, ghost V: iset<Id>)
    requires Inv(g.Snap(), g.hash) && LiveRef(g.Snap(), o) && LiveRef(g.Snap(), v) && InV(v, V)
    modifies g
    ensures Inv(g.Snap(), g.hash) && Within(old(g.Snap()), g.Snap(), V) && SetsField(old(g.Snap()), g.Snap(), o, i, v)
  {
    hide Inv, CellsBut, Within, BodiesKept;
    ghost var h := g.Snap();
    StillSelf(h);
    WithinSelf(h, V);
    if o.Some? && HasFields(g.objs[o.value].b) {
      StoreAt(g, o.value, i, v, V);
      FieldSetIs(h.objs[o.value].b, i, v, g.objs[o.value].b);
    }
  }

  lemma StillSelf(h: Heap)
    ensures Still(h, h)
  {
  }

  /** OP_SETUPVAL: a closed upvalue holds its value, an open one is a stack slot. */
  method StoreUpval(g: GlobalState, u: Ref, v: Ref, ghost V: iset<Id>)
    requires Inv(g.Snap(), g.hash) && LiveRef(g.Snap(), u) && LiveRef(g.Snap(), v) && InV(v, V)
    modifies g
    ensures Inv(g.Snap(), g.hash) && CellsBut(old(g.Snap()), g.Snap(), u) && Within(old(g.Snap()), g.Snap(), V)
    ensures u.Some? && IsUpval(old(g.objs)[u.value].b) ==> LiveUpval(g.Snap(), u.value) && Cell(g.objs, u.value) == v
    ensures SetsUpval(old(g.Snap()), g.Snap(), u, v)
  {
    hide Inv, CellsBut, Within, BodiesKept;
    ghost var h := g.Snap();
    CellsNone(h, u);
    StillSelf(h);
    WithinSelf(h, V);
    if u.Some? && g.objs[u.value].b.Closed? {
      StoreAt(g, u.value, 0, v, V);
    } else if u.Some? && g.objs[u.value].b.Open? {
      OpenSlot(g.Snap(), u.value, g.hash);
      StoreSlot(g, g.objs[u.value].b.th, g.objs[u.value].b.level, v, V);
      OneSlot(h, g.Snap(), u.value, v, g.hash);
    }
  }

  lemma OpenSlot(h: Heap, u: Id, hash: string -> nat)
    requires Inv(h, hash) && u in h.objs && h.objs[u].b.Open?
    ensures IsThread(h.objs, h.objs[u].b.th)
  {
    assert UpvalsOk(h) && OpenAt(h.objs, u, h.objs[u].b.th);
  }

  method StoreSlot(g: GlobalState, th: Id, i: nat, v: Ref, ghost V: iset<Id>)
    requires Inv(g.Snap(), g.hash) && IsThread(g.objs, th) && LiveRef(g.Snap(), v) && InV(v, V)
    modifies g
    ensures Inv(g.Snap(), g.hash) && Within(old(g.Snap()), g.Snap(), V) && SetsSlot(old(g.Snap()), g.Snap(), th, i, v)
  {
    hide Inv, StackOk, Within, BodiesKept;
    ghost var h := g.Snap();
    var b := g.objs[th].b;
    WithinSelf(h, V);
    if i < |b.stack| {
      SlotOk(g.Snap(), th, i, v, g.hash);
      OpenLevels(h, th, g.hash);
      TopInside(h, th, g.hash);
      ghost var b1 := b.(stack := b.stack[i := v]);
      g.SetStack(th, b.(stack := b.stack[i := v]));
      StackWithin(h, th, b1, g.Snap(), V, g.hash);
      SlotCells(h, th, i, v, g.Snap(), g.hash);
      BodiesSame(h, g.Snap(), {th});
    } else {
      NoSlot(h, th, i, g.hash);
      StillSelf(h);
    }
  }

  /** Moving the running thread's top, within n slots; upvalues above it have been closed. */
  method MoveTop(g: GlobalState, top: nat, n: nat, ghost V: iset<Id>)
    requires Inv(g.Snap(), g.hash) && top <= n && Raised(g.Snap(), top) <= V
    modifies g
    ensures Inv(g.Snap(), g.hash) && Within(old(g.Snap()), g.Snap(), V) && Frames(old(g.Snap()), g.Snap(), top, n)
  {
    hide Inv, StackOk, CellsBut, Within, ClosesFrom, BodiesKept;
    ghost var h := g.Snap();
    InvSafe(g.Snap(), g.hash);
    var th := g.running;
    g.CloseUpvals(th, top);
    ghost var h1 := g.Snap();
    TopOk(g.Snap(), th, top, n, g.hash);
    TopSlots(h1, th, g.hash);
    var b := g.objs[th].b;
    ghost var b1 := b.(top := top, stack := Resized(b.stack, n));
    g.SetStack(th, b.(top := top, stack := Resized(b.stack, n)));
    StackCells(h1, th, b1, g.Snap(), g.hash);
    CellsTrans(h, h1, g.Snap());
    WithinMore(h, h1, iset{}, V);
    StackWithin(h1, th, b1, g.Snap(), V, g.hash);
    BodiesSame(h1, g.Snap(), {th});
    FramedIs(h.objs[th].b, top, n, g.objs[th].b);
    ClosesThen(h, h1, g.Snap(), th, top, {th});
    WithinTrans(h, h1, g.Snap(), V);
  }

  /** The action writes to the captured variable u: through the upvalue, or through its stack slot. */
  ghost predicate Assigns(h: Heap, a: Action, u: Id) {
    match a
    case SetField(o, _, _) => Named(h, o) == Some(u)
    case DropField(o, _) => Named(h, o) == Some(u)
    case SetUpval(o, _) => Named(h, o) == Some(u)
    case SetSlot(th, i, _) => u in h.objs && Named(h, th).Some? && h.objs[u].b == Open(Named(h, th).value, i)
    case _ => false
  }

  /** Captured variables keep their values, in a closed upvalue as in an open one. */
  ghost predicate VariablesKept(h: Heap, a: Action, h': Heap) {
    forall u: Id :: Reach(h, u) && u in h.objs && IsUpval(h.objs[u].b) && !Assigns(h, a, u)
      ==> u in h'.objs && IsUpval(h'.objs[u].b) && Cell(h'.objs, u) == Cell(h.objs, u)
  }

  lemma ReachLive(h: Heap, u: Id)
    requires Safe(h) && Reach(h, u)
    ensures Live(h, u)
  {
    ReachSafe(h, u);
  }

  lemma KeptVariables(h: Heap, a: Action, w: Ref, h': Heap)
    requires Safe(h) && CellsBut(h, h', w) && forall u :: w == Some(u) ==> Assigns(h, a, u)
    ensures VariablesKept(h, a, h')
  {
    forall u: Id | Reach(h, u) && u in h.objs && IsUpval(h.objs[u].b) && !Assigns(h, a, u)
      ensures u in h'.objs && IsUpval(h'.objs[u].b) && Cell(h'.objs, u) == Cell(h.objs, u)
    {
      ReachLive(h, u);
      assert LiveUpval(h, u);
    }
  }

  lemma SameVariables(h: Heap, a: Action, h': Heap)
    requires Safe(h) && Same(h, h') && OnlyDeadFreed(h, h')
    ensures VariablesKept(h, a, h')
  {
    forall u: Id | Reach(h, u) && u in h.objs && IsUpval(h.objs[u].b)
      ensures u in h'.objs && IsUpval(h'.objs[u].b) && Cell(h'.objs, u) == Cell(h.objs, u)
    {
      ReachLive(h, u);
      CellIsVals(h.objs, u);
      CellIsVals(h'.objs, u);
    }
  }

  lemma CollectedVariables(h: Heap, a: Action, h': Heap)
    requires Survivors(h, h') && h'.objs.Keys == Reachable(h) + Fixed(h)
    ensures VariablesKept(h, a, h')
  {
    forall u: Id | Reach(h, u) && u in h.objs && IsUpval(h.objs[u].b)
      ensures u in h'.objs && IsUpval(h'.objs[u].b) && Cell(h'.objs, u) == Cell(h.objs, u)
    {
      assert u in Reachable(h);
      CellIsVals(h.objs, u);
      CellIsVals(h'.objs, u);
    }
  }

  lemma SlotVariables(h: Heap, th: Operand, i: nat, v: Operand, rt: Ref, rv: Ref, h': Heap)
    requires Safe(h) && rt == Named(h, th)
    requires if rt.Some? && rt.value in h.objs && h.objs[rt.value].b.Thread? then
        forall u: Id :: LiveUpval(h, u) ==> LiveUpval(h', u) && Cell(h'.objs, u) == SlotCell(h, rt.value, i, rv, u)
      else h' == h
    ensures VariablesKept(h, SetSlot(th, i, v), h')
  {
    forall u: Id | Reach(h, u) && u in h.objs && IsUpval(h.objs[u].b) && !Assigns(h, SetSlot(th, i, v), u)
      ensures u in h'.objs && IsUpval(h'.objs[u].b) && Cell(h'.objs, u) == Cell(h.objs, u)
    {
      ReachLive(h, u);
      assert LiveUpval(h, u);
    }
  }

  /** An assignment, through an upvalue or to the stack slot itself, is seen by all who share the variable. */
  ghost predicate Assigned(h: Heap, a: Action, h': Heap) {
    match a
    case SetUpval(o, v) => forall u: Id :: Named(h, o) == Some(u) && LiveUpval(h, u) ==> HasValue(h', u, Named(h, v))
    case SetSlot(th, i, v) =>
      forall t: Id, u: Id :: Named(h, th) == Some(t) && LiveUpval(h, u) && h.objs[u].b == Open(t, i) ==>
        HasValue(h', u, Named(h, v))
    case _ => true
  }

  ghost predicate HasValue(h: Heap, u: Id, v: Ref) { u in h.objs && IsUpval(h.objs[u].b) && Cell(h.objs, u) == v }

  /** What an action does, as far as it can be seen: the collector does nothing. */
  ghost predicate Effect(h: Heap, a: Action, h': Heap) {
    match a
    case Step => Unseen(h, h')
    case Collect => Unseen(h, h')
    case Create(kind, refs) => Makes(h, h', h.next, BodyOf(kind, NamedAll(h, refs)))
    case MakeString(text) => exists x: Id :: MakesString(h, h', x, text)
    case MakeClosure(refs, captured) =>
      exists us: seq<Id> :: MakesClosure(h, h', h.next, NamedAll(h, refs), captured, us)
    case SetField(o, i, v) => SetsField(h, h', Named(h, o), i, Named(h, v))
    case DropField(o, i) => SetsField(h, h', Named(h, o), i, None)
    case SetUpval(u, v) => SetsUpval(h, h', Named(h, u), Named(h, v))
    case SetSlot(th, i, v) =>
      if Named(h, th).Some? && IsThread(h.objs, Named(h, th).value) then SetsSlot(h, h', Named(h, th).value, i, Named(h, v))
      else Quiet(h, h')
    case Push(v) => Pushes(h, h', Named(h, v))
    case SetTop(n) =>
      IsThread(h.objs, h.running) &&
      if n <= |h.objs[h.running].b.stack| then Frames(h, h', n, |h.objs[h.running].b.stack|) else Quiet(h, h')
    case Reframe(n) =>
      IsThread(h.objs, h.running) && Frames(h, h', if h.objs[h.running].b.top < n then h.objs[h.running].b.top else n, n)
    case CloseFrom(level) => SameRoots(h, h') && CellsKept(h, h') && ClosesFrom(h, h', h.running, level, {})
    case SetEnv(th, v) => SetsEnv(h, h', Named(h, th), Named(h, v))
    case SetTypeMetatable(i, v) => SetsMt(h, h', i, Named(h, v))
    case Resume(th) => Runs(h, h', Named(h, th))
    case Fix(o) => Fixes(h, h', Named(h, o))
  }

  /** What the action may bring back although nothing reachable refers to it: an equal string,
      the open upvalue of a captured slot, what is left in the slots that the top moves over. */
  ghost function Revived(h: Heap, a: Action): iset<Id> {
    match a
    case MakeString(text) => iset x: Id | x in h.objs && h.objs[x].b == Str(text)
    case MakeClosure(_, captured) =>
      iset x: Id | x in h.objs && exists j :: 0 <= j < |captured| && h.objs[x].b == Open(h.running, captured[j])
    case SetTop(n) => Raised(h, n)
    case _ => iset{}
  }

  /** What is in the running thread's slots from its top to the new one. */
  ghost function Raised(h: Heap, top: nat): iset<Id> {
    iset x: Id | IsThread(h.objs, h.running) &&
      exists i :: h.objs[h.running].b.top <= i < top && i < |h.objs[h.running].b.stack| && h.objs[h.running].b.stack[i] == Some(x)
  }

  /** What the action handles: everything reachable, or reachable from what it brings back, and
      the ids not yet used. */
  ghost function Touched(h: Heap, a: Action): iset<Id> {
    iset x: Id | IsTouched(h, a, x)
  }

  ghost predicate IsTouched(h: Heap, a: Action, x: Id) {
    forall A: iset<Id> :: Touching(h, A) && Revived(h, a) <= A ==> x in A
  }

  lemma TouchedTouching(h: Heap, a: Action)
    ensures Touching(h, Touched(h, a)) && Revived(h, a) <= Touched(h, a)
  {
    hide Revived, Points, Roots;
    var V := Touched(h, a);
    forall x: Id, y: Id | x in V && Points(h.objs, x, y) ensures y in V {
      forall A: iset<Id> | Touching(h, A) && Revived(h, a) <= A ensures y in A { assert IsTouched(h, a, x) && x in A; }
    }
  }

  /** An action that brings nothing back handles reachable objects only. */
  lemma TouchedReach(h: Heap, a: Action, x: Id, hash: string -> nat)
    requires Inv(h, hash) && x < h.next
    ensures Reach(h, x) ==> x in Touched(h, a)
    ensures x in Touched(h, a) && Revived(h, a) == iset{} ==> Reach(h, x)
  {
    TouchedTouching(h, a);
    hide Revived, Touched, Touching, Inv;
    if Reach(h, x) { ReachIn(h, Touched(h, a), x); }
    var A := iset y: Id | y >= h.next || Reach(h, y);
    ReachTouching(h, A, hash);
    if Revived(h, a) == iset{} { TouchedLeast(h, a, A); }
  }

  lemma TouchedLeast(h: Heap, a: Action, A: iset<Id>)
    requires Touching(h, A) && Revived(h, a) <= A
    ensures Touched(h, a) <= A
  {
    hide Revived, Touching;
  }

  lemma ReachTouching(h: Heap, A: iset<Id>, hash: string -> nat)
    requires Inv(h, hash) && A == iset y: Id | y >= h.next || Reach(h, y)
    ensures Touching(h, A)
  {
    IdsBelow(h, hash);
    hide Inv, Reach;
    forall x: Id, y: Id | x in A && Points(h.objs, x, y) ensures y in A { ReachStep(h, x, y); }
    forall r | r in Roots(h) && r.Some? ensures r.value in A { ReachRoot(h, r.value); }
  }

  lemma IdsBelow(h: Heap, hash: string -> nat)
    requires Inv(h, hash)
    ensures forall x :: x in h.objs ==> x < h.next
  {
    forall x | x in h.objs ensures x < h.next { assert ObjsOk(h) && ObjOk(h, x); }
  }

  /** Nothing is marked but within A, which has the roots and what its objects refer to. */
  ghost predicate ScopeIn(h: Heap, A: iset<Id>) {
    && ClosedIn(h, A) && (forall r :: r in Roots(h) && r.Some? ==> r.value in A)
    && (h.gcstate.GCSpropagate? ==> MarkedIn(h, A))
  }

  ghost predicate InScopes(h: Heap, x: Id) { forall A: iset<Id> :: ScopeIn(h, A) ==> x in A }

  /** The least scope of a mark phase: what follows from the roots and the marks made so far. */
  ghost function Least(h: Heap): set<Id> { set x | x in h.objs && InScopes(h, x) }

  lemma LeastScope(h: Heap, hash: string -> nat)
    requires Inv(h, hash) && (h.gcstate.GCSpause? || h.gcstate.GCSpropagate?)
    ensures Scope(h, Least(h))
  {
    PauseScope(h, hash);
    hide Inv, Points, Roots;
    var A := Least(h);
    forall x: Id, y: Id | x in A && Points(h.objs, x, y) ensures y in A {
      assert y in h.objs.Keys;
      forall B: iset<Id> | ScopeIn(h, B) ensures y in B { assert InScopes(h, x) && x in B; }
    }
  }

  /** What an action does to the heap. */
  ghost predicate Took(h: Heap, a: Action, h': Heap) {
    h'.next >= h.next && Effect(h, a, h') &&
    match a
    case Step => StepResult(h, h', Least(h)) && Same(h, h') && OnlyDeadFreed(h, h') && h'.next == h.next
    case Collect =>
      Survivors(h, h') && h'.objs.Keys == Reachable(h) + Fixed(h) && h'.gcstate.GCSpause? && h'.next == h.next
    case _ => Within(h, h', Touched(h, a))
  }

  predicate Collecting(a: Action) { a.Step? || a.Collect? }

  lemma TookMove(h: Heap, a: Action, h': Heap)
    requires !Collecting(a) && Within(h, h', Touched(h, a)) && Effect(h, a, h')
    ensures Took(h, a, h')
  {
    hide Within, Touched, Effect;
    assert h'.next >= h.next by { NextGrows(h, h', Touched(h, a)); }
  }

  lemma NextGrows(h: Heap, h': Heap, V: iset<Id>)
    requires Within(h, h', V)
    ensures h'.next >= h.next
  {
  }

  /** Any action keeps the invariant, in any phase of the collector, and does what it should and
      nothing else; closures that share a variable go on seeing the same value in it, the one
      last assigned.  What the program does leaves garbage alone. */
  method Perform(g: GlobalState, a: Action)
    requires Inv(g.Snap(), g.hash)
    modifies g
    ensures Inv(g.Snap(), g.hash) && VariablesKept(old(g.Snap()), a, g.Snap()) && Assigned(old(g.Snap()), a, g.Snap())
    ensures Took(old(g.Snap()), a, g.Snap())
  {
    hide Inv, VariablesKept, Named, Within, Touched, Assigned, Least, StepResult, Same, OnlyDeadFreed, Survivors,
      Reachable, Fixed, Unseen, Effect;
    ghost var h := g.Snap();
    InvSafe(h, g.hash);
    if a.Step? {
      StepScope(h, g.hash);
      g.SingleStep(Least(h));
      SameVariables(h, a, g.Snap());
      StepUnseen(h, g.Snap());
      CollectorEffect(h, a, g.Snap());
    } else if a.Collect? {
      g.FullGC();
      CollectedVariables(h, a, g.Snap());
      FullUnseen(h, g.Snap());
      CollectorEffect(h, a, g.Snap());
    } else {
      PerformMove(g, a);
      TookMove(h, a, g.Snap());
    }
    EffectAssigned(h, a, g.Snap(), g.hash);
  }

  lemma StepUnseen(h: Heap, h': Heap)
    requires Safe(h) && Same(h, h') && OnlyDeadFreed(h, h')
    ensures Unseen(h, h')
  {
    hide Safe, Same, Unseen;
    forall x | Reach(h, x) ensures x in h'.objs { ReachLive(h, x); }
    SameUnseen(h, h');
  }

  lemma FullUnseen(h: Heap, h': Heap)
    requires Safe(h) && Survivors(h, h') && h'.objs.Keys == Reachable(h) + Fixed(h)
    ensures Unseen(h, h')
  {
    hide Safe, Survivors, Unseen;
    forall x | Reach(h, x) ensures x in h'.objs { ReachLive(h, x); assert x in Reachable(h); }
    SameUnseen(h, h');
  }

  lemma CollectorEffect(h: Heap, a: Action, h': Heap)
    requires Collecting(a) && Unseen(h, h')
    ensures Effect(h, a, h')
  {
  }

  lemma EffectAssigned(h: Heap, a: Action, h': Heap, hash: string -> nat)
    requires Inv(h, hash) && Effect(h, a, h')
    ensures Assigned(h, a, h')
  {
    hide Named, Unseen, Inv, BodiesKept;
    if a.SetSlot? {
      forall t: Id, u: Id | Named(h, a.th) == Some(t) && LiveUpval(h, u) && h.objs[u].b == Open(t, a.i)
        ensures HasValue(h', u, Named(h, a.v))
      {
        UpvalThread(h, u, hash);
      }
    } else if a.SetUpval? {
      forall u: Id | Named(h, a.u) == Some(u) && LiveUpval(h, u) ensures HasValue(h', u, Named(h, a.v)) {
        if h.objs[u].b.Open? {
          assert SlotCell(h, h.objs[u].b.th, h.objs[u].b.level, Named(h, a.v), u) == Named(h, a.v);
        }
      }
    }
  }

  /** What the program does. */
  method PerformMove(g: GlobalState, a: Action)
    requires Inv(g.Snap(), g.hash) && !Collecting(a)
    modifies g
    ensures Inv(g.Snap(), g.hash) && VariablesKept(old(g.Snap()), a, g.Snap()) && Effect(old(g.Snap()), a, g.Snap())
    ensures Within(old(g.Snap()), g.Snap(), Touched(old(g.Snap()), a))
  {
    hide Inv, VariablesKept, Named, Within, Touched, Revived, Effect, CellsBut;
    ghost var h := g.Snap();
    InvSafe(h, g.hash);
    TouchedTouching(h, a);
    if a.SetField? || a.DropField? || a.SetUpval? || a.SetSlot? {
      PerformWrite(g, a, Touched(h, a));
    } else if a.Create? || a.MakeString? || a.MakeClosure? {
      PerformNew(g, a, Touched(h, a));
      KeptVariables(h, a, None, g.Snap());
    } else if a.Push? || a.SetTop? || a.Reframe? || a.CloseFrom? {
      PerformStack(g, a, Touched(h, a));
      KeptVariables(h, a, None, g.Snap());
    } else {
      PerformMore(g, a, Touched(h, a));
      KeptVariables(h, a, None, g.Snap());
    }
  }

  /** The actions that write to an object or a variable. */
  method PerformWrite(g: GlobalState, a: Action, ghost V: iset<Id>)
    requires Inv(g.Snap(), g.hash) && Touching(g.Snap(), V)
    requires (a.SetField? || a.DropField? || a.SetUpval? || a.SetSlot?)
    modifies g
    ensures Inv(g.Snap(), g.hash) && VariablesKept(old(g.Snap()), a, g.Snap()) && Effect(old(g.Snap()), a, g.Snap())
    ensures Within(old(g.Snap()), g.Snap(), V)
  {
    hide Inv, CellsBut, VariablesKept, Named, Within, Touching, BodiesKept, Looks;
    ghost var h := g.Snap();
    InvSafe(h, g.hash);
    match a {
      case SetField(o, i, v) =>
        var ro := EvalIn(g, o, V);
        var rv := EvalIn(g, v, V);
        StoreField(g, ro, i, rv, V);
        KeptVariables(h, a, None, g.Snap());
      case DropField(o, i) =>
        var ro := EvalIn(g, o, V);
        StoreField(g, ro, i, None, V);
        KeptVariables(h, a, None, g.Snap());
      case SetUpval(u, v) =>
        var ru := EvalIn(g, u, V);
        var rv := EvalIn(g, v, V);
        StoreUpval(g, ru, rv, V);
        KeptVariables(h, a, ru, g.Snap());
      case SetSlot(th, i, v) =>
        var rt := EvalIn(g, th, V);
        var rv := EvalIn(g, v, V);
        WithinSelf(h, V);
        StillSelf(h);
        if rt.Some? && g.objs[rt.value].b.Thread? {
          StoreSlot(g, rt.value, i, rv, V);
        }
        SlotVariables(h, th, i, v, rt, rv, g.Snap());
    }
  }

  /** The actions that create an object. */
  method PerformNew(g: GlobalState, a: Action, ghost V: iset<Id>)
    requires Inv(g.Snap(), g.hash) && Touching(g.Snap(), V) && Revived(g.Snap(), a) <= V
    requires (a.Create? || a.MakeString? || a.MakeClosure?)
    modifies g
    ensures Inv(g.Snap(), g.hash) && CellsKept(old(g.Snap()), g.Snap()) && Within(old(g.Snap()), g.Snap(), V)
    ensures Effect(old(g.Snap()), a, g.Snap())
  {
    hide Inv, CellsBut, Within, Touching, BodiesKept, Captures;
    ghost var h := g.Snap();
    NextIn(h, V);
    match a {
      case Create(kind, refs) =>
        var rs := EvalAll(g, refs, V);
        CreateObject(g, kind, rs, V);
      case MakeString(text) =>
        StringIn(h, text, V);
        CreateString(g, text, V);
      case MakeClosure(refs, captured) =>
        var rs := EvalAll(g, refs, V);
        ghost var us := CreateClosure(g, rs, captured, V);
        assert MakesClosure(h, g.Snap(), h.next, rs, captured, us);
    }
  }

  method CreateString(g: GlobalState, text: string, ghost V: iset<Id>)
    requires Inv(g.Snap(), g.hash) && StrIds(g.Snap(), text) <= V
    modifies g
    ensures Inv(g.Snap(), g.hash) && Within(old(g.Snap()), g.Snap(), V)
    ensures exists x: Id :: MakesString(old(g.Snap()), g.Snap(), x, text)
  {
    hide Inv, CellsBut, Within, BodiesKept;
    ghost var h := g.Snap();
    var x := g.NewString(text);
    ghost var h1 := g.Snap();
    BodiesCells(h, h1, g.hash);
    BodiesSame(h, h1, {});
    WithinMore(h, h1, StrIds(h, text), V);
    InvSafe(h, g.hash);
    TopInside(h, h.running, g.hash);
    PushValue(g, Some(x), V);
    ThenPushes(h, h1, g.Snap(), Some(x));
    StringStays(h1, g.Snap(), x);
    forall y | y in h.objs && h.objs[y].b == Str(text) ensures y == x { StringAlone(h, x, y, text, g.hash); }
    WithinTrans(h, h1, g.Snap(), V);
    assert MakesString(h, g.Snap(), x, text);
  }

  lemma StringStays(h1: Heap, h2: Heap, x: Id)
    requires Pushes(h1, h2, Some(x)) && Live(h1, x) && h1.objs[x].b.Str?
    ensures x in h2.objs && h2.objs[x].b == h1.objs[x].b
  {
    assert x !in {h1.running};
  }

  lemma StringIn(h: Heap, text: string, V: iset<Id>)
    requires Touching(h, V) && Revived(h, MakeString(text)) <= V
    ensures StrIds(h, text) <= V
  {
  }

  /** The actions on the running thread's stack that assign no captured variable. */
  method PerformStack(g: GlobalState, a: Action, ghost V: iset<Id>)
    requires Inv(g.Snap(), g.hash) && (a.Push? || a.SetTop? || a.Reframe? || a.CloseFrom?)
    requires Touching(g.Snap(), V) && Revived(g.Snap(), a) <= V
    modifies g
    ensures Inv(g.Snap(), g.hash) && CellsKept(old(g.Snap()), g.Snap()) && Within(old(g.Snap()), g.Snap(), V)
    ensures Effect(old(g.Snap()), a, g.Snap())
  {
    hide Inv, CellsBut, Within, Touching, BodiesKept, ClosesFrom, Looks, Named;
    ghost var h := g.Snap();
    InvSafe(h, g.hash);
    StillSelf(h);
    WithinSelf(h, V);
    match a {
      case Push(v) =>
        var rv := EvalIn(g, v, V);
        PushValue(g, rv, V);
      case SetTop(n) =>
        if n <= |g.objs[g.running].b.stack| {
          MoveTop(g, n, |g.objs[g.running].b.stack|, V);
        }
      case Reframe(n) =>
        var top := g.objs[g.running].b.top;
        MoveTop(g, if top < n then top else n, n, V);
      case CloseFrom(level) =>
        g.CloseUpvals(g.running, level);
        WithinMore(h, g.Snap(), iset{}, V);
    }
  }

  /** The other actions that assign no captured variable. */
  method PerformMore(g: GlobalState, a: Action, ghost V: iset<Id>)
    requires Inv(g.Snap(), g.hash) && Touching(g.Snap(), V)
    requires (a.SetEnv? || a.SetTypeMetatable? || a.Resume? || a.Fix?)
    modifies g
    ensures Inv(g.Snap(), g.hash) && CellsKept(old(g.Snap()), g.Snap()) && Within(old(g.Snap()), g.Snap(), V)
    ensures Effect(old(g.Snap()), a, g.Snap())
  {
    hide Inv, CellsBut, Within, Touching, BodiesKept, Named, Looks;
    ghost var h := g.Snap();
    InvSafe(h, g.hash);
    StillSelf(h);
    WithinSelf(h, V);
    match a {
      case SetEnv(th, v) =>
        var rt := EvalIn(g, th, V);
        var rv := EvalIn(g, v, V);
        if rt.Some? && g.objs[rt.value].b.Thread? {
          SetThreadEnv(g, rt.value, rv, V);
        }
      case SetTypeMetatable(i, v) =>
        var rv := EvalIn(g, v, V);
        SetMt(g, i, rv, V);
        ObjsStill(h, g.Snap());
      case Resume(th) =>
        var rt := EvalIn(g, th, V);
        if rt.Some? && g.objs[rt.value].b.Thread? {
          Switch(g, rt.value, V);
        }
        ObjsStill(h, g.Snap());
      case Fix(o) =>
        var ro := EvalIn(g, o, V);
        if ro.Some? && g.objs[ro.value].b.Str? {
          FixString(g, ro.value, V);
        }
    }
  }

  lemma ObjsStill(h: Heap, h': Heap)
    requires h'.objs == h.objs && h'.cw == h.cw
    ensures Still(h, h')
  {
  }

  /** luaS_fix */
  method FixString(g: GlobalState, x: Id, ghost V: iset<Id>)
    requires Inv(g.Snap(), g.hash) && x in g.objs && g.objs[x].b.Str? && x in V
    modifies g
    ensures Inv(g.Snap(), g.hash) && Within(old(g.Snap()), g.Snap(), V) && Fixes(old(g.Snap()), g.Snap(), Some(x))
  {
    hide Inv, CellsBut, Within, BodiesKept;
    ghost var h := g.Snap();
    FixInv(g.Snap(), x, g.hash);
    g.objs := FixObj(g.objs, x);
    FixWithin(h, x, g.Snap(), V);
    BodiesCells(h, g.Snap(), g.hash);
    BodiesSame(h, g.Snap(), {});
  }

  method SetThreadEnv(g: GlobalState, th: Id, v: Ref, ghost V: iset<Id>)
    requires Inv(g.Snap(), g.hash) && IsThread(g.objs, th) && LiveRef(g.Snap(), v) && InV(v, V)
    modifies g
    ensures Inv(g.Snap(), g.hash) && Within(old(g.Snap()), g.Snap(), V) && SetsEnv(old(g.Snap()), g.Snap(), Some(th), v)
  {
    hide Inv, StackOk, CellsBut, Within;
    ghost var h := g.Snap();
    EnvOk(h, th, v, g.hash);
    ghost var b := g.objs[th].b.(env := v);
    TopSlots(h, th, g.hash);
    TopInside(h, th, g.hash);
    OpenLevels(h, th, g.hash);
    g.SetStack(th, g.objs[th].b.(env := v));
    StackCells(h, th, b, g.Snap(), g.hash);
    StackWithin(h, th, b, g.Snap(), V, g.hash);
    BodiesSame(h, g.Snap(), {th});
  }

  method SetMt(g: GlobalState, i: nat, v: Ref, ghost V: iset<Id>)
    requires Inv(g.Snap(), g.hash) && LiveRef(g.Snap(), v) && InV(v, V)
    modifies g
    ensures Inv(g.Snap(), g.hash) && g.objs == old(g.objs) && g.cw == old(g.cw) && Within(old(g.Snap()), g.Snap(), V)
    ensures g.running == old(g.running) && g.registry == old(g.registry)
    ensures g.mt == if i < |old(g.mt)| then old(g.mt)[i := v] else old(g.mt)
  {
    hide Inv, Within;
    ghost var h := g.Snap();
    WithinSelf(h, V);
    InvSafe(h, g.hash);
    if i < |g.mt| {
      MtLive(h, i, v);
      g.mt := g.mt[i := v];
      RootsInv(h, g.Snap(), g.hash);
      RootsWithin(h, g.Snap(), V);
    }
  }

  lemma MtLive(h: Heap, i: nat, v: Ref)
    requires Safe(h) && i < |h.mt| && LiveRef(h, v)
    ensures LiveRefs(h, h.mt[i := v]) && LiveRefs(h, h.mt)
  {
    forall r | r in h.mt ensures LiveRef(h, r) { assert r in Roots(h); }
  }

  method Switch(g: GlobalState, th: Id, ghost V: iset<Id>)
    requires Inv(g.Snap(), g.hash) && Live(g.Snap(), th) && IsThread(g.objs, th) && th in V
    modifies g
    ensures Inv(g.Snap(), g.hash) && g.objs == old(g.objs) && g.cw == old(g.cw) && Within(old(g.Snap()), g.Snap(), V)
    ensures g.running == th && g.registry == old(g.registry) && g.mt == old(g.mt)
  {
    hide Inv, Within;
    ghost var h := g.Snap();
    InvSafe(h, g.hash);
    forall r | r in h.mt ensures LiveRef(h, r) { assert r in Roots(h); }
    g.running := th;
    RootsInv(h, g.Snap(), g.hash);
    RootsWithin(h, g.Snap(), V);
  }

  lemma StepScope(h: Heap, hash: string -> nat)
    requires Inv(h, hash)
    ensures h.gcstate.GCSpause? || h.gcstate.GCSpropagate? ==> Scope(h, Least(h))
  {
    if h.gcstate.GCSpause? || h.gcstate.GCSpropagate? { LeastScope(h, hash); }
  }

  /** The heaps between the actions of a run. */
  ghost predicate Trace(hs: seq<Heap>, actions: seq<Action>, hash: string -> nat) {
    && |hs| == |actions| + 1
    && (forall i :: 0 <= i < |hs| ==> Inv(hs[i], hash))
    && forall i :: 0 <= i < |actions| ==> Took(hs[i], actions[i], hs[i + 1])
  }

  lemma Longer(hs: seq<Heap>, actions: seq<Action>, i: nat, h: Heap, hash: string -> nat)
    requires i < |actions| && Trace(hs, actions[..i], hash) && Inv(h, hash) && Took(hs[i], actions[i], h)
    ensures Trace(hs + [h], actions[..i + 1], hash)
  {
    hide Inv, Took;
    forall k | 0 <= k < i + 1 ensures Took((hs + [h])[k], actions[..i + 1][k], (hs + [h])[k + 1]) {
      if k < i { assert Took(hs[k], actions[..i][k], hs[k + 1]); }
    }
  }

  /** Safety over every run: whatever the program does and however collector steps are
      interleaved with it, every reachable object is still allocated. */
  method Run(g: GlobalState, actions: seq<Action>) returns (ghost hs: seq<Heap>)
    requires Inv(g.Snap(), g.hash)
    modifies g
    ensures Inv(g.Snap(), g.hash) && forall x :: Reach(g.Snap(), x) ==> x in g.objs
    ensures Trace(hs, actions, g.hash) && hs[0] == old(g.Snap()) && hs[|actions|] == g.Snap()
  {
    hide Inv, Took;
    hs := [g.Snap()];
    var i := 0;
    while i < |actions|
      invariant 0 <= i <= |actions| && Inv(g.Snap(), g.hash)
      invariant Trace(hs, actions[..i], g.hash) && hs[0] == old(g.Snap()) && hs[i] == g.Snap()
    {
      Perform(g, actions[i]);
      Longer(hs, actions, i, g.Snap(), g.hash);
      hs := hs + [g.Snap()];
      i := i + 1;
    }
    assert actions[..i] == actions;
    forall x | Reach(g.Snap(), x) ensures x in g.objs {
      InvSafe(g.Snap(), g.hash);
      ReachSafe(g.Snap(), x);
    }
  }
}
