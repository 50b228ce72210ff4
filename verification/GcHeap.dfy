/** The collector's view of the heap (lobject.h, lgc.h): objects with mark bits,
    the lists that hold them, and what is reachable from the roots. */
module GcHeap {
  import opened Wrappers

  type Id = nat

  /** The `marked` field: the two white bits, black, fixed. */
  datatype Mark = Mark(w0: bool, w1: bool, black: bool, fixed: bool)

  /** A TValue: None is a value that is not collectable. */
  type Ref = Option<Id>

  datatype Body =
    | Str(text: string)
    | Udata(refs: seq<Ref>)
    | Func(refs: seq<Ref>)
    | Table(refs: seq<Ref>)
    | Proto(refs: seq<Ref>)
    | Closed(v: Ref)
    | Open(th: Id, level: nat)
    | Thread(env: Ref, stack: seq<Ref>, top: nat, open: seq<Id>)

  datatype Obj = Obj(m: Mark, b: Body)

  type Objs = map<Id, Obj>

  datatype GcState = GCSpause | GCSpropagate | GCSsweepstring | GCSsweep | GCSfinalize

  /** global_State.  `cw` tells which white is current; `rootgc[sweepgc..]` is what
      `*sweepgc` still leads to; `running` is the thread that runs. */
  datatype Heap = Heap(
    objs: Objs, rootgc: seq<Id>, strt: seq<seq<Id>>, uvhead: seq<Id>,
    gray: seq<Id>, grayagain: seq<Id>, gcstate: GcState, cw: bool,
    sweepstrgc: nat, sweepgc: nat, next: Id,
    main: Id, running: Id, registry: Id, mt: seq<Ref>)

  // ----- colours -----

  predicate IsWhite(m: Mark) { m.w0 || m.w1 }

  predicate IsGray(m: Mark) { !m.black && !IsWhite(m) }

  /** isdead: carries the other white. */
  predicate IsDead(m: Mark, cw: bool) { if cw then m.w1 else m.w0 }

  function MakeWhite(m: Mark, cw: bool): Mark { m.(w0 := cw, w1 := !cw, black := false) }

  /** Current white and nothing else: what a sweep leaves. */
  predicate Clean(m: Mark, cw: bool) { m.w0 == cw && m.w1 == !cw && !m.black }

  predicate MarkOk(m: Mark) { !(m.w0 && m.w1) && (m.black ==> !IsWhite(m)) }

  predicate IsUpval(b: Body) { b.Open? || b.Closed? }

  /** b' is b, except that an upvalue may be closed, and a thread may lose open upvalues and stale slots. */
  predicate SameContent(b: Body, b': Body) {
    match b
    case Open(_, _) => b' == b || b'.Closed?
    case Closed(_) => b' == b
    case Thread(env, stack, top, _) => b'.Thread? && b'.env == env && b'.top == top && |b'.stack| == |stack|
    case _ => b' == b
  }

  // ----- references -----

  /** The values an object refers to: a thread's live stack only; an open upvalue's stack slot. */
  function Vals(objs: Objs, x: Id): seq<Ref>
    requires x in objs
  {
    match objs[x].b
    case Str(_) => []
    case Udata(refs) => refs
    case Func(refs) => refs
    case Table(refs) => refs
    case Proto(refs) => refs
    case Closed(v) => [v]
    case Open(th, level) => [SlotOf(objs, th, level)]
    case Thread(env, stack, top, _) => [env] + (if top <= |stack| then stack[..top] else stack)
  }

  function SlotOf(objs: Objs, th: Id, level: nat): Ref {
    if th in objs && objs[th].b.Thread? && level < |objs[th].b.stack| then objs[th].b.stack[level] else None
  }

  /** With the stale part of a thread's stack. */
  function AllVals(objs: Objs, x: Id): seq<Ref>
    requires x in objs
  {
    if objs[x].b.Thread? then [objs[x].b.env] + objs[x].b.stack else Vals(objs, x)
  }

  predicate Points(objs: Objs, x: Id, y: Id) { x in objs && Some(y) in Vals(objs, x) }

  predicate Holds(objs: Objs, x: Id, y: Id) { x in objs && Some(y) in AllVals(objs, x) }

  function Roots(h: Heap): seq<Ref> { [Some(h.main), Some(h.running), Some(h.registry)] + h.mt }

  ghost predicate PathTo(h: Heap, p: seq<Id>) {
    && |p| > 0 && Some(p[0]) in Roots(h)
    && forall i :: 0 <= i < |p| - 1 ==> Points(h.objs, p[i], p[i + 1])
  }

  /** Strongly reachable. */
  ghost predicate Reach(h: Heap, x: Id) {
    exists p: seq<Id> :: PathTo(h, p) && p[|p| - 1] == x
  }

  // ----- the shape of the heap -----

  predicate Distinct(s: seq<Id>) { forall i, j :: 0 <= i < j < |s| ==> s[i] != s[j] }

  /** Objects linked in rootgc. */
  predicate Rooted(b: Body) { !b.Str? && !b.Open? }

  ghost predicate RootOk(h: Heap) {
    && Distinct(h.rootgc)
    && (forall x :: x in h.rootgc <==> x in h.objs && Rooted(h.objs[x].b))
  }

  /** Every string is in the bucket of its hash, and equal strings are one object. */
  ghost predicate StringsOk(h: Heap, hash: string -> nat) {
    && |h.strt| > 0 && (forall i :: 0 <= i < |h.strt| ==> Distinct(h.strt[i]))
    && (forall i, x :: 0 <= i < |h.strt| && x in h.strt[i] ==>
      x in h.objs && h.objs[x].b.Str? && hash(h.objs[x].b.text) % |h.strt| == i)
    && (forall x :: x in h.objs && h.objs[x].b.Str? ==> x in h.strt[hash(h.objs[x].b.text) % |h.strt|])
    && (forall x, y :: x in h.objs && y in h.objs && h.objs[x].b.Str? && h.objs[x].b == h.objs[y].b ==> x == y)
  }

  /** The open upvalue u belongs to its thread, below the top of the stack. */
  predicate OpenAt(objs: Objs, u: Id, th: Id) {
    && u in objs && objs[u].b.Open? && objs[u].b.th == th
    && th in objs && objs[th].b.Thread? && u in objs[th].b.open
    && objs[u].b.level < objs[th].b.top <= |objs[th].b.stack|
  }

  function LevelOf(objs: Objs, u: Id): int { if u in objs && objs[u].b.Open? then objs[u].b.level else -1 }

  /** A thread's open upvalues, strictly decreasing by stack level: at most one per slot. */
  ghost predicate OpenList(objs: Objs, th: Id) {
    && th in objs && objs[th].b.Thread?
    && (forall u :: u in objs[th].b.open ==> OpenAt(objs, u, th))
    && (forall i, j :: 0 <= i < j < |objs[th].b.open| ==>
          LevelOf(objs, objs[th].b.open[i]) > LevelOf(objs, objs[th].b.open[j]))
  }

  ghost predicate UpvalsOk(h: Heap) {
    && Distinct(h.uvhead)
    && (forall u :: u in h.uvhead <==> u in h.objs && h.objs[u].b.Open?)
    && (forall u :: u in h.objs && h.objs[u].b.Open? ==> OpenAt(h.objs, u, h.objs[u].b.th))
    && (forall th :: th in h.objs && h.objs[th].b.Thread? ==> OpenList(h.objs, th))
  }

  /** Colours an object can have; only strings and the main thread are fixed. */
  predicate ObjOk(h: Heap, x: Id)
    requires x in h.objs
  {
    var o := h.objs[x];
    && x < h.next && MarkOk(o.m)
    && (o.b.Open? || o.b.Thread? || o.b.Str? ==> !o.m.black)
    && (o.b.Thread? ==> o.b.top <= |o.b.stack|)
    && (o.m.fixed ==> o.b.Str? || x == h.main)
  }

  ghost predicate ObjsOk(h: Heap) {
    && (forall x :: x in h.objs ==> ObjOk(h, x))
    && IsThread(h.objs, h.main) && IsThread(h.objs, h.running)
  }

  predicate IsThread(objs: Objs, x: Id) { x in objs && objs[x].b.Thread? }

  ghost predicate Shape(h: Heap, hash: string -> nat) {
    RootOk(h) && StringsOk(h, hash) && UpvalsOk(h) && ObjsOk(h)
  }

  // ----- safety -----

  /** Allocated, and not condemned by the last mark phase. */
  predicate Live(h: Heap, x: Id) { x in h.objs && !IsDead(h.objs[x].m, h.cw) }

  ghost predicate LiveRef(h: Heap, r: Ref) { r.Some? ==> Live(h, r.value) }

  /** No live object refers to a dead or freed one. */
  ghost predicate LiveAt(h: Heap, x: Id) {
    Live(h, x) ==> forall y :: Holds(h.objs, x, y) ==> Live(h, y)
  }

  ghost predicate Safe(h: Heap) {
    && (forall r :: r in Roots(h) ==> LiveRef(h, r))
    && forall x :: LiveAt(h, x)
  }

  // ----- colours in each phase -----

  /** What is known of the objects marked so far: in the incremental phase; once the
      open upvalues have been remarked; in the last propagation of the atomic step. */
  datatype Stage = Incremental | Remarked | Last

  predicate Marked(objs: Objs, x: Id) { x in objs && !IsWhite(objs[x].m) }

  ghost predicate AllMarked(objs: Objs, x: Id) {
    forall y :: Holds(objs, x, y) ==> Marked(objs, y)
  }

  /** A marked object is black and refers to no white one, or it is still to be visited. */
  ghost predicate Covered(h: Heap, x: Id, stage: Stage)
    requires x in h.objs
  {
    var o := h.objs[x];
    || IsWhite(o.m)
    || o.b.Str?
    || x in h.gray
    || (stage != Last && x in h.grayagain)
    || (stage == Incremental && o.b.Open?)
    || ((o.m.black || o.b.Open? || (stage == Last && x in h.grayagain)) && AllMarked(h.objs, x))
  }

  predicate Listed(b: Body) { b.Func? || b.Table? || b.Proto? || b.Thread? }

  /** The gray lists hold gray objects, each once. */
  ghost predicate GrayLists(h: Heap) {
    && Distinct(h.gray + h.grayagain)
    && (forall x :: x in h.gray || x in h.grayagain ==> x in h.objs && IsGray(h.objs[x].m) && Listed(h.objs[x].b))
  }

  /** A set of objects that nothing in it refers out of. */
  ghost predicate ClosedSet(objs: Objs, A: set<Id>) {
    && (forall x :: x in A ==> x in objs)
    && (forall x, y :: x in A && Points(objs, x, y) ==> y in A)
  }

  /** The state of a mark phase: nothing is dead, every marked object outside E is
      covered, and only objects of the closed set A have been marked. */
  ghost predicate Marking(h: Heap, E: set<Id>, stage: Stage, A: set<Id>) {
    && GrayLists(h) && ClosedSet(h.objs, A)
    && (forall x :: x in h.objs ==> !IsDead(h.objs[x].m, h.cw) && MarkOk(h.objs[x].m))
    && (forall x :: x in h.objs && x !in E ==> Covered(h, x, stage))
    && (forall x :: x in h.objs && !IsWhite(h.objs[x].m) ==> x in A)
  }

  ghost predicate AllClean(h: Heap) {
    forall x :: x in h.objs ==> Clean(h.objs[x].m, h.cw)
  }

  ghost predicate CleanId(h: Heap, x: Id) {
    x in h.objs ==> Clean(h.objs[x].m, h.cw)
  }

  /** What a sweep has been through: the first buckets; all strings, the first part of
      rootgc, and the open upvalues of the threads there. */
  ghost predicate Swept(h: Heap) {
    match h.gcstate
    case GCSsweepstring =>
      h.sweepstrgc < |h.strt| && h.sweepgc == 0
      && forall i, x :: 0 <= i < h.sweepstrgc && i < |h.strt| && x in h.strt[i] ==> CleanId(h, x)
    case GCSsweep =>
      && h.sweepgc <= |h.rootgc|
      && (forall x :: x in h.objs && h.objs[x].b.Str? ==> CleanId(h, x))
      && SweptRoot(h, h.sweepgc)
    case _ => true
  }

  ghost predicate SweptRoot(h: Heap, n: nat) {
    forall i :: 0 <= i < n && i < |h.rootgc| ==> SweptObj(h, h.rootgc[i])
  }

  ghost predicate SweptObj(h: Heap, x: Id) {
    CleanId(h, x) && (IsThread(h.objs, x) ==> forall u :: u in h.objs[x].b.open ==> CleanId(h, u))
  }

  ghost predicate Phase(h: Heap) {
    match h.gcstate
    case GCSpause => AllClean(h)
    case GCSpropagate =>
      && Marking(h, {}, Incremental, h.objs.Keys)
      && Marked(h.objs, h.main) && Marked(h.objs, h.registry)
    case GCSsweepstring => Swept(h)
    case GCSsweep => Swept(h)
    case GCSfinalize => AllClean(h)
  }

  ghost predicate Inv(h: Heap, hash: string -> nat) {
    Shape(h, hash) && Safe(h) && Phase(h)
  }

  // ----- reachable objects are allocated -----

  lemma {:induction false} PathSafe(h: Heap, p: seq<Id>, i: nat)
    requires Safe(h) && PathTo(h, p) && i < |p|
    ensures Live(h, p[i])
  {
    if i == 0 {
      assert LiveRef(h, Some(p[0]));
    } else {
      PathSafe(h, p, i - 1);
      assert LiveAt(h, p[i - 1]) && Points(h.objs, p[i - 1], p[i]);
      PointsHolds(h.objs, p[i - 1], p[i]);
    }
  }

  lemma PointsHolds(objs: Objs, x: Id, y: Id)
    requires Points(objs, x, y)
    ensures Holds(objs, x, y)
  {
  }

  /** No reachable object is dead or freed. */
  lemma ReachSafe(h: Heap, x: Id)
    requires Safe(h) && Reach(h, x)
    ensures Live(h, x)
  {
    var p :| PathTo(h, p) && p[|p| - 1] == x;
    PathSafe(h, p, |p| - 1);
  }

  lemma ReachRoot(h: Heap, x: Id)
    requires Some(x) in Roots(h)
    ensures Reach(h, x)
  {
    assert PathTo(h, [x]);
  }

  lemma ReachStep(h: Heap, x: Id, y: Id)
    requires Reach(h, x) && Points(h.objs, x, y)
    ensures Reach(h, y)
  {
    var p :| PathTo(h, p) && p[|p| - 1] == x;
    var q := p + [y];
    forall i | 0 <= i < |q| - 1 ensures Points(h.objs, q[i], q[i + 1]) {
      assert i < |p| - 1 ==> Points(h.objs, p[i], p[i + 1]);
    }
    assert PathTo(h, q) && q[|q| - 1] == y;
  }
}
