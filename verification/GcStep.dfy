/** What one step of the collector does to the whole heap. */
module GcStep {
  import opened Wrappers
  import opened GcHeap
  import opened GcMark
  import opened GcAtomic
  import opened GcSweep
  import opened GcUpvals

  /** Nothing the program can see has changed: the same objects, references and roots. */
  ghost predicate SameHeap(h: Heap, h': Heap) {
    && h'.objs.Keys == h.objs.Keys && Roots(h') == Roots(h)
    && (forall x :: x in h.objs ==> h'.objs[x].m.fixed == h.objs[x].m.fixed && Vals(h'.objs, x) == Vals(h.objs, x))
    && (forall x :: x in h.objs ==> SameContent(h.objs[x].b, h'.objs[x].b))
    && (forall x :: x in h.objs && h.objs[x].b.Open? ==> h'.objs[x].b == h.objs[x].b)
  }

  /** No upvalue of a reachable thread is closed. */
  ghost predicate OpenStays(h: Heap, h': Heap) {
    forall x :: x in h'.objs && x in h.objs && h.objs[x].b.Open? && Reach(h, h.objs[x].b.th) ==>
      h'.objs[x].b == h.objs[x].b
  }

  /** The survivors of a sweep keep their references. */
  ghost predicate Survivors(h: Heap, h': Heap) {
    && Roots(h') == Roots(h)
    && (forall x :: x in h'.objs ==>
      x in h.objs && h'.objs[x].m.fixed == h.objs[x].m.fixed && Vals(h'.objs, x) == Vals(h.objs, x))
    && (forall x :: x in h'.objs ==> SameContent(h.objs[x].b, h'.objs[x].b))
    && OpenStays(h, h')
  }

  ghost predicate Same(h: Heap, h': Heap) { SameHeap(h, h') || Survivors(h, h') }

  /** Either way, whatever is left is as it was. */
  lemma SameSurvivors(h0: Heap, h: Heap, h': Heap)
    requires Survivors(h0, h) && Same(h, h') && forall x :: Reach(h0, x) ==> Reach(h, x)
    ensures Survivors(h0, h')
  {
    hide Reach;
  }

  lemma Restarted(h0: Heap, h: Heap, h': Heap)
    requires Survivors(h0, h) && SameHeap(h, h')
    ensures Survivors(h0, h')
  {
    hide Reach;
  }

  lemma SameObjs(h: Heap, h': Heap)
    requires h'.objs == h.objs && Roots(h') == Roots(h)
    ensures SameHeap(h, h') && Survivors(h, h')
  {
  }

  lemma SpreadSame(h: Heap, h': Heap, h2: Heap)
    requires Spread(h, h') && h2.objs == h'.objs && Roots(h2) == Roots(h')
    ensures SameHeap(h, h2)
  {
  }

  ghost predicate NoDead(h: Heap) { forall x :: x in h.objs ==> !IsDead(h.objs[x].m, h.cw) }

  lemma SpreadSafe(h: Heap, h': Heap)
    requires Safe(h) && Spread(h, h') && NoDead(h) && NoDead(h')
    ensures Safe(h')
  {
    assert forall x :: Live(h, x) <==> Live(h', x);
    assert Roots(h') == Roots(h);
    RootsKept(h, h');
    SafeMono(h, h');
  }

  lemma MarkingNoDead(h: Heap, E: set<Id>, stage: Stage, A: set<Id>)
    requires Marking(h, E, stage, A)
    ensures NoDead(h)
  {
  }

  lemma CleanNoDead(h: Heap)
    requires AllClean(h)
    ensures NoDead(h)
  {
  }

  /** A propagating heap, marked within the scope A, meets the invariant. */
  lemma Propagating(h: Heap, A: set<Id>, hash: string -> nat)
    requires h.gcstate.GCSpropagate? && Marking(h, {}, Incremental, A) && Shape(h, hash) && Safe(h)
    requires Marked(h.objs, h.main) && Marked(h.objs, h.registry)
    ensures Inv(h, hash)
  {
    hide Shape, Safe, Marking;
    MarkingNoDead(h, {}, Incremental, A);
    WholeScope(h);
    MarkedAlloc(h);
    Widen(h, {}, Incremental, A, h.objs.Keys);
  }

  lemma MarkedAlloc(h: Heap)
    ensures forall x :: Marked(h.objs, x) ==> x in h.objs.Keys
  {
  }

  lemma ScopeKept(h: Heap, h': Heap, A: set<Id>)
    requires Scope(h, A) && SameHeap(h, h') && Marking(h', {}, Incremental, A)
    ensures Scope(h', A)
  {
    hide Marking;
    MarkedScope(h', A);
  }

  lemma MarkedScope(h: Heap, A: set<Id>)
    requires Marking(h, {}, Incremental, A)
    ensures ClosedSet(h.objs, A) && forall x :: Marked(h.objs, x) ==> x in A
  {
  }

  /** Marking within a scope, recovered from the invariant. */
  lemma InScope(h: Heap, A: set<Id>, hash: string -> nat)
    requires Inv(h, hash) && h.gcstate.GCSpropagate? && Scope(h, A)
    ensures Marking(h, {}, Incremental, A)
  {
    Widen(h, {}, Incremental, h.objs.Keys, A);
  }

  // ----- the ends of the sweep phases -----

  /** All buckets swept: all strings are clean. */
  lemma StringsClean(h: Heap, hash: string -> nat)
    requires Sound(h, hash) && forall i, x :: 0 <= i < |h.strt| && x in h.strt[i] ==> CleanId(h, x)
    ensures forall x :: x in h.objs && h.objs[x].b.Str? ==> CleanId(h, x)
  {
    forall x | x in h.objs && h.objs[x].b.Str? ensures CleanId(h, x) {
      assert StringsOk(h, hash);
      assert x in h.strt[hash(h.objs[x].b.text) % |h.strt|];
    }
  }

  /** All of rootgc swept: everything is clean. */
  lemma AllSwept(h: Heap, hash: string -> nat)
    requires Sweeping(h, hash) && h.sweepgc == |h.rootgc|
    ensures AllClean(h)
  {
    forall x | x in h.objs ensures Clean(h.objs[x].m, h.cw) {
      if h.objs[x].b.Str? {
        assert CleanId(h, x);
      } else if h.objs[x].b.Open? {
        assert UpvalsOk(h) && OpenAt(h.objs, x, h.objs[x].b.th);
        RootSwept(h, h.objs[x].b.th, hash);
      } else {
        RootSwept(h, x, hash);
      }
    }
  }

  lemma RootSwept(h: Heap, x: Id, hash: string -> nat)
    requires Sweeping(h, hash) && h.sweepgc == |h.rootgc| && x in h.objs && Rooted(h.objs[x].b)
    ensures SweptObj(h, x)
  {
    assert RootOk(h) && x in h.rootgc;
    var i :| 0 <= i < |h.rootgc| && h.rootgc[i] == x;
    assert SweptObj(h, h.rootgc[i]);
  }

  /** Shape and safety do not depend on the collector's own position. */
  lemma SoundState(h: Heap, h': Heap, hash: string -> nat)
    requires Sound(h, hash)
    requires h' == h.(gcstate := h'.gcstate, sweepstrgc := h'.sweepstrgc, sweepgc := h'.sweepgc, gray := h'.gray, grayagain := h'.grayagain)
    ensures Sound(h', hash) && Kept(h') == Kept(h) && (forall x :: CleanId(h', x) == CleanId(h, x))
  {
    assert Shape(h', hash) by { ShapeKept(h, h', hash) by { ObjsOkSame(h, h'); } }
    SameSafe(h, h');
  }

  lemma SweepSurvivors(h: Heap, h': Heap, h2: Heap)
    requires Safe(h) && SweepStep(h, h') && OpenStep(h, h') && h2.objs == h'.objs && Roots(h2) == Roots(h')
    ensures Survivors(h, h2)
  {
    DoomedUnreached(h);
    hide Reach, Safe;
  }

  lemma DoomedUnreached(h: Heap)
    requires Safe(h)
    ensures forall x: Id :: Reach(h, x) ==> !Doomed(h, x)
  {
    forall x: Id | Reach(h, x) ensures !Doomed(h, x) { ReachSafe(h, x); }
  }

  /** Whatever a step frees was dead, hence unreachable, and not fixed. */
  ghost predicate OnlyDeadFreed(h: Heap, h': Heap) {
    forall x :: x in h.objs && x !in h'.objs ==> !Live(h, x) && !h.objs[x].m.fixed
  }

  lemma SafeState(h: Heap, h': Heap)
    requires Safe(h) && h' == h.(gcstate := h'.gcstate)
    ensures Safe(h')
  {
    SameSafe(h, h');
  }

  lemma SameHeapState(h: Heap, h': Heap)
    requires SameHeap(h, h')
    ensures SameHeap(h.(gcstate := GCSpause), h')
  {
  }

  lemma StaysMarkedAll(h: Heap, h': Heap)
    requires Spread(h, h')
    ensures forall x :: Marked(h.objs, x) ==> Marked(h'.objs, x)
  {
  }

  lemma BucketsSwept(h: Heap, h': Heap)
    requires SweepStep(h, h') && Swept(h) && h.gcstate.GCSsweepstring?
    requires |h'.strt| == |h.strt| && (forall k :: 0 <= k < |h.strt| && k != h.sweepstrgc ==> h'.strt[k] == h.strt[k])
    requires forall x :: x in h'.strt[h.sweepstrgc] ==> CleanId(h', x)
    ensures forall i, x :: 0 <= i <= h.sweepstrgc && x in h'.strt[i] ==> CleanId(h', x)
  {
    hide SweepStep;
    forall i, x: Id | 0 <= i <= h.sweepstrgc && x in h'.strt[i] ensures CleanId(h', x) {
      if i < h.sweepstrgc {
        assert x in h.strt[i];
        CleanKept(h, h', x);
      }
    }
  }

  lemma KindsSame(h: Heap, h': Heap)
    requires h'.objs == h.objs && h'.cw == h.cw
    ensures forall x :: CleanId(h', x) == CleanId(h, x)
  {
  }

  lemma CleanSame(h: Heap, h': Heap)
    requires AllClean(h) && h'.objs == h.objs && h'.cw == h.cw
    ensures AllClean(h')
  {
  }

  /** Before the flip every allocated object is in scope. */
  lemma PauseScope(h: Heap, hash: string -> nat)
    requires Inv(h, hash) && (h.gcstate.GCSpause? || h.gcstate.GCSpropagate?)
    ensures Scope(h, h.objs.Keys)
  {
    WholeScope(h);
    MarkedAlloc(h);
  }

  lemma SameFrees(h: Heap, h': Heap)
    requires SameHeap(h, h')
    ensures OnlyDeadFreed(h, h')
  {
  }

  lemma KeptFrees(h: Heap, h': Heap)
    requires Survivors(h, h') && Kept(h') == Kept(h)
    ensures OnlyDeadFreed(h, h')
  {
    forall x | x in h.objs && x !in h'.objs ensures !Live(h, x) && !h.objs[x].m.fixed {
      assert x !in Kept(h');
    }
  }

  lemma StateSame(h: Heap, h': Heap)
    requires h' == h.(gcstate := h'.gcstate)
    ensures SameHeap(h, h') && OnlyDeadFreed(h, h')
  {
  }

  // ----- what one step achieves -----

  ghost predicate LiveIn(h: Heap, A: set<Id>) { forall x :: Live(h, x) ==> x in A }

  ghost predicate StepResult(h: Heap, h': Heap, A: set<Id>) {
    match h.gcstate
    case GCSpause => h'.gcstate.GCSpropagate? && Scope(h', A) && SameHeap(h, h')
    case GCSpropagate =>
      && SameHeap(h, h')
      && (if h'.gcstate.GCSpropagate? then Scope(h', A) && Work(h') < Work(h) else h'.gcstate.GCSsweepstring? && LiveIn(h', A))
    case GCSsweepstring =>
      && Survivors(h, h') && Kept(h') == Kept(h)
      && (if h'.gcstate.GCSsweepstring? then h'.sweepstrgc == h.sweepstrgc + 1 < |h'.strt| == |h.strt| else h'.gcstate.GCSsweep?)
    case GCSsweep =>
      && Survivors(h, h') && Kept(h') == Kept(h)
      && (if h'.gcstate.GCSsweep? then 0 <= Left(h') < Left(h) else h'.gcstate.GCSfinalize?)
    case GCSfinalize => h' == h.(gcstate := GCSpause)
  }

  /** The phases in order, and what is left to do in each. */
  function Rank(s: GcState): nat {
    match s
    case GCSpropagate => 4
    case GCSsweepstring => 3
    case GCSsweep => 2
    case GCSfinalize => 1
    case GCSpause => 0
  }

  ghost function Rest(h: Heap): int {
    match h.gcstate
    case GCSpropagate => Work(h)
    case GCSsweepstring => |h.strt| - h.sweepstrgc
    case GCSsweep => Left(h)
    case _ => 0
  }

  lemma RestPositive(h: Heap, hash: string -> nat)
    requires Inv(h, hash)
    ensures Rest(h) >= 0
  {
  }

  lemma Progress(h: Heap, h': Heap, A: set<Id>)
    requires StepResult(h, h', A) && !h.gcstate.GCSpause?
    ensures Rank(h'.gcstate) < Rank(h.gcstate) || (Rank(h'.gcstate) == Rank(h.gcstate) && Rest(h') < Rest(h))
  {
  }

  lemma StepFrees(h: Heap, h': Heap, A: set<Id>)
    requires StepResult(h, h', A)
    ensures Same(h, h') && OnlyDeadFreed(h, h')
  {
    hide Scope, Kept, Survivors, SameHeap;
    match h.gcstate
    case GCSpause => SameFrees(h, h');
    case GCSpropagate => SameFrees(h, h');
    case GCSsweepstring => KeptFrees(h, h');
    case GCSsweep => KeptFrees(h, h');
    case GCSfinalize => StateSame(h, h');
  }

  // ----- reachability across steps -----

  ghost function Reachable(h: Heap): set<Id> { set x | x in h.objs && Reach(h, x) }

  ghost function Fixed(h: Heap): set<Id> { set x | x in h.objs && h.objs[x].m.fixed }

  lemma {:induction false} PathKept(h: Heap, h': Heap, p: seq<Id>, i: nat)
    requires Safe(h) && Same(h, h') && OnlyDeadFreed(h, h') && PathTo(h, p) && i < |p|
    ensures Live(h, p[i]) && p[i] in h'.objs
  {
    PathSafe(h, p, i);
  }

  /** A collector step changes no reachability. */
  lemma ReachKept(h: Heap, h': Heap, x: Id)
    requires Safe(h) && Same(h, h') && OnlyDeadFreed(h, h')
    ensures Reach(h, x) <==> Reach(h', x)
  {
    if Reach(h, x) {
      var p :| PathTo(h, p) && p[|p| - 1] == x;
      forall i | 0 <= i < |p| - 1 ensures Points(h'.objs, p[i], p[i + 1]) {
        assert Points(h.objs, p[i], p[i + 1]);
        PathKept(h, h', p, i);
      }
      assert PathTo(h', p);
    }
    if Reach(h', x) {
      var p :| PathTo(h', p) && p[|p| - 1] == x;
      forall i | 0 <= i < |p| - 1 ensures Points(h.objs, p[i], p[i + 1]) {
        assert Points(h'.objs, p[i], p[i + 1]);
      }
      assert PathTo(h, p);
    }
  }

  lemma ReachableKept(h: Heap, h': Heap)
    requires Safe(h) && Same(h, h') && OnlyDeadFreed(h, h')
    ensures Reachable(h') == Reachable(h) && Fixed(h') == Fixed(h)
  {
    forall x ensures x in Reachable(h) <==> x in Reachable(h') {
      ReachKept(h, h', x);
      if Reach(h, x) { ReachSafe(h, x); }
    }
    forall x ensures x in Fixed(h) <==> x in Fixed(h') { }
  }

  lemma StillReached(h0: Heap, h: Heap, hash: string -> nat)
    requires Inv(h0, hash) && Reachable(h) == Reachable(h0)
    ensures forall x :: Reach(h0, x) ==> Reach(h, x)
  {
    forall x | Reach(h0, x) ensures Reach(h, x) {
      ReachSafe(h0, x);
      assert x in Reachable(h);
    }
  }

  /** The reachable objects are a scope. */
  lemma ReachScope(h: Heap)
    requires Safe(h) && !h.gcstate.GCSpropagate?
    ensures Scope(h, Reachable(h))
  {
    var A := Reachable(h);
    forall x, y | x in A && Points(h.objs, x, y) ensures y in A {
      ReachStep(h, x, y);
      ReachSafe(h, y);
    }
    forall r | r in Roots(h) && r.Some? ensures r.value in A {
      ReachRoot(h, r.value);
      ReachSafe(h, r.value);
    }
  }

  /** A clean heap keeps everything. */
  lemma CleanKeeps(h: Heap)
    requires AllClean(h)
    ensures Kept(h) == h.objs.Keys
  {
  }

  lemma NoDeadKeeps(h: Heap)
    requires NoDead(h)
    ensures Kept(h) == h.objs.Keys
  {
  }

  /** Once only reachable objects are live, a sweep keeps those and the fixed ones. */
  lemma LiveKept(h: Heap, A: set<Id>)
    requires Safe(h) && LiveIn(h, A) && A == Reachable(h)
    ensures Kept(h) == A + Fixed(h)
  {
    forall x ensures x in Kept(h) <==> x in A + Fixed(h) {
      if x in A { ReachSafe(h, x); }
    }
  }

  /** Giving up a mark phase: nothing is dead, so the sweep that follows frees nothing. */
  lemma Aborted(h: Heap, h': Heap, hash: string -> nat)
    requires Inv(h, hash) && (h.gcstate.GCSpause? || h.gcstate.GCSpropagate?)
    requires h' == h.(sweepstrgc := 0, sweepgc := 0, gray := [], grayagain := [], gcstate := GCSsweepstring)
    ensures Inv(h', hash) && Kept(h') == Kept(h) == h.objs.Keys
    ensures Reachable(h') == Reachable(h) && Fixed(h') == Fixed(h)
  {
    AbortedInv(h, h', hash);
    SameObjs(h, h');
    hide Inv, SameHeap, Survivors, Reachable, Fixed, Kept;
    SafeOf(h, hash);
    ReachableKept(h, h') by { SameFrees(h, h'); }
  }

  lemma SafeOf(h: Heap, hash: string -> nat)
    requires Inv(h, hash)
    ensures Safe(h)
  {
  }

  lemma AbortedInv(h: Heap, h': Heap, hash: string -> nat)
    requires Inv(h, hash) && (h.gcstate.GCSpause? || h.gcstate.GCSpropagate?)
    requires h' == h.(sweepstrgc := 0, sweepgc := 0, gray := [], grayagain := [], gcstate := GCSsweepstring)
    ensures Inv(h', hash) && Kept(h') == Kept(h) == h.objs.Keys
  {
    assert NoDead(h);
    NoDeadKeeps(h);
    assert |h.strt| > 0 by { ShapeBuckets(h, hash); }
    SoundState(h, h', hash);
  }

  lemma SweepKeeps(h: Heap, h': Heap, A: set<Id>)
    requires StepResult(h, h', A) && (h.gcstate.GCSsweepstring? || h.gcstate.GCSsweep?)
    ensures Kept(h') == Kept(h) && !h'.gcstate.GCSpause? && !h'.gcstate.GCSpropagate?
  {
  }

  lemma FinalClean(h: Heap, hash: string -> nat)
    requires Inv(h, hash) && (h.gcstate.GCSfinalize? || h.gcstate.GCSpause?)
    ensures AllClean(h)
  {
  }

  lemma PauseForm(h: Heap, A: set<Id>)
    requires Scope(h, A) && !h.gcstate.GCSpropagate?
    ensures Scope(h.(gcstate := GCSpause), A)
  {
  }

  lemma RestartSame(h: Heap, h': Heap)
    requires Safe(h) && SameHeap(h, h')
    ensures Reachable(h') == Reachable(h) && Fixed(h') == Fixed(h)
  {
    SameFrees(h, h');
    ReachableKept(h, h');
  }

  /** From the flip on, exactly the reachable and fixed objects are kept. */
  lemma CycleKeeps(h: Heap, h': Heap, A: set<Id>)
    requires StepResult(h, h', A) && !h.gcstate.GCSpause? && Safe(h') && A == Reachable(h')
    requires !h.gcstate.GCSpropagate? ==> Kept(h) == A + Fixed(h')
    ensures h'.gcstate.GCSpropagate? ==> Scope(h', A)
    ensures !h'.gcstate.GCSpropagate? ==> Kept(h') == A + Fixed(h')
  {
    hide Survivors, SameHeap, Scope, Safe, Reachable, Fixed;
    if h.gcstate.GCSpropagate? && !h'.gcstate.GCSpropagate? {
      LiveKept(h', A);
    }
  }
}
