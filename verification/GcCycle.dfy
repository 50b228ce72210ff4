/** A whole incremental collection: its steps, with the program running in between. */
module GcCycle {
  import opened GcHeap
  import opened GcSweep
  import opened GcStep
  import opened GcMoves
  import opened GcProgram

  /** In a cycle that began with the objects F fixed, nothing but A comes through. */
  ghost predicate InCycle(h: Heap, A: iset<Id>, F: set<Id>) {
    && Touching(h, A)
    && (forall x: Id :: x in h.objs && h.objs[x].m.fixed ==> x in A || x in F)
    && match h.gcstate
       case GCSpause => true
       case GCSpropagate => MarkedIn(h, A)
       case _ => OnlyLive(h, A, F)
  }

  ghost predicate OnlyLive(h: Heap, A: iset<Id>, F: set<Id>) { forall x: Id :: Live(h, x) ==> x in A || x in F }

  /** What the program does with the objects of A. */
  lemma CycleMove(h: Heap, h': Heap, A: iset<Id>, F: set<Id>)
    requires InCycle(h, A, F) && Within(h, h', A)
    ensures InCycle(h', A, F)
  {
    TouchingStays(h, h', A);
    hide Points, Roots;
    if h.gcstate.GCSpropagate? { assert MarkedIn(h', A); }
  }

  lemma SameTouching(h: Heap, h': Heap, A: iset<Id>)
    requires Touching(h, A) && Same(h, h') && h'.next == h.next
    ensures Touching(h', A)
  {
    assert Roots(h') == Roots(h);
    hide Roots, Vals;
    forall x: Id, y: Id | x in A && Points(h'.objs, x, y) ensures y in A { assert Points(h.objs, x, y); }
  }

  lemma LeastIn(h: Heap, A: iset<Id>, F: set<Id>)
    requires InCycle(h, A, F)
    ensures h.gcstate.GCSpause? || h.gcstate.GCSpropagate? ==> forall x :: x in Least(h) ==> x in A
  {
    if h.gcstate.GCSpause? || h.gcstate.GCSpropagate? {
      assert ScopeIn(h, A);
      hide ScopeIn;
      forall x | x in Least(h) ensures x in A { assert InScopes(h, x); }
    }
  }

  lemma StepMarks(h: Heap, h': Heap, S: set<Id>, A: iset<Id>, F: set<Id>)
    requires StepResult(h, h', S) && (h.gcstate.GCSpause? || h.gcstate.GCSpropagate?) && forall x :: x in S ==> x in A
    ensures if h'.gcstate.GCSpropagate? then MarkedIn(h', A) else OnlyLive(h', A, F)
  {
  }

  lemma StepSweeps(h: Heap, h': Heap, S: set<Id>, A: iset<Id>, F: set<Id>)
    requires StepResult(h, h', S) && (h.gcstate.GCSsweepstring? || h.gcstate.GCSsweep?) && OnlyLive(h, A, F)
    requires forall x: Id :: x in h.objs && h.objs[x].m.fixed ==> x in A || x in F
    ensures OnlyLive(h', A, F) && !h'.gcstate.GCSpause? && !h'.gcstate.GCSpropagate?
  {
    forall x: Id | Live(h', x) ensures x in A || x in F { assert x in Kept(h') && x in Kept(h); }
  }

  lemma SameFixeds(h: Heap, h': Heap)
    requires Same(h, h')
    ensures forall x: Id :: x in h'.objs && h'.objs[x].m.fixed ==> x in h.objs && h.objs[x].m.fixed
  {
  }

  /** A collector step. */
  lemma CycleStep(h: Heap, h': Heap, A: iset<Id>, F: set<Id>)
    requires InCycle(h, A, F) && Took(h, Step, h')
    ensures InCycle(h', A, F)
  {
    SameTouching(h, h', A);
    SameFixeds(h, h');
    LeastIn(h, A, F);
    hide Touching, Least, Points, Roots, Same, OnlyDeadFreed;
    if h.gcstate.GCSfinalize? {
      assert h'.gcstate.GCSpause?;
    } else {
      hide OnlyLive, MarkedIn;
      if h.gcstate.GCSpause? || h.gcstate.GCSpropagate? {
        assert h'.gcstate.GCSpropagate? || h'.gcstate.GCSsweepstring?;
        hide StepResult;
        StepMarks(h, h', Least(h), A, F);
      } else {
        hide StepResult;
        StepSweeps(h, h', Least(h), A, F);
      }
    }
  }

  /** The end of a collection. */
  ghost predicate Ends(h: Heap, a: Action) { a.Collect? || (a.Step? && h.gcstate.GCSfinalize?) }

  lemma CycleEnd(h: Heap, a: Action, h': Heap, A: iset<Id>, F: set<Id>, hash: string -> nat)
    requires InCycle(h, A, F) && Inv(h, hash) && Took(h, a, h') && Ends(h, a)
    ensures forall x: Id :: x in h'.objs ==> x in A || x in F
  {
    if a.Step? {
      FinalClean(h, hash);
      CleanKeeps(h);
    } else {
      forall x: Id | x in h'.objs ensures x in A || x in F {
        if x in Reachable(h) { ReachIn(h, A, x); }
      }
    }
  }

  /** A full collection in the middle. */
  lemma CycleCollect(h: Heap, h': Heap, A: iset<Id>, F: set<Id>)
    requires InCycle(h, A, F) && Took(h, Collect, h')
    ensures InCycle(h', A, F)
  {
    assert Same(h, h') && h'.gcstate.GCSpause?;
    SameTouching(h, h', A);
    SameFixeds(h, h');
    hide Touching, Survivors, Reachable, Fixed;
  }

  lemma CycleTook(h: Heap, a: Action, h': Heap, A: iset<Id>, F: set<Id>)
    requires InCycle(h, A, F) && Took(h, a, h') && Revived(h, a) <= A
    ensures InCycle(h', A, F)
  {
    hide Revived, Touching, Touched, Within, StepResult, Same;
    if a.Step? {
      CycleStep(h, h', A, F);
    } else if a.Collect? {
      CycleCollect(h, h', A, F);
    } else {
      assert Touching(h, A);
      TouchedLeast(h, a, A);
      WithinMore(h, h', Touched(h, a), A);
      CycleMove(h, h', A, F);
    }
  }

  ghost predicate NotRevived(hs: seq<Heap>, actions: seq<Action>, n: nat, A: iset<Id>) {
    forall i :: 0 <= i < n && i < |actions| && i < |hs| ==> Revived(hs[i], actions[i]) <= A
  }

  lemma {:induction false} CycleAt(hs: seq<Heap>, actions: seq<Action>, i: nat, A: iset<Id>, hash: string -> nat)
    requires Trace(hs, actions, hash) && hs[0].gcstate.GCSpause? && Touching(hs[0], A) && i <= |actions|
    requires NotRevived(hs, actions, i, A)
    ensures InCycle(hs[i], A, Fixed(hs[0]))
  {
    hide Inv, Took, Revived, Touching;
    if i == 0 {
      assert InCycle(hs[0], A, Fixed(hs[0]));
    } else {
      CycleAt(hs, actions, i - 1, A, hash);
      assert Took(hs[i - 1], actions[i - 1], hs[i - 1 + 1]);
      CycleTook(hs[i - 1], actions[i - 1], hs[i], A, Fixed(hs[0]));
    }
  }

  /** A collection that runs from start to end, with any actions of the program in between, leaves
      only what those actions handled and what was fixed at the start. */
  lemma CycleLeaves(hs: seq<Heap>, actions: seq<Action>, i: nat, A: iset<Id>, hash: string -> nat)
    requires Trace(hs, actions, hash) && hs[0].gcstate.GCSpause? && Touching(hs[0], A)
    requires i < |actions| && Ends(hs[i], actions[i]) && NotRevived(hs, actions, i, A)
    ensures forall x: Id :: x in hs[i + 1].objs ==> x in A || x in Fixed(hs[0])
  {
    CycleAt(hs, actions, i, A, hash);
    hide Inv, Took, InCycle;
    assert Took(hs[i], actions[i], hs[i + 1]);
    CycleEnd(hs[i], actions[i], hs[i + 1], A, Fixed(hs[0]), hash);
  }

  /** What is reachable in h, or not yet created. */
  ghost function Usable(h: Heap): iset<Id> { iset x: Id | x >= h.next || Reach(h, x) }

  /** So it frees every object that was unreachable and not fixed when it started, unless the
      program made an equal string, captured the slot of a garbage upvalue or raised the top
      over a garbage value. */
  lemma GarbageFreed(hs: seq<Heap>, actions: seq<Action>, i: nat, x: Id, hash: string -> nat)
    requires Trace(hs, actions, hash) && hs[0].gcstate.GCSpause? && i < |actions|
    requires Ends(hs[i], actions[i]) && NotRevived(hs, actions, i, Usable(hs[0]))
    requires x in hs[0].objs && !Reach(hs[0], x) && !hs[0].objs[x].m.fixed
    ensures x !in hs[i + 1].objs
  {
    hide Took, Reach, Inv, NotRevived, Ends, Touching;
    ReachTouching(hs[0], Usable(hs[0]), hash);
    IdsBelow(hs[0], hash);
    assert x !in Usable(hs[0]) && x !in Fixed(hs[0]);
    hide Usable, Fixed;
    CycleLeaves(hs, actions, i, Usable(hs[0]), hash);
  }
}
