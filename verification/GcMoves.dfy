/** What the program may do to garbage: nothing.  Between collector steps only objects of a
    given set V come to life, are newly referred to, or are marked on their account. */
module GcMoves {
  import opened Wrappers
  import opened GcHeap
  import opened GcMark
  import opened GcAtomic
  import opened GcSweep
  import opened GcUpvals
  import opened GcMutate
  import opened GcWrite
  import opened GcStack

  ghost predicate ClosedIn(h: Heap, A: iset<Id>) { forall x: Id, y: Id :: x in A && Points(h.objs, x, y) ==> y in A }

  ghost predicate MarkedIn(h: Heap, A: iset<Id>) { forall x: Id :: Marked(h.objs, x) ==> x in A }

  /** Whatever is newly marked is V, or follows from V and the objects marked before. */
  ghost predicate MarksWithin(h: Heap, h': Heap, V: iset<Id>) {
    forall A: iset<Id> :: ClosedIn(h, A) && V <= A && MarkedIn(h, A) ==> MarkedIn(h', A)
  }

  ghost predicate EdgesWithin(h: Heap, h': Heap, V: iset<Id>) {
    && (forall x: Id, y: Id :: Points(h'.objs, x, y) ==> Points(h.objs, x, y) || y in V)
    && (forall r :: r in Roots(h') && r.Some? ==> r in Roots(h) || r.value in V)
  }

  ghost predicate KeysWithin(h: Heap, h': Heap, V: iset<Id>) {
    && (forall x: Id :: x in h'.objs ==> x in h.objs || x in V)
    && (forall x: Id :: Live(h', x) ==> Live(h, x) || x in V)
    && (forall x: Id :: x in h'.objs && h'.objs[x].m.fixed ==> (x in h.objs && h.objs[x].m.fixed) || x in V)
    && (forall x: Id :: x in h.objs && h.objs[x].m.fixed ==> x in h'.objs && h'.objs[x].m.fixed)
    && (forall x: Id :: Live(h, x) ==> Live(h', x))
  }

  ghost predicate Within(h: Heap, h': Heap, V: iset<Id>) {
    && h'.gcstate == h.gcstate && h.next <= h'.next
    && KeysWithin(h, h', V) && EdgesWithin(h, h', V) && MarksWithin(h, h', V)
  }

  lemma WithinMore(h: Heap, h': Heap, V: iset<Id>, W: iset<Id>)
    requires Within(h, h', V) && V <= W
    ensures Within(h, h', W)
  {
  }

  lemma ClosedStays(h: Heap, h': Heap, V: iset<Id>, A: iset<Id>)
    requires EdgesWithin(h, h', V) && ClosedIn(h, A) && V <= A
    ensures ClosedIn(h', A)
  {
  }

  lemma WithinTrans(a: Heap, b: Heap, c: Heap, V: iset<Id>)
    requires Within(a, b, V) && Within(b, c, V)
    ensures Within(a, c, V)
  {
    assert KeysWithin(a, c, V);
    assert EdgesWithin(a, c, V) by { EdgesTrans(a, b, c, V); }
    hide KeysWithin;
    assert EdgesWithin(a, b, V) && MarksWithin(a, b, V) && MarksWithin(b, c, V);
    hide EdgesWithin, ClosedIn, MarkedIn;
    forall A: iset<Id> | ClosedIn(a, A) && V <= A && MarkedIn(a, A) ensures MarkedIn(c, A) {
      ClosedStays(a, b, V, A);
      assert MarkedIn(b, A);
    }
  }

  lemma EdgesTrans(a: Heap, b: Heap, c: Heap, V: iset<Id>)
    requires EdgesWithin(a, b, V) && EdgesWithin(b, c, V)
    ensures EdgesWithin(a, c, V)
  {
  }

  lemma WithinSelf(h: Heap, V: iset<Id>)
    ensures Within(h, h, V)
  {
  }

  /** Fewer or the same marks. */
  lemma NoMarks(h: Heap, h': Heap, V: iset<Id>)
    requires forall x: Id :: Marked(h'.objs, x) ==> Marked(h.objs, x)
    ensures MarksWithin(h, h', V)
  {
  }

  // ----- marking from outside a collector step -----

  /** x is in every closed set that has v and what is marked. */
  ghost predicate Follows(h: Heap, v: Id, x: Id) {
    forall A: iset<Id> :: ClosedIn(h, A) && v in A && MarkedIn(h, A) ==> x in A
  }

  ghost function Followers(h: Heap, v: Id): set<Id> { set x | x in h.objs && Follows(h, v, x) }

  lemma FollowersScope(h: Heap, E: set<Id>, v: Id)
    requires Marking(h, E, Incremental, h.objs.Keys) && v in h.objs
    ensures Marking(h, E, Incremental, Followers(h, v)) && v in Followers(h, v)
  {
    hide Covered, GrayLists;
    var A := Followers(h, v);
    forall x: Id, y: Id | x in A && Points(h.objs, x, y) ensures y in A {
      assert y in h.objs.Keys;
      forall B: iset<Id> | ClosedIn(h, B) && v in B && MarkedIn(h, B) ensures y in B { assert x in B; }
    }
    Widen(h, E, Incremental, h.objs.Keys, A);
  }

  lemma FollowersMarks(h: Heap, h': Heap, v: Id)
    requires forall x: Id :: Marked(h'.objs, x) ==> x in Followers(h, v)
    ensures MarksWithin(h, h', iset{v})
  {
    forall A: iset<Id> | ClosedIn(h, A) && iset{v} <= A && MarkedIn(h, A) ensures MarkedIn(h', A) {
      assert v in A;
      forall x: Id | Marked(h'.objs, x) ensures x in A { assert Follows(h, v, x); }
    }
  }

  /** Back to the scope of all objects. */
  lemma WidenBack(h: Heap, h': Heap, E: set<Id>, A: set<Id>)
    requires Marking(h, E, Incremental, h.objs.Keys) && MarkStep(h, h') && Marking(h', E, Incremental, A)
    ensures Marking(h', E, Incremental, h'.objs.Keys) && forall x: Id :: Marked(h'.objs, x) ==> x in A
  {
    hide Covered, GrayLists;
    assert SameBodies(h.objs, h'.objs);
    SamePoints(h.objs, h'.objs);
    Widen(h', E, Incremental, A, h'.objs.Keys);
  }

  ghost predicate SameFixed(h: Heap, h': Heap) {
    h'.objs.Keys == h.objs.Keys && forall x: Id :: x in h.objs ==> h'.objs[x].m.fixed == h.objs[x].m.fixed
  }

  lemma FixedStays(h: Heap, h': Heap)
    requires MarkStep(h, h')
    ensures SameFixed(h, h')
  {
  }

  // ----- stores -----

  function Target(v: Ref): iset<Id> { if v.Some? then iset{v.value} else iset{} }

  lemma StoreEdges(h: Heap, o: Id, b: Body, v: Ref, h': Heap)
    requires o in h.objs && Stores(h.objs[o].b, b, v) && SameBodies(SetBody(h.objs, o, b), h'.objs)
    requires Roots(h') == Roots(h)
    ensures EdgesWithin(h, h', Target(v))
  {
    forall x: Id, y: Id | Points(h'.objs, x, y)
      ensures Points(h.objs, x, y) || y in Target(v)
    {
      StoreEdge(h, o, b, v, h', x, y);
    }
  }

  lemma StoreEdge(h: Heap, o: Id, b: Body, v: Ref, h': Heap, x: Id, y: Id)
    requires o in h.objs && Stores(h.objs[o].b, b, v) && SameBodies(SetBody(h.objs, o, b), h'.objs)
    requires Points(h'.objs, x, y)
    ensures Points(h.objs, x, y) || y in Target(v)
  {
    assert h'.objs[x].b == if x == o then b else h.objs[x].b;
    if x == o {
      assert Some(y) in RefsOf(b) && Vals(h.objs, o) == RefsOf(h.objs[o].b);
    } else if h.objs[x].b.Open? {
      assert SlotOf(h'.objs, h.objs[x].b.th, h.objs[x].b.level) == SlotOf(h.objs, h.objs[x].b.th, h.objs[x].b.level);
    }
  }

  /** Marking v after the store of v. */
  lemma MarksAfter(h: Heap, o: Id, b: Body, v: Ref, h1: Heap, h2: Heap)
    requires o in h.objs && Stores(h.objs[o].b, b, v) && h1 == h.(objs := SetBody(h.objs, o, b)) && v.Some?
    requires MarksWithin(h1, h2, iset{v.value})
    ensures MarksWithin(h, h2, Target(v))
  {
    hide Stores;
    StoreEdges(h, o, b, v, h1);
    hide EdgesWithin, ClosedIn;
    forall A: iset<Id> | ClosedIn(h, A) && Target(v) <= A && MarkedIn(h, A) ensures MarkedIn(h2, A) {
      ClosedStays(h, h1, Target(v), A);
      assert MarkedIn(h1, A);
    }
  }

  /** A store handles nothing but the value stored. */
  lemma StoreWithin(h: Heap, o: Id, b: Body, v: Ref, h': Heap)
    requires o in h.objs && Stores(h.objs[o].b, b, v) && SameBodies(SetBody(h.objs, o, b), h'.objs)
    requires Roots(h') == Roots(h)
    requires h'.gcstate == h.gcstate && h'.next == h.next && SameFixed(h, h') && MarksWithin(h, h', Target(v))
    requires forall x :: Live(h', x) <==> Live(h, x)
    ensures Within(h, h', Target(v))
  {
    hide Stores, MarksWithin;
    StoreEdges(h, o, b, v, h');
  }

  // ----- closing upvalues -----

  /** The same references and marks. */
  ghost predicate Alike(h: Heap, h': Heap) {
    && (forall x: Id, y: Id :: Points(h'.objs, x, y) ==> Points(h.objs, x, y))
    && (forall x: Id :: Marked(h'.objs, x) ==> Marked(h.objs, x))
  }

  lemma AlikeMarks(h: Heap, h1: Heap, h2: Heap, V: iset<Id>)
    requires Alike(h, h1) && MarksWithin(h1, h2, V)
    ensures MarksWithin(h, h2, V)
  {
    forall A: iset<Id> | ClosedIn(h, A) && V <= A && MarkedIn(h, A) ensures MarkedIn(h2, A) {
      assert ClosedIn(h1, A) && MarkedIn(h1, A);
    }
  }

  /** What a marked object refers to follows from it. */
  lemma MarksOwn(h: Heap, h': Heap, u: Id, v: Id)
    requires Marked(h.objs, u) && Points(h.objs, u, v) && MarksWithin(h, h', iset{v})
    ensures MarksWithin(h, h', iset{})
  {
    forall A: iset<Id> | ClosedIn(h, A) && iset{} <= A && MarkedIn(h, A) ensures MarkedIn(h', A) {
      assert u in A && v in A;
    }
  }

  lemma CloseAlike(h: Heap, th: Id)
    requires UpvalsOk(h) && IsThread(h.objs, th) && h.objs[th].b.open != []
    requires h.objs[th].b.open[0] in h.objs && h.objs[h.objs[th].b.open[0]].b.Open?
    ensures CloseUv(h, th, 0).next == h.next && Alike(h, CloseUv(h, th, 0))
    ensures EdgesWithin(h, CloseUv(h, th, 0), iset{}) && SameFixed(h, CloseUv(h, th, 0))
    ensures forall x :: Live(CloseUv(h, th, 0), x) <==> Live(h, x)
  {
    hide UpvalsOk, Vals, AllVals;
    UvFacts(h, th, 0);
    var h' := CloseUv(h, th, 0);
    forall x: Id, y: Id | Points(h'.objs, x, y) ensures Points(h.objs, x, y) { UvVals(h, th, 0, x); }
  }

  lemma ShapeUpvals(h: Heap, hash: string -> nat)
    requires Inv(h, hash)
    ensures UpvalsOk(h)
  {
  }

  /** A dead upvalue goes. */
  lemma FreeWithin(h: Heap, th: Id, hash: string -> nat)
    requires Inv(h, hash) && IsThread(h.objs, th) && h.objs[th].b.open != []
    requires var u := h.objs[th].b.open[0]; u in h.objs && IsDead(h.objs[u].m, h.cw) && !h.objs[u].m.fixed
    ensures Within(h, FreeUv(h, th, 0), iset{})
  {
    hide Inv, UpvalsOk, Vals, AllVals, KeysWithin, EdgesWithin, MarksWithin;
    ShapeUpvals(h, hash);
    FreeEdges(h, th);
    FreeKeys(h, th);
    NoMarks(h, FreeUv(h, th, 0), iset{});
  }

  lemma FreeEdges(h: Heap, th: Id)
    requires UpvalsOk(h) && IsThread(h.objs, th) && h.objs[th].b.open != []
    ensures EdgesWithin(h, FreeUv(h, th, 0), iset{})
  {
    hide UpvalsOk, Vals, AllVals;
    UvFacts(h, th, 0);
    var h' := FreeUv(h, th, 0);
    forall x: Id, y: Id | Points(h'.objs, x, y) ensures Points(h.objs, x, y) { UvVals(h, th, 0, x); }
  }

  lemma FreeKeys(h: Heap, th: Id)
    requires IsThread(h.objs, th) && h.objs[th].b.open != []
    requires var u := h.objs[th].b.open[0]; u in h.objs && IsDead(h.objs[u].m, h.cw) && !h.objs[u].m.fixed
    ensures KeysWithin(h, FreeUv(h, th, 0), iset{})
    ensures forall x: Id :: Marked(FreeUv(h, th, 0).objs, x) ==> Marked(h.objs, x)
  {
  }

  /** Closing, then whatever luaC_linkupval does to the marks. */
  lemma LinkWithin(h: Heap, th: Id, h': Heap, hash: string -> nat)
    requires Inv(h, hash) && IsThread(h.objs, th) && h.objs[th].b.open != []
    requires h.objs[th].b.open[0] in h.objs && h.objs[h.objs[th].b.open[0]].b.Open?
    requires SameBodies(CloseUv(h, th, 0).objs, h'.objs) && SameFixed(CloseUv(h, th, 0), h')
    requires Roots(h') == Roots(h) && h'.gcstate == h.gcstate && h'.next == h.next
    requires MarksWithin(CloseUv(h, th, 0), h', iset{}) && forall x :: Live(h', x) <==> Live(CloseUv(h, th, 0), x)
    ensures Within(h, h', iset{})
  {
    hide Inv, UpvalsOk, MarksWithin, CloseUv, Vals, Roots;
    ShapeUpvals(h, hash);
    CloseAlike(h, th);
    AlikeMarks(h, CloseUv(h, th, 0), h', iset{});
    SamePoints(CloseUv(h, th, 0).objs, h'.objs);
  }

  /** Nothing that matters to the program depends on the colour of a gray object. */
  lemma WhiteLike(h: Heap, u: Id)
    requires u in h.objs && !h.objs[u].m.black
    ensures var h' := if IsGray(h.objs[u].m) then Whiten(h, u) else h;
      && SameBodies(h.objs, h'.objs) && SameFixed(h, h') && MarksWithin(h, h', iset{})
      && forall x :: Live(h', x) <==> Live(h, x)
  {
    NoMarks(h, if IsGray(h.objs[u].m) then Whiten(h, u) else h, iset{});
  }

  lemma ClosedLive(h: Heap, h1: Heap)
    requires h1.cw == h.cw && forall x :: x in h.objs ==> x in h1.objs && h1.objs[x].m == h.objs[x].m
    ensures forall x :: Live(h, x) ==> Live(h1, x)
  {
  }

  lemma BlackAlike(h: Heap, u: Id, h': Heap)
    requires u in h.objs && IsGray(h.objs[u].m)
    requires h' == h.(objs := h.objs[u := h.objs[u].(m := h.objs[u].m.(black := true))])
    ensures Alike(h, h') && Marked(h'.objs, u) && SameFixed(h, h')
  {
    SamePoints(h.objs, h'.objs);
  }

  // ----- new objects, and objects brought back -----

  /** The string with that text, and the ids not yet used. */
  ghost function StrIds(h: Heap, text: string): iset<Id> {
    iset x: Id | x >= h.next || (x in h.objs && h.objs[x].b == Str(text))
  }

  /** The upvalue of that slot, what the thread refers to, and the ids not yet used. */
  ghost function SlotIds(h: Heap, th: Id, level: nat): iset<Id> {
    iset x: Id | x >= h.next || (x in h.objs && h.objs[x].b == Open(th, level)) || Points(h.objs, th, x)
  }

  /** A new white object: it, and what it refers to. */
  lemma AddWithin(h: Heap, b: Body, h': Heap, V: iset<Id>, hash: string -> nat)
    requires Inv(h, hash) && h'.objs == Add(h, b).objs && Roots(h') == Roots(h) && h'.gcstate == h.gcstate
    requires h'.cw == h.cw && h.next <= h'.next
    requires h.next in V && forall y: Id :: Points(Add(h, b).objs, h.next, y) ==> y in V
    ensures Within(h, h', V)
  {
    hide Inv, KeysWithin, EdgesWithin, MarksWithin, Vals, Roots;
    FreshNext(h, hash);
    NoEdge(h, b, hash);
    assert EdgesWithin(h, h', V) by { AddEdges(h, b, h', V); }
    AddKeys(h, b, h', V);
    NoMarks(h, h', V);
  }

  lemma AddEdges(h: Heap, b: Body, h': Heap, V: iset<Id>)
    requires h'.objs == Add(h, b).objs && Roots(h') == Roots(h)
    requires forall x: Id, y: Id :: x != h.next && Points(Add(h, b).objs, x, y) ==> Points(h.objs, x, y)
    requires forall y: Id :: Points(Add(h, b).objs, h.next, y) ==> y in V
    ensures EdgesWithin(h, h', V)
  {
    hide Vals;
  }

  lemma FreshNext(h: Heap, hash: string -> nat)
    requires Inv(h, hash)
    ensures h.next !in h.objs
  {
    FreshId(h, hash);
  }

  lemma AddKeys(h: Heap, b: Body, h': Heap, V: iset<Id>)
    requires h'.objs == Add(h, b).objs && h'.cw == h.cw && h.next !in h.objs && h.next in V
    ensures KeysWithin(h, h', V) && forall x: Id :: Marked(h'.objs, x) ==> Marked(h.objs, x)
  {
  }

  /** No old object refers to the new one's id, nor does its presence change what they refer to. */
  lemma NoEdge(h: Heap, b: Body, hash: string -> nat)
    requires Inv(h, hash)
    ensures forall x: Id, y: Id :: x != h.next && Points(Add(h, b).objs, x, y) ==> Points(h.objs, x, y)
  {
    FreshId(h, hash);
  }

  lemma BackWithin(h: Heap, x: Id, V: iset<Id>)
    requires x in h.objs && IsDead(h.objs[x].m, h.cw) && MarkOk(h.objs[x].m) && x in V
    ensures Within(h, Resurrect(h, x), V)
  {
    SamePoints(h.objs, Resurrect(h, x).objs);
    NoMarks(h, Resurrect(h, x), V);
  }

  lemma AddStrWithin(h: Heap, text: string, i: nat, h': Heap, hash: string -> nat)
    requires Inv(h, hash) && i < |h.strt| && h' == AddStr(h, text, i).(strt := h'.strt)
    ensures Within(h, h', StrIds(h, text))
  {
    hide Inv;
    AddWithin(h, Str(text), h', StrIds(h, text), hash);
  }

  lemma AddOpenWithin(h: Heap, th: Id, level: nat, j: nat, hash: string -> nat)
    requires Inv(h, hash) && Place(h.objs, th, level, j) && level < h.objs[th].b.top <= |h.objs[th].b.stack|
    ensures Within(h, AddOpen(h, th, level, j), SlotIds(h, th, level))
  {
    hide Inv, KeysWithin, EdgesWithin, MarksWithin;
    var h', V := AddOpen(h, th, level, j), SlotIds(h, th, level);
    FreshNext(h, hash);
    NoEdge(h, Open(th, level), hash);
    forall x: Id, y: Id | Points(h'.objs, x, y)
      ensures Points(h.objs, x, y) || y in V
    {
      OpenEdge(h, th, level, j, x, y);
    }
    assert EdgesWithin(h, h', V) by { OpenEdges(h, h', V); }
    OpenKeys(h, th, level, j);
    NoMarks(h, h', V);
  }

  lemma OpenEdges(h: Heap, h': Heap, V: iset<Id>)
    requires Roots(h') == Roots(h) && forall x: Id, y: Id :: Points(h'.objs, x, y) ==> Points(h.objs, x, y) || y in V
    ensures EdgesWithin(h, h', V)
  {
  }

  lemma OpenEdge(h: Heap, th: Id, level: nat, j: nat, x: Id, y: Id)
    requires IsThread(h.objs, th) && j <= |h.objs[th].b.open| && h.next !in h.objs
    requires level < h.objs[th].b.top <= |h.objs[th].b.stack|
    requires x != h.next && Points(Add(h, Open(th, level)).objs, x, y) ==> Points(h.objs, x, y)
    requires Points(AddOpen(h, th, level, j).objs, x, y)
    ensures Points(h.objs, x, y) || y in SlotIds(h, th, level)
  {
    if x == h.next {
      assert Vals(h.objs, th)[1 + level] == h.objs[th].b.stack[level];
    } else if x != th && h.objs[x].b.Open? {
      assert AddOpen(h, th, level, j).objs[x].b == Add(h, Open(th, level)).objs[x].b;
    }
  }

  lemma OpenKeys(h: Heap, th: Id, level: nat, j: nat)
    requires IsThread(h.objs, th) && j <= |h.objs[th].b.open| && h.next !in h.objs
    ensures KeysWithin(h, AddOpen(h, th, level, j), SlotIds(h, th, level))
    ensures forall x: Id :: Marked(AddOpen(h, th, level, j).objs, x) ==> Marked(h.objs, x)
  {
  }

  lemma MarkOkHere(h: Heap, x: Id, hash: string -> nat)
    requires Inv(h, hash) && x in h.objs
    ensures MarkOk(h.objs[x].m)
  {
    assert ObjsOk(h) && ObjOk(h, x);
  }

  lemma GrownLive(h: Heap, text: string, i: nat, h': Heap)
    requires i < |h.strt| && h' == AddStr(h, text, i).(strt := h'.strt)
    ensures forall y :: Live(AddStr(h, text, i), y) ==> Live(h', y)
  {
  }

  // ----- what an action touches -----

  /** V has the roots, the ids not yet used, and whatever its objects refer to. */
  ghost predicate Touching(h: Heap, V: iset<Id>) {
    && ClosedIn(h, V) && (forall r :: r in Roots(h) && r.Some? ==> r.value in V)
    && forall y: Id :: y >= h.next ==> y in V
  }

  ghost predicate InV(r: Ref, V: iset<Id>) { r.Some? ==> r.value in V }

  ghost predicate AllInV(rs: seq<Ref>, V: iset<Id>) { forall r :: r in rs ==> InV(r, V) }

  lemma TouchingStays(h: Heap, h': Heap, V: iset<Id>)
    requires Touching(h, V) && Within(h, h', V)
    ensures Touching(h', V)
  {
    ClosedStays(h, h', V, V);
  }

  lemma {:induction false} ReachIn(h: Heap, V: iset<Id>, x: Id)
    requires Touching(h, V) && Reach(h, x)
    ensures x in V
  {
    var p :| PathTo(h, p) && p[|p| - 1] == x;
    PathIn(h, V, p, |p| - 1);
  }

  lemma {:induction false} PathIn(h: Heap, V: iset<Id>, p: seq<Id>, i: nat)
    requires Touching(h, V) && PathTo(h, p) && i < |p|
    ensures p[i] in V
  {
    if i > 0 {
      PathIn(h, V, p, i - 1);
      assert Points(h.objs, p[i - 1], p[i - 1 + 1]);
    }
  }

  /** A thread's stack changes: what it refers to now it did before, or it is in V. */
  lemma StackWithin(h: Heap, th: Id, b: Body, h': Heap, V: iset<Id>, hash: string -> nat)
    requires Inv(h, hash) && IsThread(h.objs, th) && b.Thread? && b.top <= |b.stack|
    requires h' == h.(objs := SetBody(h.objs, th, b))
    requires b.env == h.objs[th].b.env || InV(b.env, V)
    requires forall j :: 0 <= j < b.top ==>
      (j < h.objs[th].b.top && b.stack[j] == h.objs[th].b.stack[j]) || InV(b.stack[j], V)
    requires forall u :: u in h.objs && h.objs[u].b.Open? && h.objs[u].b.th == th ==> h.objs[u].b.level < b.top
    ensures Within(h, h', V)
  {
    hide Inv, Points, KeysWithin, EdgesWithin, MarksWithin, InV;
    TopInside(h, th, hash);
    forall x: Id, y: Id | Points(h'.objs, x, y) ensures Points(h.objs, x, y) || y in V { StackEdge(h, th, b, V, x, y); }
    OpenEdges(h, h', V);
    StackKeys(h, th, b, V);
    NoMarks(h, h', V);
  }

  lemma StackKeys(h: Heap, th: Id, b: Body, V: iset<Id>)
    requires th in h.objs
    ensures var h' := h.(objs := SetBody(h.objs, th, b));
      KeysWithin(h, h', V) && forall x: Id :: Marked(h'.objs, x) ==> Marked(h.objs, x)
  {
  }

  lemma TopInside(h: Heap, th: Id, hash: string -> nat)
    requires Inv(h, hash) && IsThread(h.objs, th)
    ensures h.objs[th].b.top <= |h.objs[th].b.stack|
  {
    assert ObjsOk(h) && ObjOk(h, th);
  }

  lemma StackEdge(h: Heap, th: Id, b: Body, V: iset<Id>, x: Id, y: Id)
    requires IsThread(h.objs, th) && b.Thread? && b.top <= |b.stack| && h.objs[th].b.top <= |h.objs[th].b.stack|
    requires b.env == h.objs[th].b.env || InV(b.env, V)
    requires forall j :: 0 <= j < b.top ==>
      (j < h.objs[th].b.top && b.stack[j] == h.objs[th].b.stack[j]) || InV(b.stack[j], V)
    requires forall u :: u in h.objs && h.objs[u].b.Open? && h.objs[u].b.th == th ==> h.objs[u].b.level < b.top
    requires Points(SetBody(h.objs, th, b), x, y)
    ensures Points(h.objs, x, y) || y in V
  {
    if x == th {
      var vs := [b.env] + b.stack[..b.top];
      var i :| 0 <= i < |vs| && vs[i] == Some(y);
      if i == 0 {
        assert b.env == h.objs[th].b.env ==> Vals(h.objs, th)[0] == Some(y);
      } else {
        assert vs[i] == b.stack[i - 1];
        assert i - 1 < h.objs[th].b.top ==> Vals(h.objs, th)[i] == h.objs[th].b.stack[i - 1];
      }
    } else if h.objs[x].b.Open? && h.objs[x].b.th == th {
      var j := h.objs[x].b.level;
      assert b.stack[j] == Some(y);
    }
  }

  /** The roots may change within V. */
  lemma RootsWithin(h: Heap, h': Heap, V: iset<Id>)
    requires h' == h.(running := h'.running, mt := h'.mt) && forall r :: r in Roots(h') ==> r in Roots(h) || InV(r, V)
    ensures Within(h, h', V)
  {
    NoMarks(h, h', V);
  }

  lemma FixWithin(h: Heap, x: Id, h': Heap, V: iset<Id>)
    requires x in h.objs && x in V && h' == h.(objs := h.objs[x := h.objs[x].(m := h.objs[x].m.(fixed := true))])
    ensures Within(h, h', V)
  {
    SamePoints(h.objs, h'.objs);
    NoMarks(h, h', V);
  }
}
