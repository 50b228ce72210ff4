/** Open upvalues leave their thread (lfunc.c: luaF_freeupval, luaF_close, unlinkupval). */
module GcUpvals {
  import opened GcHeap
  import opened GcMark
  import opened GcSweep

  /** The thread without its i-th open upvalue. */
  function Unlinked(b: Body, i: nat): Body
    requires b.Thread? && i < |b.open|
  {
    b.(open := RemoveAt(b.open, i))
  }

  /** luaF_freeupval on the i-th open upvalue of th */
  function FreeUv(h: Heap, th: Id, i: nat): Heap
    requires IsThread(h.objs, th) && i < |h.objs[th].b.open|
  {
    var u := h.objs[th].b.open[i];
    h.(objs := SetBody(h.objs, th, Unlinked(h.objs[th].b, i)) - {u}, uvhead := Without(h.uvhead, u))
  }

  /** The i-th open upvalue of th gets its own copy of the value and joins rootgc. */
  function CloseUv(h: Heap, th: Id, i: nat): Heap
    requires IsThread(h.objs, th) && i < |h.objs[th].b.open| && h.objs[th].b.open[i] in h.objs
    requires h.objs[h.objs[th].b.open[i]].b.Open?
  {
    var u := h.objs[th].b.open[i];
    h.(objs := SetBody(SetBody(h.objs, th, Unlinked(h.objs[th].b, i)), u, Closed(SlotOf(h.objs, th, h.objs[u].b.level))),
       uvhead := Without(h.uvhead, u), rootgc := [u] + h.rootgc, sweepgc := if h.sweepgc == 0 then 0 else h.sweepgc + 1)
  }

  lemma UvFacts(h: Heap, th: Id, i: nat)
    requires UpvalsOk(h) && IsThread(h.objs, th) && i < |h.objs[th].b.open|
    ensures var u := h.objs[th].b.open[i];
      OpenAt(h.objs, u, th) && u in h.uvhead && Distinct(h.uvhead) && u !in RemoveAt(h.objs[th].b.open, i) && u != th
    ensures var u := h.objs[th].b.open[i];
      h.objs[u].b.Open? && h.objs[u].b.level < h.objs[th].b.top <= |h.objs[th].b.stack|
  {
    assert OpenList(h.objs, th);
    var open := h.objs[th].b.open;
    assert open[i] in open;
    assert OpenAt(h.objs, open[i], th);
    var r := RemoveAt(open, i);
    forall j | 0 <= j < |r| ensures r[j] != open[i] {
      assert j < i ==> LevelOf(h.objs, open[j]) > LevelOf(h.objs, open[i]);
      assert j >= i ==> LevelOf(h.objs, open[i]) > LevelOf(h.objs, open[j + 1]);
    }
  }

  /** objs' is objs with u gone from th's list, and u itself freed or closed. */
  ghost predicate UvGone(objs: Objs, th: Id, i: nat, objs': Objs) {
    && IsThread(objs, th) && i < |objs[th].b.open| && IsThread(objs', th) && objs'[th].b == Unlinked(objs[th].b, i)
    && var u := objs[th].b.open[i];
    && (u in objs' ==> objs'[u].b.Closed?)
    && (forall x :: x in objs' ==> x in objs)
    && (forall x :: x in objs && x != u ==> x in objs')
    && (forall x :: x in objs && x != u && x != th ==> objs'[x].b == objs[x].b)
  }

  lemma GoneOpenAt(objs: Objs, th: Id, i: nat, objs': Objs, u: Id, t: Id)
    requires UvGone(objs, th, i, objs') && OpenAt(objs, u, t) && u != objs[th].b.open[i] && u != th
    requires objs[th].b.open[i] != t
    ensures OpenAt(objs', u, t)
  {
    if t == th {
      var open, r := objs[th].b.open, RemoveAt(objs[th].b.open, i);
      var j :| 0 <= j < |open| && open[j] == u;
      assert r[if j < i then j else j - 1] == u;
    }
  }

  lemma GoneOpenList(objs: Objs, th: Id, i: nat, objs': Objs, t: Id)
    requires UvGone(objs, th, i, objs') && OpenList(objs, t) && OpenList(objs, th) && t != objs[th].b.open[i]
    requires objs[th].b.open[i] !in RemoveAt(objs[th].b.open, i)
    ensures OpenList(objs', t)
  {
    var u0 := objs[th].b.open[i];
    assert OpenAt(objs, u0, th);
    forall u | u in objs'[t].b.open ensures OpenAt(objs', u, t) && LevelOf(objs', u) == LevelOf(objs, u) {
      assert u in objs[t].b.open;
      assert OpenAt(objs, u, t);
      GoneOpenAt(objs, th, i, objs', u, t);
    }
  }

  lemma GoneUpvals(h: Heap, th: Id, i: nat, h': Heap)
    requires UpvalsOk(h) && UvGone(h.objs, th, i, h'.objs)
    requires h'.uvhead == Without(h.uvhead, h.objs[th].b.open[i])
    ensures UpvalsOk(h')
  {
    hide OpenAt, OpenList;
    UvFacts(h, th, i);
    var u0 := h.objs[th].b.open[i];
    assert IsThread(h.objs, th) && OpenList(h.objs, th);
    WithoutDistinct(h.uvhead, u0);
    GoneKinds(h, th, i, h');
    forall u | u in h'.objs && h'.objs[u].b.Open? ensures OpenAt(h'.objs, u, h'.objs[u].b.th) {
      assert OpenAt(h.objs, u, h.objs[u].b.th);
      GoneThread(h.objs, u, h.objs[u].b.th, u0);
      GoneOpenAt(h.objs, th, i, h'.objs, u, h.objs[u].b.th);
    }
    forall t | t in h'.objs && h'.objs[t].b.Thread? ensures OpenList(h'.objs, t) {
      assert IsThread(h.objs, t) && OpenList(h.objs, t);
      GoneOpenList(h.objs, th, i, h'.objs, t);
    }
  }

  lemma GoneThread(objs: Objs, u: Id, t: Id, u0: Id)
    requires OpenAt(objs, u, t) && u0 in objs && objs[u0].b.Open?
    ensures u0 != t
  {
  }

  lemma GoneKinds(h: Heap, th: Id, i: nat, h': Heap)
    requires UpvalsOk(h) && UvGone(h.objs, th, i, h'.objs)
    ensures h.objs[th].b.open[i] in h.objs && h.objs[h.objs[th].b.open[i]].b.Open? && h.objs[th].b.open[i] != th
    ensures forall u :: u in h'.objs && h'.objs[u].b.Open? <==> u in h.objs && h.objs[u].b.Open? && u != h.objs[th].b.open[i]
    ensures forall u :: u in h'.objs && u != h.objs[th].b.open[i] && u != th ==> h'.objs[u].b == h.objs[u].b
    ensures forall t :: IsThread(h'.objs, t) <==> IsThread(h.objs, t)
    ensures forall x :: x in h'.objs && x != h.objs[th].b.open[i] ==>
      h'.objs[x].b.Str? == h.objs[x].b.Str? && Rooted(h'.objs[x].b) == Rooted(h.objs[x].b)
  {
    UvFacts(h, th, i);
  }

  lemma GoneObjs(h: Heap, th: Id, i: nat, h': Heap)
    requires ObjsOk(h) && UpvalsOk(h) && UvGone(h.objs, th, i, h'.objs) && h'.next == h.next && h'.main == h.main
    requires h'.running == h.running
    requires forall x :: x in h'.objs ==> h'.objs[x].m == h.objs[x].m
    ensures ObjsOk(h')
  {
    GoneKinds(h, th, i, h');
    forall x | x in h'.objs ensures ObjOk(h', x) { assert ObjOk(h, x); }
  }

  /** The string table depends on the strings only. */
  lemma StringsSame(h: Heap, hash: string -> nat, h': Heap)
    requires StringsOk(h, hash) && h'.strt == h.strt
    requires forall x :: x in h'.objs && h'.objs[x].b.Str? ==> x in h.objs && h'.objs[x].b == h.objs[x].b
    requires forall x :: x in h.objs && h.objs[x].b.Str? ==> x in h'.objs && h'.objs[x].b == h.objs[x].b
    ensures StringsOk(h', hash)
  {
  }

  lemma GoneStrings(h: Heap, th: Id, i: nat, hash: string -> nat, h': Heap)
    requires StringsOk(h, hash) && UpvalsOk(h) && UvGone(h.objs, th, i, h'.objs) && h'.strt == h.strt
    ensures StringsOk(h', hash)
  {
    hide StringsOk;
    GoneKinds(h, th, i, h');
    hide UpvalsOk;
    StringsSame(h, hash, h');
  }

  lemma FreeUvShape(h: Heap, th: Id, i: nat, hash: string -> nat)
    requires Shape(h, hash) && IsThread(h.objs, th) && i < |h.objs[th].b.open|
    ensures Shape(FreeUv(h, th, i), hash)
  {
    hide ObjsOk, StringsOk, UpvalsOk;
    var h' := FreeUv(h, th, i);
    UvFacts(h, th, i);
    assert UvGone(h.objs, th, i, h'.objs);
    GoneUpvals(h, th, i, h');
    GoneObjs(h, th, i, h');
    GoneStrings(h, th, i, hash, h');
    GoneKinds(h, th, i, h');
    assert RootOk(h');
  }

  lemma CloseUvShape(h: Heap, th: Id, i: nat, hash: string -> nat)
    requires Shape(h, hash) && IsThread(h.objs, th) && i < |h.objs[th].b.open|
    ensures h.objs[th].b.open[i] in h.objs && h.objs[h.objs[th].b.open[i]].b.Open?
    ensures Shape(CloseUv(h, th, i), hash)
  {
    hide ObjsOk, StringsOk, UpvalsOk, RootOk;
    UvFacts(h, th, i);
    var h' := CloseUv(h, th, i);
    assert UvGone(h.objs, th, i, h'.objs);
    GoneUpvals(h, th, i, h');
    GoneObjs(h, th, i, h');
    GoneStrings(h, th, i, hash, h');
    GoneKinds(h, th, i, h');
    assert RootOk(h') by { JoinRoot(h, th, i); }
  }

  lemma JoinRoot(h: Heap, th: Id, i: nat)
    requires RootOk(h) && UpvalsOk(h) && IsThread(h.objs, th) && i < |h.objs[th].b.open|
    ensures h.objs[th].b.open[i] in h.objs && h.objs[h.objs[th].b.open[i]].b.Open?
    ensures RootOk(CloseUv(h, th, i))
  {
    UvFacts(h, th, i);
    var u, h' := h.objs[th].b.open[i], CloseUv(h, th, i);
    assert u !in h.rootgc;
    forall j, k | 0 <= j < k < |h'.rootgc| ensures h'.rootgc[j] != h'.rootgc[k] {
      assert h'.rootgc[k] == h.rootgc[k - 1] && h.rootgc[k - 1] in h.rootgc;
      if j > 0 { assert h'.rootgc[j] == h.rootgc[j - 1]; }
    }
  }

  /** Neither freeing nor closing changes what anything else refers to; a closed upvalue keeps its value. */
  lemma UvVals(h: Heap, th: Id, i: nat, x: Id)
    requires UpvalsOk(h) && IsThread(h.objs, th) && i < |h.objs[th].b.open| && x in h.objs
    ensures h.objs[th].b.open[i] in h.objs && h.objs[h.objs[th].b.open[i]].b.Open?
    ensures AllVals(CloseUv(h, th, i).objs, x) == AllVals(h.objs, x)
    ensures Vals(CloseUv(h, th, i).objs, x) == Vals(h.objs, x)
    ensures x != h.objs[th].b.open[i] ==> x in FreeUv(h, th, i).objs
    ensures x != h.objs[th].b.open[i] ==> AllVals(FreeUv(h, th, i).objs, x) == AllVals(h.objs, x)
    ensures x != h.objs[th].b.open[i] ==> Vals(FreeUv(h, th, i).objs, x) == Vals(h.objs, x)
  {
    hide UpvalsOk;
    UvFacts(h, th, i);
    if h.objs[x].b.Open? {
      assert OpenAt(h.objs, x, h.objs[x].b.th) by { OpenHome(h, x); }
      UvSlot(h, th, i, h.objs[x].b.th, h.objs[x].b.level);
    }
  }

  lemma OpenHome(h: Heap, u: Id)
    requires UpvalsOk(h) && u in h.objs && h.objs[u].b.Open?
    ensures OpenAt(h.objs, u, h.objs[u].b.th)
  {
  }

  lemma UvSlot(h: Heap, th: Id, i: nat, t: Id, level: nat)
    requires UpvalsOk(h) && IsThread(h.objs, th) && i < |h.objs[th].b.open| && IsThread(h.objs, t)
    ensures h.objs[th].b.open[i] in h.objs && h.objs[h.objs[th].b.open[i]].b.Open?
    ensures SlotOf(CloseUv(h, th, i).objs, t, level) == SlotOf(h.objs, t, level) ==
      SlotOf(FreeUv(h, th, i).objs, t, level)
  {
    UvFacts(h, th, i);
  }

  lemma FreeUvSafe(h: Heap, th: Id, i: nat)
    requires Safe(h) && UpvalsOk(h) && IsThread(h.objs, th) && i < |h.objs[th].b.open|
    requires var u := h.objs[th].b.open[i]; u in h.objs && IsDead(h.objs[u].m, h.cw) && !h.objs[u].m.fixed
    ensures Safe(FreeUv(h, th, i)) && Kept(FreeUv(h, th, i)) == Kept(h)
  {
    hide UpvalsOk, AllVals;
    UvFacts(h, th, i);
    var u, h' := h.objs[th].b.open[i], FreeUv(h, th, i);
    forall y | y in h'.objs
      ensures h'.objs[y].m == h.objs[y].m && AllVals(h'.objs, y) == AllVals(h.objs, y)
    {
      UvVals(h, th, i, y);
    }
    FreedSafe(h, u, h');
  }

  lemma CloseUvSafe(h: Heap, th: Id, i: nat)
    requires Safe(h) && UpvalsOk(h) && IsThread(h.objs, th) && i < |h.objs[th].b.open|
    ensures h.objs[th].b.open[i] in h.objs && h.objs[h.objs[th].b.open[i]].b.Open?
    ensures Safe(CloseUv(h, th, i)) && Kept(CloseUv(h, th, i)) == Kept(h)
  {
    hide UpvalsOk, AllVals;
    UvFacts(h, th, i);
    var h' := CloseUv(h, th, i);
    assert h'.objs.Keys == h.objs.Keys;
    forall y | y in h'.objs
      ensures h'.objs[y].m == h.objs[y].m && AllVals(h'.objs, y) == AllVals(h.objs, y)
    {
      UvVals(h, th, i, y);
    }
    assert forall y :: Live(h, y) <==> Live(h', y);
    RootsKept(h, h');
    SafeMono(h, h');
  }

  lemma FreeUvOpen(h: Heap, th: Id, i: nat)
    requires IsThread(h.objs, th) && i < |h.objs[th].b.open| && Doomed(h, h.objs[th].b.open[i])
    ensures OpenStep(h, FreeUv(h, th, i))
  {
  }

  lemma CloseUvOpen(h: Heap, th: Id, i: nat)
    requires IsThread(h.objs, th) && i < |h.objs[th].b.open| && Doomed(h, th)
    requires var u := h.objs[th].b.open[i]; u in h.objs && h.objs[u].b.Open? && h.objs[u].b.th == th && u != th
    ensures OpenStep(h, CloseUv(h, th, i))
  {
  }

  lemma FreeUvStep(h: Heap, th: Id, i: nat)
    requires UpvalsOk(h) && IsThread(h.objs, th) && i < |h.objs[th].b.open|
    ensures SweepStep(h, FreeUv(h, th, i)) && |FreeUv(h, th, i).uvhead| < |h.uvhead|
  {
    hide UpvalsOk, Vals, AllVals;
    UvFacts(h, th, i);
    forall y | y in h.objs
      ensures y != h.objs[th].b.open[i] ==> Vals(FreeUv(h, th, i).objs, y) == Vals(h.objs, y)
    {
      UvVals(h, th, i, y);
    }
    FreeUvContent(h, th, i);
    hide FreeUv, OpenAt, SameContent;
    WithoutDistinct(h.uvhead, h.objs[th].b.open[i]);
  }

  lemma FreeUvContent(h: Heap, th: Id, i: nat)
    requires IsThread(h.objs, th) && i < |h.objs[th].b.open| && h.objs[th].b.open[i] != th
    ensures var u, h' := h.objs[th].b.open[i], FreeUv(h, th, i);
      && h'.objs.Keys == h.objs.Keys - {u} && h'.uvhead == Without(h.uvhead, u)
      && h' == h.(objs := h'.objs, uvhead := h'.uvhead)
      && (forall x :: x in h.objs && x != u ==> SameContent(h.objs[x].b, h'.objs[x].b) && h'.objs[x].m == h.objs[x].m)
      && (forall x :: x in h.objs && x != u ==> (h'.objs[x].b.Str? ==> h.objs[x].b.Str?) && (IsThread(h'.objs, x) ==>
        IsThread(h.objs, x)))
      && (forall x, v :: IsThread(h'.objs, x) && v in h'.objs[x].b.open ==> v in h.objs[x].b.open)
  {
  }

  lemma CloseUvStep(h: Heap, th: Id, i: nat)
    requires UpvalsOk(h) && IsThread(h.objs, th) && i < |h.objs[th].b.open|
    ensures h.objs[th].b.open[i] in h.objs && h.objs[h.objs[th].b.open[i]].b.Open?
    ensures SweepStep(h, CloseUv(h, th, i)) && |CloseUv(h, th, i).uvhead| == |h.uvhead| - 1
  {
    hide UpvalsOk, Vals, AllVals;
    UvFacts(h, th, i);
    forall y | y in h.objs ensures Vals(CloseUv(h, th, i).objs, y) == Vals(h.objs, y) { UvVals(h, th, i, y); }
    CloseUvContent(h, th, i);
    hide CloseUv, OpenAt, SameContent;
    WithoutDistinct(h.uvhead, h.objs[th].b.open[i]);
  }

  lemma CloseUvContent(h: Heap, th: Id, i: nat)
    requires IsThread(h.objs, th) && i < |h.objs[th].b.open| && h.objs[th].b.open[i] != th
    requires h.objs[th].b.open[i] in h.objs && h.objs[h.objs[th].b.open[i]].b.Open?
    ensures var h' := CloseUv(h, th, i);
      && h'.objs.Keys == h.objs.Keys && h'.uvhead == Without(h.uvhead, h.objs[th].b.open[i])
      && h' == h.(objs := h'.objs, strt := h'.strt, uvhead := h'.uvhead, rootgc := h'.rootgc, sweepgc := h'.sweepgc)
      && (forall x :: x in h.objs ==> SameContent(h.objs[x].b, h'.objs[x].b) && h'.objs[x].m == h.objs[x].m)
      && (forall x :: x in h.objs ==> (h'.objs[x].b.Str? ==> h.objs[x].b.Str?) && (IsThread(h'.objs, x) ==>
        IsThread(h.objs, x)))
      && (forall x, u :: IsThread(h'.objs, x) && u in h'.objs[x].b.open ==> u in h.objs[x].b.open)
  {
  }

  /** What the sweep keeps besides its own progress. */
  ghost predicate Sound(h: Heap, hash: string -> nat) { Shape(h, hash) && Safe(h) }

  lemma FreeUvSound(h: Heap, th: Id, i: nat, hash: string -> nat)
    requires Sound(h, hash) && IsThread(h.objs, th) && i < |h.objs[th].b.open|
    requires var u := h.objs[th].b.open[i]; u in h.objs && IsDead(h.objs[u].m, h.cw) && !h.objs[u].m.fixed
    ensures var h' := FreeUv(h, th, i);
      Sound(h', hash) && Kept(h') == Kept(h) && SweepStep(h, h') && |h'.uvhead| < |h.uvhead|
  {
    hide UpvalsOk, ObjsOk, RootOk, StringsOk, Safe, Kept;
    FreeUvShape(h, th, i, hash);
    FreeUvSafe(h, th, i);
    FreeUvStep(h, th, i);
  }

  lemma CloseUvSound(h: Heap, th: Id, i: nat, hash: string -> nat)
    requires Sound(h, hash) && IsThread(h.objs, th) && i < |h.objs[th].b.open|
    ensures h.objs[th].b.open[i] in h.objs && h.objs[h.objs[th].b.open[i]].b.Open?
    ensures var h' := CloseUv(h, th, i);
      Sound(h', hash) && Kept(h') == Kept(h) && SweepStep(h, h') && |h'.uvhead| == |h.uvhead| - 1
  {
    hide UpvalsOk, ObjsOk, RootOk, StringsOk, Safe, Kept;
    CloseUvShape(h, th, i, hash);
    CloseUvSafe(h, th, i);
    CloseUvStep(h, th, i);
  }

  lemma WhitenSound(h: Heap, x: Id, hash: string -> nat)
    requires Sound(h, hash) && x in h.objs && (!IsDead(h.objs[x].m, h.cw) || h.objs[x].m.fixed)
    ensures var h' := Whiten(h, x); Sound(h', hash) && Kept(h') == Kept(h) && SweepStep(h, h') && CleanId(h', x)
  {
    assert Live(h, x) || h.objs[x].b.Str? by {
      assert ObjOk(h, x);
      if !Live(h, x) { NotRoot(h, x); }
    }
    WhitenKeeps(h, x, hash);
    WhitenStep(h, x);
  }

  lemma FreeStrSound(h: Heap, i: nat, j: nat, hash: string -> nat)
    requires Sound(h, hash) && i < |h.strt| && j < |h.strt[i]| && h.strt[i][j] in h.objs
    requires IsDead(h.objs[h.strt[i][j]].m, h.cw) && !h.objs[h.strt[i][j]].m.fixed
    ensures var h' := FreeStr(h, i, j); Sound(h', hash) && Kept(h') == Kept(h) && SweepStep(h, h')
  {
    FreeStrKeeps(h, i, j, hash);
    FreeStrStep(h, i, j, hash);
  }

  lemma FreeRootSound(h: Heap, i: nat, hash: string -> nat)
    requires Sound(h, hash) && i < |h.rootgc| && h.rootgc[i] in h.objs
    requires var x := h.rootgc[i];
      IsDead(h.objs[x].m, h.cw) && !h.objs[x].m.fixed && (IsThread(h.objs, x) ==> h.objs[x].b.open == [])
    ensures var h' := FreeRoot(h, i); Sound(h', hash) && Kept(h') == Kept(h) && SweepStep(h, h')
  {
    InRoot(h, i, hash);
    FreeRootKeeps(h, i, hash);
    FreeRootStep(h, i);
  }

  lemma InRoot(h: Heap, i: nat, hash: string -> nat)
    requires Sound(h, hash) && i < |h.rootgc|
    ensures h.rootgc[i] in h.objs && !h.objs[h.rootgc[i]].b.Str? && !h.objs[h.rootgc[i]].b.Open?
  {
    assert h.rootgc[i] in h.rootgc;
  }

  lemma InBucket(h: Heap, i: nat, j: nat, hash: string -> nat)
    requires Sound(h, hash) && i < |h.strt| && j < |h.strt[i]|
    ensures h.strt[i][j] in h.objs
  {
    assert h.strt[i][j] in h.strt[i] && StringsOk(h, hash);
  }

  lemma InOpen(h: Heap, th: Id, i: nat, hash: string -> nat)
    requires Sound(h, hash) && IsThread(h.objs, th) && i < |h.objs[th].b.open|
    ensures var u := h.objs[th].b.open[i];
      u in h.objs && h.objs[u].b.Open? && h.objs[u].b.th == th && !h.objs[u].m.fixed && !h.objs[u].m.black && u != th
    ensures var u := h.objs[th].b.open[i]; h.objs[u].b.level < h.objs[th].b.top <= |h.objs[th].b.stack|
  {
    UvFacts(h, th, i);
    assert ObjOk(h, h.objs[th].b.open[i]) && ObjsOk(h);
  }

  lemma CleanKept(h: Heap, h': Heap, x: Id)
    requires SweepStep(h, h')
    ensures CleanId(h, x) ==> CleanId(h', x)
  {
  }

  /** A clean upvalue counts as swept once it is in rootgc. */
  lemma ClosedSwept(h: Heap, th: Id, i: nat)
    requires IsThread(h.objs, th) && i < |h.objs[th].b.open|
    requires var u := h.objs[th].b.open[i]; u in h.objs && h.objs[u].b.Open? && CleanId(h, u)
    ensures SweptObj(CloseUv(h, th, i), h.objs[th].b.open[i])
  {
  }

  // ----- the sweep of rootgc -----

  /** The invariant of a sweep of rootgc. */
  ghost predicate Sweeping(h: Heap, hash: string -> nat) {
    && Sound(h, hash) && h.sweepgc <= |h.rootgc| && SweptRoot(h, h.sweepgc)
    && (forall x :: x in h.objs && h.objs[x].b.Str? ==> CleanId(h, x))
  }

  /** How much of the sweep is left: upvalues of freed threads move from uvhead to rootgc. */
  function Left(h: Heap): int { |h.rootgc| - h.sweepgc + |h.uvhead| }

  lemma StringsStayClean(h: Heap, h': Heap)
    requires SweepStep(h, h') && forall x :: x in h.objs && h.objs[x].b.Str? ==> CleanId(h, x)
    ensures forall x :: x in h'.objs && h'.objs[x].b.Str? ==> CleanId(h', x)
  {
    forall x | x in h'.objs && h'.objs[x].b.Str? ensures CleanId(h', x) { assert CleanId(h, x); }
  }

  /** The part already swept stays swept, whatever has been put in front of it. */
  lemma PrefixSwept(h: Heap, h': Heap, k: nat)
    requires SweepStep(h, h') && h.sweepgc <= |h.rootgc| && SweptRoot(h, h.sweepgc)
    requires |h'.rootgc| >= k + h.sweepgc && forall j :: 0 <= j < h.sweepgc ==> h'.rootgc[k + j] == h.rootgc[j]
    requires forall j :: 0 <= j < k ==> SweptObj(h', h'.rootgc[j])
    ensures SweptRoot(h', k + h.sweepgc)
  {
    hide SweptObj, SweepStep;
    forall j | 0 <= j < k + h.sweepgc && j < |h'.rootgc| ensures SweptObj(h', h'.rootgc[j]) {
      if j >= k {
        assert h'.rootgc[k + (j - k)] == h.rootgc[j - k];
        StaysSwept(h, h', h.rootgc[j - k]);
      }
    }
  }

  /** What is white now is swept. */
  lemma Survived(h: Heap, h': Heap, x: Id)
    requires SweepStep(h, h') && CleanId(h', x)
    requires (IsThread(h.objs, x) ==> forall u :: u in h.objs[x].b.open ==> CleanId(h, u))
    ensures SweptObj(h', x)
  {
  }

  lemma SweptNext(h: Heap)
    requires h.sweepgc < |h.rootgc| && SweptRoot(h, h.sweepgc) && SweptObj(h, h.rootgc[h.sweepgc])
    ensures SweptRoot(h, h.sweepgc + 1)
  {
  }

  lemma SweptNone(h: Heap)
    ensures SweptRoot(h, 0)
  {
  }

  /** Moving the sweep position on changes nothing else. */
  lemma MovedOn(h: Heap, h': Heap, hash: string -> nat)
    requires h' == h.(sweepgc := h'.sweepgc) && Sound(h, hash) && SweptRoot(h, h'.sweepgc)
    ensures Sound(h', hash) && SweptRoot(h', h'.sweepgc) && Kept(h') == Kept(h) && SweepStep(h, h')
  {
    hide Shape, Safe, Vals;
    assert Shape(h', hash) by { ShapeKept(h, h', hash) by { ObjsOkShape(h, h', hash); } }
    assert Safe(h') by { SameSafe(h, h'); }
    forall i | 0 <= i < h'.sweepgc && i < |h'.rootgc|
      ensures SweptObj(h', h'.rootgc[i])
    {
      assert SweptObj(h, h.rootgc[i]);
    }
  }

  lemma ObjsOkShape(h: Heap, h': Heap, hash: string -> nat)
    requires Shape(h, hash) && h' == h.(sweepgc := h'.sweepgc)
    ensures ObjsOk(h')
  {
    ObjsOkSame(h, h');
  }

  /** The sweep passes a survivor, now white. */
  lemma SurviveStep(h: Heap, curr: Id, hash: string -> nat)
    requires Sweeping(h, hash) && h.sweepgc < |h.rootgc| && curr == h.rootgc[h.sweepgc] && curr in h.objs
    requires !IsDead(h.objs[curr].m, h.cw) || h.objs[curr].m.fixed
    requires IsThread(h.objs, curr) ==> forall u :: u in h.objs[curr].b.open ==> CleanId(h, u)
    ensures var h' := Whiten(h, curr).(sweepgc := h.sweepgc + 1);
      Sweeping(h', hash) && Kept(h') == Kept(h) && SweepStep(h, h') && Left(h') < Left(h)
  {
    hide Sound, Kept, SweptRoot, SweepStep, CleanId, SweptObj;
    var h1 := Whiten(h, curr);
    var h' := h1.(sweepgc := h.sweepgc + 1);
    WhitenSound(h, curr, hash);
    PrefixSwept(h, h1, 0);
    StringsStayClean(h, h1);
    Survived(h, h1, curr);
    SweptNext(h1);
    MovedOn(h1, h', hash);
    SweepTrans(h, h1, h');
    assert forall x :: CleanId(h1, x) ==> CleanId(h', x) by { SweepClean(h1, h'); }
  }

  lemma SweepClean(h: Heap, h': Heap)
    requires SweepStep(h, h')
    ensures forall x :: CleanId(h, x) ==> CleanId(h', x)
  {
  }

  lemma SameSafe(h: Heap, h': Heap)
    requires Safe(h) && h'.objs == h.objs && h'.cw == h.cw && Roots(h') == Roots(h)
    ensures Safe(h')
  {
    RootsKept(h, h');
    SafeMono(h, h');
  }

  /** k upvalues have joined rootgc in front, then one object has left it. */
  lemma AfterFree(h: Heap, h1: Heap, k: nat, h2: Heap, i: nat)
    requires h.sweepgc < |h.rootgc| && SweptRoot(h, h.sweepgc) && SweepStep(h, h2) && SweepStep(h1, h2)
    requires |h1.rootgc| == |h.rootgc| + k && h1.rootgc[k..] == h.rootgc && |h1.uvhead| + k == |h.uvhead|
    requires h1.sweepgc == (if h.sweepgc == 0 then 0 else h.sweepgc + k)
    requires forall j :: 0 <= j < k ==> SweptObj(h1, h1.rootgc[j])
    requires i == (if h1.sweepgc == 0 then k else h1.sweepgc) && h2.rootgc == RemoveAt(h1.rootgc, i)
    requires h2.sweepgc == h1.sweepgc && h2.uvhead == h1.uvhead
    ensures h2.sweepgc <= |h2.rootgc| && SweptRoot(h2, h2.sweepgc) && Left(h2) < Left(h)
  {
    hide SweepStep, SweptObj;
    if h.sweepgc > 0 {
      forall j | 0 <= j < h.sweepgc ensures h2.rootgc[k + j] == h.rootgc[j] {
        assert h1.rootgc[k..][j] == h1.rootgc[k + j];
      }
      forall j | 0 <= j < k ensures SweptObj(h2, h2.rootgc[j]) {
        StaysSwept(h1, h2, h1.rootgc[j]);
      }
      PrefixSwept(h, h2, k);
    } else {
      SweptNone(h2);
    }
  }
}
