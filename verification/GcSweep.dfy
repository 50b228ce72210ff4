/** Sweeping (lgc.c: sweeplist; lfunc.c: luaF_freeupval, luaF_close): single steps and what they keep. */
module GcSweep {
  import opened Wrappers
  import opened GcHeap
  import opened GcMark

  /** What a sweep that began now would leave: live objects and fixed ones. */
  ghost function Kept(h: Heap): set<Id> { set x | x in h.objs && (!IsDead(h.objs[x].m, h.cw) || h.objs[x].m.fixed) }

  function RemoveAt(s: seq<Id>, i: nat): (r: seq<Id>)
    requires i < |s|
    ensures |r| == |s| - 1
    ensures forall j :: 0 <= j < |r| ==> r[j] == if j < i then s[j] else s[j + 1]
  {
    s[..i] + s[i + 1..]
  }

  lemma RemoveDistinct(s: seq<Id>, i: nat)
    requires i < |s| && Distinct(s)
    ensures Distinct(RemoveAt(s, i)) && forall x :: x in RemoveAt(s, i) <==> x in s && x != s[i]
  {
    var r := RemoveAt(s, i);
    forall x: Id ensures x in r <==> x in s && x != s[i] {
      if x in s && x != s[i] {
        var j :| 0 <= j < |s| && s[j] == x;
        assert r[if j < i then j else j - 1] == x;
      }
    }
  }

  /** A list without x. */
  function Without(s: seq<Id>, x: Id): (r: seq<Id>)
    ensures forall y :: y in r <==> y in s && y != x
    ensures |r| <= |s|
  {
    if s == [] then [] else if s[0] == x then Without(s[1..], x) else [s[0]] + Without(s[1..], x)
  }

  lemma {:induction false} WithoutDistinct(s: seq<Id>, x: Id)
    requires Distinct(s)
    ensures Distinct(Without(s, x)) && (x in s ==> |Without(s, x)| == |s| - 1) && (x !in s ==> Without(s, x) == s)
  {
    if s != [] {
      assert forall i, j :: 0 <= i < j < |s[1..]| ==> s[1..][i] == s[i + 1] && s[1..][j] == s[j + 1];
      WithoutDistinct(s[1..], x);
      assert s == [s[0]] + s[1..];
      assert s[0] !in s[1..];
      assert s[0] !in Without(s[1..], x);
    }
  }

  /** Safety carries over when live objects stay live and gain no references. */
  lemma SafeMono(h: Heap, h': Heap)
    requires Safe(h) && (forall r :: r in Roots(h') ==> LiveRef(h', r))
    requires forall x :: Live(h, x) ==> Live(h', x)
    requires forall x :: Live(h', x) && AllVals(h'.objs, x) != [] ==>
      Live(h, x) && forall y :: Holds(h'.objs, x, y) ==> Holds(h.objs, x, y)
    ensures Safe(h')
  {
    forall x ensures LiveAt(h', x) {
      if Live(h', x) && AllVals(h'.objs, x) != [] {
        assert LiveAt(h, x);
        forall y | Holds(h'.objs, x, y) ensures Live(h', y) { assert Holds(h.objs, x, y); }
      }
    }
  }

  lemma RootsKept(h: Heap, h': Heap)
    requires Safe(h) && Roots(h') == Roots(h) && forall x :: Live(h, x) ==> Live(h', x)
    ensures forall r :: r in Roots(h') ==> LiveRef(h', r)
  {
    forall r | r in Roots(h') ensures LiveRef(h', r) { assert LiveRef(h, r); }
  }

  // ----- a survivor turns white -----

  function Whiten(h: Heap, x: Id): Heap
    requires x in h.objs
  {
    h.(objs := h.objs[x := h.objs[x].(m := MakeWhite(h.objs[x].m, h.cw))])
  }

  lemma WhitenKeeps(h: Heap, x: Id, hash: string -> nat)
    requires Shape(h, hash) && Safe(h) && x in h.objs && (Live(h, x) || h.objs[x].b.Str?)
    requires !IsDead(h.objs[x].m, h.cw) || h.objs[x].m.fixed
    ensures Shape(Whiten(h, x), hash) && Safe(Whiten(h, x)) && Kept(Whiten(h, x)) == Kept(h)
  {
    hide Shape, Safe;
    WhitenShape(h, x, hash);
    WhitenSafe(h, x);
  }

  lemma WhitenSafe(h: Heap, x: Id)
    requires Safe(h) && x in h.objs && (Live(h, x) || h.objs[x].b.Str?)
    ensures Safe(Whiten(h, x))
  {
    hide Safe;
    var h' := Whiten(h, x);
    SamePoints(h.objs, h'.objs);
    assert forall y :: Live(h, y) ==> Live(h', y);
    assert forall y :: Live(h', y) && y != x ==> Live(h, y);
    RootsKept(h, h');
    assert Live(h, x) || AllVals(h'.objs, x) == [];
    SafeMono(h, h');
  }

  lemma WhitenShape(h: Heap, x: Id, hash: string -> nat)
    requires Shape(h, hash) && x in h.objs
    ensures Shape(Whiten(h, x), hash)
  {
    hide RootOk, StringsOk, UpvalsOk;
    var h' := Whiten(h, x);
    forall y | y in h'.objs ensures ObjOk(h', y) { assert ObjOk(h, y); }
    ShapeKept(h, h', hash);
  }

  // ----- an object is freed -----

  /** Nobody live notices that the dead object x is gone. */
  lemma FreedSafe(h: Heap, x: Id, h': Heap)
    requires Safe(h) && x in h.objs && IsDead(h.objs[x].m, h.cw) && Roots(h') == Roots(h) && h'.cw == h.cw
    requires h'.objs.Keys == h.objs.Keys - {x}
    requires forall y :: y in h'.objs ==> h'.objs[y].m == h.objs[y].m && AllVals(h'.objs, y) == AllVals(h.objs, y)
    ensures Safe(h')
    ensures !h.objs[x].m.fixed ==> Kept(h') == Kept(h)
  {
    assert forall y :: Live(h, y) <==> Live(h', y);
    RootsKept(h, h');
    SafeMono(h, h');
  }

  /** Freeing the j-th string of bucket i. */
  function FreeStr(h: Heap, i: nat, j: nat): Heap
    requires i < |h.strt| && j < |h.strt[i]|
  {
    h.(objs := h.objs - {h.strt[i][j]}, strt := h.strt[i := RemoveAt(h.strt[i], j)])
  }

  lemma FreeStrKeeps(h: Heap, i: nat, j: nat, hash: string -> nat)
    requires Shape(h, hash) && Safe(h) && i < |h.strt| && j < |h.strt[i]| && h.strt[i][j] in h.objs
    requires IsDead(h.objs[h.strt[i][j]].m, h.cw) && !h.objs[h.strt[i][j]].m.fixed
    ensures Shape(FreeStr(h, i, j), hash) && Safe(FreeStr(h, i, j)) && Kept(FreeStr(h, i, j)) == Kept(h)
  {
    hide UpvalsOk, ObjsOk, Safe;
    var h', x := FreeStr(h, i, j), h.strt[i][j];
    assert x in h.strt[i] && h.objs[x].b.Str? by { assert StringsOk(h, hash); }
    assert RootOk(h') by { assert RootOk(h); }
    hide StringsOk, RootOk;
    NotRoot(h, x);
    DropShape(h, x, hash);
    DropStrings(h, i, j, hash);
    StrListOnly(h, x, h');
    DropVals(h, x);
    FreedSafe(h, x, h');
  }

  lemma StrListOnly(h: Heap, x: Id, h': Heap)
    requires var g := h.(objs := h.objs - {x}); UpvalsOk(g) && ObjsOk(g) && h' == g.(strt := h'.strt)
    ensures UpvalsOk(h') && ObjsOk(h')
  {
    var g := h.(objs := h.objs - {x});
    forall y | y in h'.objs ensures ObjOk(h', y) { assert ObjOk(g, y); }
  }

  lemma DropStrings(h: Heap, i: nat, j: nat, hash: string -> nat)
    requires StringsOk(h, hash) && i < |h.strt| && j < |h.strt[i]| && h.strt[i][j] in h.objs
    ensures StringsOk(FreeStr(h, i, j), hash)
  {
    var h', x := FreeStr(h, i, j), h.strt[i][j];
    RemoveDistinct(h.strt[i], j);
    forall k, y: Id | 0 <= k < |h'.strt| && y in h'.strt[k]
      ensures y in h'.objs && h'.objs[y].b.Str? && hash(h'.objs[y].b.text) % |h'.strt| == k
    {
      assert y in h.strt[k];
      assert x in h.strt[i];
    }
  }

  /** Removing an object that is no thread and no open upvalue changes no one's references. */
  lemma DropVals(h: Heap, x: Id)
    requires x in h.objs && (forall u :: u in h.objs && h.objs[u].b.Open? ==> h.objs[u].b.th != x)
    ensures forall y :: y in h.objs && y != x ==> AllVals(h.objs - {x}, y) == AllVals(h.objs, y)
  {
  }

  /** The lists other than the one x was in. */
  lemma DropShape(h: Heap, x: Id, hash: string -> nat)
    requires Shape(h, hash) && x in h.objs && !h.objs[x].b.Open? && x != h.main && x != h.running
    requires IsThread(h.objs, x) ==> h.objs[x].b.open == []
    ensures var h' := h.(objs := h.objs - {x}); UpvalsOk(h') && ObjsOk(h')
    ensures forall u :: u in h.objs && h.objs[u].b.Open? ==> h.objs[u].b.th != x
  {
    hide RootOk, StringsOk;
    DropObjs(h, x);
    DropUpvals(h, x);
  }

  lemma DropObjs(h: Heap, x: Id)
    requires ObjsOk(h) && x in h.objs && x != h.main && x != h.running
    ensures ObjsOk(h.(objs := h.objs - {x}))
  {
    var h' := h.(objs := h.objs - {x});
    forall y | y in h'.objs ensures ObjOk(h', y) { assert ObjOk(h, y); }
  }

  lemma DropUpvals(h: Heap, x: Id)
    requires UpvalsOk(h) && x in h.objs && !h.objs[x].b.Open? && (IsThread(h.objs, x) ==> h.objs[x].b.open == [])
    ensures UpvalsOk(h.(objs := h.objs - {x}))
    ensures forall u :: u in h.objs && h.objs[u].b.Open? ==> h.objs[u].b.th != x
  {
    hide OpenAt, OpenList;
    var h' := h.(objs := h.objs - {x});
    forall u | u in h.objs && h.objs[u].b.Open? ensures h.objs[u].b.th != x && OpenAt(h'.objs, u, h.objs[u].b.th) {
      assert OpenAt(h.objs, u, h.objs[u].b.th);
      DropOpenAt(h.objs, x, u, h.objs[u].b.th);
    }
    forall th | th in h'.objs && h'.objs[th].b.Thread? ensures OpenList(h'.objs, th) {
      assert OpenList(h.objs, th);
      DropOpenList(h.objs, x, th);
    }
  }

  lemma DropOpenAt(objs: Objs, x: Id, u: Id, th: Id)
    requires OpenAt(objs, u, th) && x in objs && !objs[x].b.Open? && (IsThread(objs, x) ==> objs[x].b.open == [])
    ensures x != th && OpenAt(objs - {x}, u, th)
  {
  }

  lemma DropOpenList(objs: Objs, x: Id, th: Id)
    requires OpenList(objs, th) && x in objs && !objs[x].b.Open? && x != th
    ensures OpenList(objs - {x}, th)
  {
    forall u | u in objs[th].b.open ensures OpenAt(objs - {x}, u, th) && LevelOf(objs - {x}, u) == LevelOf(objs, u) {
      assert OpenAt(objs, u, th);
    }
  }

  // ----- rootgc -----

  /** Freeing the i-th object of rootgc; a thread's upvalues have been closed before. */
  function FreeRoot(h: Heap, i: nat): Heap
    requires i < |h.rootgc|
  {
    h.(objs := h.objs - {h.rootgc[i]}, rootgc := RemoveAt(h.rootgc, i))
  }

  lemma FreeRootKeeps(h: Heap, i: nat, hash: string -> nat)
    requires Shape(h, hash) && Safe(h) && i < |h.rootgc| && h.rootgc[i] in h.objs
    requires var x := h.rootgc[i];
      IsDead(h.objs[x].m, h.cw) && !h.objs[x].m.fixed && (IsThread(h.objs, x) ==> h.objs[x].b.open == [])
    ensures Shape(FreeRoot(h, i), hash) && Safe(FreeRoot(h, i)) && Kept(FreeRoot(h, i)) == Kept(h)
  {
    var x, h' := h.rootgc[i], FreeRoot(h, i);
    NotRoot(h, x);
    assert Rooted(h.objs[x].b) by { assert RootOk(h) && x in h.rootgc; }
    DropShape(h, x, hash);
    DropRoot(h, i);
    assert StringsOk(h', hash) by { DropKeepsStrings(h, x, hash, h'); }
    assert UpvalsOk(h') && ObjsOk(h') by { RootListOnly(h, x, h'); }
    DropVals(h, x);
    hide Shape;
    FreedSafe(h, x, h');
  }

  lemma NotRoot(h: Heap, x: Id)
    requires Safe(h) && x in h.objs && IsDead(h.objs[x].m, h.cw)
    ensures x != h.main && x != h.running && x != h.registry
  {
    assert Roots(h)[0] == Some(h.main) && Roots(h)[1] == Some(h.running) && Roots(h)[2] == Some(h.registry);
    assert LiveRef(h, Some(h.main)) && LiveRef(h, Some(h.running)) && LiveRef(h, Some(h.registry));
  }

  lemma DropRoot(h: Heap, i: nat)
    requires RootOk(h) && i < |h.rootgc|
    ensures RootOk(FreeRoot(h, i))
  {
    RemoveDistinct(h.rootgc, i);
  }

  lemma DropKeepsStrings(h: Heap, x: Id, hash: string -> nat, h': Heap)
    requires StringsOk(h, hash) && x in h.objs && !h.objs[x].b.Str? && h'.objs == h.objs - {x} && h'.strt == h.strt
    ensures StringsOk(h', hash)
  {
  }

  lemma RootListOnly(h: Heap, x: Id, h': Heap)
    requires var g := h.(objs := h.objs - {x}); UpvalsOk(g) && ObjsOk(g) && h' == g.(rootgc := h'.rootgc)
    ensures UpvalsOk(h') && ObjsOk(h')
  {
    var g := h.(objs := h.objs - {x});
    forall y | y in h'.objs ensures ObjOk(h', y) { assert ObjOk(g, y); }
  }

  // ----- progress of a sweep -----

  /** A sweeping step undoes no earlier one: what was clean stays clean, nothing appears. */
  ghost predicate SweepStep(h: Heap, h': Heap) {
    && h' == h.(objs := h'.objs, strt := h'.strt, uvhead := h'.uvhead, rootgc := h'.rootgc, sweepgc := h'.sweepgc)
    && (forall x :: CleanId(h, x) ==> CleanId(h', x))
    && (forall x :: x in h'.objs ==> x in h.objs && (h'.objs[x].b.Str? ==> h.objs[x].b.Str?))
    && (forall x :: x in h'.objs ==> Vals(h'.objs, x) == Vals(h.objs, x) && h'.objs[x].m.fixed == h.objs[x].m.fixed)
    && (forall x :: x in h'.objs ==> SameContent(h.objs[x].b, h'.objs[x].b))
    && (forall x :: IsThread(h'.objs, x) ==> IsThread(h.objs, x) && forall u :: u in h'.objs[x].b.open ==>
      u in h.objs[x].b.open)
  }

  /** Not kept by the sweep: dead, and not fixed; or gone. */
  predicate Doomed(h: Heap, x: Id) { x in h.objs ==> IsDead(h.objs[x].m, h.cw) && !h.objs[x].m.fixed }

  /** A sweep closes an upvalue only with its thread, and condemns nothing. */
  ghost predicate OpenStep(h: Heap, h': Heap) {
    && (forall x: Id :: x in h'.objs && x in h.objs && h.objs[x].b.Open? ==>
          h'.objs[x].b == h.objs[x].b || Doomed(h, h.objs[x].b.th))
    && (forall x: Id :: x in h'.objs ==> x in h.objs)
    && (forall x: Id :: Doomed(h', x) ==> Doomed(h, x))
  }

  lemma OpenSelf(h: Heap)
    ensures OpenStep(h, h)
  {
  }

  lemma OpenTrans(a: Heap, b: Heap, c: Heap)
    requires OpenStep(a, b) && OpenStep(b, c)
    ensures OpenStep(a, c)
  {
  }

  lemma OpenMoved(h: Heap, h1: Heap, h2: Heap)
    requires OpenStep(h, h1) && h2.objs == h1.objs && h2.cw == h1.cw
    ensures OpenStep(h, h2)
  {
  }

  lemma WhitenOpen(h: Heap, x: Id)
    requires x in h.objs && !Doomed(h, x)
    ensures OpenStep(h, Whiten(h, x))
  {
  }

  /** Freeing a doomed object, and whatever happens to lists. */
  lemma FreeOpen(h: Heap, x: Id, h': Heap)
    requires x in h.objs && Doomed(h, x) && h'.objs == h.objs - {x} && h'.cw == h.cw
    ensures OpenStep(h, h')
  {
  }

  lemma NoSweep(h: Heap)
    ensures SweepStep(h, h)
  {
  }

  lemma SweepTrans(a: Heap, b: Heap, c: Heap)
    requires SweepStep(a, b) && SweepStep(b, c)
    ensures SweepStep(a, c)
  {
    forall x | IsThread(c.objs, x)
      ensures IsThread(a.objs, x) && forall u :: u in c.objs[x].b.open ==> u in a.objs[x].b.open
    {
      assert IsThread(b.objs, x);
    }
  }

  lemma StaysSwept(h: Heap, h': Heap, x: Id)
    requires SweepStep(h, h') && SweptObj(h, x)
    ensures SweptObj(h', x)
  {
    assert CleanId(h, x);
    if IsThread(h'.objs, x) {
      forall u | u in h'.objs[x].b.open ensures CleanId(h', u) { assert IsThread(h.objs, x) && CleanId(h, u); }
    }
  }

  lemma WhitenStep(h: Heap, x: Id)
    requires x in h.objs
    ensures SweepStep(h, Whiten(h, x)) && CleanId(Whiten(h, x), x)
  {
    forall y | y in h.objs
      ensures Vals(Whiten(h, x).objs, y) == Vals(h.objs, y)
    {
      SameVals(h.objs, Whiten(h, x).objs, y);
    }
  }

  lemma StrIn(h: Heap, i: nat, j: nat, hash: string -> nat)
    requires StringsOk(h, hash) && i < |h.strt| && j < |h.strt[i]|
    ensures h.strt[i][j] in h.objs && h.objs[h.strt[i][j]].b.Str?
  {
    assert h.strt[i][j] in h.strt[i];
  }

  lemma FreeStrStep(h: Heap, i: nat, j: nat, hash: string -> nat)
    requires StringsOk(h, hash) && i < |h.strt| && j < |h.strt[i]|
    ensures SweepStep(h, FreeStr(h, i, j))
  {
    hide StringsOk;
    var x := h.strt[i][j];
    StrIn(h, i, j, hash);
    forall y | y in h.objs && y != x ensures Vals(h.objs - {x}, y) == Vals(h.objs, y) { }
  }

  lemma FreeRootStep(h: Heap, i: nat)
    requires UpvalsOk(h) && i < |h.rootgc| && h.rootgc[i] in h.objs && !h.objs[h.rootgc[i]].b.Open?
    requires IsThread(h.objs, h.rootgc[i]) ==> h.objs[h.rootgc[i]].b.open == []
    ensures SweepStep(h, FreeRoot(h, i))
  {
    var x := h.rootgc[i];
    DropUpvals(h, x);
    hide UpvalsOk;
    forall y | y in h.objs && y != x ensures Vals(h.objs - {x}, y) == Vals(h.objs, y) { }
  }
}
