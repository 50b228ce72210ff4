/** luaF_close between collector steps (lfunc.c, with lgc.c: luaC_linkupval),
    and resizing the string table (lstring.c: luaS_resize). */
module GcClose {
  import opened Wrappers
  import opened GcHeap
  import opened GcMark
  import opened GcSweep
  import opened GcUpvals
  import opened GcStep
  import opened GcMutate
  import opened GcStack

  lemma GonePhase(h: Heap, h': Heap, hash: string -> nat)
    requires Phase(h) && !h.gcstate.GCSpropagate? && SweepStep(h, h')
    requires h'.strt == h.strt && h'.rootgc == h.rootgc && h'.sweepgc == h.sweepgc
    ensures Phase(h')
  {
    assert CleanMono(h, h');
    assert OpenMono(h, h');
    assert ListMono(h, h') by { PrefixMono(h, h'); }
    hide CleanMono, OpenMono, ListMono, SweepStep;
    PhaseKept(h, h');
  }

  /** A dead open upvalue is freed when its slot goes. */
  lemma FreeUvInv(h: Heap, th: Id, hash: string -> nat)
    requires Inv(h, hash) && IsThread(h.objs, th) && h.objs[th].b.open != []
    requires var u := h.objs[th].b.open[0]; u in h.objs && IsDead(h.objs[u].m, h.cw) && !h.objs[u].m.fixed
    ensures Inv(FreeUv(h, th, 0), hash) && forall x :: Live(h, x) ==> Live(FreeUv(h, th, 0), x)
  {
    hide Shape, Safe, SweepStep, Phase, Kept;
    assert Sound(h, hash);
    FreeUvSound(h, th, 0, hash);
    DeadPhase(h, h.objs[th].b.open[0]);
    GonePhase(h, FreeUv(h, th, 0), hash);
  }

  // ----- closing a live upvalue -----

  /** In a mark phase the closed upvalue is the only object still to be covered. */
  lemma CloseMarking(h: Heap, th: Id)
    requires Marking(h, {}, Incremental, h.objs.Keys) && UpvalsOk(h) && IsThread(h.objs, th) && h.objs[th].b.open != []
    ensures h.objs[th].b.open[0] in h.objs && h.objs[h.objs[th].b.open[0]].b.Open?
    ensures var u, h' := h.objs[th].b.open[0], CloseUv(h, th, 0);
      Marking(h', {u}, Incremental, h'.objs.Keys) && u !in h'.gray && u !in h'.grayagain
  {
    hide UpvalsOk, Covered, ClosedSet;
    UvFacts(h, th, 0);
    var u, h' := h.objs[th].b.open[0], CloseUv(h, th, 0);
    CloseClosed(h, th);
    assert GrayLists(h');
    forall x | x in h'.objs && x !in {u} ensures Covered(h', x, Incremental) {
      assert x !in {} && Covered(h, x, Incremental);
      UvVals(h, th, 0, x);
      CloseCovered(h, th, x);
    }
  }

  lemma CloseClosed(h: Heap, th: Id)
    requires ClosedSet(h.objs, h.objs.Keys) && UpvalsOk(h) && IsThread(h.objs, th) && h.objs[th].b.open != []
    ensures h.objs[th].b.open[0] in h.objs && h.objs[h.objs[th].b.open[0]].b.Open?
    ensures ClosedSet(CloseUv(h, th, 0).objs, CloseUv(h, th, 0).objs.Keys) && CloseUv(h, th, 0).objs.Keys == h.objs.Keys
  {
    hide UpvalsOk;
    UvFacts(h, th, 0);
    var h' := CloseUv(h, th, 0);
    forall x, y | x in h'.objs && Points(h'.objs, x, y) ensures y in h'.objs {
      UvVals(h, th, 0, x);
      assert Points(h.objs, x, y);
    }
  }

  lemma CloseCovered(h: Heap, th: Id, x: Id)
    requires IsThread(h.objs, th) && h.objs[th].b.open != [] && h.objs[th].b.open[0] in h.objs
    requires h.objs[h.objs[th].b.open[0]].b.Open?
    requires x in h.objs && x != h.objs[th].b.open[0] && Covered(h, x, Incremental)
    requires AllVals(CloseUv(h, th, 0).objs, x) == AllVals(h.objs, x)
    ensures Covered(CloseUv(h, th, 0), x, Incremental)
  {
    var h' := CloseUv(h, th, 0);
    if AllMarked(h.objs, x) {
      forall y: Id | Holds(h'.objs, x, y) ensures Marked(h'.objs, y) { assert Holds(h.objs, x, y); }
    }
  }

  /** A white upvalue needs nothing more. */
  lemma WhiteClosed(h: Heap, u: Id)
    requires Marking(h, {u}, Incremental, h.objs.Keys) && u in h.objs && IsWhite(h.objs[u].m)
    ensures Marking(h, {}, Incremental, h.objs.Keys)
  {
    assert {} + {u} == {u};
    Uncover(h, u, {}, Incremental, h.objs.Keys);
  }

  /** Outside a mark phase the closed upvalue must be white, hence clean. */
  lemma ClosedPhase(h: Heap, th: Id, h': Heap)
    requires Phase(h) && !h.gcstate.GCSpropagate? && UpvalsOk(h) && IsThread(h.objs, th) && h.objs[th].b.open != []
    requires h.objs[th].b.open[0] in h.objs && h.objs[h.objs[th].b.open[0]].b.Open?
    requires var u, h1 := h.objs[th].b.open[0], CloseUv(h, th, 0);
      && (h' == h1 || h' == Whiten(h1, u)) && CleanId(h', u)
    ensures Phase(h')
  {
    hide UpvalsOk;
    var u, h1 := h.objs[th].b.open[0], CloseUv(h, th, 0);
    CloseUvStep(h, th, 0);
    if h' != h1 { WhitenStep(h1, u); SweepTrans(h, h1, h'); }
    ClosedLists(h, th, h');
    hide CleanMono, OpenMono, ListMono, SweepStep;
    PhaseKept(h, h');
  }

  lemma ClosedLists(h: Heap, th: Id, h': Heap)
    requires Phase(h) && !h.gcstate.GCSpropagate? && SweepStep(h, h') && IsThread(h.objs, th) && h.objs[th].b.open != []
    requires h'.strt == h.strt && h'.rootgc == [h.objs[th].b.open[0]] + h.rootgc
    requires h'.sweepgc == (if h.sweepgc == 0 then 0 else h.sweepgc + 1)
    requires var u := h.objs[th].b.open[0]; CleanId(h', u) && !IsThread(h'.objs, u)
    ensures CleanMono(h, h') && OpenMono(h, h') && ListMono(h, h')
  {
    if h.gcstate.GCSsweep? {
      forall i | 0 <= i < h'.sweepgc ensures SweptObj(h', h'.rootgc[i]) || InPrefix(h, h'.rootgc[i]) {
        if i > 0 { assert h.rootgc[..h.sweepgc][i - 1] == h'.rootgc[i]; }
      }
    }
  }

  /** Live and white means clean; live, neither white nor black means gray. */
  lemma LiveColour(h: Heap, u: Id)
    requires u in h.objs && !IsDead(h.objs[u].m, h.cw) && MarkOk(h.objs[u].m) && !h.objs[u].m.black
    ensures IsGray(h.objs[u].m) || CleanId(h, u)
  {
  }

  // ----- resizing the string table -----

  /** Bucket lists `strt` hold exactly the strings in S, each in the bucket of its hash. */
  ghost predicate Rehashed(objs: Objs, strt: seq<seq<Id>>, S: set<Id>, hash: string -> nat) {
    && |strt| > 0
    && (forall k :: 0 <= k < |strt| ==> Distinct(strt[k]))
    && (forall k, x :: 0 <= k < |strt| && x in strt[k] ==>
      x in S && x in objs && objs[x].b.Str? && hash(objs[x].b.text) % |strt| == k)
    && (forall x :: x in S && x in objs && objs[x].b.Str? ==> x in strt[hash(objs[x].b.text) % |strt|])
  }

  lemma Rehash(objs: Objs, strt: seq<seq<Id>>, S: set<Id>, hash: string -> nat, x: Id)
    requires Rehashed(objs, strt, S, hash) && x !in S && x in objs && objs[x].b.Str?
    ensures var k := hash(objs[x].b.text) % |strt|; Rehashed(objs, strt[k := [x] + strt[k]], S + {x}, hash)
  {
    var k := hash(objs[x].b.text) % |strt|;
    var strt' := strt[k := [x] + strt[k]];
    assert x !in strt[k];
    forall j | 0 <= j < |strt'| ensures Distinct(strt'[j]) {
      if j == k { PushDistinct(strt[k], x); }
    }
  }

  /** The strings of the first i buckets and of the first p entries of the next. */
  function Done(strt: seq<seq<Id>>, i: nat, p: nat): set<Id>
    requires i <= |strt| && (p > 0 ==> i < |strt| && p <= |strt[i]|)
  {
    (set k, x | 0 <= k < i && x in strt[k] :: x) + (if p > 0 then set x | x in strt[i][..p] else {})
  }

  lemma DoneNext(strt: seq<seq<Id>>, i: nat, p: nat)
    requires i < |strt| && p < |strt[i]|
    ensures Done(strt, i, p + 1) == Done(strt, i, p) + {strt[i][p]}
  {
    assert strt[i][..p + 1] == strt[i][..p] + [strt[i][p]];
  }

  lemma DoneBucket(strt: seq<seq<Id>>, i: nat)
    requires i < |strt|
    ensures Done(strt, i + 1, 0) == Done(strt, i, |strt[i]|)
  {
    assert strt[i][..|strt[i]|] == strt[i];
    forall x ensures x in Done(strt, i + 1, 0) <==> x in Done(strt, i, |strt[i]|) {
      if x in Done(strt, i + 1, 0) {
        var k :| 0 <= k < i + 1 && x in strt[k];
      }
      if x in strt[i] { }
    }
  }

  lemma NotDone(h: Heap, i: nat, p: nat, hash: string -> nat)
    requires StringsOk(h, hash) && i < |h.strt| && p < |h.strt[i]|
    ensures h.strt[i][p] in h.objs && h.objs[h.strt[i][p]].b.Str? && h.strt[i][p] !in Done(h.strt, i, p)
  {
    var x := h.strt[i][p];
    assert x in h.strt[i];
    forall k | 0 <= k < |h.strt| && x in h.strt[k] ensures k == i {
      assert hash(h.objs[x].b.text) % |h.strt| == k;
    }
  }

  lemma AllDone(h: Heap, strt: seq<seq<Id>>, hash: string -> nat)
    requires StringsOk(h, hash) && Rehashed(h.objs, strt, Done(h.strt, |h.strt|, 0), hash)
    ensures StringsOk(h.(strt := strt), hash)
  {
    forall x | x in h.objs && h.objs[x].b.Str? ensures x in Done(h.strt, |h.strt|, 0) {
      assert x in h.strt[hash(h.objs[x].b.text) % |h.strt|];
    }
  }

  lemma ResizedInv(h: Heap, strt: seq<seq<Id>>, hash: string -> nat)
    requires Inv(h, hash) && !h.gcstate.GCSsweepstring? && StringsOk(h.(strt := strt), hash)
    ensures Inv(h.(strt := strt), hash)
  {
    var h' := h.(strt := strt);
    hide StringsOk, RootOk, UpvalsOk, Safe, Marking, SweptRoot;
    assert Shape(h', hash) by {
      assert RootOk(h') by { assert RootOk(h); SameRoot(h, h'); }
      assert UpvalsOk(h') by { SameUpvals(h, h'); }
      ObjsOkSame(h, h');
    }
    SameSafe(h, h');
    if h.gcstate.GCSpropagate? {
      SameMarking(h, h');
    } else {
      StrtPhase(h, h');
    }
  }

  lemma SameRoot(h: Heap, h': Heap)
    requires RootOk(h) && h'.rootgc == h.rootgc && h'.objs == h.objs
    ensures RootOk(h')
  {
  }

  lemma SameUpvals(h: Heap, h': Heap)
    requires UpvalsOk(h) && h'.uvhead == h.uvhead && h'.objs == h.objs
    ensures UpvalsOk(h')
  {
  }

  lemma SameMarking(h: Heap, h': Heap)
    requires Marking(h, {}, Incremental, h.objs.Keys) && h' == h.(strt := h'.strt)
    ensures Marking(h', {}, Incremental, h'.objs.Keys)
  {
    forall x | x in h'.objs && x !in {}
      ensures Covered(h', x, Incremental)
    {
      assert x !in {} && Covered(h, x, Incremental);
    }
  }

  lemma StrtPhase(h: Heap, h': Heap)
    requires Phase(h) && !h.gcstate.GCSsweepstring? && !h.gcstate.GCSpropagate? && h' == h.(strt := h'.strt)
    ensures Phase(h')
  {
    assert CleanMono(h, h') && OpenMono(h, h');
    assert ListMono(h, h') by { PrefixMono(h, h'); }
    hide CleanMono, OpenMono, ListMono;
    PhaseKept(h, h');
  }

  lemma TableOk(h: Heap, hash: string -> nat)
    requires Inv(h, hash)
    ensures StringsOk(h, hash)
  {
  }

  lemma EmptyTable(objs: Objs, newhash: seq<seq<Id>>, strt: seq<seq<Id>>, hash: string -> nat)
    requires |newhash| > 0 && forall k :: 0 <= k < |newhash| ==> newhash[k] == []
    ensures Rehashed(objs, newhash, Done(strt, 0, 0), hash)
  {
  }

  // ----- what the methods look up -----

  lemma StackThread(h: Heap, th: Id, b: Body)
    requires StackOk(h, th, b)
    ensures IsThread(h.objs, th)
  {
  }

  lemma TableFacts(h: Heap, hash: string -> nat)
    requires Inv(h, hash)
    ensures |h.strt| > 0
    ensures forall i, x :: 0 <= i < |h.strt| && x in h.strt[i] ==> x in h.objs && h.objs[x].b.Str?
  {
    assert StringsOk(h, hash);
  }

  lemma StringBack(h: Heap, x: Id, hash: string -> nat)
    requires Inv(h, hash) && x in h.objs && h.objs[x].b.Str? && IsDead(h.objs[x].m, h.cw)
    ensures Inv(Resurrect(h, x), hash) && Live(Resurrect(h, x), x)
    ensures forall y :: Live(h, y) ==> Live(Resurrect(h, x), y)
  {
    hide Shape, Safe, Phase;
    Resurrectable(h, x, hash);
    ResurrectInv(h, x, hash);
  }

  lemma UpvalBack(h: Heap, u: Id, hash: string -> nat)
    requires Inv(h, hash) && u in h.objs && h.objs[u].b.Open? && Live(h, h.objs[u].b.th) && IsDead(h.objs[u].m, h.cw)
    ensures Inv(Resurrect(h, u), hash) && Live(Resurrect(h, u), u)
    ensures forall y :: Live(h, y) ==> Live(Resurrect(h, u), y)
  {
    hide Shape, Safe, Phase;
    Resurrectable(h, u, hash);
    ResurrectInv(h, u, hash);
  }

  lemma NotInTable(h: Heap, text: string, i: nat, hash: string -> nat)
    requires Inv(h, hash) && i < |h.strt| && i == hash(text) % |h.strt|
    requires forall j :: 0 <= j < |h.strt[i]| ==> h.strt[i][j] in h.objs && h.objs[h.strt[i][j]].b != Str(text)
    ensures forall x :: x in h.strt[i] ==> x in h.objs && h.objs[x].b != Str(text)
    ensures !exists y :: y in h.objs && h.objs[y].b == Str(text)
  {
    assert StringsOk(h, hash);
    assert forall y :: y in h.objs && h.objs[y].b.Str? && h.objs[y].b.text == text ==> y in h.strt[i];
  }

  lemma NonEmptyTable(h: Heap, hash: string -> nat)
    requires Inv(h, hash)
    ensures |h.strt| > 0
  {
    assert StringsOk(h, hash);
  }

  lemma FreshIn(h: Heap, hash: string -> nat)
    requires Inv(h, hash)
    ensures h.next !in h.objs
  {
    FreshId(h, hash);
  }

  lemma OpenFacts(h: Heap, th: Id, hash: string -> nat)
    requires Inv(h, hash) && IsThread(h.objs, th)
    ensures OpenList(h.objs, th)
  {
  }

  lemma OpenMember(h: Heap, th: Id, j: nat, hash: string -> nat)
    requires Inv(h, hash) && IsThread(h.objs, th) && j < |h.objs[th].b.open|
    ensures var u := h.objs[th].b.open[j]; u in h.objs && h.objs[u].b.Open? && h.objs[u].b.th == th
  {
    OpenFacts(h, th, hash);
    assert h.objs[th].b.open[j] in h.objs[th].b.open;
  }

  /** luaF_findupval stops at the right place in the sorted list. */
  lemma PlaceFound(h: Heap, th: Id, level: nat, j: nat, hash: string -> nat)
    requires Inv(h, hash) && IsThread(h.objs, th) && j <= |h.objs[th].b.open| && level < h.objs[th].b.top
    requires forall i :: 0 <= i < j ==> LevelOf(h.objs, h.objs[th].b.open[i]) > level
    requires j < |h.objs[th].b.open| ==> LevelOf(h.objs, h.objs[th].b.open[j]) < level
    ensures Place(h.objs, th, level, j) && h.objs[th].b.top <= |h.objs[th].b.stack|
  {
    OpenFacts(h, th, hash);
    assert ObjsOk(h) && ObjOk(h, th);
  }

  lemma NoUpvalYet(h: Heap, th: Id, level: nat, j: nat, hash: string -> nat)
    requires Inv(h, hash) && Place(h.objs, th, level, j)
    ensures !exists y :: y in h.objs && h.objs[y].b == Open(th, level)
  {
    forall y | y in h.objs ensures h.objs[y].b != Open(th, level) {
      assert UpvalsOk(h);
      assert h.objs[y].b == Open(th, level) ==> OpenAt(h.objs, y, th) && LevelOf(h.objs, y) == level;
    }
  }

  /** th has kept its stack, and gained no open upvalues. */
  ghost predicate SameThread(objs: Objs, objs': Objs, th: Id) {
    && IsThread(objs, th) && IsThread(objs', th)
    && objs'[th].b.stack == objs[th].b.stack && objs'[th].b.top == objs[th].b.top && objs'[th].b.env == objs[th].b.env
    && forall u :: u in objs'[th].b.open ==> u in objs[th].b.open
  }

  lemma HeadFacts(h: Heap, th: Id, hash: string -> nat)
    requires Inv(h, hash) && IsThread(h.objs, th) && h.objs[th].b.open != []
    ensures var u := h.objs[th].b.open[0];
      && u in h.objs && h.objs[u].b.Open? && h.objs[u].b.th == th && !h.objs[u].m.fixed && !h.objs[u].m.black
      && MarkOk(h.objs[u].m) && u != th
      && h.objs[u].b.level < h.objs[th].b.top <= |h.objs[th].b.stack|
  {
    assert Sound(h, hash);
    InOpen(h, th, 0, hash);
    assert ObjOk(h, h.objs[th].b.open[0]);
  }

  /** The list is sorted: once its head is below the level, all of it is. */
  lemma BelowLevel(h: Heap, th: Id, level: nat, hash: string -> nat)
    requires Inv(h, hash) && IsThread(h.objs, th)
    requires h.objs[th].b.open != [] ==> LevelOf(h.objs, h.objs[th].b.open[0]) < level
    ensures forall u :: u in h.objs[th].b.open ==> LevelOf(h.objs, u) < level
  {
    OpenFacts(h, th, hash);
    var open := h.objs[th].b.open;
    forall u | u in open ensures LevelOf(h.objs, u) < level {
      var i :| 0 <= i < |open| && open[i] == u;
      assert i > 0 ==> LevelOf(h.objs, open[0]) > LevelOf(h.objs, open[i]);
    }
  }

  lemma FreedThread(h: Heap, th: Id)
    requires IsThread(h.objs, th) && h.objs[th].b.open != [] && h.objs[th].b.open[0] != th
    ensures SameThread(h.objs, FreeUv(h, th, 0).objs, th) && |FreeUv(h, th, 0).objs[th].b.open| < |h.objs[th].b.open|
  {
    HeadGone(h.objs[th].b.open);
  }

  lemma HeadGone(s: seq<Id>)
    requires s != []
    ensures forall u :: u in RemoveAt(s, 0) ==> u in s
  {
    assert RemoveAt(s, 0) == s[1..];
  }

  lemma ClosedThread(h: Heap, th: Id, objs': Objs)
    requires IsThread(h.objs, th) && h.objs[th].b.open != [] && h.objs[th].b.open[0] != th
    requires h.objs[th].b.open[0] in h.objs && h.objs[h.objs[th].b.open[0]].b.Open?
    requires SameBodies(CloseUv(h, th, 0).objs, objs')
    ensures SameThread(h.objs, objs', th) && |objs'[th].b.open| < |h.objs[th].b.open|
  {
    HeadGone(h.objs[th].b.open);
    assert objs'[th].b == CloseUv(h, th, 0).objs[th].b;
  }

  lemma LinkedPhase(h: Heap, th: Id, h': Heap, hash: string -> nat)
    requires Inv(h, hash) && !h.gcstate.GCSpropagate? && IsThread(h.objs, th) && h.objs[th].b.open != []
    requires h.objs[th].b.open[0] in h.objs && h.objs[h.objs[th].b.open[0]].b.Open?
    requires var u, h1 := h.objs[th].b.open[0], CloseUv(h, th, 0);
      && !IsDead(h.objs[u].m, h.cw) && MarkOk(h.objs[u].m) && !h.objs[u].m.black && u != th
      && h' == (if IsGray(h.objs[u].m) then Whiten(h1, u) else h1) && Sound(h', hash)
    ensures Inv(h', hash)
  {
    hide Sound, Phase, UpvalsOk;
    var u, h1 := h.objs[th].b.open[0], CloseUv(h, th, 0);
    ClosedMark(h, th, u);
    LiveColour(h, u);
    assert CleanId(h', u) by {
      if IsGray(h.objs[u].m) { WhitenStep(h1, u); } else { assert h1.objs[u].m == h.objs[u].m; }
    }
    ClosedPhase(h, th, h');
    assert Shape(h', hash) && Safe(h') by { SoundParts(h', hash); }
  }

  lemma SoundParts(h: Heap, hash: string -> nat)
    requires Sound(h, hash)
    ensures Shape(h, hash) && Safe(h)
  {
  }

  lemma ClosedMark(h: Heap, th: Id, u: Id)
    requires IsThread(h.objs, th) && h.objs[th].b.open != [] && u == h.objs[th].b.open[0] && u in h.objs
    requires h.objs[u].b.Open? && u != th
    ensures u in CloseUv(h, th, 0).objs && CloseUv(h, th, 0).objs[u].m == h.objs[u].m
    ensures CloseUv(h, th, 0).objs[u].b.Closed?
    ensures forall x :: x in h.objs ==> x in CloseUv(h, th, 0).objs && CloseUv(h, th, 0).objs[x].m == h.objs[x].m
  {
  }

  lemma EndSweep(h: Heap, h': Heap, hash: string -> nat)
    requires AllClean(h) && h'.objs == h.objs && h'.cw == h.cw && h'.gcstate.GCSfinalize?
    requires Inv(h'.(gcstate := GCSsweep), hash)
    ensures Inv(h', hash) && Kept(h') == Kept(h)
  {
    hide Shape, Safe, AllClean, Phase;
    var g := h'.(gcstate := GCSsweep);
    assert Sound(g, hash);
    SoundState(g, h', hash);
    SoundParts(h', hash);
    CleanSame(h, h');
    FinalPhase(h');
  }

  lemma FinalPhase(h: Heap)
    requires AllClean(h) && h.gcstate.GCSfinalize?
    ensures Phase(h)
  {
  }

  /** The end of luaC_linkupval in a mark phase. */
  lemma LinkedInv(h: Heap, h': Heap, hash: string -> nat)
    requires Inv(h, hash) && h.gcstate.GCSpropagate? && h'.gcstate == h.gcstate && h'.main == h.main
    requires h'.registry == h.registry
    requires Marking(h', {}, Incremental, h'.objs.Keys) && Shape(h', hash) && Safe(h')
    requires forall x :: Marked(h.objs, x) ==> Marked(h'.objs, x)
    ensures Inv(h', hash)
  {
    hide Shape, Safe, Marking;
  }

  lemma InvSound(h: Heap, hash: string -> nat)
    requires Inv(h, hash)
    ensures Sound(h, hash)
  {
  }

  lemma CloseMarkingInv(h: Heap, th: Id, hash: string -> nat)
    requires Inv(h, hash) && h.gcstate.GCSpropagate? && IsThread(h.objs, th) && h.objs[th].b.open != []
    ensures h.objs[th].b.open[0] in h.objs && h.objs[h.objs[th].b.open[0]].b.Open?
    ensures var u, h' := h.objs[th].b.open[0], CloseUv(h, th, 0);
      Marking(h', {u}, Incremental, h'.objs.Keys) && u !in h'.gray && u !in h'.grayagain
  {
    hide Marking, Safe;
    CloseMarking(h, th);
  }

  lemma ValueAlloc(h: Heap, u: Id, v: Ref)
    requires Marking(h, {u}, Incremental, h.objs.Keys) && u in h.objs && h.objs[u].b == Closed(v)
    ensures v.Some? ==> v.value in h.objs && !IsDead(h.objs[v.value].m, h.cw)
    ensures AllVals(h.objs, u) == [v]
  {
    if v.Some? { assert Points(h.objs, u, v.value); }
  }

  lemma BarrierMarks(h2: Heap, h3: Heap)
    requires h3 == h2 || MarkStep(h2, h3)
    ensures forall x :: Marked(h2.objs, x) ==> Marked(h3.objs, x)
    ensures SameBodies(h2.objs, h3.objs)
  {
    if h3 != h2 { StepSpreads(h2, h3); }
  }

  lemma MarkedLive(h: Heap, h': Heap)
    requires Marking(h', {}, Incremental, h'.objs.Keys) && forall x :: x in h.objs ==> x in h'.objs
    ensures forall y :: Live(h, y) ==> Live(h', y)
  {
  }

  lemma SamePhase(h: Heap)
    requires h.gcstate.GCSpropagate? && Phase(h)
    ensures Marked(h.objs, h.main) && Marked(h.objs, h.registry)
  {
  }

  lemma NoChange(h: Heap)
    ensures SameBodies(h.objs, h.objs)
  {
  }

  lemma MarksKept(h: Heap, h1: Heap, h2: Heap)
    requires forall x :: x in h.objs ==> x in h1.objs && h1.objs[x].m == h.objs[x].m
    requires h2 == h1 || forall x :: Marked(h1.objs, x) ==> Marked(h2.objs, x)
    ensures forall x :: Marked(h.objs, x) ==> Marked(h2.objs, x)
  {
    forall x | Marked(h.objs, x) ensures Marked(h2.objs, x) { assert Marked(h1.objs, x); }
  }
}
