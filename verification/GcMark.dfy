/** What one marking step keeps (lgc.c: the mark phase). */
module GcMark {
  import opened Wrappers
  import opened GcHeap

  ghost function Whites(objs: Objs): set<Id> { set x | x in objs && IsWhite(objs[x].m) }

  /** Marking still to be done: it shrinks with every object marked or visited. */
  ghost function Work(h: Heap): nat { 2 * |Whites(h.objs)| + |h.gray| }

  /** Some white objects have been marked; nothing else has changed. */
  ghost predicate Further(objs: Objs, objs': Objs) {
    && objs'.Keys == objs.Keys
    && (forall x :: x in objs ==> objs'[x].b == objs[x].b && objs'[x].m.fixed == objs[x].m.fixed)
    && (forall x :: x in objs && !IsWhite(objs[x].m) ==> objs'[x] == objs[x])
  }

  /** Only objects that were white have been put on the gray list. */
  predicate NewGrays(h: Heap, gray: seq<Id>) {
    forall x :: x in gray ==> x in h.gray || (x in h.objs && IsWhite(h.objs[x].m))
  }

  /** What a marking operation does: it marks white objects and lists them. */
  ghost predicate MarkStep(h: Heap, h': Heap) {
    && h' == h.(objs := h'.objs, gray := h'.gray)
    && Further(h.objs, h'.objs) && NewGrays(h, h'.gray)
    && |Whites(h'.objs)| <= |Whites(h.objs)| && Work(h') <= Work(h)
  }

  lemma NoStep(h: Heap)
    ensures MarkStep(h, h)
  {
  }

  lemma StepWhites(h: Heap, h': Heap)
    requires MarkStep(h, h')
    ensures |Whites(h'.objs)| <= |Whites(h.objs)| && Work(h') <= Work(h)
  {
  }

  lemma MarkTrans(a: Heap, b: Heap, c: Heap)
    requires MarkStep(a, b) && MarkStep(b, c)
    ensures MarkStep(a, c)
  {
    forall x | x in c.gray && x !in a.gray ensures x in a.objs && IsWhite(a.objs[x].m) {
      assert x in b.gray || IsWhite(b.objs[x].m);
    }
  }

  /** MarkStep, except that o, whose traversal it completes, may turn black or be listed. */
  ghost predicate MarkStepBut(h: Heap, h': Heap, o: Id) {
    && h' == h.(objs := h'.objs, gray := h'.gray) && o in h.objs
    && SameBodies(h.objs, h'.objs)
    && (forall x :: x in h.objs ==> h'.objs[x].m.fixed == h.objs[x].m.fixed)
    && (forall x :: x in h.objs && x != o && !IsWhite(h.objs[x].m) ==> h'.objs[x] == h.objs[x])
    && (forall x :: x in h'.gray ==> x == o || x in h.gray || (x in h.objs && IsWhite(h.objs[x].m)))
    && |Whites(h'.objs)| <= |Whites(h.objs)| && Work(h') <= Work(h) + 1 && Marked(h'.objs, o)
  }

  /** Marking o, then completing its traversal. */
  lemma MarkOwnTrans(h: Heap, o: Id, m: Mark, h1: Heap, h2: Heap)
    requires o in h.objs && IsWhite(h.objs[o].m) && !IsWhite(m) && m.fixed == h.objs[o].m.fixed
    requires h1 == h.(objs := h.objs[o := h.objs[o].(m := m)])
    requires |Whites(h1.objs)| == |Whites(h.objs)| - 1 && MarkStepBut(h1, h2, o)
    ensures MarkStep(h, h2) && Marked(h2.objs, o) && |Whites(h2.objs)| < |Whites(h.objs)| && Work(h2) < Work(h)
  {
  }

  lemma StepBut(h: Heap, h1: Heap, h2: Heap, o: Id)
    requires MarkStep(h, h1) && o in h.objs && Marked(h.objs, o)
    requires h2 == h1 || (h2 == h1.(objs := h1.objs[o := h1.objs[o].(m := h1.objs[o].m.(black := true))]) && Whites(h2.objs) == Whites(h1.objs))
    ensures MarkStepBut(h, h2, o)
  {
  }

  lemma ButStep(h: Heap, h1: Heap, h2: Heap, o: Id)
    requires o in h.objs && Marked(h.objs, o)
    requires h1 == h.(objs := h.objs[o := h.objs[o].(m := h.objs[o].m.(black := true))])
    requires Whites(h1.objs) == Whites(h.objs)
    requires MarkStep(h1, h2)
    ensures MarkStepBut(h, h2, o)
  {
  }

  /** What is marked stays marked. */
  lemma StaysMarked(h: Heap, h': Heap, x: Id)
    requires MarkStep(h, h') && Marked(h.objs, x)
    ensures Marked(h'.objs, x) && h'.objs[x] == h.objs[x] && (x in h'.gray ==> x in h.gray)
  {
  }

  lemma SameVals(objs: Objs, objs': Objs, x: Id)
    requires objs'.Keys == objs.Keys && (forall y :: y in objs ==> objs'[y].b == objs[y].b) && x in objs
    ensures Vals(objs', x) == Vals(objs, x) && AllVals(objs', x) == AllVals(objs, x)
  {
  }

  lemma SamePoints(objs: Objs, objs': Objs)
    requires objs'.Keys == objs.Keys && (forall y :: y in objs ==> objs'[y].b == objs[y].b)
    ensures forall x, y :: Points(objs', x, y) == Points(objs, x, y)
    ensures forall x, y :: Holds(objs', x, y) == Holds(objs, x, y)
  {
    forall x | x in objs ensures Vals(objs', x) == Vals(objs, x) && AllVals(objs', x) == AllVals(objs, x) {
      SameVals(objs, objs', x);
    }
  }

  /** A covered object stays covered while others are marked. */
  lemma StillCovered(h: Heap, h': Heap, x: Id, stage: Stage)
    requires x in h.objs && Covered(h, x, stage) && Further(h.objs, h'.objs)
    requires h'.objs[x] == h.objs[x]
    requires (forall y :: y in h.gray ==> y in h'.gray) && h'.grayagain == h.grayagain
    ensures Covered(h', x, stage)
  {
    SamePoints(h.objs, h'.objs);
    if AllMarked(h.objs, x) {
      forall y | Holds(h'.objs, x, y) ensures Marked(h'.objs, y) {
        assert Holds(h.objs, x, y);
        assert Marked(h.objs, y);
      }
    }
  }

  /** Marking the white object o, which is now the caller's to cover. */
  lemma MarkOne(h: Heap, o: Id, m: Mark, E: set<Id>, stage: Stage, A: set<Id>, h': Heap)
    requires Marking(h, E, stage, A) && o in A && o in h.objs && IsWhite(h.objs[o].m)
    requires !IsWhite(m) && m.fixed == h.objs[o].m.fixed
    requires h' == h.(objs := h.objs[o := h.objs[o].(m := m)])
    ensures Marking(h', E + {o}, stage, A) && Further(h.objs, h'.objs)
    ensures Whites(h'.objs) == Whites(h.objs) - {o} && |Whites(h'.objs)| == |Whites(h.objs)| - 1
  {
    assert Further(h.objs, h'.objs);
    SamePoints(h.objs, h'.objs);
    forall x | x in h'.objs && x !in E + {o} ensures Covered(h', x, stage) {
      StillCovered(h, h', x, stage);
    }
    assert o in Whites(h.objs);
    assert Whites(h'.objs) == Whites(h.objs) - {o};
  }

  /** An exempt object that is covered need not be exempt. */
  lemma Uncover(h: Heap, o: Id, E: set<Id>, stage: Stage, A: set<Id>)
    requires Marking(h, E + {o}, stage, A)
    requires o in h.objs ==> Covered(h, o, stage)
    ensures Marking(h, E, stage, A)
  {
    forall x | x in h.objs && x !in E ensures Covered(h, x, stage) {
      if x != o { assert x !in E + {o}; }
    }
  }

  /** Putting a freshly marked object on the gray list. */
  lemma PushGray(h: Heap, o: Id, E: set<Id>, stage: Stage, A: set<Id>, h': Heap)
    requires Marking(h, E + {o}, stage, A) && h' == h.(gray := [o] + h.gray)
    requires o in h.objs && IsGray(h.objs[o].m) && Listed(h.objs[o].b) && o !in h.gray && o !in h.grayagain
    ensures Marking(h', E, stage, A)
  {
    var s, s' := h.gray + h.grayagain, h'.gray + h'.grayagain;
    assert s' == [o] + s;
    assert Distinct(s') by {
      forall i, j | 0 <= i < j < |s'| ensures s'[i] != s'[j] {
        assert s'[j] == s[j - 1] && s[j - 1] in s;
        if i > 0 { assert s'[i] == s[i - 1]; }
      }
    }
    forall x | x in h.objs && x !in E ensures Covered(h', x, stage) {
      if x != o {
        assert x !in E + {o} && Covered(h, x, stage);
      } else {
        assert h'.gray[0] == o;
      }
    }
  }

  /** Taking the head off the gray list. */
  lemma PopGray(h: Heap, E: set<Id>, stage: Stage, A: set<Id>, h': Heap)
    requires Marking(h, E, stage, A) && |h.gray| > 0 && h' == h.(gray := h.gray[1..])
    ensures Marking(h', E + {h.gray[0]}, stage, A)
    ensures h.gray[0] in h.objs && IsGray(h.objs[h.gray[0]].m) && Listed(h.objs[h.gray[0]].b) && h.gray[0] in A
    ensures h.gray[0] !in h'.gray && h.gray[0] !in h.grayagain
  {
    var s, s', o := h.gray + h.grayagain, h'.gray + h'.grayagain, h.gray[0];
    assert s' == s[1..];
    assert s[0] == o;
    assert o in h.gray;
    forall x | x in s' ensures x != o {
      var i :| 0 <= i < |s'| && s'[i] == x;
      assert s[i + 1] == x;
    }
    assert forall x :: x in h'.gray ==> x in s' && x in h.gray;
    assert forall x :: x in h.grayagain ==> x in s';
    assert Distinct(s') by {
      forall i, j | 0 <= i < j < |s'| ensures s'[i] != s'[j] { assert s'[i] == s[i + 1] && s'[j] == s[j + 1]; }
    }
    forall x | x in h.objs && x !in E + {o} ensures Covered(h', x, stage) {
      assert Covered(h, x, stage);
      assert x in h.gray && x != o ==> x in h'.gray by {
        if x in h.gray && x != o {
          var i :| 0 <= i < |h.gray| && h.gray[i] == x;
          assert h'.gray[i - 1] == x;
        }
      }
    }
  }

  /** Only the marks of some objects differ. */
  ghost predicate SameBodies(objs: Objs, objs': Objs) {
    objs'.Keys == objs.Keys && forall x :: x in objs ==> objs'[x].b == objs[x].b
  }

  /** The lists that own the objects do not depend on the marks. */
  lemma ShapeKept(h: Heap, h': Heap, hash: string -> nat)
    requires Shape(h, hash) && SameBodies(h.objs, h'.objs) && ObjsOk(h')
    requires h'.rootgc == h.rootgc && h'.strt == h.strt && h'.uvhead == h.uvhead
    ensures Shape(h', hash)
  {
    hide ObjsOk;
    assert RootOk(h');
    StringsKept(h, h', hash);
    UpvalsKept(h, h');
  }

  lemma StringsKept(h: Heap, h': Heap, hash: string -> nat)
    requires StringsOk(h, hash) && SameBodies(h.objs, h'.objs) && h'.strt == h.strt
    ensures StringsOk(h', hash)
  {
  }

  lemma UpvalsKept(h: Heap, h': Heap)
    requires UpvalsOk(h) && SameBodies(h.objs, h'.objs) && h'.uvhead == h.uvhead
    ensures UpvalsOk(h')
  {
    hide OpenAt, OpenList;
    forall u | u in h'.objs && h'.objs[u].b.Open? ensures OpenAt(h'.objs, u, h'.objs[u].b.th) {
      assert OpenAt(h.objs, u, h.objs[u].b.th);
      OpenAtKept(h.objs, h'.objs, u, h.objs[u].b.th);
    }
    forall th | th in h'.objs && h'.objs[th].b.Thread? ensures OpenList(h'.objs, th) {
      OpenListKept(h.objs, h'.objs, th);
    }
  }

  lemma OpenAtKept(objs: Objs, objs': Objs, u: Id, th: Id)
    requires OpenAt(objs, u, th) && SameBodies(objs, objs')
    ensures OpenAt(objs', u, th)
  {
  }

  lemma OpenListKept(objs: Objs, objs': Objs, th: Id)
    requires OpenList(objs, th) && SameBodies(objs, objs')
    ensures OpenList(objs', th)
  {
    forall u | u in objs'[th].b.open ensures OpenAt(objs', u, th) {
      OpenAtKept(objs, objs', u, th);
    }
    forall u | u in objs'[th].b.open ensures LevelOf(objs', u) == LevelOf(objs, u) {
      assert OpenAt(objs, u, th);
    }
  }

  /** The object checks see neither the gray lists nor the phase. */
  lemma ObjsOkSame(h: Heap, h': Heap)
    requires ObjsOk(h) && h'.objs == h.objs && h'.next >= h.next && h'.main == h.main && h'.running == h.running
    ensures ObjsOk(h')
  {
    forall x | x in h'.objs ensures ObjOk(h', x) { assert ObjOk(h, x); }
  }

  /** Marking one more object leaves every object well coloured. */
  lemma OneMoreOk(h: Heap, o: Id, m: Mark, h': Heap)
    requires ObjsOk(h) && o in h.objs && MarkOk(m) && m.fixed == h.objs[o].m.fixed
    requires h.objs[o].b.Open? || h.objs[o].b.Thread? || h.objs[o].b.Str? ==> !m.black
    requires h' == h.(objs := h.objs[o := h.objs[o].(m := m)])
    ensures ObjsOk(h')
  {
    forall x | x in h'.objs ensures ObjOk(h', x) { assert ObjOk(h, x); }
  }

  /** Blackening an object whose traversal has begun, or that is a traversed userdata or closed upvalue. */
  lemma Blacken(h: Heap, o: Id, E: set<Id>, stage: Stage, A: set<Id>, h': Heap)
    requires Marking(h, E + {o}, stage, A) && o in h.objs && IsGray(h.objs[o].m) && o !in h.gray && o !in h.grayagain
    requires h' == h.(objs := h.objs[o := h.objs[o].(m := h.objs[o].m.(black := true))])
    ensures Marking(h', E + {o}, stage, A) && Whites(h'.objs) == Whites(h.objs) && SameBodies(h.objs, h'.objs)
  {
    assert SameBodies(h.objs, h'.objs);
    SamePoints(h.objs, h'.objs);
    forall x | x in h'.objs && x !in E + {o} ensures Covered(h', x, stage) {
      assert Covered(h, x, stage);
      if AllMarked(h.objs, x) {
        forall y | Holds(h'.objs, x, y) ensures Marked(h'.objs, y) { assert Holds(h.objs, x, y) && Marked(h.objs, y); }
      }
    }
    assert Whites(h'.objs) == Whites(h.objs);
  }

  lemma BlackCovered(h: Heap, o: Id, stage: Stage)
    requires o in h.objs && h.objs[o].m.black
    requires forall r :: r in AllVals(h.objs, o) && r.Some? ==> Marked(h.objs, r.value)
    ensures Covered(h, o, stage)
  {
  }

  lemma OpenCovered(h: Heap, o: Id, stage: Stage)
    requires o in h.objs && h.objs[o].b.Open?
    requires forall r :: r in AllVals(h.objs, o) && r.Some? ==> Marked(h.objs, r.value)
    ensures Covered(h, o, stage)
  {
  }

  /** References of an object of the closed set are in the set. */
  lemma RefsIn(objs: Objs, A: set<Id>, x: Id)
    requires ClosedSet(objs, A) && x in A
    ensures x in objs && forall r :: r in Vals(objs, x) && r.Some? ==> r.value in A
  {
    forall r | r in Vals(objs, x) && r.Some? ensures r.value in A {
      assert Points(objs, x, r.value);
    }
  }

  lemma WhiteUnlistedIn(h: Heap, o: Id, E: set<Id>, stage: Stage, A: set<Id>)
    requires Marking(h, E, stage, A) && o in h.objs && IsWhite(h.objs[o].m)
    ensures o !in h.gray && o !in h.grayagain && !h.objs[o].m.black
  {
  }

  lemma RefsInA(h: Heap, E: set<Id>, stage: Stage, A: set<Id>, o: Id)
    requires Marking(h, E, stage, A) && o in A
    ensures o in h.objs && forall r :: r in Vals(h.objs, o) && r.Some? ==> r.value in A
  {
    RefsIn(h.objs, A, o);
  }

  lemma PushStep(h: Heap, o: Id, h': Heap)
    requires h' == h.(gray := [o] + h.gray) && Marked(h.objs, o)
    ensures MarkStepBut(h, h', o)
  {
  }

  // ----- propagation -----

  /** What the mark phase does as a whole: marks spread, references stay. */
  ghost predicate Spread(h: Heap, h': Heap) {
    && h' == h.(objs := h'.objs, gray := h'.gray, grayagain := h'.grayagain)
    && h'.objs.Keys == h.objs.Keys
    && (forall x :: x in h.objs ==> h'.objs[x].m.fixed == h.objs[x].m.fixed && Vals(h'.objs, x) == Vals(h.objs, x))
    && (forall x :: x in h.objs ==> SameContent(h.objs[x].b, h'.objs[x].b))
    && (forall x :: x in h.objs && h.objs[x].b.Open? ==> h'.objs[x].b == h.objs[x].b)
    && (forall x, y :: Holds(h'.objs, x, y) ==> Holds(h.objs, x, y))
    && (forall x :: Marked(h.objs, x) ==> Marked(h'.objs, x))
  }

  lemma SpreadTrans(a: Heap, b: Heap, c: Heap)
    requires Spread(a, b) && Spread(b, c)
    ensures Spread(a, c)
  {
  }

  lemma StepSpreads(h: Heap, h': Heap)
    requires MarkStep(h, h')
    ensures Spread(h, h') && SameBodies(h.objs, h'.objs)
  {
    SamePoints(h.objs, h'.objs);
    forall x | x in h.objs ensures Vals(h'.objs, x) == Vals(h.objs, x) { SameVals(h.objs, h'.objs, x); }
  }

  lemma BlackSpreads(h: Heap, o: Id, h': Heap)
    requires o in h.objs && h' == h.(objs := h.objs[o := h.objs[o].(m := h.objs[o].m.(black := true))])
    ensures Spread(h, h') && SameBodies(h.objs, h'.objs)
  {
    SamePoints(h.objs, h'.objs);
    forall x | x in h.objs ensures Vals(h'.objs, x) == Vals(h.objs, x) { SameVals(h.objs, h'.objs, x); }
  }

  lemma ListSpreads(h: Heap, h': Heap)
    requires h' == h.(gray := h'.gray, grayagain := h'.grayagain)
    ensures Spread(h, h')
  {
  }

  lemma {:induction false} SpreadSetSame(h: Heap, h': Heap, A: set<Id>)
    requires Spread(h, h')
    ensures ClosedSet(h.objs, A) ==> ClosedSet(h'.objs, A)
  {
    forall x, y | x in A && Points(h'.objs, x, y) && ClosedSet(h.objs, A) ensures y in A {
      assert Points(h.objs, x, y);
    }
  }

  /** A thread moves from gray to grayagain before its stack is traversed. */
  lemma PushAgain(h: Heap, o: Id, E: set<Id>, stage: Stage, A: set<Id>, h': Heap)
    requires Marking(h, E + {o}, stage, A) && h' == h.(grayagain := [o] + h.grayagain)
    requires o in h.objs && IsGray(h.objs[o].m) && Listed(h.objs[o].b) && o !in h.gray && o !in h.grayagain
    ensures Marking(h', E + {o}, stage, A)
  {
    var s, s' := h.gray + h.grayagain, h'.gray + h'.grayagain;
    forall i, j | 0 <= i < j < |s'| ensures s'[i] != s'[j] {
      AgainDistinct(h.gray, h.grayagain, o, i, j);
    }
    forall x | x in h.objs && x !in E + {o} ensures Covered(h', x, stage) {
      assert Covered(h, x, stage);
    }
  }

  lemma AgainDistinct(g: seq<Id>, a: seq<Id>, o: Id, i: int, j: int)
    requires Distinct(g + a) && o !in g && o !in a && 0 <= i < j < |g| + |a| + 1
    ensures (g + ([o] + a))[i] != (g + ([o] + a))[j]
  {
    var s, s' := g + a, g + ([o] + a);
    assert s'[|g|] == o;
    if i < |g| { assert s'[i] == s[i] == g[i]; }
    if i > |g| { assert s'[i] == s[i - 1] == a[i - |g| - 1]; }
    if j < |g| { assert s'[j] == s[j] == g[j]; }
    if j > |g| { assert s'[j] == s[j - 1] == a[j - |g| - 1]; }
  }

  /** The stack with its stale part cleared. */
  function Cleared(stack: seq<Ref>, top: nat): (r: seq<Ref>)
    requires top <= |stack|
    ensures |r| == |stack| && r[..top] == stack[..top]
  {
    stack[..top] + seq(|stack| - top, i => None)
  }

  function ClearStack(objs: Objs, o: Id): Objs
    requires IsThread(objs, o) && objs[o].b.top <= |objs[o].b.stack|
  {
    objs[o := objs[o].(b := objs[o].b.(stack := Cleared(objs[o].b.stack, objs[o].b.top)))]
  }

  lemma ClearVals(h: Heap, o: Id, x: Id)
    requires IsThread(h.objs, o) && h.objs[o].b.top <= |h.objs[o].b.stack| && UpvalsOk(h) && x in h.objs
    ensures Vals(ClearStack(h.objs, o), x) == Vals(h.objs, x)
    ensures forall y :: Holds(ClearStack(h.objs, o), x, y) ==> Holds(h.objs, x, y)
  {
    var objs' := ClearStack(h.objs, o);
    if h.objs[x].b.Open? {
      assert OpenAt(h.objs, x, h.objs[x].b.th);
      assert SlotOf(objs', h.objs[x].b.th, h.objs[x].b.level) == SlotOf(h.objs, h.objs[x].b.th, h.objs[x].b.level);
    }
    if x == o {
      forall y: Id | Holds(objs', x, y) ensures Holds(h.objs, x, y) {
        assert Some(y) in [objs'[o].b.env] + objs'[o].b.stack;
        assert Some(y) in objs'[o].b.stack ==> Some(y) in h.objs[o].b.stack[..h.objs[o].b.top];
      }
    }
  }

  lemma ClearSpread(h: Heap, o: Id, h': Heap)
    requires UpvalsOk(h) && IsThread(h.objs, o) && h.objs[o].b.top <= |h.objs[o].b.stack|
    requires h' == h.(objs := ClearStack(h.objs, o))
    ensures Spread(h, h') && Whites(h'.objs) == Whites(h.objs)
  {
    hide Vals, AllVals, UpvalsOk;
    forall x | x in h.objs
      ensures Vals(h'.objs, x) == Vals(h.objs, x) && forall y :: Holds(h'.objs, x, y) ==> Holds(h.objs, x, y)
    {
      ClearVals(h, o, x);
    }
    assert Whites(h'.objs) == Whites(h.objs);
  }

  lemma ClearStale(h: Heap, o: Id, E: set<Id>, stage: Stage, A: set<Id>, h': Heap)
    requires Marking(h, E + {o}, stage, A) && UpvalsOk(h) && IsThread(h.objs, o)
    requires h.objs[o].b.top <= |h.objs[o].b.stack|
    requires h' == h.(objs := ClearStack(h.objs, o))
    ensures Marking(h', E + {o}, stage, A) && Spread(h, h') && Whites(h'.objs) == Whites(h.objs)
  {
    hide Vals, AllVals, Covered;
    ClearSpread(h, o, h');
    SpreadSetSame(h, h', A);
    forall x | x in h'.objs && x !in E + {o} ensures Covered(h', x, stage) {
      assert Covered(h, x, stage);
      FewerHeld(h, h', o, x, stage);
    }
  }

  lemma FewerHeld(h: Heap, h': Heap, o: Id, x: Id, stage: Stage)
    requires IsThread(h.objs, o) && h.objs[o].b.top <= |h.objs[o].b.stack| && h' == h.(objs := ClearStack(h.objs, o))
    requires x in h.objs && x != o && Covered(h, x, stage) && forall y :: Holds(h'.objs, x, y) ==> Holds(h.objs, x, y)
    ensures Covered(h', x, stage)
  {
    hide Vals, AllVals;
    if AllMarked(h.objs, x) {
      forall y | Holds(h'.objs, x, y) ensures Marked(h'.objs, y) { assert Marked(h.objs, y); }
    }
  }

  lemma ClearedThread(h: Heap, o: Id, h': Heap)
    requires IsThread(h.objs, o) && h.objs[o].b.top <= |h.objs[o].b.stack| && h' == h.(objs := ClearStack(h.objs, o))
    requires forall r :: r in Vals(h.objs, o) && r.Some? ==> Marked(h.objs, r.value)
    ensures AllMarked(h'.objs, o)
  {
    forall y: Id | Holds(h'.objs, o, y) ensures Marked(h'.objs, y) {
      var b := h.objs[o].b;
      assert Some(y) in [b.env] + Cleared(b.stack, b.top);
      assert Some(y) in [b.env] + b.stack[..b.top];
    }
  }

  // ----- a thread's stack changes -----

  function SetBody(objs: Objs, o: Id, b: Body): Objs
    requires o in objs
  {
    objs[o := objs[o].(b := b)]
  }

  /** b may replace the thread o: same open upvalues, all below the new top. */
  ghost predicate ThreadOk(objs: Objs, o: Id, b: Body) {
    && IsThread(objs, o) && b.Thread? && b.open == objs[o].b.open && b.top <= |b.stack|
    && forall u :: u in b.open ==> LevelOf(objs, u) < b.top
  }

  lemma ThreadShape(h: Heap, o: Id, b: Body, hash: string -> nat, h': Heap)
    requires Shape(h, hash) && ThreadOk(h.objs, o, b) && h' == h.(objs := SetBody(h.objs, o, b))
    ensures Shape(h', hash)
  {
    hide ObjsOk, StringsOk, UpvalsOk, ThreadOk;
    ThreadKinds(h.objs, o, b);
    assert forall x :: x in h'.objs && Rooted(h'.objs[x].b) <==> x in h.objs && Rooted(h.objs[x].b);
    assert RootOk(h');
    ThreadStrings(h, o, b, hash, h');
    ThreadUpvals(h, o, b, h');
    ThreadObjs(h, o, b, h');
  }

  lemma ThreadKinds(objs: Objs, o: Id, b: Body)
    requires ThreadOk(objs, o, b)
    ensures IsThread(objs, o) && b.Thread?
  {
  }

  lemma ThreadStrings(h: Heap, o: Id, b: Body, hash: string -> nat, h': Heap)
    requires StringsOk(h, hash) && ThreadOk(h.objs, o, b) && h' == h.(objs := SetBody(h.objs, o, b))
    ensures StringsOk(h', hash)
  {
  }

  lemma ThreadObjs(h: Heap, o: Id, b: Body, h': Heap)
    requires ObjsOk(h) && ThreadOk(h.objs, o, b) && h' == h.(objs := SetBody(h.objs, o, b))
    ensures ObjsOk(h')
  {
    forall x | x in h'.objs ensures ObjOk(h', x) { assert ObjOk(h, x); }
  }

  lemma ThreadUpvals(h: Heap, o: Id, b: Body, h': Heap)
    requires UpvalsOk(h) && ThreadOk(h.objs, o, b) && h' == h.(objs := SetBody(h.objs, o, b))
    ensures UpvalsOk(h')
  {
    hide OpenAt, OpenList, ThreadOk;
    ThreadKinds(h.objs, o, b);
    forall u | u in h'.objs && h'.objs[u].b.Open? ensures OpenAt(h'.objs, u, h'.objs[u].b.th) {
      assert OpenAt(h.objs, u, h.objs[u].b.th);
      ThreadOpenAt(h.objs, o, b, u, h.objs[u].b.th);
    }
    forall th | th in h'.objs && h'.objs[th].b.Thread? ensures OpenList(h'.objs, th) {
      assert IsThread(h.objs, th) && OpenList(h.objs, th);
      ThreadOpenList(h.objs, o, b, th);
    }
  }

  lemma ThreadOpenAt(objs: Objs, o: Id, b: Body, u: Id, th: Id)
    requires OpenAt(objs, u, th) && ThreadOk(objs, o, b)
    ensures OpenAt(SetBody(objs, o, b), u, th)
  {
  }

  lemma ThreadOpenList(objs: Objs, o: Id, b: Body, th: Id)
    requires OpenList(objs, th) && ThreadOk(objs, o, b)
    ensures OpenList(SetBody(objs, o, b), th)
  {
    var objs' := SetBody(objs, o, b);
    assert objs'[th].b.open == objs[th].b.open;
    forall u | u in objs'[th].b.open ensures OpenAt(objs', u, th) && LevelOf(objs', u) == LevelOf(objs, u) {
      assert OpenAt(objs, u, th);
      ThreadOpenAt(objs, o, b, u, th);
    }
  }

  /** Clearing the stale part of a stack keeps the shape of the heap. */
  lemma ClearShape(h: Heap, o: Id, hash: string -> nat, h': Heap)
    requires Shape(h, hash) && IsThread(h.objs, o) && h.objs[o].b.top <= |h.objs[o].b.stack|
    requires h' == h.(objs := ClearStack(h.objs, o))
    ensures Shape(h', hash)
  {
    var b := h.objs[o].b.(stack := Cleared(h.objs[o].b.stack, h.objs[o].b.top));
    assert ThreadOk(h.objs, o, b) by {
      assert OpenList(h.objs, o);
      forall u | u in b.open ensures LevelOf(h.objs, u) < b.top { assert OpenAt(h.objs, u, o); }
    }
    ThreadShape(h, o, b, hash, h');
  }

  lemma ThreadTop(h: Heap, o: Id, hash: string -> nat)
    requires Shape(h, hash) && IsThread(h.objs, o)
    ensures h.objs[o].b.top <= |h.objs[o].b.stack|
    ensures Vals(h.objs, o) == [h.objs[o].b.env] + h.objs[o].b.stack[..h.objs[o].b.top]
  {
    assert ObjOk(h, o);
  }

  lemma BothMarked(h1: Heap, h2: Heap, a: seq<Ref>, b: seq<Ref>, vs: seq<Ref>)
    requires MarkStep(h1, h2) && vs == a + b
    requires forall r :: r in a && r.Some? ==> Marked(h1.objs, r.value)
    requires forall r :: r in b && r.Some? ==> Marked(h2.objs, r.value)
    ensures forall r :: r in vs && r.Some? ==> Marked(h2.objs, r.value)
  {
    forall r | r in vs && r.Some? ensures Marked(h2.objs, r.value) {
      assert r in a || r in b;
      if r in a { StaysMarked(h1, h2, r.value); }
    }
  }

  /** The end of a stack traversal: the stale part is cleared, the thread is covered. */
  lemma ClearAgain(h: Heap, o: Id, stage: Stage, A: set<Id>, hash: string -> nat, h': Heap)
    requires Marking(h, {o}, stage, A) && Shape(h, hash) && IsThread(h.objs, o)
    requires h.objs[o].b.top <= |h.objs[o].b.stack| && o in h.grayagain
    requires forall r :: r in Vals(h.objs, o) && r.Some? ==> Marked(h.objs, r.value)
    requires h' == h.(objs := ClearStack(h.objs, o))
    ensures Marking(h', {}, stage, A) && Shape(h', hash) && Spread(h, h') && Work(h') == Work(h)
  {
    hide Marking, ObjsOk, StringsOk, RootOk, Whites;
    assert {} + {o} == {o};
    ClearStale(h, o, {}, stage, A, h');
    ClearShape(h, o, hash, h');
    ClearedThread(h, o, h');
    Uncover(h', o, {}, stage, A);
  }

  predicate StaleCleared(b: Body) {
    b.Thread? ==> forall i :: b.top <= i < |b.stack| ==> b.stack[i] == None
  }

  lemma Traversed(h: Heap, o: Id, h': Heap)
    requires IsThread(h.objs, o) && h.objs[o].b.top <= |h.objs[o].b.stack| && h' == h.(objs := ClearStack(h.objs, o))
    requires forall r :: r in Vals(h.objs, o) && r.Some? ==> Marked(h.objs, r.value)
    ensures IsThread(h'.objs, o) && AllMarked(h'.objs, o) && StaleCleared(h'.objs[o].b)
  {
    ClearedThread(h, o, h');
    hide AllMarked, Vals;
  }

  lemma StrCovered(h: Heap, o: Id, stage: Stage)
    requires o in h.objs && h.objs[o].b.Str?
    ensures Covered(h, o, stage)
  {
  }
}
