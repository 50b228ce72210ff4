/** Heaps that differ in the names of objects only, as far as can be seen from the roots. */
module GcRename {
  import opened Wrappers
  import opened GcHeap
  import opened GcCells
  import opened GcMoves
  import opened GcEffects
  import opened GcProgram

  /** Which object of the second heap an object of the first one is. */
  type Renaming = map<Id, Id>

  predicate RefRel(f: Renaming, r1: Ref, r2: Ref) {
    if r1.None? then r2.None? else r2.Some? && r1.value in f && f[r1.value] == r2.value
  }

  predicate RefsRel(f: Renaming, s1: seq<Ref>, s2: seq<Ref>) {
    |s1| == |s2| && forall i :: 0 <= i < |s1| ==> RefRel(f, s1[i], s2[i])
  }

  /** An open upvalue of a common thread is open at the same slot; that of another thread may be closed. */
  predicate OpenRel(f: Renaming, b1: Body, b2: Body) {
    && (b1.Open? && b1.th in f ==> b2 == Open(f[b1.th], b1.level))
    && (b2.Open? && b2.th in f.Values ==> b1.Open? && b1.th in f)
  }

  predicate StackRel(f: Renaming, b1: Body, b2: Body)
    requires b1.Thread?
  {
    && b2.Thread? && RefRel(f, b1.env, b2.env) && b1.top == b2.top <= |b1.stack| == |b2.stack|
    && RefsRel(f, b1.stack[..b1.top], b2.stack[..b1.top])
  }

  predicate BodyRel(f: Renaming, b1: Body, b2: Body) {
    match b1
    case Str(_) => b2 == b1
    case Udata(refs) => b2.Udata? && RefsRel(f, refs, b2.refs)
    case Func(refs) => b2.Func? && RefsRel(f, refs, b2.refs)
    case Table(refs) => b2.Table? && RefsRel(f, refs, b2.refs)
    case Proto(refs) => b2.Proto? && RefsRel(f, refs, b2.refs)
    case Thread(_, _, _, _) => StackRel(f, b1, b2)
    case _ => IsUpval(b2) && OpenRel(f, b1, b2)
  }

  ghost predicate ObjRel(f: Renaming, h1: Heap, x: Id, h2: Heap, y: Id) {
    && x in h1.objs && y in h2.objs && BodyRel(f, h1.objs[x].b, h2.objs[y].b)
    && (IsUpval(h1.objs[x].b) ==> RefRel(f, Cell(h1.objs, x), Cell(h2.objs, y)))
  }

  ghost predicate OneToOne(f: Renaming) { forall x, y :: x in f && y in f && f[x] == f[y] ==> x == y }

  /** f renames h1 to h2, as far as the program can see from the roots. */
  ghost predicate Rel(f: Renaming, h1: Heap, h2: Heap) {
    OneToOne(f) && RefsRel(f, Roots(h1), Roots(h2)) && forall x :: x in f ==> ObjRel(f, h1, x, h2, f[x])
  }

  ghost predicate Indistinguishable(h1: Heap, h2: Heap) { exists f: Renaming :: Rel(f, h1, h2) }

  // ----- renamings and reachability -----

  lemma ValsRel(f: Renaming, h1: Heap, x: Id, h2: Heap, y: Id)
    requires ObjRel(f, h1, x, h2, y)
    ensures x in h1.objs && y in h2.objs && RefsRel(f, Vals(h1.objs, x), Vals(h2.objs, y))
  {
    if IsUpval(h1.objs[x].b) {
      CellIsVals(h1.objs, x);
      CellIsVals(h2.objs, y);
    }
  }

  lemma ReachRel(f: Renaming, h1: Heap, h2: Heap, p: seq<Id>, i: nat)
    requires Rel(f, h1, h2) && PathTo(h1, p) && i < |p|
    ensures p[i] in f && Reach(h2, f[p[i]])
  {
    hide ObjRel, Vals, Reach;
    if i == 0 {
      var k :| 0 <= k < |Roots(h1)| && Roots(h1)[k] == Some(p[0]);
      assert RefRel(f, Roots(h1)[k], Roots(h2)[k]);
      ReachRoot(h2, f[p[0]]);
    } else {
      ReachRel(f, h1, h2, p, i - 1);
      assert Points(h1.objs, p[i - 1], p[i - 1 + 1]);
      ValsRel(f, h1, p[i - 1], h2, f[p[i - 1]]);
      PointsRel(f, h1, p[i - 1], h2, f[p[i - 1]], p[i]);
      ReachStep(h2, f[p[i - 1]], f[p[i]]);
    }
  }

  lemma PointsRel(f: Renaming, h1: Heap, x: Id, h2: Heap, y: Id, z: Id)
    requires x in h1.objs && y in h2.objs && RefsRel(f, Vals(h1.objs, x), Vals(h2.objs, y)) && Points(h1.objs, x, z)
    ensures z in f && Points(h2.objs, y, f[z])
  {
    hide Vals;
    var k :| 0 <= k < |Vals(h1.objs, x)| && Vals(h1.objs, x)[k] == Some(z);
    assert RefRel(f, Vals(h1.objs, x)[k], Vals(h2.objs, y)[k]);
  }

  lemma ReachIn2(f: Renaming, h1: Heap, h2: Heap, x: Id)
    requires Rel(f, h1, h2) && Reach(h1, x)
    ensures x in f && Reach(h2, f[x])
  {
    hide Rel;
    var p :| PathTo(h1, p) && p[|p| - 1] == x;
    ReachRel(f, h1, h2, p, |p| - 1);
  }

  /** Only reachable objects matter. */
  ghost function Trim(f: Renaming, h: Heap): Renaming { map x | x in f && Reach(h, x) :: f[x] }

  lemma TrimRel(f: Renaming, h1: Heap, h2: Heap)
    requires Rel(f, h1, h2)
    ensures Rel(Trim(f, h1), h1, h2)
    ensures forall x :: x in Trim(f, h1) <==> Reach(h1, x)
    ensures forall x :: x in Trim(f, h1) ==> Reach(h2, Trim(f, h1)[x])
  {
    hide ObjRel, Reach;
    var g := Trim(f, h1);
    forall x | Reach(h1, x) ensures x in g && Reach(h2, g[x]) { ReachIn2(f, h1, h2, x); }
    forall r1, r2 | r1 in Roots(h1) && RefRel(f, r1, r2) ensures RefRel(g, r1, r2) {
      if r1.Some? { ReachRoot(h1, r1.value); }
    }
    assert RefsRel(g, Roots(h1), Roots(h2));
    forall x | x in g ensures ObjRel(g, h1, x, h2, g[x]) {
      forall y: Id | Points(h1.objs, x, y) ensures y in g { ReachStep(h1, x, y); }
      TrimObj(f, g, h1, x, h2);
    }
  }

  lemma TrimObj(f: Renaming, g: Renaming, h1: Heap, x: Id, h2: Heap)
    requires OneToOne(f) && x in f && ObjRel(f, h1, x, h2, f[x]) && (forall z :: z in g ==> z in f && g[z] == f[z])
    requires forall y: Id :: Points(h1.objs, x, y) && y in f ==> y in g
    ensures ObjRel(g, h1, x, h2, f[x])
  {
    if IsUpval(h1.objs[x].b) {
      CellIsVals(h1.objs, x);
      assert Vals(h1.objs, x)[0] == Cell(h1.objs, x);
    } else {
      forall r1, r2 | r1 in Vals(h1.objs, x) && RefRel(f, r1, r2) ensures RefRel(g, r1, r2) {
        if r1.Some? { assert Points(h1.objs, x, r1.value); }
      }
      TrimBody(f, g, h1, x, h2);
    }
  }

  lemma TrimBody(f: Renaming, g: Renaming, h1: Heap, x: Id, h2: Heap)
    requires x in f && ObjRel(f, h1, x, h2, f[x]) && !IsUpval(h1.objs[x].b)
    requires forall r1, r2 :: r1 in Vals(h1.objs, x) && RefRel(f, r1, r2) ==> RefRel(g, r1, r2)
    ensures ObjRel(g, h1, x, h2, f[x])
  {
    var b1, b2 := h1.objs[x].b, h2.objs[f[x]].b;
    match b1
    case Thread(env, stack, top, _) =>
      assert Vals(h1.objs, x) == [env] + stack[..top];
      assert env == Vals(h1.objs, x)[0];
      forall i | 0 <= i < top ensures RefRel(g, stack[..top][i], b2.stack[..top][i]) {
        assert stack[..top][i] == Vals(h1.objs, x)[1 + i];
        assert RefRel(f, stack[..top][i], b2.stack[..top][i]);
      }
    case _ =>
  }

  lemma Backwards(f: Renaming, h1: Heap, h2: Heap) returns (g: Renaming)
    requires Rel(f, h1, h2)
    ensures Rel(g, h2, h1)
  {
    hide ObjRel;
    g := Inverse(f);
    assert RefsRel(g, Roots(h2), Roots(h1)) by { BackRefs(f, Roots(h1), Roots(h2)); }
    forall y | y in g ensures ObjRel(g, h2, y, h1, g[y]) { BackObj(f, h1, g[y], h2); }
  }

  ghost function Inverse(f: Renaming): (g: Renaming)
    requires OneToOne(f)
    ensures forall y :: y in g <==> y in f.Values
    ensures forall x :: x in f ==> f[x] in g && g[f[x]] == x
    ensures forall y :: y in g ==> g[y] in f && f[g[y]] == y
    ensures OneToOne(g)
  {
    map y | y in f.Values :: (var x :| x in f && f[x] == y; x)
  }

  lemma BackRefs(f: Renaming, s1: seq<Ref>, s2: seq<Ref>)
    requires OneToOne(f) && RefsRel(f, s1, s2)
    ensures RefsRel(Inverse(f), s2, s1)
  {
    forall i | 0 <= i < |s1| ensures RefRel(Inverse(f), s2[i], s1[i]) { assert RefRel(f, s1[i], s2[i]); }
  }

  lemma BackObj(f: Renaming, h1: Heap, x: Id, h2: Heap)
    requires OneToOne(f) && x in f && ObjRel(f, h1, x, h2, f[x])
    ensures ObjRel(Inverse(f), h2, f[x], h1, x)
  {
    var b1, b2 := h1.objs[x].b, h2.objs[f[x]].b;
    if IsUpval(b1) {
      BackRefs(f, [Cell(h1.objs, x)], [Cell(h2.objs, f[x])]);
      assert RefRel(Inverse(f), [Cell(h2.objs, f[x])][0], [Cell(h1.objs, x)][0]);
      BackOpen(f, b1, b2);
    } else {
      BackBody(f, b1, b2);
    }
  }

  lemma BackOpen(f: Renaming, b1: Body, b2: Body)
    requires OneToOne(f) && IsUpval(b1) && IsUpval(b2) && OpenRel(f, b1, b2)
    ensures OpenRel(Inverse(f), b2, b1)
  {
    var g := Inverse(f);
    if b1.Open? && b1.th in g.Values {
      var y :| y in g && g[y] == b1.th;
    }
  }

  lemma BackBody(f: Renaming, b1: Body, b2: Body)
    requires OneToOne(f) && !IsUpval(b1) && BodyRel(f, b1, b2)
    ensures BodyRel(Inverse(f), b2, b1) && !IsUpval(b2)
  {
    match b1
    case Str(_) =>
    case Udata(refs) => BackRefs(f, refs, b2.refs);
    case Func(refs) => BackRefs(f, refs, b2.refs);
    case Table(refs) => BackRefs(f, refs, b2.refs);
    case Proto(refs) => BackRefs(f, refs, b2.refs);
    case Thread(env, stack, top, _) =>
      BackRefs(f, [env], [b2.env]);
      assert RefRel(Inverse(f), [b2.env][0], [env][0]);
      BackRefs(f, stack[..top], b2.stack[..top]);
  }

  /** Every heap is like itself. */
  lemma Itself(h: Heap, hash: string -> nat)
    requires Inv(h, hash)
    ensures Indistinguishable(h, h)
  {
    InvSafe(h, hash);
    var f := map x | x in h.objs && Live(h, x) :: x;
    hide Inv;
    forall i | 0 <= i < |Roots(h)| ensures RefRel(f, Roots(h)[i], Roots(h)[i]) { assert LiveRef(h, Roots(h)[i]); }
    forall x | x in f ensures ObjRel(f, h, x, h, f[x]) { SelfObj(f, h, x, hash); }
    assert Rel(f, h, h);
  }

  lemma SelfObj(f: Renaming, h: Heap, x: Id, hash: string -> nat)
    requires Inv(h, hash) && f == (map y | y in h.objs && Live(h, y) :: y) && x in f
    ensures ObjRel(f, h, x, h, x)
  {
    InvSafe(h, hash);
    if IsThread(h.objs, x) { TopInside(h, x, hash); }
    assert LiveAt(h, x);
    hide Inv;
    forall r | r in Vals(h.objs, x) ensures RefRel(f, r, r) {
      if r.Some? { PointsHolds(h.objs, x, r.value); assert Holds(h.objs, x, r.value); }
    }
    SelfBody(f, h, x);
  }

  lemma SelfBody(f: Renaming, h: Heap, x: Id)
    requires x in h.objs && (IsThread(h.objs, x) ==> h.objs[x].b.top <= |h.objs[x].b.stack|)
    requires forall r :: r in Vals(h.objs, x) ==> RefRel(f, r, r)
    requires forall y :: y in f ==> f[y] == y
    ensures ObjRel(f, h, x, h, x)
  {
    if IsUpval(h.objs[x].b) {
      CellIsVals(h.objs, x);
      assert Vals(h.objs, x)[0] == Cell(h.objs, x);
    } else if IsThread(h.objs, x) {
      var b := h.objs[x].b;
      assert Vals(h.objs, x)[0] == b.env;
      forall i | 0 <= i < b.top ensures RefRel(f, b.stack[..b.top][i], b.stack[..b.top][i]) {
        assert b.stack[..b.top][i] == Vals(h.objs, x)[1 + i];
      }
    }
  }

  // ----- the collector -----

  /** f renames reachable objects only, and these are live. */
  ghost predicate Trimmed(f: Renaming, h1: Heap, h2: Heap) {
    && Rel(f, h1, h2)
    && (forall x :: x in f <==> Reach(h1, x))
    && (forall x :: x in f ==> Live(h1, x) && Live(h2, f[x]))
  }

  lemma Trimming(f: Renaming, h1: Heap, h2: Heap) returns (g: Renaming)
    requires Rel(f, h1, h2) && Safe(h1) && Safe(h2)
    ensures Trimmed(g, h1, h2)
  {
    hide Safe, Rel, Reach;
    TrimRel(f, h1, h2);
    g := Trim(f, h1);
    forall x | x in g ensures Live(h1, x) && Live(h2, g[x]) {
      ReachLive(h1, x);
      ReachLive(h2, g[x]);
    }
  }

  /** What cannot be seen changes nothing. */
  lemma UnseenRel(f: Renaming, h1: Heap, h2: Heap, h1': Heap)
    requires Trimmed(f, h1, h2) && Unseen(h1, h1')
    ensures Rel(f, h1', h2)
  {
    hide Reach, SeenSame, ObjRel;
    assert Roots(h1') == Roots(h1);
    forall x | x in f ensures ObjRel(f, h1', x, h2, f[x]) { SeenRel(f, h1, x, h2, h1'); }
  }

  lemma SeenRel(f: Renaming, h1: Heap, x: Id, h2: Heap, h1': Heap)
    requires x in f && ObjRel(f, h1, x, h2, f[x]) && x in h1'.objs && SeenSame(h1, h1', x)
    requires forall t :: t in f <==> Reach(h1, t)
    ensures ObjRel(f, h1', x, h2, f[x])
  {
    hide Reach;
    var b, b' := h1.objs[x].b, h1'.objs[x].b;
    if b.Thread? { assert b'.stack[..b.top] == b.stack[..b.top]; }
  }

  // ----- what operands name -----

  lemma {:induction false} WalkRel(f: Renaming, h1: Heap, h2: Heap, r1: Ref, r2: Ref, steps: seq<nat>)
    requires Rel(f, h1, h2) && RefRel(f, r1, r2)
    ensures RefRel(f, Walk(h1.objs, r1, steps), Walk(h2.objs, r2, steps))
    decreases |steps|
  {
    hide ObjRel, Vals;
    if steps != [] && r1.Some? {
      ValsRel(f, h1, r1.value, h2, r2.value);
      if steps[0] < |Vals(h1.objs, r1.value)| {
        WalkRel(f, h1, h2, Vals(h1.objs, r1.value)[steps[0]], Vals(h2.objs, r2.value)[steps[0]], steps[1..]);
      }
    }
  }

  lemma NamedRel(f: Renaming, h1: Heap, h2: Heap, v: Operand)
    requires Rel(f, h1, h2)
    ensures RefRel(f, Named(h1, v), Named(h2, v))
  {
    hide Rel;
    assert RefsRel(f, Roots(h1), Roots(h2)) by { RelRoots(f, h1, h2); }
    if v.At? && v.root < |Roots(h1)| { WalkRel(f, h1, h2, Roots(h1)[v.root], Roots(h2)[v.root], v.steps); }
  }

  lemma RelRoots(f: Renaming, h1: Heap, h2: Heap)
    requires Rel(f, h1, h2)
    ensures RefsRel(f, Roots(h1), Roots(h2)) && OneToOne(f)
    ensures h1.running in f && f[h1.running] == h2.running
  {
    assert RefRel(f, Roots(h1)[1], Roots(h2)[1]);
  }

  lemma NamedAllRel(f: Renaming, h1: Heap, h2: Heap, vs: seq<Operand>)
    requires Rel(f, h1, h2)
    ensures RefsRel(f, NamedAll(h1, vs), NamedAll(h2, vs))
  {
    hide Rel, Named;
    forall i | 0 <= i < |vs| ensures RefRel(f, NamedAll(h1, vs)[i], NamedAll(h2, vs)[i]) { NamedRel(f, h1, h2, vs[i]); }
  }

  // ----- objects that keep their looks -----

  /** g names what f names, as f does. */
  predicate Extends(f: Renaming, g: Renaming) { forall z :: z in f ==> z in g && g[z] == f[z] }

  lemma MoreRefs(f: Renaming, g: Renaming, s1: seq<Ref>, s2: seq<Ref>)
    requires Extends(f, g) && RefsRel(f, s1, s2)
    ensures RefsRel(g, s1, s2)
  {
    forall i | 0 <= i < |s1| ensures RefRel(g, s1[i], s2[i]) { assert RefRel(f, s1[i], s2[i]); }
  }

  lemma LooksRel(f: Renaming, g: Renaming, b1: Body, b2: Body, b1': Body, b2': Body)
    requires Extends(f, g) && BodyRel(f, b1, b2) && !IsUpval(b1) && Looks(b1, b1') && Looks(b2, b2')
    ensures BodyRel(g, b1', b2') && !IsUpval(b1')
  {
    match b1
    case Str(_) =>
    case Udata(refs) => MoreRefs(f, g, refs, b2.refs);
    case Func(refs) => MoreRefs(f, g, refs, b2.refs);
    case Table(refs) => MoreRefs(f, g, refs, b2.refs);
    case Proto(refs) => MoreRefs(f, g, refs, b2.refs);
    case Thread(env, stack, top, _) =>
      MoreRefs(f, g, [env], [b2.env]);
      assert RefRel(g, [env][0], [b2.env][0]);
      MoreRefs(f, g, stack[..top], b2.stack[..top]);
  }

  /** Two heaps and what became of them, g naming also what is new. */
  ghost predicate Grows(f: Renaming, g: Renaming, h1: Heap, h2: Heap, h1': Heap, h2': Heap, hash: string -> nat) {
    && Trimmed(f, h1, h2) && Inv(h1, hash) && Inv(h2, hash) && Inv(h1', hash) && Inv(h2', hash)
    && Extends(f, g) && OneToOne(g)
    && forall z :: z in g && z !in f ==>
         !(IsThread(h1.objs, z) && IsThread(h1'.objs, z)) && !(IsThread(h2.objs, g[z]) && IsThread(h2'.objs, g[z]))
  }

  lemma Growing(f: Renaming, h1: Heap, h2: Heap, h1': Heap, h2': Heap, hash: string -> nat)
    requires Trimmed(f, h1, h2) && Inv(h1, hash) && Inv(h2, hash) && Inv(h1', hash) && Inv(h2', hash)
    ensures Grows(f, f, h1, h2, h1', h2', hash)
  {
    hide Inv, Trimmed;
    assert OneToOne(f) by { TrimmedRel(f, h1, h2); RelRoots(f, h1, h2); }
  }

  lemma TrimmedRel(f: Renaming, h1: Heap, h2: Heap)
    requires Trimmed(f, h1, h2)
    ensures Rel(f, h1, h2)
  {
  }

  lemma TrimmedObj(f: Renaming, h1: Heap, x: Id, h2: Heap)
    requires Trimmed(f, h1, h2) && x in f
    ensures ObjRel(f, h1, x, h2, f[x]) && Live(h1, x) && Live(h2, f[x])
  {
    hide ObjRel, Reach;
  }

  lemma GrowsObj(f: Renaming, g: Renaming, h1: Heap, x: Id, h2: Heap, h1': Heap, h2': Heap, hash: string -> nat)
    requires Grows(f, g, h1, h2, h1', h2', hash) && x in f
    ensures ObjRel(f, h1, x, h2, f[x]) && Live(h1, x) && Live(h2, f[x]) && Extends(f, g) && OneToOne(g)
  {
    hide Inv, Reach, ObjRel;
    TrimmedObj(f, h1, x, h2);
  }

  lemma GrowsInv(f: Renaming, g: Renaming, h1: Heap, h2: Heap, h1': Heap, h2': Heap, hash: string -> nat)
    requires Grows(f, g, h1, h2, h1', h2', hash)
    ensures Inv(h1, hash) && Inv(h2, hash) && Inv(h1', hash) && Inv(h2', hash)
    ensures forall z :: z in g && z !in f ==>
      !(IsThread(h1.objs, z) && IsThread(h1'.objs, z)) && !(IsThread(h2.objs, g[z]) && IsThread(h2'.objs, g[z]))
  {
    hide Inv, Trimmed;
  }

  lemma StaysOpen(h: Heap, x: Id, h': Heap, hash: string -> nat)
    requires Inv(h, hash) && Inv(h', hash) && x in h.objs && h.objs[x].b.Open? && x in h'.objs
    requires h'.objs[x].b == h.objs[x].b
    ensures IsThread(h.objs, h.objs[x].b.th) && IsThread(h'.objs, h.objs[x].b.th)
  {
    hide Inv;
    UpvalThread(h, x, hash);
    UpvalThread(h', x, hash);
  }

  /** An open upvalue stays open in both, or is none in either. */
  lemma OpenKept(f: Renaming, g: Renaming, h1: Heap, x: Id, h2: Heap, h1': Heap, h2': Heap, hash: string -> nat)
    requires Grows(f, g, h1, h2, h1', h2', hash) && x in f && x in h1.objs && f[x] in h2.objs && IsUpval(h1.objs[x].b)
    requires x in h1'.objs && h1'.objs[x].b == h1.objs[x].b && f[x] in h2'.objs && h2'.objs[f[x]].b == h2.objs[f[x]].b
    ensures BodyRel(g, h1'.objs[x].b, h2'.objs[f[x]].b)
  {
    hide Grows, Inv, RefRel, Live, IsThread;
    GrowsObj(f, g, h1, x, h2, h1', h2', hash);
    GrowsInv(f, g, h1, h2, h1', h2', hash);
    var b1, b2 := h1.objs[x].b, h2.objs[f[x]].b;
    if b1.Open? { StaysOpen(h1, x, h1', hash); }
    if b2.Open? {
      StaysOpen(h2, f[x], h2', hash);
      if b2.th in g.Values {
        var z :| z in g && g[z] == b2.th;
        assert z in f && b2.th in f.Values;
      }
    }
  }

  /** An object that keeps its looks, and the value it has as a variable. */
  lemma KeptRel(f: Renaming, g: Renaming, h1: Heap, x: Id, h2: Heap, h1': Heap, h2': Heap, hash: string -> nat)
    requires Grows(f, g, h1, h2, h1', h2', hash) && x in f && x in h1.objs && f[x] in h2.objs
    requires x in h1'.objs && Looks(h1.objs[x].b, h1'.objs[x].b)
    requires f[x] in h2'.objs && Looks(h2.objs[f[x]].b, h2'.objs[f[x]].b)
    requires IsUpval(h1.objs[x].b) ==> IsUpval(h1'.objs[x].b) && Cell(h1'.objs, x) == Cell(h1.objs, x)
    requires IsUpval(h2.objs[f[x]].b) ==> IsUpval(h2'.objs[f[x]].b) && Cell(h2'.objs, f[x]) == Cell(h2.objs, f[x])
    ensures ObjRel(g, h1', x, h2', f[x])
  {
    hide Grows, Cell;
    GrowsObj(f, g, h1, x, h2, h1', h2', hash);
    if IsUpval(h1.objs[x].b) {
      OpenKept(f, g, h1, x, h2, h1', h2', hash);
      assert RefRel(g, Cell(h1.objs, x), Cell(h2.objs, f[x]));
    } else {
      LooksRel(f, g, h1.objs[x].b, h2.objs[f[x]].b, h1'.objs[x].b, h2'.objs[f[x]].b);
    }
  }

  /** All objects but the common ones of S do. */
  lemma OthersRel(f: Renaming, g: Renaming, h1: Heap, h2: Heap, h1': Heap, h2': Heap, S: set<Id>, S': set<Id>, x: Id,
      hash: string -> nat)
    requires Grows(f, g, h1, h2, h1', h2', hash) && x in f && x !in S && f[x] !in S'
    requires BodiesKept(h1, h1', S) && CellsKept(h1, h1') && BodiesKept(h2, h2', S') && CellsKept(h2, h2')
    ensures ObjRel(g, h1', x, h2', f[x])
  {
    hide Grows, Looks, Cell;
    GrowsObj(f, g, h1, x, h2, h1', h2', hash);
    assert IsUpval(h1.objs[x].b) ==> LiveUpval(h1, x);
    assert IsUpval(h2.objs[f[x]].b) ==> LiveUpval(h2, f[x]);
    KeptRel(f, g, h1, x, h2, h1', h2', hash);
  }

  lemma RootsStay(f: Renaming, g: Renaming, h1: Heap, h2: Heap, h1': Heap, h2': Heap)
    requires Rel(f, h1, h2) && Extends(f, g) && SameRoots(h1, h1') && SameRoots(h2, h2')
    ensures RefsRel(g, Roots(h1'), Roots(h2'))
  {
    hide ObjRel;
    MoreRefs(f, g, Roots(h1), Roots(h2));
  }
}
