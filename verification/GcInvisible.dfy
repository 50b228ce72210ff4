/** The collector is invisible: two runs of a program differ only in the names of objects,
    however collector steps are interleaved with them. */
module GcInvisible {
  import opened Wrappers
  import opened GcHeap
  import opened GcCells
  import opened GcEffects
  import opened GcProgram
  import opened GcRename

  // ----- pushing, and new objects -----

  lemma PushedRel(f: Renaming, g: Renaming, b1: Body, b2: Body, v1: Ref, v2: Ref, b1': Body, b2': Body)
    requires Extends(f, g) && b1.Thread? && StackRel(f, b1, b2) && RefRel(g, v1, v2)
    requires b1.top <= |b1.stack| && b2.top <= |b2.stack| && OnTop(b1, v1, b1') && OnTop(b2, v2, b2')
    ensures BodyRel(g, b1', b2') && b1'.Thread?
  {
    MoreRefs(f, g, [b1.env], [b2.env]);
    assert RefRel(g, [b1.env][0], [b2.env][0]);
    forall i | 0 <= i < b1'.top ensures RefRel(g, b1'.stack[..b1'.top][i], b2'.stack[..b2'.top][i]) {
      if i < b1.top {
        assert b1.stack[..b1.top][i] == b1'.stack[i] && b2.stack[..b2.top][i] == b2'.stack[i];
        assert RefRel(f, b1.stack[..b1.top][i], b2.stack[..b2.top][i]);
      }
    }
  }

  lemma GrowsRel(f: Renaming, g: Renaming, h1: Heap, h2: Heap, h1': Heap, h2': Heap, hash: string -> nat)
    requires Grows(f, g, h1, h2, h1', h2', hash)
    ensures Rel(f, h1, h2) && Extends(f, g) && OneToOne(f)
  {
    hide Inv, ObjRel, Reach;
  }

  lemma RunningRel(f: Renaming, h1: Heap, h2: Heap)
    requires h1.running in f && ObjRel(f, h1, h1.running, h2, f[h1.running]) && IsThread(h1.objs, h1.running)
    ensures StackRel(f, h1.objs[h1.running].b, h2.objs[f[h1.running]].b)
  {
  }

  /** A push, of an old or a new value. */
  lemma PushRel(f: Renaming, g: Renaming, h1: Heap, h2: Heap, h1': Heap, h2': Heap, v1: Ref, v2: Ref,
      hash: string -> nat)
    requires Grows(f, g, h1, h2, h1', h2', hash) && Pushes(h1, h1', v1) && Pushes(h2, h2', v2) && RefRel(g, v1, v2)
    ensures RefsRel(g, Roots(h1'), Roots(h2')) && ObjRel(g, h1', h1.running, h2', h2.running)
    ensures forall x :: x in f ==> ObjRel(g, h1', x, h2', f[x])
  {
    hide Grows, Looks, OnTop, BodiesKept, CellsBut, BodyRel;
    GrowsRel(f, g, h1, h2, h1', h2', hash);
    RelRoots(f, h1, h2);
    RootsStay(f, g, h1, h2, h1', h2');
    GrowsObj(f, g, h1, h1.running, h2, h1', h2', hash);
    hide Rel, Roots;
    RunningRel(f, h1, h2);
    PushedRel(f, g, h1.objs[h1.running].b, h2.objs[h2.running].b, v1, v2, h1'.objs[h1.running].b,
      h2'.objs[h2.running].b);
    forall x | x in f ensures ObjRel(g, h1', x, h2', f[x]) {
      if x != h1.running {
        assert f[x] != h2.running;
        OthersRel(f, g, h1, h2, h1', h2', {h1.running}, {h2.running}, x, hash);
      }
    }
  }

  lemma PushNew(f: Renaming, g: Renaming, h1: Heap, h2: Heap, h1': Heap, h2': Heap, v1: Ref, v2: Ref,
      hash: string -> nat)
    requires Grows(f, g, h1, h2, h1', h2', hash) && Pushes(h1, h1', v1) && Pushes(h2, h2', v2) && RefRel(g, v1, v2)
    requires forall z :: z in g && z !in f ==> ObjRel(g, h1', z, h2', g[z])
    ensures Rel(g, h1', h2')
  {
    PushRel(f, g, h1, h2, h1', h2', v1, v2, hash);
    hide Pushes, ObjRel, Roots, RefRel;
    hide Trimmed, Inv;
  }

  predicate Fresh(f: Renaming, x1: Id, x2: Id) { x1 !in f && x2 !in f.Values }

  /** f, and one object more. */
  lemma With(f: Renaming, x1: Id, x2: Id)
    requires OneToOne(f) && Fresh(f, x1, x2)
    ensures Extends(f, f[x1 := x2]) && OneToOne(f[x1 := x2])
  {
  }

  lemma NewFresh(f: Renaming, h1: Heap, h2: Heap, x1: Id, x2: Id)
    requires Trimmed(f, h1, h2) && x1 !in h1.objs && x2 !in h2.objs
    ensures Fresh(f, x1, x2)
  {
    hide Rel, Reach;
  }

  lemma NewBodyRel(g: Renaming, kind: Kind, refs1: seq<Ref>, refs2: seq<Ref>)
    requires RefsRel(g, refs1, refs2)
    ensures BodyRel(g, BodyOf(kind, refs1), BodyOf(kind, refs2))
    ensures kind.UPVAL? ==> RefRel(g, BodyOf(kind, refs1).v, BodyOf(kind, refs2).v)
  {
  }

  lemma CreatedRel(g: Renaming, kind: Kind, refs1: seq<Ref>, refs2: seq<Ref>, h1': Heap, x1: Id, h2': Heap, x2: Id)
    requires RefsRel(g, refs1, refs2) && x1 in h1'.objs && x2 in h2'.objs
    requires Looks(BodyOf(kind, refs1), h1'.objs[x1].b) && Looks(BodyOf(kind, refs2), h2'.objs[x2].b)
    ensures ObjRel(g, h1', x1, h2', x2)
  {
    NewBodyRel(g, kind, refs1, refs2);
    if !kind.UPVAL? { LooksRel(g, g, BodyOf(kind, refs1), BodyOf(kind, refs2), h1'.objs[x1].b, h2'.objs[x2].b); }
  }

  lemma CreateRel(f: Renaming, h1: Heap, h2: Heap, h1': Heap, h2': Heap, kind: Kind, refs1: seq<Ref>, refs2: seq<Ref>,
      x1: Id, x2: Id, hash: string -> nat)
    returns (g: Renaming)
    requires Grows(f, f, h1, h2, h1', h2', hash) && RefsRel(f, refs1, refs2)
    requires Makes(h1, h1', x1, BodyOf(kind, refs1)) && Makes(h2, h2', x2, BodyOf(kind, refs2))
    ensures Rel(g, h1', h2')
  {
    hide Inv, BodyOf, Pushes, Looks, BodyRel, Trimmed;
    NewFresh(f, h1, h2, x1, x2);
    With(f, x1, x2);
    g := f[x1 := x2];
    MoreRefs(f, g, refs1, refs2);
    CreatedRel(g, kind, refs1, refs2, h1', x1, h2', x2);
    PushNew(f, g, h1, h2, h1', h2', Some(x1), Some(x2), hash);
  }

  lemma GrowsWith(f: Renaming, h1: Heap, h2: Heap, h1': Heap, h2': Heap, x1: Id, x2: Id, hash: string -> nat)
    requires Grows(f, f, h1, h2, h1', h2', hash) && Fresh(f, x1, x2)
    requires !(IsThread(h1.objs, x1) && IsThread(h1'.objs, x1)) && !(IsThread(h2.objs, x2) && IsThread(h2'.objs, x2))
    ensures Grows(f, f[x1 := x2], h1, h2, h1', h2', hash)
  {
    hide Inv, Trimmed, Fresh;
    With(f, x1, x2);
  }

  lemma GrowsTrimmed(f: Renaming, g: Renaming, h1: Heap, h2: Heap, h1': Heap, h2': Heap, hash: string -> nat)
    requires Grows(f, g, h1, h2, h1', h2', hash)
    ensures Trimmed(f, h1, h2)
  {
  }

  lemma StringRel(f: Renaming, h1: Heap, h2: Heap, h1': Heap, h2': Heap, text: string, x1: Id, x2: Id,
      hash: string -> nat)
    returns (g: Renaming)
    requires Grows(f, f, h1, h2, h1', h2', hash) && MakesString(h1, h1', x1, text) && MakesString(h2, h2', x2, text)
    ensures Rel(g, h1', h2')
  {
    hide Grows, Pushes, Trimmed, Fresh;
    GrowsTrimmed(f, f, h1, h2, h1', h2', hash);
    SameString(f, h1, h2, text, x1, x2);
    if x1 in f {
      PushNew(f, f, h1, h2, h1', h2', Some(x1), Some(x2), hash);
      g := f;
    } else {
      GrowsWith(f, h1, h2, h1', h2', x1, x2, hash);
      g := f[x1 := x2];
      assert ObjRel(g, h1', x1, h2', x2);
      hide ObjRel;
      PushNew(f, g, h1, h2, h1', h2', Some(x1), Some(x2), hash);
    }
  }

  /** A string is common to both heaps, or neither has it in reach. */
  lemma SameString(f: Renaming, h1: Heap, h2: Heap, text: string, x1: Id, x2: Id)
    requires Trimmed(f, h1, h2)
    requires x1 in h1.objs ==> h1.objs[x1].b == Str(text)
    requires x2 in h2.objs ==> h2.objs[x2].b == Str(text)
    requires forall y :: Live(h1, y) && h1.objs[y].b == Str(text) ==> y == x1
    requires forall y :: Live(h2, y) && h2.objs[y].b == Str(text) ==> y == x2
    ensures x1 in f ==> f[x1] == x2
    ensures x1 !in f ==> Fresh(f, x1, x2)
  {
    hide Reach;
    if x1 in f { TrimmedObj(f, h1, x1, h2); }
    if x2 in f.Values {
      var z :| z in f && f[z] == x2;
      TrimmedObj(f, h1, z, h2);
      StringOf(f, h1.objs[z].b, h2.objs[x2].b);
    }
  }

  lemma StringOf(f: Renaming, b1: Body, b2: Body)
    requires BodyRel(f, b1, b2) && b2.Str?
    ensures b1 == b2
  {
  }

  // ----- closures -----

  /** us1 and us2 correspond, and are new to f in both heaps or in neither. */
  ghost predicate Matching(f: Renaming, us1: seq<Id>, us2: seq<Id>) {
    && |us1| == |us2|
    && (forall j :: 0 <= j < |us1| && us1[j] in f ==> f[us1[j]] == us2[j])
    && (forall j, z :: 0 <= j < |us1| && z in f && f[z] == us2[j] ==> z == us1[j])
    && (forall j, k :: 0 <= j < |us1| && 0 <= k < |us1| ==> (us1[j] == us1[k] <==> us2[j] == us2[k]))
  }

  /** f, and the objects of us1 as those of us2. */
  function Joined(f: Renaming, us1: seq<Id>, us2: seq<Id>): Renaming
    requires |us1| == |us2|
  {
    if us1 == [] then f
    else Joined(f, us1[..|us1| - 1], us2[..|us1| - 1])[us1[|us1| - 1] := us2[|us1| - 1]]
  }

  ghost predicate Joins(f: Renaming, us1: seq<Id>, us2: seq<Id>, g: Renaming) {
    && |us1| == |us2| && Extends(f, g) && OneToOne(g)
    && (forall j :: 0 <= j < |us1| ==> us1[j] in g && g[us1[j]] == us2[j])
    && (forall z :: z in g && z !in f ==> exists j :: 0 <= j < |us1| && us1[j] == z && us2[j] == g[z])
  }

  lemma {:induction false} JoinedJoins(f: Renaming, us1: seq<Id>, us2: seq<Id>)
    requires OneToOne(f) && Matching(f, us1, us2)
    ensures Joins(f, us1, us2, Joined(f, us1, us2))
  {
    if us1 != [] {
      var n := |us1| - 1;
      JoinedJoins(f, us1[..n], us2[..n]);
      JoinOne(f, us1, us2, Joined(f, us1[..n], us2[..n]));
    }
  }

  lemma JoinOne(f: Renaming, us1: seq<Id>, us2: seq<Id>, g: Renaming)
    requires Matching(f, us1, us2) && us1 != [] && Joins(f, us1[..|us1| - 1], us2[..|us1| - 1], g)
    ensures Joins(f, us1, us2, g[us1[|us1| - 1] := us2[|us1| - 1]])
  {
    var n := |us1| - 1;
    var g' := g[us1[n] := us2[n]];
    forall z | z in g ensures (g[z] == us2[n] <==> z == us1[n]) { JoinNew(f, us1, us2, g, z); }
    forall z | z in g' && z !in f ensures exists j :: 0 <= j < |us1| && us1[j] == z && us2[j] == g'[z] {
      if z != us1[n] {
        var j :| 0 <= j < n && us1[..n][j] == z && us2[..n][j] == g[z];
        assert us1[j] == z && us2[j] == g'[z];
      }
    }
    forall j | 0 <= j < |us1| ensures us1[j] in g' && g'[us1[j]] == us2[j] {
      if j < n { assert us1[..n][j] == us1[j] && us2[..n][j] == us2[j]; }
    }
  }

  lemma JoinNew(f: Renaming, us1: seq<Id>, us2: seq<Id>, g: Renaming, z: Id)
    requires Matching(f, us1, us2) && us1 != [] && Joins(f, us1[..|us1| - 1], us2[..|us1| - 1], g) && z in g
    ensures g[z] == us2[|us1| - 1] <==> z == us1[|us1| - 1]
  {
    var n := |us1| - 1;
    if z !in f {
      var j :| 0 <= j < n && us1[..n][j] == z && us2[..n][j] == g[z];
      assert us1[j] == z && us2[j] == g[z];
    }
  }

  /** The captured variables of the two closures. */
  lemma CapturesMatch(f: Renaming, h1: Heap, h2: Heap, h1': Heap, h2': Heap, slots: seq<nat>, us1: seq<Id>,
      us2: seq<Id>, hash: string -> nat)
    requires Grows(f, f, h1, h2, h1', h2', hash)
    requires Captures(h1, h1', h1.running, slots, us1) && Captures(h2, h2', h2.running, slots, us2)
    ensures Matching(f, us1, us2)
  {
    hide Grows, Live;
    GrowsRel(f, f, h1, h2, h1', h2', hash);
    GrowsInv(f, f, h1, h2, h1', h2', hash);
    RelRoots(f, h1, h2);
    hide Rel, ObjRel, Inv;
    forall j | 0 <= j < |us1| && us1[j] in f ensures f[us1[j]] == us2[j] {
      GrowsObj(f, f, h1, us1[j], h2, h1', h2', hash);
      SlotFound(f, h1, us1[j], h2, slots[j]);
    }
    forall j, z | 0 <= j < |us1| && z in f && f[z] == us2[j] ensures z == us1[j] {
      GrowsObj(f, f, h1, z, h2, h1', h2', hash);
      SlotFrom(f, h1, z, h2, slots[j]);
    }
    forall j, k | 0 <= j < |us1| && 0 <= k < |us1| ensures us1[j] == us1[k] <==> us2[j] == us2[k] {
      SlotAlone(h1, h1', slots, us1, j, k, hash);
      SlotAlone(h2, h2', slots, us2, j, k, hash);
    }
  }

  lemma SlotFound(f: Renaming, h1: Heap, x: Id, h2: Heap, slot: nat)
    requires x in f && ObjRel(f, h1, x, h2, f[x]) && h1.objs[x].b == Open(h1.running, slot)
    requires h1.running in f && f[h1.running] == h2.running
    ensures h2.objs[f[x]].b == Open(h2.running, slot)
  {
  }

  lemma SlotFrom(f: Renaming, h1: Heap, x: Id, h2: Heap, slot: nat)
    requires x in f && ObjRel(f, h1, x, h2, f[x]) && h2.objs[f[x]].b == Open(h2.running, slot) && OneToOne(f)
    requires h1.running in f && f[h1.running] == h2.running
    ensures h1.objs[x].b == Open(h1.running, slot)
  {
  }

  /** The same slot, the same upvalue. */
  lemma SlotAlone(h: Heap, h': Heap, slots: seq<nat>, us: seq<Id>, j: nat, k: nat, hash: string -> nat)
    requires Inv(h', hash) && Captures(h, h', h.running, slots, us) && j < |us| && k < |us|
    ensures us[j] == us[k] <==> slots[j] == slots[k]
  {
    hide Inv;
    if slots[j] == slots[k] { OneUpval(h', h.running, slots[j], us[j], us[k], hash); }
  }

  /** A new variable holds what is in its slot. */
  lemma SlotValueRel(g: Renaming, h1': Heap, h2': Heap, r1: Id, r2: Id, u1: Id, u2: Id, slot: nat, hash: string -> nat)
    requires ObjRel(g, h1', r1, h2', r2) && r1 in g && g[r1] == r2 && OneToOne(g) && Inv(h1', hash)
    requires u1 in h1'.objs && h1'.objs[u1].b == Open(r1, slot) && u2 in h2'.objs && h2'.objs[u2].b == Open(r2, slot)
    ensures ObjRel(g, h1', u1, h2', u2)
  {
    UpvalThread(h1', u1, hash);
    hide Inv;
    var b1, b2 := h1'.objs[r1].b, h2'.objs[r2].b;
    assert RefRel(g, b1.stack[..b1.top][slot], b2.stack[..b1.top][slot]);
  }

  lemma ClosureRel(f: Renaming, h1: Heap, h2: Heap, h1': Heap, h2': Heap, refs1: seq<Ref>, refs2: seq<Ref>,
      captured: seq<nat>, x1: Id, x2: Id, us1: seq<Id>, us2: seq<Id>, hash: string -> nat)
    returns (g: Renaming)
    requires Grows(f, f, h1, h2, h1', h2', hash) && RefsRel(f, refs1, refs2)
    requires MakesClosure(h1, h1', x1, refs1, captured, us1) && MakesClosure(h2, h2', x2, refs2, captured, us2)
    ensures Rel(g, h1', h2')
  {
    hide Grows, Pushes, Trimmed, Matching, Captures, Joins, InUse, RefsRel, Rel, Inv;
    GrowsInv(f, f, h1, h2, h1', h2', hash);
    InvSafe(h1, hash);
    hide Safe, Live;
    SameSlots(f, h1, h2, h1', h2', hash);
    var slots := InUse(captured, h1.objs[h1.running].b.top);
    CapturesMatch(f, h1, h2, h1', h2', slots, us1, us2, hash);
    GrowsRel(f, f, h1, h2, h1', h2', hash);
    RelRoots(f, h1, h2);
    JoinedJoins(f, us1, us2);
    var g1 := Joined(f, us1, us2);
    GrowsJoined(f, g1, h1, h2, h1', h2', slots, us1, us2, hash);
    NotCaptured(f, g1, h1, h2, h1', h2', x1, x2, slots, us1, us2, hash);
    g := g1[x1 := x2];
    GrowsWith2(f, g1, h1, h2, h1', h2', x1, x2, hash);
    PushRel(f, g, h1, h2, h1', h2', Some(x1), Some(x2), hash);
    forall z | z in g && z !in f ensures ObjRel(g, h1', z, h2', g[z]) {
      if z == x1 {
        ClosureRefs(f, g, g1, refs1, refs2, us1, us2);
        CreatedRel(g, FUNC, refs1 + Somes(us1), refs2 + Somes(us2), h1', x1, h2', x2);
      } else {
        NewUpval(f, g, g1, h1, h2, h1', h2', slots, us1, us2, z, hash);
      }
    }
    PushNew(f, g, h1, h2, h1', h2', Some(x1), Some(x2), hash);
  }

  lemma SameSlots(f: Renaming, h1: Heap, h2: Heap, h1': Heap, h2': Heap, hash: string -> nat)
    requires Grows(f, f, h1, h2, h1', h2', hash) && IsThread(h1.objs, h1.running)
    ensures IsThread(h2.objs, h2.running) && h1.objs[h1.running].b.top == h2.objs[h2.running].b.top
  {
    hide Grows;
    GrowsRel(f, f, h1, h2, h1', h2', hash);
    RelRoots(f, h1, h2);
    hide Rel;
    GrowsObj(f, f, h1, h1.running, h2, h1', h2', hash);
  }

  lemma GrowsJoined(f: Renaming, g: Renaming, h1: Heap, h2: Heap, h1': Heap, h2': Heap, slots: seq<nat>, us1: seq<Id>,
      us2: seq<Id>, hash: string -> nat)
    requires Grows(f, f, h1, h2, h1', h2', hash) && Joins(f, us1, us2, g)
    requires Captures(h1, h1', h1.running, slots, us1) && Captures(h2, h2', h2.running, slots, us2)
    ensures Grows(f, g, h1, h2, h1', h2', hash)
  {
    hide Inv, Trimmed;
    forall z | z in g && z !in f ensures !IsThread(h1'.objs, z) && !IsThread(h2'.objs, g[z]) {
      var j :| 0 <= j < |us1| && us1[j] == z && us2[j] == g[z];
    }
  }

  lemma GrowsWith2(f: Renaming, g: Renaming, h1: Heap, h2: Heap, h1': Heap, h2': Heap, x1: Id, x2: Id,
      hash: string -> nat)
    requires Grows(f, g, h1, h2, h1', h2', hash) && Fresh(g, x1, x2) && x1 !in h1.objs && x2 !in h2.objs
    ensures Grows(f, g[x1 := x2], h1, h2, h1', h2', hash)
    ensures Extends(f, g[x1 := x2]) && Extends(g, g[x1 := x2]) && OneToOne(g[x1 := x2])
  {
    hide Inv, Trimmed;
    With(g, x1, x2);
  }

  lemma NotCaptured(f: Renaming, g: Renaming, h1: Heap, h2: Heap, h1': Heap, h2': Heap, x1: Id, x2: Id, slots: seq<nat>,
      us1: seq<Id>, us2: seq<Id>, hash: string -> nat)
    requires Grows(f, f, h1, h2, h1', h2', hash) && Joins(f, us1, us2, g) && x1 !in h1.objs && x2 !in h2.objs
    requires x1 in h1'.objs && h1'.objs[x1].b.Func? && x2 in h2'.objs && h2'.objs[x2].b.Func?
    requires Captures(h1, h1', h1.running, slots, us1) && Captures(h2, h2', h2.running, slots, us2)
    ensures Fresh(g, x1, x2)
  {
    hide Grows, Trimmed, IsDead;
    GrowsTrimmed(f, f, h1, h2, h1', h2', hash);
    NewFresh(f, h1, h2, x1, x2);
    forall z | z in g ensures z != x1 && g[z] != x2 {
      if z in f {
        assert f[z] in f.Values;
      } else {
        var j :| 0 <= j < |us1| && us1[j] == z && us2[j] == g[z];
        assert h1'.objs[us1[j]].b.Open? && h2'.objs[us2[j]].b.Open?;
      }
    }
  }

  lemma ClosureRefs(f: Renaming, g: Renaming, g1: Renaming, refs1: seq<Ref>, refs2: seq<Ref>, us1: seq<Id>,
      us2: seq<Id>)
    requires Extends(f, g) && Extends(g1, g) && RefsRel(f, refs1, refs2) && Joins(f, us1, us2, g1)
    ensures RefsRel(g, refs1 + Somes(us1), refs2 + Somes(us2))
  {
    MoreRefs(f, g, refs1, refs2);
    forall i | 0 <= i < |refs1| + |us1| ensures RefRel(g, (refs1 + Somes(us1))[i], (refs2 + Somes(us2))[i]) {
      if i < |refs1| { assert RefRel(g, refs1[i], refs2[i]); } else { assert us1[i - |refs1|] in g1; }
    }
  }

  lemma NewUpval(f: Renaming, g: Renaming, g1: Renaming, h1: Heap, h2: Heap, h1': Heap, h2': Heap, slots: seq<nat>,
      us1: seq<Id>, us2: seq<Id>, z: Id, hash: string -> nat)
    requires Joins(f, us1, us2, g1) && Extends(g1, g) && z in g1 && z !in f && OneToOne(g) && Inv(h1', hash)
    requires Captures(h1, h1', h1.running, slots, us1) && Captures(h2, h2', h2.running, slots, us2)
    requires h1.running in f && f[h1.running] == h2.running && ObjRel(g, h1', h1.running, h2', h2.running)
    ensures ObjRel(g, h1', z, h2', g[z])
  {
    hide Inv, ObjRel;
    var j :| 0 <= j < |us1| && us1[j] == z && us2[j] == g1[z];
    SlotValueRel(g, h1', h2', h1.running, h2.running, us1[j], us2[j], slots[j], hash);
  }

  // ----- the other actions -----

  lemma AllRel(f: Renaming, h1: Heap, h2: Heap, h1': Heap, h2': Heap, hash: string -> nat)
    requires Grows(f, f, h1, h2, h1', h2', hash) && SameRoots(h1, h1') && SameRoots(h2, h2')
    requires forall x :: x in f ==> ObjRel(f, h1', x, h2', f[x])
    ensures Rel(f, h1', h2')
  {
    hide Grows, ObjRel;
    GrowsRel(f, f, h1, h2, h1', h2', hash);
    RootsStay(f, f, h1, h2, h1', h2');
  }

  lemma ObjsRel(f: Renaming, h1: Heap, h2: Heap, h1': Heap, h2': Heap, hash: string -> nat)
    requires Grows(f, f, h1, h2, h1', h2', hash) && Still(h1, h1') && Still(h2, h2')
    ensures forall x :: x in f ==> ObjRel(f, h1', x, h2', f[x])
  {
    hide Grows, ObjRel, BodiesKept, CellsBut;
    forall x | x in f ensures ObjRel(f, h1', x, h2', f[x]) {
      assert x !in {} && f[x] !in {};
      OthersRel(f, f, h1, h2, h1', h2', {}, {}, x, hash);
    }
  }

  lemma QuietRel(f: Renaming, h1: Heap, h2: Heap, h1': Heap, h2': Heap, hash: string -> nat)
    requires Grows(f, f, h1, h2, h1', h2', hash) && Quiet(h1, h1') && Quiet(h2, h2')
    ensures Rel(f, h1', h2')
  {
    hide Grows, Still, Rel;
    ObjsRel(f, h1, h2, h1', h2', hash);
    AllRel(f, h1, h2, h1', h2', hash);
  }

  /** The roots change alike. */
  lemma NewRootsRel(f: Renaming, h1: Heap, h2: Heap, h1': Heap, h2': Heap, hash: string -> nat)
    requires Grows(f, f, h1, h2, h1', h2', hash) && Still(h1, h1') && Still(h2, h2')
    requires RefsRel(f, Roots(h1'), Roots(h2'))
    ensures Rel(f, h1', h2')
  {
    hide Grows, Still, ObjRel;
    ObjsRel(f, h1, h2, h1', h2', hash);
    GrowsRel(f, f, h1, h2, h1', h2', hash);
  }

  lemma FieldSetRel(f: Renaming, b1: Body, b2: Body, i: nat, v1: Ref, v2: Ref, b1': Body, b2': Body)
    requires BodyRel(f, b1, b2) && HasFields(b1) && HasFields(b2) && RefRel(f, v1, v2)
    requires FieldSet(b1, i, v1, b1') && FieldSet(b2, i, v2, b2')
    ensures BodyRel(f, b1', b2') && !IsUpval(b1')
  {
    forall k | 0 <= k < |b1'.refs| ensures RefRel(f, b1'.refs[k], b2'.refs[k]) {
      assert k < |b1.refs| ==> RefRel(f, b1.refs[k], b2.refs[k]);
    }
  }

  lemma SameKindRel(f: Renaming, b1: Body, b2: Body)
    requires BodyRel(f, b1, b2)
    ensures HasFields(b1) == HasFields(b2) && b1.Thread? == b2.Thread? && IsUpval(b1) == IsUpval(b2)
  {
  }

  lemma FieldRel(f: Renaming, h1: Heap, h2: Heap, h1': Heap, h2': Heap, o1: Ref, o2: Ref, i: nat, v1: Ref, v2: Ref,
      hash: string -> nat)
    requires Grows(f, f, h1, h2, h1', h2', hash) && RefRel(f, o1, o2) && RefRel(f, v1, v2)
    requires SetsField(h1, h1', o1, i, v1) && SetsField(h2, h2', o2, i, v2)
    ensures Rel(f, h1', h2')
  {
    hide Grows, Rel, BodiesKept, CellsBut, FieldSet, BodyRel, HasFields;
    if o1.Some? {
      GrowsObj(f, f, h1, o1.value, h2, h1', h2', hash);
      SameKindRel(f, h1.objs[o1.value].b, h2.objs[o2.value].b);
    }
    if o1.Some? && HasFields(h1.objs[o1.value].b) {
      var x, y := o1.value, o2.value;
      GrowsRel(f, f, h1, h2, h1', h2', hash);
      FieldSetRel(f, h1.objs[x].b, h2.objs[y].b, i, v1, v2, h1'.objs[x].b, h2'.objs[y].b);
      assert ObjRel(f, h1', x, h2', y);
      RelRoots(f, h1, h2);
      hide ObjRel;
      forall z | z in f ensures ObjRel(f, h1', z, h2', f[z]) {
        if z != x { OthersRel(f, f, h1, h2, h1', h2', {x}, {y}, z, hash); }
      }
      AllRel(f, h1, h2, h1', h2', hash);
    } else {
      QuietRel(f, h1, h2, h1', h2', hash);
    }
  }

  lemma EnvRel(f: Renaming, h1: Heap, h2: Heap, h1': Heap, h2': Heap, t1: Ref, t2: Ref, v1: Ref, v2: Ref,
      hash: string -> nat)
    requires Grows(f, f, h1, h2, h1', h2', hash) && RefRel(f, t1, t2) && RefRel(f, v1, v2)
    requires SetsEnv(h1, h1', t1, v1) && SetsEnv(h2, h2', t2, v2)
    ensures Rel(f, h1', h2')
  {
    hide Grows, Rel, BodiesKept, CellsBut, BodyRel, Looks;
    if t1.Some? {
      GrowsObj(f, f, h1, t1.value, h2, h1', h2', hash);
      SameKindRel(f, h1.objs[t1.value].b, h2.objs[t2.value].b);
    }
    if t1.Some? && h1.objs[t1.value].b.Thread? {
      var x, y := t1.value, t2.value;
      GrowsRel(f, f, h1, h2, h1', h2', hash);
      EnvBody(f, h1.objs[x].b, h2.objs[y].b, v1, v2, h1'.objs[x].b, h2'.objs[y].b);
      assert ObjRel(f, h1', x, h2', y);
      RelRoots(f, h1, h2);
      hide ObjRel;
      forall z | z in f ensures ObjRel(f, h1', z, h2', f[z]) {
        if z != x { OthersRel(f, f, h1, h2, h1', h2', {x}, {y}, z, hash); }
      }
      AllRel(f, h1, h2, h1', h2', hash);
    } else {
      QuietRel(f, h1, h2, h1', h2', hash);
    }
  }

  lemma EnvBody(f: Renaming, b1: Body, b2: Body, v1: Ref, v2: Ref, b1': Body, b2': Body)
    requires BodyRel(f, b1, b2) && b1.Thread? && b2.Thread? && RefRel(f, v1, v2)
    requires Looks(b1.(env := v1), b1') && Looks(b2.(env := v2), b2')
    ensures BodyRel(f, b1', b2') && !IsUpval(b1')
  {
    assert BodyRel(f, b1.(env := v1), b2.(env := v2));
    LooksRel(f, f, b1.(env := v1), b2.(env := v2), b1', b2');
  }

  lemma MtRel(f: Renaming, h1: Heap, h2: Heap, h1': Heap, h2': Heap, i: nat, v1: Ref, v2: Ref, hash: string -> nat)
    requires Grows(f, f, h1, h2, h1', h2', hash) && RefRel(f, v1, v2) && SetsMt(h1, h1', i, v1)
    requires SetsMt(h2, h2', i, v2)
    ensures Rel(f, h1', h2')
  {
    hide Grows, Rel, Still;
    GrowsRel(f, f, h1, h2, h1', h2', hash);
    RelRoots2(f, h1, h2);
    forall k | 0 <= k < |Roots(h1')| ensures RefRel(f, Roots(h1')[k], Roots(h2')[k]) {
      assert RefRel(f, Roots(h1)[k], Roots(h2)[k]);
    }
    NewRootsRel(f, h1, h2, h1', h2', hash);
  }

  lemma RelRoots2(f: Renaming, h1: Heap, h2: Heap)
    requires Rel(f, h1, h2)
    ensures RefsRel(f, Roots(h1), Roots(h2)) && |h1.mt| == |h2.mt|
  {
    assert |Roots(h1)| == |Roots(h2)|;
  }

  lemma RunsRel(f: Renaming, h1: Heap, h2: Heap, h1': Heap, h2': Heap, t1: Ref, t2: Ref, hash: string -> nat)
    requires Grows(f, f, h1, h2, h1', h2', hash) && RefRel(f, t1, t2) && Runs(h1, h1', t1) && Runs(h2, h2', t2)
    ensures Rel(f, h1', h2')
  {
    hide Grows, Rel, Still, BodyRel;
    GrowsRel(f, f, h1, h2, h1', h2', hash);
    RelRoots2(f, h1, h2);
    if t1.Some? {
      GrowsObj(f, f, h1, t1.value, h2, h1', h2', hash);
      SameKindRel(f, h1.objs[t1.value].b, h2.objs[t2.value].b);
    }
    forall k | 0 <= k < |Roots(h1')| ensures RefRel(f, Roots(h1')[k], Roots(h2')[k]) {
      assert RefRel(f, Roots(h1)[k], Roots(h2)[k]);
    }
    NewRootsRel(f, h1, h2, h1', h2', hash);
  }

  // ----- closing -----

  lemma CapturedRel(f: Renaming, b1: Body, b2: Body, r1: Id, r2: Id, level: nat)
    requires OneToOne(f) && BodyRel(f, b1, b2) && IsUpval(b1) && r1 in f && f[r1] == r2
    ensures CapturedFrom(b1, r1, level) <==> CapturedFrom(b2, r2, level)
  {
  }

  lemma ClosedObj(f: Renaming, h1: Heap, h2: Heap, h1': Heap, h2': Heap, level: nat, S: set<Id>, S': set<Id>, x: Id,
      hash: string -> nat)
    requires Grows(f, f, h1, h2, h1', h2', hash) && x in f && x !in S && f[x] !in S'
    requires h1.running in f && f[h1.running] == h2.running
    requires ClosesFrom(h1, h1', h1.running, level, S) && CellsKept(h1, h1')
    requires ClosesFrom(h2, h2', h2.running, level, S') && CellsKept(h2, h2')
    ensures ObjRel(f, h1', x, h2', f[x])
  {
    hide Grows, Looks, Cell, BodyRel, CapturedFrom;
    GrowsObj(f, f, h1, x, h2, h1', h2', hash);
    SameKindRel(f, h1.objs[x].b, h2.objs[f[x]].b);
    if IsUpval(h1.objs[x].b) {
      CapturedRel(f, h1.objs[x].b, h2.objs[f[x]].b, h1.running, h2.running, level);
      assert LiveUpval(h1, x) && LiveUpval(h2, f[x]);
    }
    UpvalOnly(h1.objs[x].b, h1.running, level);
    if CapturedFrom(h1.objs[x].b, h1.running, level) {
      ClosedBoth(f, h1, x, h2, h1', h2', level);
    } else {
      NoCapture(h1.objs[x].b, h2.objs[f[x]].b, h2.running, level);
      KeptRel(f, f, h1, x, h2, h1', h2', hash);
    }
  }

  lemma UpvalOnly(b: Body, th: Id, level: nat)
    ensures CapturedFrom(b, th, level) ==> IsUpval(b)
  {
  }

  lemma NoCapture(b1: Body, b2: Body, r2: Id, level: nat)
    requires IsUpval(b1) == IsUpval(b2) && (IsUpval(b1) ==> !CapturedFrom(b2, r2, level))
    ensures !CapturedFrom(b2, r2, level)
  {
  }

  lemma ClosedBoth(f: Renaming, h1: Heap, x: Id, h2: Heap, h1': Heap, h2': Heap, level: nat)
    requires x in f && ObjRel(f, h1, x, h2, f[x]) && CapturedFrom(h1.objs[x].b, h1.running, level)
    requires x in h1'.objs && h1'.objs[x].b.Closed? && Cell(h1'.objs, x) == Cell(h1.objs, x)
    requires f[x] in h2'.objs && h2'.objs[f[x]].b.Closed? && IsUpval(h2.objs[f[x]].b)
    requires Cell(h2'.objs, f[x]) == Cell(h2.objs, f[x])
    ensures ObjRel(f, h1', x, h2', f[x])
  {
  }

  lemma CloseRel(f: Renaming, h1: Heap, h2: Heap, h1': Heap, h2': Heap, level: nat, hash: string -> nat)
    requires Grows(f, f, h1, h2, h1', h2', hash) && SameRoots(h1, h1') && SameRoots(h2, h2')
    requires ClosesFrom(h1, h1', h1.running, level, {}) && CellsKept(h1, h1')
    requires ClosesFrom(h2, h2', h2.running, level, {}) && CellsKept(h2, h2')
    ensures Rel(f, h1', h2')
  {
    hide Grows, Rel, ClosesFrom, CellsBut, ObjRel;
    GrowsRel(f, f, h1, h2, h1', h2', hash);
    RelRoots(f, h1, h2);
    forall x | x in f ensures ObjRel(f, h1', x, h2', f[x]) {
      assert x !in {} && f[x] !in {};
      ClosedObj(f, h1, h2, h1', h2', level, {}, {}, x, hash);
    }
    AllRel(f, h1, h2, h1', h2', hash);
  }

  /** The top moves over slots that hold no object. */
  predicate NothingRaised(h: Heap, top: nat) {
    IsThread(h.objs, h.running) ==>
      forall i :: h.objs[h.running].b.top <= i < top && i < |h.objs[h.running].b.stack| ==>
        h.objs[h.running].b.stack[i] == None
  }

  lemma FramesRel(f: Renaming, h1: Heap, h2: Heap, h1': Heap, h2': Heap, top: nat, n: nat, hash: string -> nat)
    requires Grows(f, f, h1, h2, h1', h2', hash) && top <= n && NothingRaised(h1, top) && NothingRaised(h2, top)
    requires Frames(h1, h1', top, n) && Frames(h2, h2', top, n)
    ensures Rel(f, h1', h2')
  {
    hide Grows, Rel, ClosesFrom, CellsBut, ObjRel, Looks, BodyRel, NothingRaised;
    GrowsRel(f, f, h1, h2, h1', h2', hash);
    RelRoots(f, h1, h2);
    FrameObj(f, h1, h2, h1', h2', top, n, hash);
    forall x | x in f ensures ObjRel(f, h1', x, h2', f[x]) {
      if x != h1.running {
        assert f[x] != h2.running;
        ClosedObj(f, h1, h2, h1', h2', top, {h1.running}, {h2.running}, x, hash);
      }
    }
    AllRel(f, h1, h2, h1', h2', hash);
  }

  lemma FrameObj(f: Renaming, h1: Heap, h2: Heap, h1': Heap, h2': Heap, top: nat, n: nat, hash: string -> nat)
    requires Grows(f, f, h1, h2, h1', h2', hash) && top <= n && NothingRaised(h1, top) && NothingRaised(h2, top)
    requires h1.running in f && f[h1.running] == h2.running && Frames(h1, h1', top, n) && Frames(h2, h2', top, n)
    ensures ObjRel(f, h1', h1.running, h2', h2.running)
  {
    hide Grows, ClosesFrom, CellsBut, Looks, BodyRel, NothingRaised;
    GrowsObj(f, f, h1, h1.running, h2, h1', h2', hash);
    FrameBody(f, h1, h2, top, n, h1'.objs[h1.running].b, h2'.objs[h2.running].b);
  }

  lemma FrameBody(f: Renaming, h1: Heap, h2: Heap, top: nat, n: nat, b1': Body, b2': Body)
    requires IsThread(h1.objs, h1.running) && IsThread(h2.objs, h2.running) && top <= n
    requires BodyRel(f, h1.objs[h1.running].b, h2.objs[h2.running].b) && NothingRaised(h1, top)
    requires NothingRaised(h2, top)
    requires Framed(h1.objs[h1.running].b, top, n, b1') && Framed(h2.objs[h2.running].b, top, n, b2')
    ensures BodyRel(f, b1', b2') && !IsUpval(b1')
  {
    var b1, b2 := h1.objs[h1.running].b, h2.objs[h2.running].b;
    forall i | 0 <= i < top ensures RefRel(f, b1'.stack[..top][i], b2'.stack[..top][i]) {
      if i < |b1.stack| {
        if i < b1.top {
          assert b1.stack[..b1.top][i] == b1.stack[i] && b2.stack[..b1.top][i] == b2.stack[i];
          assert RefRel(f, b1.stack[..b1.top][i], b2.stack[..b1.top][i]);
        } else {
          assert b1.stack[i] == None && b2.stack[i] == None;
        }
      }
    }
  }

  // ----- assignments to variables -----

  lemma SlotStack(f: Renaming, b1: Body, b2: Body, i: nat, v1: Ref, v2: Ref)
    requires b1.Thread? && StackRel(f, b1, b2) && RefRel(f, v1, v2) && i < |b1.stack|
    ensures BodyRel(f, b1.(stack := b1.stack[i := v1]), b2.(stack := b2.stack[i := v2]))
  {
    var s1, s2 := b1.stack[i := v1][..b1.top], b2.stack[i := v2][..b1.top];
    forall k | 0 <= k < b1.top ensures RefRel(f, s1[k], s2[k]) {
      assert RefRel(f, b1.stack[..b1.top][k], b2.stack[..b1.top][k]);
    }
  }

  /** An object other than the thread, after a write to slot i of the threads t1 and t2. */
  lemma SlotOther(f: Renaming, h1: Heap, h2: Heap, h1': Heap, h2': Heap, t1: Id, i: nat, v1: Ref, v2: Ref, x: Id,
      hash: string -> nat)
    requires Grows(f, f, h1, h2, h1', h2', hash) && x in f && x != t1 && t1 in f && RefRel(f, v1, v2)
    requires SetsSlot(h1, h1', t1, i, v1) && SetsSlot(h2, h2', f[t1], i, v2)
    ensures ObjRel(f, h1', x, h2', f[x])
  {
    hide Grows, Cell;
    GrowsRel(f, f, h1, h2, h1', h2', hash);
    RelRoots(f, h1, h2);
    hide Rel;
    GrowsObj(f, f, h1, x, h2, h1', h2', hash);
    assert f[x] != f[t1];
    if IsUpval(h1.objs[x].b) {
      assert LiveUpval(h1, x) && LiveUpval(h2, f[x]);
      OpenKept(f, f, h1, x, h2, h1', h2', hash);
      assert h1.objs[x].b == Open(t1, i) <==> h2.objs[f[x]].b == Open(f[t1], i);
    } else {
      LooksRel(f, f, h1.objs[x].b, h2.objs[f[x]].b, h1'.objs[x].b, h2'.objs[f[x]].b);
    }
  }

  lemma SlotRel(f: Renaming, h1: Heap, h2: Heap, h1': Heap, h2': Heap, t1: Id, i: nat, v1: Ref, v2: Ref,
      hash: string -> nat)
    requires Grows(f, f, h1, h2, h1', h2', hash) && t1 in f && RefRel(f, v1, v2) && IsThread(h1.objs, t1)
    requires SetsSlot(h1, h1', t1, i, v1) && SetsSlot(h2, h2', f[t1], i, v2)
    ensures Rel(f, h1', h2')
  {
    SlotThread(f, h1, h2, h1', h2', t1, i, v1, v2, hash);
    forall x | x in f ensures ObjRel(f, h1', x, h2', f[x]) {
      if x != t1 { SlotOther(f, h1, h2, h1', h2', t1, i, v1, v2, x, hash); }
    }
    hide Grows, ObjRel, BodiesKept, SlotCell, Rel;
    AllRel(f, h1, h2, h1', h2', hash);
  }

  lemma SlotThread(f: Renaming, h1: Heap, h2: Heap, h1': Heap, h2': Heap, t1: Id, i: nat, v1: Ref, v2: Ref,
      hash: string -> nat)
    requires Grows(f, f, h1, h2, h1', h2', hash) && t1 in f && RefRel(f, v1, v2) && IsThread(h1.objs, t1)
    requires SetsSlot(h1, h1', t1, i, v1) && SetsSlot(h2, h2', f[t1], i, v2)
    ensures ObjRel(f, h1', t1, h2', f[t1])
  {
    hide Grows, SlotCell;
    GrowsObj(f, f, h1, t1, h2, h1', h2', hash);
    var b1, b2 := h1.objs[t1].b, h2.objs[f[t1]].b;
    if i < |b1.stack| {
      SlotStack(f, b1, b2, i, v1, v2);
    } else {
      assert t1 !in {} && f[t1] !in {};
      LooksRel(f, f, b1, b2, h1'.objs[t1].b, h2'.objs[f[t1]].b);
    }
  }

  /** What a write to the variable u leaves of x, when x is not u's thread. */
  ghost predicate Wrote(h: Heap, h': Heap, u: Id, v: Ref, x: Id) {
    && x in h.objs && x in h'.objs
    && if x == u then
         && IsUpval(h.objs[u].b) && IsUpval(h'.objs[u].b) && Cell(h'.objs, u) == v
         && (if h.objs[u].b.Open? then h'.objs[u].b == h.objs[u].b else h'.objs[u].b.Closed?)
       else
         && Looks(h.objs[x].b, h'.objs[x].b)
         && (IsUpval(h.objs[x].b) ==> IsUpval(h'.objs[x].b) && Cell(h'.objs, x) == Cell(h.objs, x))
  }

  lemma SetsWrote(h: Heap, h': Heap, u: Id, v: Ref, x: Id, hash: string -> nat)
    requires Inv(h, hash) && SetsUpval(h, h', Some(u), v) && Live(h, u) && IsUpval(h.objs[u].b)
    requires Live(h, x) && (h.objs[u].b.Open? ==> x != h.objs[u].b.th)
    ensures Wrote(h, h', u, v, x)
  {
    hide Inv, Wrote, SetsUpval;
    if h.objs[u].b.Open? {
      OnlyUpval(h, h.objs[u].b.th, h.objs[u].b.level, u, hash);
      UpvalThread(h, u, hash);
      OpenWrote(h, h', u, v, x);
    } else {
      ClosedWrote(h, h', u, v, x);
    }
  }

  lemma ClosedWrote(h: Heap, h': Heap, u: Id, v: Ref, x: Id)
    requires SetsUpval(h, h', Some(u), v) && Live(h, u) && h.objs[u].b.Closed? && Live(h, x)
    ensures Wrote(h, h', u, v, x)
  {
    assert IsUpval(h.objs[x].b) ==> LiveUpval(h, x);
  }

  lemma OpenWrote(h: Heap, h': Heap, u: Id, v: Ref, x: Id)
    requires SetsUpval(h, h', Some(u), v) && Live(h, u) && h.objs[u].b.Open? && Live(h, x) && x != h.objs[u].b.th
    requires u != h.objs[u].b.th
    requires forall y :: y in h.objs && h.objs[y].b == h.objs[u].b ==> y == u
    ensures Wrote(h, h', u, v, x)
  {
    var th, i := h.objs[u].b.th, h.objs[u].b.level;
    assert SetsSlot(h, h', th, i, v);
    hide SetsUpval, Cell;
    assert IsUpval(h.objs[x].b) ==> LiveUpval(h, x);
    assert LiveUpval(h, u) && x !in {th} && u !in {th} && x !in {} && u !in {};
  }

  lemma UpvalRel(f: Renaming, h1: Heap, h2: Heap, h1': Heap, h2': Heap, u1: Ref, u2: Ref, v1: Ref, v2: Ref,
      hash: string -> nat)
    requires Grows(f, f, h1, h2, h1', h2', hash) && RefRel(f, u1, u2) && RefRel(f, v1, v2)
    requires SetsUpval(h1, h1', u1, v1) && SetsUpval(h2, h2', u2, v2)
    ensures Rel(f, h1', h2')
  {
    hide Grows, BodiesKept, CellsBut, BodyRel, Cell, SlotCell, Rel, Inv, SetsSlot, Quiet;
    GrowsInv(f, f, h1, h2, h1', h2', hash);
    if u1.Some? {
      GrowsObj(f, f, h1, u1.value, h2, h1', h2', hash);
      SameKindRel(f, h1.objs[u1.value].b, h2.objs[u2.value].b);
    }
    if u1.None? || !IsUpval(h1.objs[u1.value].b) {
      QuietRel(f, h1, h2, h1', h2', hash);
    } else if h1.objs[u1.value].b.Open? && h1.objs[u1.value].b.th in f {
      CommonSlot(f, h1.objs[u1.value].b, h2.objs[u2.value].b);
      UpvalThread(h1, u1.value, hash);
      SlotRel(f, h1, h2, h1', h2', h1.objs[u1.value].b.th, h1.objs[u1.value].b.level, v1, v2, hash);
    } else {
      LoneUpval(f, h1, h2, h1', h2', u1.value, v1, v2, hash);
    }
  }

  lemma CommonSlot(f: Renaming, b1: Body, b2: Body)
    requires BodyRel(f, b1, b2) && b1.Open? && b1.th in f
    ensures b2 == Open(f[b1.th], b1.level)
  {
  }

  lemma LoneUpval(f: Renaming, h1: Heap, h2: Heap, h1': Heap, h2': Heap, u: Id, v1: Ref, v2: Ref, hash: string -> nat)
    requires Grows(f, f, h1, h2, h1', h2', hash) && u in f && RefRel(f, v1, v2)
    requires u in h1.objs && IsUpval(h1.objs[u].b) && (h1.objs[u].b.Open? ==> h1.objs[u].b.th !in f)
    requires SetsUpval(h1, h1', Some(u), v1) && SetsUpval(h2, h2', Some(f[u]), v2)
    ensures Rel(f, h1', h2')
  {
    hide Grows, Inv, SetsUpval, Rel, Wrote, BodyRel, Cell;
    GrowsInv(f, f, h1, h2, h1', h2', hash);
    GrowsRel(f, f, h1, h2, h1', h2', hash);
    RelRoots(f, h1, h2);
    GrowsObj(f, f, h1, u, h2, h1', h2', hash);
    SameKindRel(f, h1.objs[u].b, h2.objs[f[u]].b);
    LoneOther(f, h1.objs[u].b, h2.objs[f[u]].b);
    forall x | x in f ensures ObjRel(f, h1', x, h2', f[x]) {
      GrowsObj(f, f, h1, x, h2, h1', h2', hash);
      assert f[x] in f.Values;
      SetsWrote(h1, h1', u, v1, x, hash);
      SetsWrote(h2, h2', f[u], v2, f[x], hash);
      WroteRel(f, h1, h2, h1', h2', u, v1, v2, x, hash);
    }
    UpvalRoots(h1, h1', u, v1);
    UpvalRoots(h2, h2', f[u], v2);
    hide ObjRel;
    AllRel(f, h1, h2, h1', h2', hash);
  }

  lemma UpvalRoots(h: Heap, h': Heap, u: Id, v: Ref)
    requires SetsUpval(h, h', Some(u), v)
    ensures SameRoots(h, h')
  {
  }

  lemma LoneOther(f: Renaming, b1: Body, b2: Body)
    requires BodyRel(f, b1, b2) && IsUpval(b1) && (b1.Open? ==> b1.th !in f)
    ensures b2.Open? ==> b2.th !in f.Values
  {
  }

  lemma WroteRel(f: Renaming, h1: Heap, h2: Heap, h1': Heap, h2': Heap, u: Id, v1: Ref, v2: Ref, x: Id,
      hash: string -> nat)
    requires Grows(f, f, h1, h2, h1', h2', hash) && u in f && x in f && RefRel(f, v1, v2)
    requires Wrote(h1, h1', u, v1, x) && Wrote(h2, h2', f[u], v2, f[x])
    requires x == u ==> (h1.objs[u].b.Open? ==> h1.objs[u].b.th !in f) && (h2.objs[f[u]].b.Open? ==>
      h2.objs[f[u]].b.th !in f.Values)
    ensures ObjRel(f, h1', x, h2', f[x])
  {
    hide Grows, Cell, Looks;
    GrowsRel(f, f, h1, h2, h1', h2', hash);
    RelRoots(f, h1, h2);
    if x != u {
      assert f[x] != f[u];
      KeptRel(f, f, h1, x, h2, h1', h2', hash);
    }
  }

  // ----- whole runs -----

  /** The top is not raised over what earlier frames left: the collector clears such slots. */
  predicate Calm(h: Heap, a: Action) { a.SetTop? ==> NothingRaised(h, a.n) }

  /** The same action on both sides. */
  lemma ActionRel(f: Renaming, h1: Heap, h2: Heap, h1': Heap, h2': Heap, a: Action, hash: string -> nat)
    returns (g: Renaming)
    requires Grows(f, f, h1, h2, h1', h2', hash) && !Collecting(a) && Calm(h1, a) && Calm(h2, a)
    requires Effect(h1, a, h1') && Effect(h2, a, h2')
    ensures Rel(g, h1', h2')
  {
    hide Grows, Rel, Named, Quiet, SetsField, SetsUpval, SetsSlot, SetsEnv, SetsMt, Runs, Frames, ClosesFrom, CellsBut,
      Pushes, Makes, MakesString, MakesClosure, NothingRaised, RefRel, BodyOf;
    GrowsRel(f, f, h1, h2, h1', h2', hash);
    g := f;
    match a
    case Create(kind, refs) =>
      NamedAllRel(f, h1, h2, refs);
      g := CreateRel(f, h1, h2, h1', h2', kind, NamedAll(h1, refs), NamedAll(h2, refs), h1.next, h2.next, hash);
    case MakeString(text) =>
      var x1: Id :| MakesString(h1, h1', x1, text);
      var x2: Id :| MakesString(h2, h2', x2, text);
      g := StringRel(f, h1, h2, h1', h2', text, x1, x2, hash);
    case MakeClosure(refs, captured) =>
      NamedAllRel(f, h1, h2, refs);
      var us1 :| MakesClosure(h1, h1', h1.next, NamedAll(h1, refs), captured, us1);
      var us2 :| MakesClosure(h2, h2', h2.next, NamedAll(h2, refs), captured, us2);
      g := ClosureRel(f, h1, h2, h1', h2', NamedAll(h1, refs), NamedAll(h2, refs), captured, h1.next, h2.next, us1, us2,
        hash);
    case SetField(o, i, v) =>
      NamedRel(f, h1, h2, o);
      NamedRel(f, h1, h2, v);
      FieldRel(f, h1, h2, h1', h2', Named(h1, o), Named(h2, o), i, Named(h1, v), Named(h2, v), hash);
    case DropField(o, i) =>
      NamedRel(f, h1, h2, o);
      NoneRel(f);
      FieldRel(f, h1, h2, h1', h2', Named(h1, o), Named(h2, o), i, None, None, hash);
    case SetUpval(u, v) =>
      NamedRel(f, h1, h2, u);
      NamedRel(f, h1, h2, v);
      UpvalRel(f, h1, h2, h1', h2', Named(h1, u), Named(h2, u), Named(h1, v), Named(h2, v), hash);
    case SetSlot(th, i, v) =>
      NamedRel(f, h1, h2, th);
      NamedRel(f, h1, h2, v);
      SlotAction(f, h1, h2, h1', h2', Named(h1, th), Named(h2, th), i, Named(h1, v), Named(h2, v), hash);
    case Push(v) =>
      NamedRel(f, h1, h2, v);
      PushNew(f, f, h1, h2, h1', h2', Named(h1, v), Named(h2, v), hash);
    case SetEnv(th, v) =>
      NamedRel(f, h1, h2, th);
      NamedRel(f, h1, h2, v);
      EnvRel(f, h1, h2, h1', h2', Named(h1, th), Named(h2, th), Named(h1, v), Named(h2, v), hash);
    case SetTypeMetatable(i, v) =>
      NamedRel(f, h1, h2, v);
      MtRel(f, h1, h2, h1', h2', i, Named(h1, v), Named(h2, v), hash);
    case Resume(th) =>
      NamedRel(f, h1, h2, th);
      RunsRel(f, h1, h2, h1', h2', Named(h1, th), Named(h2, th), hash);
    case Fix(_) => QuietRel(f, h1, h2, h1', h2', hash);
    case CloseFrom(level) => CloseRel(f, h1, h2, h1', h2', level, hash);
    case SetTop(n) => TopAction(f, h1, h2, h1', h2', n, hash);
    case Reframe(n) => FrameAction(f, h1, h2, h1', h2', n, hash);
  }

  lemma NoneRel(f: Renaming)
    ensures RefRel(f, None, None)
  {
  }

  lemma SlotAction(f: Renaming, h1: Heap, h2: Heap, h1': Heap, h2': Heap, t1: Ref, t2: Ref, i: nat, v1: Ref, v2: Ref,
      hash: string -> nat)
    requires Grows(f, f, h1, h2, h1', h2', hash) && RefRel(f, t1, t2) && RefRel(f, v1, v2)
    requires if t1.Some? && IsThread(h1.objs, t1.value) then SetsSlot(h1, h1', t1.value, i, v1) else Quiet(h1, h1')
    requires if t2.Some? && IsThread(h2.objs, t2.value) then SetsSlot(h2, h2', t2.value, i, v2) else Quiet(h2, h2')
    ensures Rel(f, h1', h2')
  {
    hide Grows, Rel, SetsSlot, Quiet, BodyRel;
    if t1.Some? {
      GrowsObj(f, f, h1, t1.value, h2, h1', h2', hash);
      SameKindRel(f, h1.objs[t1.value].b, h2.objs[t2.value].b);
    }
    if t1.Some? && IsThread(h1.objs, t1.value) {
      SlotRel(f, h1, h2, h1', h2', t1.value, i, v1, v2, hash);
    } else {
      QuietRel(f, h1, h2, h1', h2', hash);
    }
  }

  /** The running threads have stacks of the same size, with the same top. */
  lemma RunningSame(f: Renaming, h1: Heap, h2: Heap, h1': Heap, h2': Heap, hash: string -> nat)
    requires Grows(f, f, h1, h2, h1', h2', hash) && IsThread(h1.objs, h1.running)
    ensures IsThread(h2.objs, h2.running) && |h1.objs[h1.running].b.stack| == |h2.objs[h2.running].b.stack|
    ensures h1.objs[h1.running].b.top == h2.objs[h2.running].b.top
  {
    hide Grows;
    GrowsRel(f, f, h1, h2, h1', h2', hash);
    RelRoots(f, h1, h2);
    hide Rel;
    GrowsObj(f, f, h1, h1.running, h2, h1', h2', hash);
  }

  lemma TopAction(f: Renaming, h1: Heap, h2: Heap, h1': Heap, h2': Heap, n: nat, hash: string -> nat)
    requires Grows(f, f, h1, h2, h1', h2', hash) && NothingRaised(h1, n) && NothingRaised(h2, n)
    requires Effect(h1, SetTop(n), h1') && Effect(h2, SetTop(n), h2')
    ensures Rel(f, h1', h2')
  {
    hide Grows, Rel, Frames, Quiet, NothingRaised;
    RunningSame(f, h1, h2, h1', h2', hash);
    if n <= |h1.objs[h1.running].b.stack| {
      FramesRel(f, h1, h2, h1', h2', n, |h1.objs[h1.running].b.stack|, hash);
    } else {
      QuietRel(f, h1, h2, h1', h2', hash);
    }
  }

  lemma FrameAction(f: Renaming, h1: Heap, h2: Heap, h1': Heap, h2': Heap, n: nat, hash: string -> nat)
    requires Grows(f, f, h1, h2, h1', h2', hash) && Effect(h1, Reframe(n), h1') && Effect(h2, Reframe(n), h2')
    ensures Rel(f, h1', h2')
  {
    hide Grows, Rel, Frames;
    RunningSame(f, h1, h2, h1', h2', hash);
    var top := h1.objs[h1.running].b.top;
    FramesRel(f, h1, h2, h1', h2', if top < n then top else n, n, hash);
  }

  /** The program's own actions. */
  function Program(actions: seq<Action>): seq<Action> {
    if actions == [] then []
    else
      var last := actions[|actions| - 1];
      Program(actions[..|actions| - 1]) + if Collecting(last) then [] else [last]
  }

  ghost predicate AllCalm(hs: seq<Heap>, actions: seq<Action>) {
    forall i :: 0 <= i < |actions| && i < |hs| ==> Calm(hs[i], actions[i])
  }

  lemma TookEffect(h: Heap, a: Action, h': Heap)
    requires Took(h, a, h')
    ensures Effect(h, a, h')
  {
  }

  lemma CollectorStep(h1: Heap, h2: Heap, a: Action, h1': Heap, hash: string -> nat)
    requires Indistinguishable(h1, h2) && Inv(h1, hash) && Inv(h2, hash) && Collecting(a) && Effect(h1, a, h1')
    ensures Indistinguishable(h1', h2)
  {
    hide Inv, Rel, Unseen;
    var f :| Rel(f, h1, h2);
    InvSafe(h1, hash);
    InvSafe(h2, hash);
    var g := Trimming(f, h1, h2);
    UnseenRel(g, h1, h2, h1');
  }

  lemma Turned(h1: Heap, h2: Heap)
    requires Indistinguishable(h1, h2)
    ensures Indistinguishable(h2, h1)
  {
    hide Rel;
    var f :| Rel(f, h1, h2);
    var g := Backwards(f, h1, h2);
  }

  lemma ProgramStep(h1: Heap, h2: Heap, a: Action, h1': Heap, h2': Heap, hash: string -> nat)
    requires Indistinguishable(h1, h2) && Inv(h1, hash) && Inv(h2, hash) && Inv(h1', hash) && Inv(h2', hash)
    requires !Collecting(a) && Effect(h1, a, h1') && Effect(h2, a, h2') && Calm(h1, a) && Calm(h2, a)
    ensures Indistinguishable(h1', h2')
  {
    hide Inv, Rel, Effect, Calm, Trimmed;
    var f :| Rel(f, h1, h2);
    InvSafe(h1, hash);
    InvSafe(h2, hash);
    var g := Trimming(f, h1, h2);
    Growing(g, h1, h2, h1', h2', hash);
    var g' := ActionRel(g, h1, h2, h1', h2', a, hash);
  }

  /** A run, without its last action. */
  lemma Shorter(hs: seq<Heap>, actions: seq<Action>, hash: string -> nat)
    requires Trace(hs, actions, hash) && AllCalm(hs, actions) && actions != []
    ensures var n := |actions| - 1;
      && Trace(hs[..n + 1], actions[..n], hash) && AllCalm(hs[..n + 1], actions[..n])
      && Inv(hs[n], hash) && Inv(hs[n + 1], hash) && Effect(hs[n], actions[n], hs[n + 1]) && Calm(hs[n], actions[n])
  {
    hide Inv, Effect, Calm;
    var n := |actions| - 1;
    assert Took(hs[n], actions[n], hs[n + 1]);
    TookEffect(hs[n], actions[n], hs[n + 1]);
    hide Took;
    forall i | 0 <= i < n ensures Took(hs[..n + 1][i], actions[..n][i], hs[..n + 1][i + 1]) {
      assert Took(hs[i], actions[i], hs[i + 1]);
    }
  }

  /** Two runs of the same program from heaps that look alike, with collector steps and full
      collections interleaved in any two ways, end in heaps that look alike. */
  lemma {:induction false} Invisible(hs1: seq<Heap>, as1: seq<Action>, hs2: seq<Heap>, as2: seq<Action>,
      hash: string -> nat)
    requires Trace(hs1, as1, hash) && Trace(hs2, as2, hash) && AllCalm(hs1, as1) && AllCalm(hs2, as2)
    requires Indistinguishable(hs1[0], hs2[0]) && Program(as1) == Program(as2)
    ensures Indistinguishable(hs1[|as1|], hs2[|as2|])
    decreases |as1| + |as2|
  {
    hide Inv, Trace, AllCalm, Indistinguishable, Effect, Calm;
    var n1, n2 := |as1| - 1, |as2| - 1;
    TraceLength(hs1, as1, hash);
    TraceLength(hs2, as2, hash);
    if as1 != [] { Shorter(hs1, as1, hash); }
    if as2 != [] { Shorter(hs2, as2, hash); }
    if as1 != [] && Collecting(as1[n1]) {
      Invisible(hs1[..n1 + 1], as1[..n1], hs2, as2, hash);
      LastInv(hs2, as2, hash);
      CollectorStep(hs1[n1], hs2[|as2|], as1[n1], hs1[n1 + 1], hash);
    } else if as2 != [] && Collecting(as2[n2]) {
      Invisible(hs1, as1, hs2[..n2 + 1], as2[..n2], hash);
      LastInv(hs1, as1, hash);
      Turned(hs1[|as1|], hs2[n2]);
      CollectorStep(hs2[n2], hs1[|as1|], as2[n2], hs2[n2 + 1], hash);
      Turned(hs2[|as2|], hs1[|as1|]);
    } else if as1 != [] && as2 != [] {
      assert Program(as1)[|Program(as1)| - 1] == as1[n1] && Program(as2)[|Program(as2)| - 1] == as2[n2];
      assert Program(as1)[..|Program(as1)| - 1] == Program(as1[..n1]);
      assert Program(as2)[..|Program(as2)| - 1] == Program(as2[..n2]);
      Invisible(hs1[..n1 + 1], as1[..n1], hs2[..n2 + 1], as2[..n2], hash);
      ProgramStep(hs1[n1], hs2[n2], as1[n1], hs1[n1 + 1], hs2[n2 + 1], hash);
    }
  }

  lemma TraceLength(hs: seq<Heap>, actions: seq<Action>, hash: string -> nat)
    requires Trace(hs, actions, hash)
    ensures |hs| == |actions| + 1
  {
  }

  lemma LastInv(hs: seq<Heap>, actions: seq<Action>, hash: string -> nat)
    requires Trace(hs, actions, hash)
    ensures Inv(hs[|actions|], hash)
  {
  }

  /** What operands name in two heaps that look alike: objects of the same kind, the same
      strings, as many values, and the same object in one heap when it is the same in the other. */
  lemma Observed(h1: Heap, h2: Heap, v: Operand, w: Operand)
    requires Indistinguishable(h1, h2)
    ensures Named(h1, v).Some? <==> Named(h2, v).Some?
    ensures Named(h1, v).Some? ==> AlikeAt(h1, Named(h1, v).value, h2, Named(h2, v).value)
    ensures Named(h1, v) == Named(h1, w) <==> Named(h2, v) == Named(h2, w)
  {
    hide Rel, Named;
    var f :| Rel(f, h1, h2);
    NamedRel(f, h1, h2, v);
    NamedRel(f, h1, h2, w);
    RelRoots(f, h1, h2);
    if Named(h1, v).Some? { AlikeObj(f, h1, Named(h1, v).value, h2); }
  }

  predicate AlikeAt(h1: Heap, x: Id, h2: Heap, y: Id) {
    && x in h1.objs && y in h2.objs && |Vals(h1.objs, x)| == |Vals(h2.objs, y)|
    && var b1, b2 := h1.objs[x].b, h2.objs[y].b;
      && (b1.Str? || b2.Str? ==> b1 == b2)
      && b1.Udata? == b2.Udata? && b1.Func? == b2.Func? && b1.Table? == b2.Table? && b1.Proto? == b2.Proto?
      && b1.Thread? == b2.Thread? && IsUpval(b1) == IsUpval(b2)
  }

  lemma AlikeObj(f: Renaming, h1: Heap, x: Id, h2: Heap)
    requires Rel(f, h1, h2) && x in f
    ensures AlikeAt(h1, x, h2, f[x])
  {
    assert ObjRel(f, h1, x, h2, f[x]);
    hide Rel;
    ValsRel(f, h1, x, h2, f[x]);
  }

  /** The collector is invisible: after two runs of the same program from the same heap, whatever the
      collector did in between, all operands name the same things. */
  lemma SameOutcome(hs1: seq<Heap>, as1: seq<Action>, hs2: seq<Heap>, as2: seq<Action>, v: Operand, w: Operand,
      hash: string -> nat)
    requires Trace(hs1, as1, hash) && Trace(hs2, as2, hash) && AllCalm(hs1, as1) && AllCalm(hs2, as2)
    requires hs1[0] == hs2[0] && Program(as1) == Program(as2)
    ensures var h1, h2 := hs1[|as1|], hs2[|as2|];
      && (Named(h1, v).Some? <==> Named(h2, v).Some?)
      && (Named(h1, v).Some? ==> AlikeAt(h1, Named(h1, v).value, h2, Named(h2, v).value))
      && (Named(h1, v) == Named(h1, w) <==> Named(h2, v) == Named(h2, w))
  {
    Itself(hs1[0], hash);
    hide Inv, Took, AllCalm, Indistinguishable, Named;
    Invisible(hs1, as1, hs2, as2, hash);
    Observed(hs1[|as1|], hs2[|as2|], v, w);
  }
}
