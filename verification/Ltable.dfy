/** The table operations (ltable.c): a Table updated in place, refining a finite map. */
module Ltable {
  import opened Wrappers
  import opened TableModel
  import opened TableInsert
  import opened TableCount
  import opened TableResize
  import opened TableRehash

  /** Where a value lives: luaO_nilobject, an array slot or a node. */
  datatype Slot = NilObject | InArray(i: int) | InNode(i: int)

  /** llimits.h: a maximum int, less two for safety. */
  const MAX_INT: int := 2147483645

  lemma ArrayFits(n: int)
    requires n <= Pow2(MAXBITS)
    ensures n < MAX_INT
  {
    assert Pow2(10) == 1024;
    assert Pow2(16) == 65536;
    assert Pow2(20) == 1048576;
    assert Pow2(23) == 8388608;
    assert Pow2(26) == 67108864;
  }

  lemma DummyNil(t: T, k: Key)
    requires Inv(t) && t.dummy && !InRange(k, |t.arr|)
    ensures Lookup(t, k) == VNil
  {
  }

  /** A live index is the index of its key. */
  lemma LiveKeyed(t: T, i: int)
    requires Inv(t) && 0 <= i < |t.arr| + |t.node| && !ValAt(t, i).VNil?
    ensures IndexOf(t, KeyAt(t, i), i) && IsKey(KeyAt(t, i))
  {
    if i >= |t.arr| { InvNode(t, i - |t.arr|); }
  }

  /** s is where luaH_get finds k. */
  ghost predicate SlotFor(t: T, s: Slot, k: Key) {
    match s
    case NilObject => !InRange(k, |t.arr|) && (IsKey(k) ==> !InHash(t, k))
    case InArray(i) => InRange(k, |t.arr|) && i == k.i - 1
    case InNode(i) => IsKey(k) && NodeHas(t, i, k)
  }

  function ReadSlot(t: T, s: Slot): Val {
    match s
    case NilObject => VNil
    case InArray(i) => if 0 <= i < |t.arr| then t.arr[i] else VNil
    case InNode(i) => if 0 <= i < |t.node| then t.node[i].val else VNil
  }

  lemma SlotValue(t: T, s: Slot, k: Key)
    requires Inv(t) && SlotFor(t, s, k)
    ensures ReadSlot(t, s) == Lookup(t, k)
  {
    if s.InNode? { LookupNode(t, k, s.i); }
  }

  /** k has a slot, and an assignment to it needs no new one. */
  ghost predicate HasSlot(t: T, k: Key) { InRange(k, |t.arr|) || (IsKey(k) && InHash(t, k)) }

  lemma SlotHere(t: T, s: Slot, k: Key)
    requires SlotFor(t, s, k)
    ensures s != NilObject <==> HasSlot(t, k)
  {
  }

  lemma SlotStays(t: T, t': T, k: Key)
    requires SameSlots(t, t')
    ensures HasSlot(t, k) <==> HasSlot(t', k)
  {
    assert forall i: int :: NodeHas(t, i, k) <==> NodeHas(t', i, k);
  }

  /** The value of q after assignments to existing fields: the one last written. */
  ghost function Written(t: T, writes: seq<(Key, Val)>, q: Key): Val {
    if writes == [] then Lookup(t, q)
    else
      var last := writes[|writes| - 1];
      if last.0 == q && HasSlot(t, q) then last.1 else Written(t, writes[..|writes| - 1], q)
  }

  /** What is assigned after the x-th step of a traversal. */
  function WritesAfter(script: seq<seq<(Key, Val)>>, x: nat): seq<(Key, Val)> { if x < |script| then script[x] else [] }

  ghost predicate Scripted(ts: seq<T>, script: seq<seq<(Key, Val)>>) {
    forall x, q :: 0 <= x < |ts| - 1 ==> Lookup(ts[x + 1], q) == Written(ts[x], WritesAfter(script, x), q)
  }

  lemma ScriptedMore(ts: seq<T>, script: seq<seq<(Key, Val)>>, t: T)
    requires Scripted(ts, script) && |ts| > 0
    requires forall q :: Lookup(t, q) == Written(ts[|ts| - 1], WritesAfter(script, |ts| - 1), q)
    ensures Scripted(ts + [t], script)
  {
    hide Lookup, Written;
  }

  lemma ScriptedAll(ts: seq<T>, script: seq<seq<(Key, Val)>>)
    requires Scripted(ts, script)
    ensures forall x, q :: 0 <= x < |ts| - 1 ==> Lookup(ts[x + 1], q) == Written(ts[x], WritesAfter(script, x), q)
  {
  }

  lemma StartFollowed(t: T, script: seq<seq<(Key, Val)>>)
    requires Inv(t)
    ensures Followed([t], [], [], -1) && Scripted([t], script)
  {
    hide Inv;
  }

  /** A traversal so far: it has met the keys of the slots idx, in order, each while it had a value; every
      other slot up to i was empty at some moment. */
  ghost predicate Followed(ts: seq<T>, visited: seq<Key>, idx: seq<int>, i: int) {
    && |idx| == |visited| && |ts| == |visited| + 1
    && (forall x :: 0 <= x < |ts| ==> Inv(ts[x]) && SameSlots(ts[0], ts[x]))
    && (forall x :: 0 <= x < |idx| ==>
          0 <= idx[x] <= i && IndexOf(ts[0], visited[x], idx[x]) && !visited[x].KNil? && Lookup(ts[x], visited[x]) != VNil)
    && (forall x, y :: 0 <= x < y < |idx| ==> idx[x] < idx[y])
    && (forall n :: 0 <= n <= i && n < |ts[0].arr| + |ts[0].node| && n !in idx ==> Emptied(ts, n))
  }

  ghost predicate Emptied(ts: seq<T>, n: int) {
    exists x :: 0 <= x < |ts| && 0 <= n < |ts[x].arr| + |ts[x].node| && ValAt(ts[x], n) == VNil
  }

  /** next has come from i to j. */
  lemma Passed(ts: seq<T>, visited: seq<Key>, idx: seq<int>, i: int, j: int)
    requires Followed(ts, visited, idx, i) && i < j <= |ts[0].arr| + |ts[0].node|
    requires var t := ts[|visited|]; forall x :: i < x < j ==> 0 <= x < |t.arr| + |t.node| && ValAt(t, x) == VNil
    ensures Followed(ts, visited, idx, j - 1)
  {
    hide Inv, Lookup;
    forall n | 0 <= n <= j - 1 && n < |ts[0].arr| + |ts[0].node| && n !in idx ensures Emptied(ts, n) {
      if n > i { assert ValAt(ts[|visited|], n) == VNil; }
    }
  }

  lemma FollowedMore(ts: seq<T>, visited: seq<Key>, idx: seq<int>, j: int, t: T)
    requires Followed(ts, visited, idx, j - 1) && Inv(t) && SameSlots(ts[0], t)
    requires 0 <= j < |ts[0].arr| + |ts[0].node| && IsKey(KeyAt(ts[0], j))
    requires Lookup(ts[|visited|], KeyAt(ts[0], j)) != VNil
    ensures Followed(ts + [t], visited + [KeyAt(ts[0], j)], idx + [j], j)
  {
    hide Inv, Lookup;
    forall n | 0 <= n <= j && n < |ts[0].arr| + |ts[0].node| && n !in idx + [j] ensures Emptied(ts + [t], n) {
      assert n != j && n !in idx by { assert (idx + [j])[|idx|] == j; }
      assert Emptied(ts, n);
      var x :| 0 <= x < |ts| && 0 <= n < |ts[x].arr| + |ts[x].node| && ValAt(ts[x], n) == VNil;
      assert (ts + [t])[x] == ts[x];
    }
  }

  lemma FollowedEnd(ts: seq<T>, visited: seq<Key>, idx: seq<int>, j: int)
    requires Followed(ts, visited, idx, j - 1) && j >= |ts[0].arr| + |ts[0].node|
    ensures Followed(ts, visited, idx, j)
  {
    hide Inv, Lookup;
  }

  lemma FollowedAll(ts: seq<T>, visited: seq<Key>, idx: seq<int>, i: int)
    requires Followed(ts, visited, idx, i) && i >= |ts[0].arr| + |ts[0].node| - 1
    ensures forall x, y :: 0 <= x < y < |visited| ==> visited[x] != visited[y]
    ensures forall x :: 0 <= x < |visited| ==> Lookup(ts[x], visited[x]) != VNil
    ensures forall k :: (forall x :: 0 <= x < |ts| ==> Lookup(ts[x], k) != VNil) ==> k in visited
  {
    hide Inv, Lookup;
    forall x, y | 0 <= x < y < |visited| ensures visited[x] != visited[y] {
      if visited[x] == visited[y] { IndexUnique(ts[0], visited[x], idx[x], idx[y]); }
    }
    forall k | forall x :: 0 <= x < |ts| ==> Lookup(ts[x], k) != VNil
      ensures k in visited
    {
      Met(ts, visited, idx, i, k);
    }
  }

  lemma Met(ts: seq<T>, visited: seq<Key>, idx: seq<int>, i: int, k: Key)
    requires Followed(ts, visited, idx, i) && i >= |ts[0].arr| + |ts[0].node| - 1
    requires forall x :: 0 <= x < |ts| ==> Lookup(ts[x], k) != VNil
    ensures k in visited
  {
    hide Inv, Lookup;
    var n := LiveIndex(ts[0], k);
    forall x | 0 <= x < |ts| && 0 <= n < |ts[x].arr| + |ts[x].node| ensures ValAt(ts[x], n) != VNil {
      SameIndex(ts[0], ts[x]);
      IndexLookup(ts[x], k, n);
    }
    assert !Emptied(ts, n);
    var x :| 0 <= x < |idx| && idx[x] == n;
    assert visited[x] == k;
  }

  /** Without assignments, the keys met are the live ones. */
  lemma FollowedLive(ts: seq<T>, visited: seq<Key>, t: T)
    requires Inv(t) && |ts| == |visited| + 1 && forall x :: 0 <= x < |ts| ==> ts[x] == t
    requires forall x :: 0 <= x < |visited| ==> Lookup(ts[x], visited[x]) != VNil
    requires forall k :: (forall x :: 0 <= x < |ts| ==> Lookup(ts[x], k) != VNil) ==> k in visited
    ensures forall k :: k in visited <==> k in LiveKeys(t)
  {
    hide Inv, Lookup, LiveKeys;
    forall k ensures k in visited <==> k in LiveKeys(t) { LiveMeans(t, k); }
  }

  class Table {
    var arr: seq<Val>
    var node: seq<Node>
    var lsizenode: nat
    var dummy: bool
    var lastfree: int
    const hash: Hash
    ghost var cid: seq<int>
    ghost var rank: seq<nat>
    ghost var newcid: int

    ghost function Snap(): T
      reads this
    {
      T(arr, node, lsizenode, dummy, lastfree, hash, cid, rank, newcid)
    }

    ghost predicate Valid()
      reads this
    {
      Inv(Snap()) && |arr| <= Pow2(MAXBITS)
    }

    /** luaH_new */
    constructor (narray: nat, nhash: nat, hash: Hash)
      requires narray <= Pow2(MAXBITS) && nhash <= Pow2(MAXBITS)
      ensures Valid() && |arr| == narray && nhash <= |node| && forall k :: Lookup(Snap(), k) == VNil
    {
      arr := seq(narray, _ => VNil);
      var size := if nhash == 0 then 1 else Pow2(CeilLog2(nhash));
      node := seq(size, _ => Node(KNil, VNil, NONE));
      lsizenode := if nhash == 0 then 0 else CeilLog2(nhash);
      dummy := nhash == 0;
      lastfree := if nhash == 0 then 0 else size;
      this.hash := hash;
      cid := seq(size, _ => 0);
      rank := seq(size, _ => 0);
      newcid := 0;
      new;
      EmptyInv(Snap());
    }

    // ----- search -----

    /** mainposition */
    method MainPosition(k: Key) returns (m: int)
      requires |node| > 0
      ensures m == MainPos(Snap(), k) && 0 <= m < |node|
    {
      m := hash(k, lsizenode) % |node|;
    }

    /** The walk along a chain that luaH_getnum, luaH_getstr and luaH_get share. */
    method FindNode(k: Key) returns (n: int)
      requires Valid() && IsKey(k)
      ensures if n == NONE then !InHash(Snap(), k) else NodeHas(Snap(), n, k)
    {
      ghost var t := Snap();
      n := MainPosition(k);
      forall i | NodeHas(t, i, k) ensures Ahead(t, n, i) { assert HomeOk(t, i); }
      while node[n].key != k
        invariant 0 <= n < |node| && forall i :: NodeHas(t, i, k) ==> Ahead(t, n, i)
        decreases rank[n]
      {
        assert NodeOk(t, n);
        forall i | NodeHas(t, i, k) ensures node[n].next != NONE && Ahead(t, node[n].next, i) { WalkOn(t, n, i); }
        if node[n].next == NONE {
          return NONE;
        }
        n := node[n].next;
      }
    }

    /** luaH_getnum */
    method GetNum(key: int) returns (s: Slot)
      requires Valid()
      ensures SlotFor(Snap(), s, KInt(key))
    {
      if 1 <= key <= |arr| {
        return InArray(key - 1);
      }
      var n := FindNode(KInt(key));
      s := if n == NONE then NilObject else InNode(n);
    }

    /** luaH_get */
    method Get(k: Key) returns (s: Slot)
      requires Valid()
      ensures SlotFor(Snap(), s, k)
    {
      match k {
        case KNil => s := NilObject;
        case KInt(i) => s := GetNum(i);
        case KNaN => s := NilObject;
        case KOther(_) =>
          var n := FindNode(k);
          s := if n == NONE then NilObject else InNode(n);
      }
    }

    /** The store that follows luaH_set: exactly the entry of k changes. */
    method Store(s: Slot, v: Val, ghost k: Key)
      requires Valid() && SlotFor(Snap(), s, k) && s != NilObject
      modifies `arr, `node
      ensures Valid() && |arr| == old(|arr|) && |node| == old(|node|)
      ensures forall q :: Lookup(Snap(), q) == if q == k then v else old(Lookup(Snap(), q))
      ensures forall i :: 0 <= i < |node| ==> node[i].key == old(node)[i].key
    {
      ghost var t := Snap();
      match s {
        case InArray(i) =>
          arr := arr[i := v];
          StoreArray(t, i, v);
        case InNode(i) =>
          node := node[i := node[i].(val := v)];
          StoreNode(t, i, v, k);
        case NilObject =>
      }
    }

    // ----- insertion -----

    /** getfreepos */
    method GetFreePos() returns (n: int)
      requires Valid()
      modifies `lastfree
      ensures n == NONE ==> dummy || forall i :: 0 <= i < |node| ==> Keyed(Snap(), i)
      ensures n != NONE ==> !dummy && 0 <= n < |node| && lastfree == n && node[n].key.KNil?
      ensures lastfree <= old(lastfree)
      ensures forall i :: lastfree < i < old(lastfree) && 0 <= i < |node| ==> !node[i].key.KNil?
    {
      while lastfree > 0
        invariant lastfree <= old(lastfree)
        invariant forall i :: lastfree <= i < old(lastfree) && 0 <= i < |node| ==> !node[i].key.KNil?
      {
        lastfree := lastfree - 1;
        if node[lastfree].key.KNil? {
          return lastfree;
        }
      }
      lastfree := lastfree - 1;
      forall i | 0 <= i < |node| && !dummy
        ensures Keyed(Snap(), i)
      {
        assert old(lastfree) <= i ==> Keyed(old(Snap()), i);
      }
      return NONE;
    }

    /** luaH_set: the slot of k, a new one if there is none. */
    method Set(k: Key) returns (st: Status, s: Slot)
      requires Valid()
      modifies this
      ensures st.Fine? ==> Valid() && SlotFor(Snap(), s, k) && s != NilObject && SameMap(old(Snap()), Snap())
      ensures st.Fine? && HasRoom(old(Snap()), k) ==> Grown(old(Snap()), Snap(), k)
      ensures HasRoom(old(Snap()), k) && IsKey(k) ==> st.Fine?
      ensures st.Fine? ==> IsKey(k)
      ensures st.Failed? ==> !IsKey(k) || Overflows(old(Snap()), k)
      ensures st.Failed? && !IsKey(k) ==> Valid() && Snap() == old(Snap())
      ensures st.Failed? && IsKey(k) ==> Abandoned(old(Snap()), Snap(), k)
      decreases if HasRoom(Snap(), k) then 0 else 1, 1
    {
      s := Get(k);
      GrownSelf(Snap(), k);
      if s != NilObject {
        return Fine, s;
      }
      if k.KNil? {
        return Failed(IndexIsNil), s;
      }
      if k.KNaN? {
        return Failed(IndexIsNaN), s;
      }
      st, s := NewKey(k);
    }

    /** newkey */
    method NewKey(k: Key) returns (st: Status, s: Slot)
      requires Valid() && TableInsert.NewKey(Snap(), k)
      modifies this
      ensures st.Fine? ==> Valid() && SlotFor(Snap(), s, k) && s != NilObject && SameMap(old(Snap()), Snap())
      ensures st.Fine? && HasRoom(old(Snap()), k) ==> Grown(old(Snap()), Snap(), k)
      ensures HasRoom(old(Snap()), k) ==> st.Fine?
      ensures st.Failed? ==> Overflows(old(Snap()), k) && Abandoned(old(Snap()), Snap(), k)
      decreases if HasRoom(Snap(), k) then 0 else 1, 0
    {
      hide Inv, Pow2, SameMap, Grown, HasRoom, TableInsert.NewKey, HomeOk, MainPos, Overflows, Abandoned;
      ghost var t := Snap();
      InvNode(t, 0);
      var mp := MainPosition(k);
      InvNode(t, mp);
      if !node[mp].val.VNil? || dummy {
        var n := GetFreePos();
        LowerKeeps(t, Snap(), node[mp].key, k);
        if n == NONE {
          LowerFree(t, Snap());
          NoRoom(t, k);
          s := NilObject;
          ghost var t1 := Snap();
          LowerOver(t, t1, k);
          st := Rehash(k);
          if st.Failed? {
            LowerAbandoned(t, t1, Snap(), k);
            return;
          }
          ghost var t2 := Snap();
          st, s := Set(k);
          if st.Fine? { SameTrans(t, t1, t2); SameTrans(t, t2, Snap()); }
          return;
        }
        var othern := MainPosition(node[mp].key);
        if othern != mp {
          s := MoveColliding(k, mp, othern, n, t);
        } else {
          s := ChainBehind(k, mp, n, t);
        }
        return Fine, s;
      }
      ghost var wasFree := node[mp].key.KNil?;
      node := node[mp := node[mp].(key := k)];
      if wasFree {
        cid, rank, newcid := cid[mp := newcid], rank[mp := 1], newcid + 1;
      }
      MainDone(t, k);
      assert Snap() == PutMain(t, mp, k);
      return Fine, InNode(mp);
    }

    /** The new key goes to the free position n, chained behind the node in its main position. */
    method ChainBehind(k: Key, mp: int, n: int, ghost t: T) returns (s: Slot)
      requires Inv(t) && TableInsert.NewKey(t, k) && !t.dummy && mp == MainPos(t, k) && Taken(t, mp) && FreeAt(t, n)
      requires Snap() == t.(lastfree := n) && |arr| <= Pow2(MAXBITS) && MainPos(t, t.node[mp].key) == mp
      modifies `node, `cid, `rank
      ensures Valid() && SlotFor(Snap(), s, k) && s != NilObject && SameMap(t, Snap()) && Grown(t, Snap(), k)
    {
      hide Inv, Pow2, SameMap, Grown, TableInsert.NewKey, FreeAt, MainPos, HomeOk;
      FreeIndex(t, n);
      InvNode(t, mp);
      node := node[n := Node(k, VNil, node[mp].next)];
      node := node[mp := node[mp].(next := n)];
      cid := cid[n := cid[mp]];
      rank := Doubled(rank)[n := 2 * rank[mp] - 1];
      FreeDone(t, mp, n, k);
      assert Snap() == PutFree(t, mp, n, k).(lastfree := n);
      s := InNode(n);
    }

    /** The colliding node moves to the free position n; the new key takes its main position. */
    method MoveColliding(k: Key, mp: int, othern0: int, n: int, ghost t: T) returns (s: Slot)
      requires Inv(t) && TableInsert.NewKey(t, k) && !t.dummy && mp == MainPos(t, k) && Taken(t, mp) && FreeAt(t, n)
      requires Snap() == t.(lastfree := n) && |arr| <= Pow2(MAXBITS) && MainPos(t, t.node[mp].key) == othern0 != mp
      modifies `node, `cid, `rank, `newcid
      ensures Valid() && SlotFor(Snap(), s, k) && s != NilObject && SameMap(t, Snap()) && Grown(t, Snap(), k)
    {
      hide Inv, Pow2, SameMap, Grown, TableInsert.NewKey, FreeAt, MainPos, HomeOk;
      FreeIndex(t, n);
      var othern := othern0;
      InvNode(t, mp);
      HomeAhead(t, mp);
      while node[othern].next != mp
        invariant node == t.node && cid == t.cid && rank == t.rank && newcid == t.newcid
        invariant Ahead(t, othern, mp) && othern != mp && 0 <= othern < |node|
        decreases rank[othern]
      {
        WalkOn(t, othern, mp);
        othern := node[othern].next;
      }
      assert Keyed(t, othern);
      node := node[othern := node[othern].(next := n)];
      node := node[n := node[mp]];
      node := node[mp := Node(k, VNil, NONE)];
      cid := cid[n := cid[mp]][mp := newcid];
      rank := rank[n := rank[mp]];
      newcid := newcid + 1;
      MovedDone(t, mp, othern, n, k);
      assert Snap() == PutMoved(t, mp, othern, n, k).(lastfree := n);
      s := InNode(mp);
    }

    // ----- rehash -----

    /** countint */
    method CountInt(k: Key, nums: array<int>, ghost S: set<int>) returns (n: int)
      requires nums.Length == MAXBITS + 1 && Slices(nums[..], S) && (k.KInt? ==> k.i !in S)
      modifies nums
      ensures Slices(nums[..], S + IntOf(k)) && n == |IntOf(k)|
    {
      if k.KInt? && 0 < k.i <= Pow2(MAXBITS) {
        CeilLog2Max(k.i, MAXBITS);
        var lg := CeilLog2(k.i);
        ghost var before := nums[..];
        nums[lg] := nums[lg] + 1;
        forall i: nat | i <= MAXBITS ensures nums[..][i] == Slice(S + {k.i}, i) {
          CountOne(S, k.i, i);
          assert before[i] == Slice(S, i);
        }
        return 1;
      }
      assert S + IntOf(k) == S;
      return 0;
    }

    /** numusearray */
    method NumUseArray(nums: array<int>) returns (ause: int)
      requires Valid() && nums.Length == MAXBITS + 1 && Slices(nums[..], {})
      modifies nums
      ensures Slices(nums[..], ArrayInts(arr, |arr|)) && ause == |ArrayInts(arr, |arr|)|
    {
      hide Inv, Slice, InSlice;
      ause := 0;
      var i := 1;
      var lg, ttlg := 0, 1;
      assert ArrayInts(arr, 0) == {};
      while lg <= MAXBITS
        invariant 0 <= lg <= MAXBITS + 1 && ttlg == Pow2(lg)
        invariant i == 1 + Least(|arr|, if lg == 0 then 0 else Pow2(lg - 1))
        invariant ause == |ArrayInts(arr, i - 1)|
        invariant Slices(nums[..], ArrayInts(arr, i - 1))
      {
        var lim := ttlg;
        if lim > |arr| {
          lim := |arr|;
          if i > lim {
            break;
          }
        }
        if lg > 0 { Pow2Mono(lg - 1, lg); }
        var lc := 0;
        i, lc := CountSlice(i, lim, lg, nums[..]);
        ghost var before := nums[..];
        nums[lg] := nums[lg] + lc;
        ause := ause + lc;
        forall j: nat | j <= MAXBITS ensures nums[..][j] == Slice(ArrayInts(arr, i - 1), j) {
          assert before[j] + (if j == lg then lc else 0) == Slice(ArrayInts(arr, i - 1), j);
        }
        lg, ttlg := lg + 1, ttlg * 2;
      }
    }

    /** The inner loop of numusearray: elements in the range (2^(lg-1), 2^lg]. */
    method CountSlice(i0: int, lim: int, lg: nat, ghost nums: seq<int>) returns (i: int, lc: int)
      requires Valid() && |nums| == MAXBITS + 1 && 1 <= i0 <= lim + 1 <= |arr| + 1
      requires Slices(nums, ArrayInts(arr, i0 - 1))
      requires i0 <= lim ==> InSlice(i0, lg) && InSlice(lim, lg)
      ensures i == lim + 1 && |ArrayInts(arr, lim)| == |ArrayInts(arr, i0 - 1)| + lc
      ensures forall j :: 0 <= j < |nums| ==> nums[j] + (if j == lg then lc else 0) == Slice(ArrayInts(arr, lim), j)
    {
      i, lc := i0, 0;
      while i <= lim
        invariant i0 <= i <= lim + 1
        invariant |ArrayInts(arr, i - 1)| == |ArrayInts(arr, i0 - 1)| + lc
        invariant forall j :: 0 <= j < |nums| ==>
          nums[j] + (if j == lg then lc else 0) == Slice(ArrayInts(arr, i - 1), j)
      {
        assert InSlice(i, lg);
        CountArray(arr, i, lg);
        if !arr[i - 1].VNil? {
          lc := lc + 1;
        }
        i := i + 1;
      }
    }

    /** numusehash */
    method NumUseHash(nums: array<int>, nasize: int) returns (totaluse: int, pnasize: int)
      requires Valid() && nums.Length == MAXBITS + 1 && Slices(nums[..], ArrayInts(arr, |arr|))
      modifies nums
      ensures Slices(nums[..], IndexKeys(Snap())) && totaluse == |LiveFrom(Snap(), 0)|
      ensures pnasize == nasize + |HashInts(Snap(), 0)|
    {
      hide Inv, Pow2, Slices, IntOf, LiveFrom, HashInts, ArrayInts;
      ghost var t, S := Snap(), ArrayInts(arr, |arr|);
      NoneFrom(t);
      InvNode(t, 0);
      totaluse := 0;
      var ause := 0;
      var i := |node|;
      assert S + HashInts(t, i) == S;
      while i > 0
        invariant 0 <= i <= |node|
        invariant Slices(nums[..], S + HashInts(t, i)) && totaluse == |LiveFrom(t, i)| && ause == |HashInts(t, i)|
      {
        i := i - 1;
        CountNode(t, i);
        if !node[i].val.VNil? {
          var n := CountInt(node[i].key, nums, S + HashInts(t, i + 1));
          assert S + HashInts(t, i) == S + HashInts(t, i + 1) + IntOf(node[i].key);
          ause := ause + n;
          totaluse := totaluse + 1;
        }
      }
      pnasize := nasize + ause;
    }

    /** computesizes: narray comes in as the number of keys, and goes out as the size of the array part. */
    static method ComputeSizes(nums: array<int>, narray: int, ghost S: set<int>) returns (na: int, n: int)
      requires nums.Length == MAXBITS + 1 && Slices(nums[..], S) && narray == |S|
      requires forall x :: x in S ==> 1 <= x <= Pow2(MAXBITS)
      ensures BestSize(S, n) && 0 <= n <= Pow2(MAXBITS) && na == Among(S, n)
    {
      var i, twotoi := 0, 1;
      var a := 0;
      hide Pow2, Among, Slice, BestBelow, BestSize;
      na := 0;
      n := 0;
      BestStart(S);
      while twotoi / 2 < narray
        invariant 0 <= i <= MAXBITS && twotoi == Pow2(i)
        invariant a == Among(S, if i == 0 then 0 else Pow2(i - 1))
        invariant BestBelow(S, n, i) && 0 <= n <= Pow2(MAXBITS) && na == Among(S, n)
        decreases MAXBITS + 1 - i
      {
        AmongNext(S, i);
        BestStep(S, n, i);
        Pow2Mono(i, MAXBITS);
        PowNext(i);
        AllCounted(S, i);
        if nums[i] > 0 {
          a := a + nums[i];
          if a > twotoi / 2 {
            n := twotoi;
            na := a;
          }
        } else {
          EmptySlice(S, i);
        }
        if a == narray {
          BestDone(S, n, i + 1);
          return;
        }
        i, twotoi := i + 1, twotoi * 2;
      }
      BestDone(S, n, i);
    }

    // ----- resize -----

    /** setnodevector */
    method SetNodeVector(size: nat) returns (st: Status)
      modifies `node, `lsizenode, `dummy, `lastfree, `cid, `rank
      ensures st.Fine? <==> CeilLog2(size) <= MAXBITS
      ensures st.Fine? ==> Blank(Snap()) && size <= |node| && (dummy <==> size == 0)
      ensures st.Failed? ==> Snap() == old(Snap())
    {
      st := Fine;
      var lsize := 0;
      if size != 0 {
        lsize := CeilLog2(size);
        if lsize > MAXBITS {
          return Failed(TableOverflow);
        }
      }
      node := seq(Pow2(lsize), _ => Node(KNil, VNil, NONE));
      lsizenode := lsize;
      dummy := size == 0;
      lastfree := if size == 0 then 0 else |node|;
      cid, rank := seq(|node|, _ => 0), seq(|node|, _ => 0);
    }

    /** A re-insertion: a slot for k, then its old value into it. */
    method PutOld(k: Key, v: Val, ghost t0: T, ghost done: set<Key>)
      requires Valid() && Partial(t0, Snap(), |arr|, done) && BigEnough(t0, Snap(), |arr|) && Inv(t0)
      requires k in LiveKeys(t0) && v == Lookup(t0, k)
      modifies this
      ensures Valid() && |arr| == old(|arr|) && |node| == old(|node|) && dummy == old(dummy)
      ensures Partial(t0, Snap(), |arr|, done + {k}) && BigEnough(t0, Snap(), |arr|)
      decreases 0, 2
    {
      ghost var t := Snap();
      PartialRoom(t0, t, |arr|, done, k);
      LiveMeans(t0, k);
      assert IsKey(k) by { LiveIsKey(t0, k); }
      var st, s := Set(k);
      ghost var t1 := Snap();
      Store(s, v, k);
      PutBack(t0, t, t1, Snap(), |arr|, done, k);
    }

    /** resize's first loop: the vanishing slice of the array part. */
    method PutArray(aold: seq<Val>, nasize: nat, ghost t0: T) returns (ghost done: set<Key>)
      requires Valid() && Inv(t0) && aold == t0.arr && |arr| == nasize && BigEnough(t0, Snap(), nasize)
      requires Partial(t0, Snap(), nasize, LiveArray(aold, 0) - LiveArray(aold, Least(nasize, |aold|)))
      modifies this
      ensures Valid() && |arr| == nasize && |node| == old(|node|) && dummy == old(dummy) && BigEnough(t0, Snap(), nasize)
      ensures done == LiveArray(aold, 0) - LiveArray(aold, |aold|) && Partial(t0, Snap(), nasize, done)
      decreases 0, 3, 0
    {
      hide Inv, Pow2, Partial, LiveArray, LiveFrom, LiveKeys, Outside;
      done := LiveArray(aold, 0) - LiveArray(aold, Least(nasize, |aold|));
      var i := nasize;
      while i < |aold|
        invariant Least(nasize, |aold|) <= i && (nasize < |aold| ==> i <= |aold|)
        invariant Valid() && |arr| == nasize && |node| == old(|node|) && dummy == old(dummy)
        invariant BigEnough(t0, Snap(), nasize)
        invariant done == LiveArray(aold, 0) - LiveArray(aold, Least(i, |aold|)) && Partial(t0, Snap(), nasize, done)
      {
        ArrayStep(aold, i);
        if !aold[i].VNil? {
          LiveElem(t0, i);
          PutOld(KInt(i + 1), aold[i], t0, done);
          done := done + {KInt(i + 1)};
        }
        i := i + 1;
      }
    }

    /** resize's second loop: the old hash part, from its end. */
    method PutHash(nold: seq<Node>, ghost t0: T, ghost done0: set<Key>) returns (ghost done: set<Key>)
      requires Valid() && Inv(t0) && nold == t0.node && BigEnough(t0, Snap(), |arr|)
      requires Partial(t0, Snap(), |arr|, done0) && done0 == LiveArray(t0.arr, 0) + LiveFrom(t0, |nold|)
      modifies this
      ensures Valid() && |arr| == old(|arr|) && |node| == old(|node|) && dummy == old(dummy)
      ensures done == LiveArray(t0.arr, 0) + LiveFrom(t0, 0) && Partial(t0, Snap(), |arr|, done)
      decreases 0, 3, 0
    {
      hide Inv, Pow2, Partial, LiveArray, LiveFrom, LiveKeys, Outside;
      done := done0;
      var i := |nold|;
      while i > 0
        invariant 0 <= i <= |nold|
        invariant Valid() && |arr| == old(|arr|) && |node| == old(|node|) && dummy == old(dummy)
        invariant BigEnough(t0, Snap(), |arr|)
        invariant done == LiveArray(t0.arr, 0) + LiveFrom(t0, i) && Partial(t0, Snap(), |arr|, done)
      {
        i := i - 1;
        CountNode(t0, i);
        if !nold[i].val.VNil? {
          LiveNode(t0, i);
          PutOld(nold[i].key, nold[i].val, t0, done);
          done := done + {nold[i].key};
        }
      }
    }

    /** resize */
    method Resize(nasize: nat, nhsize: nat) returns (st: Status)
      requires Valid() && nasize <= Pow2(MAXBITS) && |Outside(Snap(), nasize)| <= nhsize
      modifies this
      ensures st.Fine? <==> CeilLog2(nhsize) <= MAXBITS
      ensures st.Failed? ==> Snap() == Widened(old(Snap()), nasize)
      ensures st.Fine? ==>
        Valid() && SameMap(old(Snap()), Snap()) && |arr| == nasize && nhsize <= |node| && (dummy <==> nhsize == 0)
      ensures st.Fine? ==> Partial(old(Snap()), Snap(), nasize, LiveKeys(old(Snap())))
      decreases 0, 3
    {
      hide Inv, Pow2, Partial, SameMap, LiveArray, LiveFrom, LiveKeys, Outside, CeilLog2, Blank;
      st := Fine;
      ghost var t0 := Snap();
      var oldasize, aold, nold := |arr|, arr, node;
      if nasize > oldasize {
        arr := arr + seq(nasize - oldasize, _ => VNil);
      }
      :- SetNodeVector(nhsize);
      if nasize < oldasize {
        arr := arr[..nasize];
      }
      StartPartial(t0, Snap(), nasize);
      ghost var done;
      done := PutArray(aold, nasize, t0);
      LiveParts(t0);
      done := PutHash(nold, t0, done);
      AllBack(t0, Snap(), nasize, done);
    }

    /** luaH_resizearray, as OP_SETLIST calls it: the array part grows. */
    method ResizeArray(nasize: nat) returns (st: Status)
      requires Valid() && |arr| <= nasize <= Pow2(MAXBITS)
      modifies this
      ensures st.Fine? <==> old(lsizenode) <= MAXBITS
      ensures st.Fine? ==> Valid() && SameMap(old(Snap()), Snap()) && |arr| == nasize
      ensures st.Failed? ==> Snap() == Widened(old(Snap()), nasize)
    {
      hide Pow2, Inv, SameMap, Partial, CeilLog2, Outside, LiveKeys;
      OutsideFits(Snap(), nasize);
      NodeSize(Snap());
      var nsize := if dummy then 0 else |node|;
      st := Resize(nasize, nsize);
    }

    /** rehash */
    method Rehash(ek: Key) returns (st: Status)
      requires Valid() && TableInsert.NewKey(Snap(), ek)
      modifies this
      ensures st.Fine? ==> Valid() && SameMap(old(Snap()), Snap()) && HasRoom(Snap(), ek)
      ensures st.Fine? ==> BestSize(IndexKeys(old(Snap())) + IntOf(ek), |arr|)
      ensures st.Failed? ==> Overflows(old(Snap()), ek) && Abandoned(old(Snap()), Snap(), ek)
      decreases 0, 4
    {
      hide Inv, Pow2, Partial, SameMap, IntOf, IndexKeys, Among, LiveKeys, ArrayInts, HashInts, LiveFrom, HasRoom,
        BestSize, Slice, Outside;
      ghost var t := Snap();
      var nums := new int[MAXBITS + 1](_ => 0);
      forall i: nat ensures Slice({}, i) == 0 { EmptySlices(i); }
      var nasize := NumUseArray(nums);
      var totaluse := nasize;
      var hashuse;
      hashuse, nasize := NumUseHash(nums, nasize);
      totaluse := totaluse + hashuse;
      NotIndexed(t, ek);
      var extra := CountInt(ek, nums, IndexKeys(t));
      nasize := nasize + extra;
      totaluse := totaluse + 1;
      WithKey(t, ek, 0);
      IndexKeysSize(t);
      InOrBelow(t, ek);
      var na, n := ComputeSizes(nums, nasize, IndexKeys(t) + IntOf(ek));
      WithKey(t, ek, n);
      InsideSize(t, n);
      st := Resize(n, totaluse - na);
      if st.Fine? {
        ExtraRoom(t, Snap(), n, LiveKeys(t), ek);
      } else {
        CeilLog2Big(totaluse - na, MAXBITS);
        assert Snap() == Widened(t, n).(lastfree := Snap().lastfree);
      }
    }

    // ----- traversal -----

    /** findindex */
    method FindIndex(key: Key) returns (st: Status, i: int)
      requires Valid()
      ensures st.Fine? ==> IndexOf(Snap(), key, i)
      ensures st.Failed? ==> forall j :: !IndexOf(Snap(), key, j)
    {
      st := Fine;
      if key.KNil? {
        return st, -1;
      }
      if key.KInt? && 0 < key.i <= |arr| {
        return st, key.i - 1;
      }
      var n := NONE;
      if IsKey(key) {
        n := FindNode(key);
      }
      if n == NONE {
        forall j ensures !IndexOf(Snap(), key, j) { assert !NodeHas(Snap(), j - |arr|, key) || !IsKey(key); }
        return Failed(InvalidKey), 0;
      }
      i := n + |arr|;
    }

    /** luaH_next: the first entry behind that of key. */
    method Next(key: Key) returns (st: Status, found: Option<(Key, Val)>, ghost i: int, ghost j: int)
      requires Valid()
      ensures st.Failed? ==> forall x :: !IndexOf(Snap(), key, x)
      ensures st.Fine? ==> IndexOf(Snap(), key, i) && i < j <= |arr| + |node| && forall x :: i < x < j ==>
        ValAt(Snap(), x).VNil?
      ensures st.Fine? ==> (found.None? <==> j == |arr| + |node|)
      ensures st.Fine? && found.Some? ==> found.value == (KeyAt(Snap(), j), ValAt(Snap(), j)) && !ValAt(Snap(), j).VNil?
    {
      i, j, found := 0, 0, None;
      var x;
      st, x := FindIndex(key);
      if st.Failed? {
        return;
      }
      i := x;
      x := x + 1;
      while x < |arr|
        invariant i < x && (x <= |arr| || x == i + 1) && x <= |arr| + |node|
        invariant forall y :: i < y < x ==> ValAt(Snap(), y).VNil?
      {
        if !arr[x].VNil? {
          return st, Some((KInt(x + 1), arr[x])), i, x;
        }
        x := x + 1;
      }
      x := x - |arr|;
      while x < |node|
        invariant 0 <= x <= |node| && i < x + |arr|
        invariant forall y :: i < y < x + |arr| ==> ValAt(Snap(), y).VNil?
      {
        if !node[x].val.VNil? {
          return st, Some((node[x].key, node[x].val)), i, x + |arr|;
        }
        x := x + 1;
      }
      j := |arr| + |node|;
    }

    /** An assignment to an existing field; the slot is there, whatever the value. */
    method AssignExisting(k: Key, v: Val)
      requires Valid()
      modifies `arr, `node
      ensures Valid() && SameSlots(old(Snap()), Snap())
      ensures forall q :: Lookup(Snap(), q) == if q == k && old(HasSlot(Snap(), k)) then v else old(Lookup(Snap(), q))
    {
      hide Inv;
      var s := Get(k);
      SlotHere(Snap(), s, k);
      if s != NilObject {
        Store(s, v, k);
      }
    }

    method AssignAll(writes: seq<(Key, Val)>)
      requires Valid()
      modifies `arr, `node
      ensures Valid() && SameSlots(old(Snap()), Snap()) && (writes == [] ==> Snap() == old(Snap()))
      ensures forall q :: Lookup(Snap(), q) == Written(old(Snap()), writes, q)
    {
      hide Inv, Lookup, HasSlot;
      var i := 0;
      while i < |writes|
        invariant 0 <= i <= |writes| && Valid() && SameSlots(old(Snap()), Snap()) && (i == 0 ==> Snap() == old(Snap()))
        invariant forall q :: Lookup(Snap(), q) == Written(old(Snap()), writes[..i], q)
      {
        ghost var t := Snap();
        AssignExisting(writes[i].0, writes[i].1);
        SlotsTrans(old(Snap()), t, Snap());
        SlotStays(old(Snap()), t, writes[i].0);
        assert writes[..i + 1][..i] == writes[..i];
        i := i + 1;
      }
      assert writes[..i] == writes;
    }

    /** A traversal: `next' from nil until there are no more elements, with assignments to existing
        fields, also of nil, after each step.  ts are the tables that the calls of `next' see. */
    method Traverse(script: seq<seq<(Key, Val)>>) returns (st: Status, visited: seq<Key>, ghost ts: seq<T>)
      requires Valid()
      modifies `arr, `node
      ensures st.Fine? && Valid() && |ts| == |visited| + 1 && ts[0] == old(Snap()) && ts[|visited|] == Snap()
      ensures forall x, q :: 0 <= x < |visited| ==> Lookup(ts[x + 1], q) == Written(ts[x], WritesAfter(script, x), q)
      ensures forall x, y :: 0 <= x < y < |visited| ==> visited[x] != visited[y]
      ensures forall x :: 0 <= x < |visited| ==> Lookup(ts[x], visited[x]) != VNil
      ensures forall k :: (forall x :: 0 <= x < |ts| ==> Lookup(ts[x], k) != VNil) ==> k in visited
      ensures script == [] ==> Snap() == old(Snap()) && forall k :: k in visited <==> k in LiveKeys(Snap())
    {
      hide Inv, Lookup, LiveKeys, Written, Followed, Scripted;
      ghost var t := Snap();
      StartFollowed(t, script);
      var key := KNil;
      ghost var i, idx := -1, [];
      visited, ts := [], [t];
      var more := true;
      while more
        invariant Valid() && SameSlots(t, Snap()) && |ts| == |visited| + 1 && ts[0] == t && ts[|visited|] == Snap()
        invariant -1 <= i <= |arr| + |node| && (script == [] ==> forall x :: 0 <= x < |ts| ==> ts[x] == t)
        invariant if more then i < |arr| + |node| && IndexOf(t, key, i) else i == |arr| + |node|
        invariant Followed(ts, visited, idx, i)
        invariant Scripted(ts, script)
        decreases |arr| + |node| - i, more
      {
        ghost var i0, j;
        var found;
        st, found, i0, j := Next(key);
        SameIndex(t, Snap());
        assert IndexOf(Snap(), key, i);
        IndexUnique(Snap(), key, i, i0);
        Passed(ts, visited, idx, i, j);
        if found.Some? {
          key := found.value.0;
          LiveKeyed(Snap(), j);
          IndexLookup(Snap(), key, j);
          ghost var t1 := Snap();
          AssignAll(WritesAfter(script, |visited|));
          SlotsTrans(t, t1, Snap());
          FollowedMore(ts, visited, idx, j, Snap());
          ScriptedMore(ts, script, Snap());
          visited, idx, ts := visited + [key], idx + [j], ts + [Snap()];
        } else {
          FollowedEnd(ts, visited, idx, j);
          more := false;
        }
        i := j;
      }
      st := Fine;
      FollowedAll(ts, visited, idx, i);
      ScriptedAll(ts, script);
      if script == [] { FollowedLive(ts, visited, t); }
    }

    // ----- the length operator -----

    /** The value luaH_getnum finds. */
    method ValueAt(key: int) returns (v: Val)
      requires Valid()
      ensures v == Lookup(Snap(), KInt(key))
    {
      var s := GetNum(key);
      SlotValue(Snap(), s, KInt(key));
      match s {
        case NilObject => v := VNil;
        case InArray(i) => v := arr[i];
        case InNode(i) => v := node[i].val;
      }
    }

    /** unbound_search */
    method UnboundSearch(j0: int) returns (n: int)
      requires Valid() && 0 <= j0 < MAX_INT && (j0 > 0 ==> !Lookup(Snap(), KInt(j0)).VNil?)
      ensures Border(Snap(), n)
    {
      var i, j := j0, j0 + 1;
      var v := ValueAt(j);
      while !v.VNil?
        invariant 0 <= i < j <= MAX_INT && (i > 0 ==> !Lookup(Snap(), KInt(i)).VNil?) && v == Lookup(Snap(), KInt(j))
        decreases MAX_INT - j
      {
        i := j;
        j := j * 2;
        if j > MAX_INT {
          n := LinearSearch();
          return;
        }
        v := ValueAt(j);
      }
      while j - i > 1
        invariant 0 <= i < j && (i > 0 ==> !Lookup(Snap(), KInt(i)).VNil?) && Lookup(Snap(), KInt(j)).VNil?
      {
        var m := (i + j) / 2;
        v := ValueAt(m);
        if v.VNil? {
          j := m;
        } else {
          i := m;
        }
      }
      n := i;
    }

    /** The linear search of unbound_search. */
    method LinearSearch() returns (n: int)
      requires Valid()
      ensures Border(Snap(), n)
    {
      var i := 1;
      var v := ValueAt(i);
      while !v.VNil?
        invariant 1 <= i && v == Lookup(Snap(), KInt(i)) && forall x :: 1 <= x < i ==> !Lookup(Snap(), KInt(x)).VNil?
        decreases |LiveKeys(Snap())| + 1 - i
      {
        LiveRun(Snap(), i);
        i := i + 1;
        v := ValueAt(i);
      }
      n := i - 1;
    }

    /** luaH_getn */
    method GetN() returns (n: int)
      requires Valid()
      ensures Border(Snap(), n)
    {
      hide Pow2, Inv;
      var j := |arr|;
      if j > 0 && arr[j - 1].VNil? {
        var i := 0;
        while j - i > 1
          invariant 0 <= i < j <= |arr| && (i > 0 ==> !arr[i - 1].VNil?) && arr[j - 1].VNil?
        {
          var m := (i + j) / 2;
          if arr[m - 1].VNil? {
            j := m;
          } else {
            i := m;
          }
        }
        return i;
      }
      if dummy {
        DummyNil(Snap(), KInt(j + 1));
        return j;
      }
      ArrayFits(|arr|);
      n := UnboundSearch(j);
    }

    // ----- a store, whole -----

    /** lua_rawset: luaH_set, then the store. */
    method RawSet(k: Key, v: Val) returns (st: Status)
      requires Valid()
      modifies this
      ensures st.Fine? ==>
        Valid() && IsKey(k) && forall q :: Lookup(Snap(), q) == if q == k then v else old(Lookup(Snap(), q))
      ensures st.Failed? ==> !IsKey(k) || Overflows(old(Snap()), k)
      ensures st.Failed? && !IsKey(k) ==> Valid() && Snap() == old(Snap())
      ensures st.Failed? && IsKey(k) ==> (SameMap(old(Snap()), Snap()) <==> old(NothingHidden(Snap(), k)))
      ensures st.Failed? && IsKey(k) ==> Abandoned(old(Snap()), Snap(), k)
      ensures old(|LiveKeys(Snap())|) < 67108864 ==> (st.Fine? <==> k != KNil && k != KNaN)
    {
      hide Abandoned, NothingHidden, SameMap, Inv, Overflows, LiveKeys;
      ghost var t := Snap();
      SmallFits(t, k);
      var s;
      st, s := Set(k);
      if st.Fine? {
        Store(s, v, k);
      } else if IsKey(k) {
        AbandonedMap(t, Snap(), k);
      }
    }
  }
}
