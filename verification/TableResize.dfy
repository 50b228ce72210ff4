/** What insertion and rehashing keep: the map, and room for the keys to come. */
module TableResize {
  import opened Wrappers
  import opened TableModel
  import opened TableInsert

  datatype TableError = IndexIsNil | IndexIsNaN | TableOverflow | InvalidKey

  type Status = Check<TableError>

  /** ceillog2 */
  function CeilLog2(k: int): (r: nat)
    ensures k >= 1 ==> k <= Pow2(r) && (r > 0 ==> Pow2(r - 1) < k)
  {
    if k <= 1 then 0 else 1 + CeilLog2((k + 1) / 2)
  }

  ghost predicate SameMap(t: T, t': T) { forall q :: Lookup(t', q) == Lookup(t, q) }

  /** k can be set without a rehash. */
  ghost predicate HasRoom(t: T, k: Key) {
    InRange(k, |t.arr|) || InHash(t, k) || (!t.dummy && exists i :: 0 <= i < |t.node| && !Keyed(t, i))
  }

  /** No rehash has happened: the sizes are the same, and only k may have joined the keys. */
  ghost predicate Grown(t: T, t': T, k: Key) {
    && |t'.arr| == |t.arr| && |t'.node| == |t.node| && t'.dummy == t.dummy
    && forall i :: Keyed(t', i) ==> t'.node[i].key == k || InHash(t, t'.node[i].key)
  }

  lemma EmptyInv(t: T)
    requires |t.node| == |t.cid| == |t.rank| == Pow2(t.lsize)
    requires forall i :: 0 <= i < |t.node| ==> t.node[i] == Node(KNil, VNil, NONE)
    requires forall i :: 0 <= i < |t.arr| ==> t.arr[i].VNil?
    requires if t.dummy then t.lsize == 0 && t.lastfree <= 0 else t.lastfree == |t.node|
    ensures Inv(t) && forall k :: Lookup(t, k) == VNil
  {
  }

  // ----- walking a chain -----

  /** n and i are in one chain, and the walk from n comes to i. */
  predicate Ahead(t: T, n: int, i: int) {
    Keyed(t, n) && Keyed(t, i) && |t.cid| == |t.rank| == |t.node| && t.cid[i] == t.cid[n] && t.rank[i] <= t.rank[n]
  }

  /** The chain of a key starts at its main position. */
  lemma HomeAhead(t: T, i: int)
    requires Inv(t) && Keyed(t, i)
    ensures 0 <= MainPos(t, t.node[i].key) < |t.node| && Ahead(t, MainPos(t, t.node[i].key), i)
  {
    assert HomeOk(t, i);
  }

  lemma WalkOn(t: T, n: int, i: int)
    requires Inv(t) && Ahead(t, n, i) && n != i
    ensures t.node[n].next != NONE && 0 <= t.node[n].next < |t.node| && Ahead(t, t.node[n].next, i)
    ensures t.rank[t.node[n].next] < t.rank[n]
  {
    assert PairOk(t, n, i) && NodeOk(t, n);
  }

  // ----- stores -----

  lemma StoreArray(t: T, i: int, v: Val)
    requires Inv(t) && 0 <= i < |t.arr|
    ensures var t' := t.(arr := t.arr[i := v]);
      Inv(t') && forall q :: Lookup(t', q) == if q == KInt(i + 1) then v else Lookup(t, q)
  {
    var t' := t.(arr := t.arr[i := v]);
    forall j | 0 <= j < |t.node| ensures NodeOk(t', j) && HomeOk(t', j) { assert NodeOk(t, j) && HomeOk(t, j); }
    forall a, b | 0 <= a < |t.node| && 0 <= b < |t.node| ensures PairOk(t', a, b) { assert PairOk(t, a, b); }
    forall j | 0 <= j < |t.node| && !t.dummy && t.lastfree <= j ensures Keyed(t', j) { assert Keyed(t, j); }
    assert Carries(t, t') && Carries(t', t);
    forall q ensures Lookup(t', q) == if q == KInt(i + 1) then v else Lookup(t, q) {
      if !InRange(q, |t.arr|) { OutsideSame(t, t', q); }
    }
  }

  lemma OutsideSame(t: T, t': T, q: Key)
    requires Inv(t) && Inv(t') && |t'.arr| == |t.arr| && t'.node == t.node && !InRange(q, |t.arr|)
    ensures Lookup(t', q) == Lookup(t, q)
  {
    if IsKey(q) && InHash(t, q) {
      var i :| NodeHas(t, i, q);
      assert NodeHas(t', i, q);
      LookupNode(t, q, i);
      LookupNode(t', q, i);
    } else {
      assert InHash(t', q) ==> InHash(t, q) by {
        if InHash(t', q) { var i :| NodeHas(t', i, q); assert NodeHas(t, i, q); }
      }
    }
  }

  lemma StoreNode(t: T, i: int, v: Val, k: Key)
    requires Inv(t) && NodeHas(t, i, k) && IsKey(k)
    ensures var t' := t.(node := t.node[i := t.node[i].(val := v)]);
      Inv(t') && forall q :: Lookup(t', q) == if q == k then v else Lookup(t, q)
  {
    var t' := t.(node := t.node[i := t.node[i].(val := v)]);
    forall j | 0 <= j < |t.node| ensures NodeOk(t', j) && HomeOk(t', j) { assert NodeOk(t, j) && HomeOk(t, j); }
    forall a, b | 0 <= a < |t.node| && 0 <= b < |t.node| ensures PairOk(t', a, b) { assert PairOk(t, a, b); }
    forall j | 0 <= j < |t.node| && !t.dummy && t.lastfree <= j ensures Keyed(t', j) { assert Keyed(t, j); }
    LookupNode(t, k, i);
    assert NodeHas(t', i, k);
    LookupNode(t', k, i);
    forall q | q != k ensures Lookup(t', q) == Lookup(t, q) { OtherSame(t, t', i, k, q); }
  }

  lemma OtherSame(t: T, t': T, i: int, k: Key, q: Key)
    requires Inv(t) && Inv(t') && NodeHas(t, i, k) && IsKey(k) && q != k && t'.arr == t.arr && |t'.node| == |t.node|
    requires t'.node[i].key == k && forall j :: 0 <= j < |t.node| && j != i ==> t'.node[j] == t.node[j]
    ensures Lookup(t', q) == Lookup(t, q)
  {
    if !InRange(q, |t.arr|) && IsKey(q) {
      if InHash(t, q) {
        var j :| NodeHas(t, j, q);
        assert NodeHas(t', j, q);
        LookupNode(t, q, j);
        LookupNode(t', q, j);
      } else {
        assert forall j :: NodeHas(t', j, q) ==> NodeHas(t, j, q);
      }
    }
  }

  // ----- insertions -----

  /** What the invariant says of one node. */
  lemma InvNode(t: T, i: int)
    requires Inv(t)
    ensures |t.node| == |t.cid| == |t.rank| && |t.node| > 0
    ensures 0 <= i < |t.node| ==> NodeOk(t, i) && HomeOk(t, i)
  {
  }

  /** lastfree plays no part in where keys belong and what is stored. */
  lemma LowerKeeps(t: T, t': T, q: Key, k: Key)
    requires t' == t.(lastfree := t'.lastfree) && |t.node| > 0
    ensures MainPos(t', q) == MainPos(t, q) && (NewKey(t, k) ==> NewKey(t', k))
    ensures forall i :: Keyed(t, i) <==> Keyed(t', i)
  {
    assert forall i :: NodeHas(t', i, k) ==> NodeHas(t, i, k);
  }

  lemma SameTrans(t: T, t1: T, t2: T)
    requires SameMap(t, t1) && SameMap(t1, t2)
    ensures SameMap(t, t2)
  {
  }

  lemma FreeIndex(t: T, n: int)
    requires FreeAt(t, n)
    ensures 0 <= n < |t.node| && t.node[n].key.KNil?
  {
  }

  lemma GrownSelf(t: T, k: Key)
    ensures SameMap(t, t) && Grown(t, t, k)
  {
    forall i | Keyed(t, i) ensures InHash(t, t.node[i].key) { assert NodeHas(t, i, t.node[i].key); }
  }

  /** A key whose value is not nil is in the node m. */
  predicate Taken(t: T, m: int) { 0 <= m < |t.node| && !t.node[m].val.VNil? }

  /** What getfreepos has found: a free node with only taken ones behind it. */
  ghost predicate FreeAt(t: T, n: int) {
    0 <= n < |t.node| && !Keyed(t, n) && n <= t.lastfree && forall i :: n < i < t.lastfree && i < |t.node| ==>
      Keyed(t, i)
  }

  /** lastfree may move down to the node just filled. */
  lemma FreeLowered(t1: T, t2: T, t: T, n: int)
    requires Inv(t1) && t2 == t1.(lastfree := n) && t1.lastfree == t.lastfree && FreeAt(t, n) && !t1.dummy
    requires |t1.node| == |t.node|
    requires Keyed(t1, n) && forall i :: Keyed(t, i) ==> Keyed(t1, i)
    ensures Inv(t2) && SameMap(t1, t2)
  {
    forall i | 0 <= i < |t2.node| ensures NodeOk(t2, i) && HomeOk(t2, i) { assert NodeOk(t1, i) && HomeOk(t1, i); }
    forall a, b | 0 <= a < |t2.node| && 0 <= b < |t2.node| ensures PairOk(t2, a, b) { assert PairOk(t1, a, b); }
    forall i | 0 <= i < |t2.node| && t2.lastfree <= i ensures Keyed(t2, i) { assert Keyed(t1, i); }
    forall q ensures Lookup(t2, q) == Lookup(t1, q) {
      if !InRange(q, |t1.arr|) { OutsideSame(t1, t2, q); }
    }
  }

  lemma LowerFree(t: T, t': T)
    requires Inv(t) && t' == t.(lastfree := t'.lastfree) && t'.lastfree <= t.lastfree
    requires t.dummy || forall i :: 0 <= i < |t.node| ==> Keyed(t', i)
    ensures Inv(t') && SameMap(t, t')
  {
    forall i | 0 <= i < |t.node| ensures NodeOk(t', i) && HomeOk(t', i) { assert NodeOk(t, i) && HomeOk(t, i); }
    forall a, b | 0 <= a < |t.node| && 0 <= b < |t.node| ensures PairOk(t', a, b) { assert PairOk(t, a, b); }
    forall q ensures Lookup(t', q) == Lookup(t, q) {
      if !InRange(q, |t.arr|) { OutsideSame(t, t', q); }
    }
  }

  /** After an insertion: the map is the same, the key has a node. */
  lemma Inserted(t: T, t': T, k: Key, n: int)
    requires Inv(t) && Inv(t') && NewKey(t, k) && t'.arr == t.arr && Carries(t, t') && Carries(t', t)
    requires NodeHas(t', n, k) && |t'.node| == |t.node| && t'.dummy == t.dummy
    requires forall i :: Keyed(t', i) ==> t'.node[i].key == k || InHash(t, t'.node[i].key)
    ensures SameMap(t, t') && Grown(t, t', k)
  {
    forall q ensures Lookup(t', q) == Lookup(t, q) { SameLookup(t, t', q); }
  }

  /** The insertion of k made t' out of t: a node for k, and the map as it was. */
  ghost predicate Done(t: T, t': T, k: Key, n: int) {
    Inv(t') && t'.arr == t.arr && IsKey(k) && NodeHas(t', n, k) && SameMap(t, t') && Grown(t, t', k)
  }

  lemma MainDone(t: T, k: Key)
    requires Inv(t) && NewKey(t, k) && !t.dummy && t.node[MainPos(t, k)].val.VNil?
    ensures Done(t, PutMain(t, MainPos(t, k), k), k, MainPos(t, k))
  {
    var m := MainPos(t, k);
    var t' := PutMain(t, m, k);
    PutMainInv(t, k);
    MainCarries(t, k);
    forall i | Keyed(t', i) && i != m ensures InHash(t, t'.node[i].key) { assert NodeHas(t, i, t'.node[i].key); }
    Inserted(t, t', k, m);
  }

  lemma FreeDone(t: T, m: int, n: int, k: Key)
    requires Inv(t) && NewKey(t, k) && !t.dummy && m == MainPos(t, k) && FreeAt(t, n)
    requires Keyed(t, m) && t.rank[m] > 0 && MainPos(t, t.node[m].key) == m
    ensures Done(t, PutFree(t, m, n, k).(lastfree := n), k, n)
  {
    hide Inv, Carries, SameMap, Lookup;
    InvNode(t, 0);
    var t1 := PutFree(t, m, n, k);
    var t2 := t1.(lastfree := n);
    PutFreeInv(t, n, k);
    FreeCarries(t, m, n, k);
    assert FreeAt(t, n) && t1.lastfree == t.lastfree && Keyed(t1, n);
    forall i | Keyed(t, i) ensures Keyed(t1, i) {}
    FreeLowered(t1, t2, t, n);
    forall i | Keyed(t1, i) && i != n ensures InHash(t, t1.node[i].key) { assert NodeHas(t, i, t1.node[i].key); }
    Inserted(t, t1, k, n);
    SameTwice(t, t1, t2, k);
  }

  lemma MovedDone(t: T, m: int, p: int, n: int, k: Key)
    requires Inv(t) && NewKey(t, k) && !t.dummy && m == MainPos(t, k) && FreeAt(t, n) && Displaced(t, m, p) && p != m
    ensures Done(t, PutMoved(t, m, p, n, k).(lastfree := n), k, m)
  {
    hide Inv, Carries, SameMap, Lookup;
    InvNode(t, 0);
    var t1 := PutMoved(t, m, p, n, k);
    var t2 := t1.(lastfree := n);
    PutMovedInv(t, p, n, k);
    MovedCarries(t, p, n, k);
    forall i | Keyed(t, i) ensures Keyed(t1, i) {}
    FreeLowered(t1, t2, t, n);
    forall i | Keyed(t1, i) && i != m ensures InHash(t, t1.node[i].key) {
      assert NodeHas(t, if i == n then m else i, t1.node[i].key);
    }
    Inserted(t, t1, k, m);
    SameTwice(t, t1, t2, k);
  }

  lemma SameTwice(t: T, t1: T, t2: T, k: Key)
    requires SameMap(t, t1) && SameMap(t1, t2) && Grown(t, t1, k) && t2.arr == t1.arr && t2.node == t1.node
    requires t2.dummy == t1.dummy
    ensures SameMap(t, t2) && Grown(t, t2, k)
  {
    forall i | Keyed(t2, i) ensures t2.node[i].key == k || InHash(t, t2.node[i].key) { assert Keyed(t1, i); }
  }

  lemma NoRoom(t: T, k: Key)
    requires NewKey(t, k) && (t.dummy || forall i :: 0 <= i < |t.node| ==> Keyed(t, i))
    ensures !HasRoom(t, k)
  {
  }
}
