/** Lua tables (ltable.c): an array part and a chained scatter table with Brent's variation. */
module TableModel {
  /** A key: a number with an int value, or any other value.  Nil and NaN are no keys. */
  datatype Key = KNil | KNaN | KInt(i: int) | KOther(id: int)

  datatype Val = VNil | V(id: int)

  /** A slot of the hash part; `next` is an index, or NONE. */
  datatype Node = Node(key: Key, val: Val, next: int)

  const NONE: int := -1

  type Hash = (Key, nat) -> nat

  /** The table as a value.  `cid` and `rank` are proof data: the nodes of one chain share
      a cid, and ranks fall along it. */
  datatype T = T(arr: seq<Val>, node: seq<Node>, lsize: nat, dummy: bool, lastfree: int, hash: Hash,
                 cid: seq<int>, rank: seq<nat>, newcid: int)

  function Pow2(n: nat): (r: nat)
    ensures r >= 1
  {
    if n == 0 then 1 else 2 * Pow2(n - 1)
  }

  /** An int key in 1..n belongs to an array part of size n. */
  predicate InRange(k: Key, n: nat) { k.KInt? && 1 <= k.i <= n }

  predicate IsKey(k: Key) { !k.KNil? && !k.KNaN? }

  /** mainposition */
  function MainPos(t: T, k: Key): int
    requires |t.node| > 0
  {
    t.hash(k, t.lsize) % |t.node|
  }

  predicate Keyed(t: T, i: int) { 0 <= i < |t.node| && !t.node[i].key.KNil? }

  // ----- the invariant -----

  /** A node without a key is out of all chains; a link stays in the chain and goes down in rank. */
  predicate NodeOk(t: T, i: int)
    requires 0 <= i < |t.node| == |t.cid| == |t.rank|
  {
    var n := t.node[i];
    && (n.key.KNil? ==> n.val.VNil? && n.next == NONE)
    && (!n.key.KNil? ==>
          && IsKey(n.key) && !InRange(n.key, |t.arr|) && t.cid[i] < t.newcid && t.rank[i] >= 1
          && (n.next == NONE || (Keyed(t, n.next) && t.cid[n.next] == t.cid[i] && t.rank[n.next] < t.rank[i])))
  }

  /** Of two nodes of one chain, the one of higher rank leads to the other: the chain has no forks and no gaps. */
  predicate PairOk(t: T, i: int, j: int)
    requires 0 <= i < |t.node| == |t.cid| == |t.rank| && 0 <= j < |t.node|
  {
    Keyed(t, i) && Keyed(t, j) && i != j ==>
      && t.node[i].key != t.node[j].key
      && (t.cid[i] == t.cid[j] ==>
            && t.rank[i] != t.rank[j]
            && (t.rank[j] < t.rank[i] ==> 0 <= t.node[i].next < |t.node| && t.rank[j] <= t.rank[t.node[i].next]))
  }

  /** A key is in the chain that its main position leads into; a displaced key's main
      position is held by a key that belongs there. */
  predicate HomeOk(t: T, i: int)
    requires 0 <= i < |t.node| == |t.cid| == |t.rank|
  {
    Keyed(t, i) ==>
      var m := MainPos(t, t.node[i].key);
      && 0 <= m < |t.node| && Keyed(t, m) && t.cid[m] == t.cid[i] && t.rank[i] <= t.rank[m]
      && MainPos(t, t.node[m].key) == m
  }

  ghost predicate Inv(t: T) {
    && |t.node| == |t.cid| == |t.rank| == Pow2(t.lsize)
    && t.lastfree <= |t.node|
    && (t.dummy ==> t.node == [Node(KNil, VNil, NONE)] && t.lastfree <= 0)
    && (forall i :: 0 <= i < |t.node| ==> NodeOk(t, i) && HomeOk(t, i))
    && (forall i, j :: 0 <= i < |t.node| && 0 <= j < |t.node| ==> PairOk(t, i, j))
    && (!t.dummy ==> forall i :: 0 <= i < |t.node| && t.lastfree <= i ==> Keyed(t, i))
  }

  /** No two nodes link to the same one. */
  lemma InDegree(t: T, i: int, j: int)
    requires Inv(t) && 0 <= i < |t.node| && 0 <= j < |t.node| && t.node[i].next == t.node[j].next != NONE
    ensures i == j
  {
    assert NodeOk(t, i) && NodeOk(t, j) && PairOk(t, i, j) && PairOk(t, j, i);
  }

  // ----- the finite map a table stands for -----

  predicate NodeHas(t: T, i: int, k: Key) { 0 <= i < |t.node| && t.node[i].key == k }

  ghost predicate InHash(t: T, k: Key) { exists i :: NodeHas(t, i, k) }

  /** The value stored under k. */
  ghost function Lookup(t: T, k: Key): Val {
    if InRange(k, |t.arr|) then t.arr[k.i - 1]
    else if IsKey(k) && InHash(t, k) then (var i :| NodeHas(t, i, k); t.node[i].val)
    else VNil
  }

  lemma LookupNode(t: T, k: Key, i: int)
    requires Inv(t) && NodeHas(t, i, k) && IsKey(k)
    ensures Lookup(t, k) == t.node[i].val && !InRange(k, |t.arr|)
  {
    assert NodeOk(t, i);
    assert InHash(t, k);
    var j :| NodeHas(t, j, k) && Lookup(t, k) == t.node[j].val;
    assert PairOk(t, i, j);
  }

}
