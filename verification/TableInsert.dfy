/** The three ways newkey puts a key into a node (ltable.c: newkey), as changes of the table value. */
module TableInsert {
  import opened TableModel

  /** The key goes to its main position, whose value is nil; a free node starts a chain of its own. */
  function PutMain(t: T, m: int, k: Key): T
    requires 0 <= m < |t.node| == |t.cid| == |t.rank|
  {
    if t.node[m].key.KNil? then
      t.(node := t.node[m := t.node[m].(key := k)], cid := t.cid[m := t.newcid], rank := t.rank[m := 1], newcid := t.newcid + 1)
    else t.(node := t.node[m := t.node[m].(key := k)])
  }

  /** The key goes to the free node n, chained behind its main position m. */
  function PutFree(t: T, m: int, n: int, k: Key): T
    requires 0 <= m < |t.node| == |t.cid| == |t.rank| && 0 <= n < |t.node| && m != n && t.rank[m] > 0
  {
    t.(node := t.node[n := Node(k, VNil, t.node[m].next)][m := t.node[m].(next := n)],
       cid := t.cid[n := t.cid[m]],
       rank := Doubled(t.rank)[n := 2 * t.rank[m] - 1])
  }

  function Doubled(s: seq<nat>): (r: seq<nat>)
    ensures |r| == |s| && forall i :: 0 <= i < |s| ==> r[i] == 2 * s[i]
  {
    seq(|s|, i requires 0 <= i < |s| => 2 * s[i])
  }

  /** The colliding node moves from m to the free node n, behind its predecessor p; the key takes m. */
  function PutMoved(t: T, m: int, p: int, n: int, k: Key): T
    requires 0 <= m < |t.node| == |t.cid| == |t.rank| && 0 <= n < |t.node| && 0 <= p < |t.node| && m != n && p != m
    requires p != n
  {
    t.(node := t.node[p := t.node[p].(next := n)][n := t.node[m]][m := Node(k, VNil, NONE)],
       cid := t.cid[n := t.cid[m]][m := t.newcid],
       rank := t.rank[n := t.rank[m]],
       newcid := t.newcid + 1)
  }

  /** The new key is nowhere yet. */
  ghost predicate NewKey(t: T, k: Key) { IsKey(k) && !InRange(k, |t.arr|) && !InHash(t, k) }

  // ----- in the main position -----

  lemma MainNode(t: T, k: Key, i: int)
    requires Inv(t) && NewKey(t, k) && 0 <= i < |t.node| && t.node[MainPos(t, k)].val.VNil?
    ensures var m := MainPos(t, k); 0 <= m < |t.node| && NodeOk(PutMain(t, m, k), i)
  {
    assert NodeOk(t, i) && NodeOk(t, MainPos(t, k));
  }

  lemma MainHome(t: T, k: Key, i: int)
    requires Inv(t) && NewKey(t, k) && 0 <= i < |t.node|
    ensures var m := MainPos(t, k); 0 <= m < |t.node| && HomeOk(PutMain(t, m, k), i)
  {
    var m := MainPos(t, k);
    var t' := PutMain(t, m, k);
    assert HomeOk(t, i) && HomeOk(t, m);
    assert MainPos(t', k) == m;
    if i != m && Keyed(t, i) {
      var h := MainPos(t, t.node[i].key);
      assert MainPos(t', t'.node[i].key) == h;
      assert Keyed(t, h) && Keyed(t', h);
    }
  }

  lemma MainPair(t: T, k: Key, i: int, j: int)
    requires Inv(t) && NewKey(t, k) && 0 <= i < |t.node| && 0 <= j < |t.node|
    ensures var m := MainPos(t, k); 0 <= m < |t.node| && PairOk(PutMain(t, m, k), i, j)
  {
    var m := MainPos(t, k);
    assert PairOk(t, i, j) && NodeOk(t, i) && NodeOk(t, j);
    assert !NodeHas(t, i, k) && !NodeHas(t, j, k);
  }

  lemma PutMainInv(t: T, k: Key)
    requires Inv(t) && NewKey(t, k) && !t.dummy && t.node[MainPos(t, k)].val.VNil?
    ensures Inv(PutMain(t, MainPos(t, k), k))
  {
    var t' := PutMain(t, MainPos(t, k), k);
    forall i | 0 <= i < |t'.node| ensures NodeOk(t', i) && HomeOk(t', i) { MainNode(t, k, i); MainHome(t, k, i); }
    forall i, j | 0 <= i < |t'.node| && 0 <= j < |t'.node| ensures PairOk(t', i, j) { MainPair(t, k, i, j); }
    forall i | 0 <= i < |t'.node| && t'.lastfree <= i ensures Keyed(t', i) { assert Keyed(t, i); }
  }

  // ----- in a free position, behind the main position -----

  lemma FreeNode(t: T, n: int, k: Key, i: int)
    requires Inv(t) && NewKey(t, k) && 0 <= n < |t.node| && !Keyed(t, n) && 0 <= i < |t.node|
    requires var m := MainPos(t, k); 0 <= m < |t.node| && Keyed(t, m) && t.rank[m] > 0
    ensures NodeOk(PutFree(t, MainPos(t, k), n, k), i)
  {
    var m := MainPos(t, k);
    assert NodeOk(t, i) && NodeOk(t, m) && NodeOk(t, n);
  }

  lemma FreeHome(t: T, n: int, k: Key, i: int)
    requires Inv(t) && NewKey(t, k) && 0 <= n < |t.node| && !Keyed(t, n) && 0 <= i < |t.node|
    requires var m := MainPos(t, k); 0 <= m < |t.node| && Keyed(t, m) && t.rank[m] > 0 && MainPos(t, t.node[m].key) == m
    ensures HomeOk(PutFree(t, MainPos(t, k), n, k), i)
  {
    var m := MainPos(t, k);
    var t' := PutFree(t, m, n, k);
    assert HomeOk(t, i);
    assert MainPos(t', k) == m && MainPos(t', t'.node[m].key) == m;
    if i != n && Keyed(t, i) {
      var h := MainPos(t, t.node[i].key);
      assert MainPos(t', t'.node[i].key) == h && h != n;
    }
  }

  lemma FreePair(t: T, n: int, k: Key, i: int, j: int)
    requires Inv(t) && NewKey(t, k) && 0 <= n < |t.node| && !Keyed(t, n) && 0 <= i < |t.node| && 0 <= j < |t.node|
    requires var m := MainPos(t, k); 0 <= m < |t.node| && Keyed(t, m) && t.rank[m] > 0
    ensures PairOk(PutFree(t, MainPos(t, k), n, k), i, j)
  {
    var m := MainPos(t, k);
    assert PairOk(t, i, j) && PairOk(t, m, j) && PairOk(t, i, m) && NodeOk(t, i) && NodeOk(t, m);
    assert !NodeHas(t, i, k) && !NodeHas(t, j, k);
  }

  lemma PutFreeInv(t: T, n: int, k: Key)
    requires Inv(t) && NewKey(t, k) && !t.dummy && 0 <= n < |t.node| && !Keyed(t, n)
    requires var m := MainPos(t, k); 0 <= m < |t.node| && Keyed(t, m) && t.rank[m] > 0 && MainPos(t, t.node[m].key) == m
    ensures Inv(PutFree(t, MainPos(t, k), n, k))
  {
    var t' := PutFree(t, MainPos(t, k), n, k);
    forall i | 0 <= i < |t'.node| ensures NodeOk(t', i) && HomeOk(t', i) { FreeNode(t, n, k, i); FreeHome(t, n, k, i); }
    forall i, j | 0 <= i < |t'.node| && 0 <= j < |t'.node| ensures PairOk(t', i, j) { FreePair(t, n, k, i, j); }
    forall i | 0 <= i < |t'.node| && t'.lastfree <= i ensures Keyed(t', i) { assert Keyed(t, i); }
  }

  // ----- moving the colliding node -----

  /** p leads to m, which holds a key that belongs elsewhere. */
  ghost predicate Displaced(t: T, m: int, p: int) {
    && 0 <= m < |t.node| && 0 <= p < |t.node| && Keyed(t, m) && Keyed(t, p) && t.node[p].next == m
    && MainPos(t, t.node[m].key) != m
  }

  lemma MovedNode(t: T, p: int, n: int, k: Key, i: int)
    requires Inv(t) && NewKey(t, k) && 0 <= n < |t.node| && !Keyed(t, n) && Displaced(t, MainPos(t, k), p)
    requires p != MainPos(t, k) && 0 <= i < |t.node|
    ensures NodeOk(PutMoved(t, MainPos(t, k), p, n, k), i)
  {
    var m := MainPos(t, k);
    assert NodeOk(t, i) && NodeOk(t, m) && NodeOk(t, n) && NodeOk(t, p);
    if t.node[i].next == m { InDegree(t, i, p); }
  }

  lemma MovedHome(t: T, p: int, n: int, k: Key, i: int)
    requires Inv(t) && NewKey(t, k) && 0 <= n < |t.node| && !Keyed(t, n) && Displaced(t, MainPos(t, k), p)
    requires p != MainPos(t, k) && 0 <= i < |t.node|
    ensures HomeOk(PutMoved(t, MainPos(t, k), p, n, k), i)
  {
    var m := MainPos(t, k);
    var t' := PutMoved(t, m, p, n, k);
    assert HomeOk(t, i) && HomeOk(t, m);
    assert MainPos(t', k) == m;
    if i == n {
      var h := MainPos(t, t.node[m].key);
      assert MainPos(t', t'.node[n].key) == h;
      assert h != m && h != n;
    } else if i != m && Keyed(t, i) {
      var h := MainPos(t, t.node[i].key);
      assert MainPos(t', t'.node[i].key) == h;
      assert h != m && h != n;
    }
  }

  ghost predicate CanMove(t: T, p: int, n: int, k: Key) {
    && Inv(t) && NewKey(t, k) && 0 <= n < |t.node| && !Keyed(t, n) && Displaced(t, MainPos(t, k), p)
    && p != MainPos(t, k)
  }

  lemma MovedPair(t: T, p: int, n: int, k: Key, i: int, j: int)
    requires CanMove(t, p, n, k) && 0 <= i < |t.node| && 0 <= j < |t.node|
    ensures PairOk(PutMoved(t, MainPos(t, k), p, n, k), i, j)
  {
    var m := MainPos(t, k);
    if i == n {
      if j != n { MovedFirst(t, p, n, k, j); }
    } else if j == n {
      MovedSecond(t, p, n, k, i);
    } else if i == m || j == m {
      assert !NodeHas(t, i, k) && !NodeHas(t, j, k) && NodeOk(t, i) && NodeOk(t, j);
    } else {
      MovedOthers(t, p, n, k, i, j);
    }
  }

  lemma MovedFirst(t: T, p: int, n: int, k: Key, j: int)
    requires CanMove(t, p, n, k) && 0 <= j < |t.node| && j != n
    ensures PairOk(PutMoved(t, MainPos(t, k), p, n, k), n, j)
  {
    var m := MainPos(t, k);
    assert NodeOk(t, j) && NodeOk(t, m) && PairOk(t, m, j) && !NodeHas(t, m, k);
  }

  lemma MovedSecond(t: T, p: int, n: int, k: Key, i: int)
    requires CanMove(t, p, n, k) && 0 <= i < |t.node| && i != n
    ensures PairOk(PutMoved(t, MainPos(t, k), p, n, k), i, n)
  {
    var m := MainPos(t, k);
    assert NodeOk(t, i) && NodeOk(t, m) && PairOk(t, i, m) && PairOk(t, p, m) && !NodeHas(t, m, k);
  }

  lemma MovedOthers(t: T, p: int, n: int, k: Key, i: int, j: int)
    requires CanMove(t, p, n, k) && 0 <= i < |t.node| && 0 <= j < |t.node|
    requires i != n && j != n && i != MainPos(t, k) && j != MainPos(t, k)
    ensures PairOk(PutMoved(t, MainPos(t, k), p, n, k), i, j)
  {
    var m := MainPos(t, k);
    assert NodeOk(t, i) && NodeOk(t, j) && PairOk(t, i, j) && PairOk(t, m, j);
    if t.node[i].next == m { InDegree(t, i, p); }
  }

  lemma PutMovedInv(t: T, p: int, n: int, k: Key)
    requires Inv(t) && NewKey(t, k) && !t.dummy && 0 <= n < |t.node| && !Keyed(t, n)
    requires Displaced(t, MainPos(t, k), p) && p != MainPos(t, k)
    ensures Inv(PutMoved(t, MainPos(t, k), p, n, k))
  {
    var t' := PutMoved(t, MainPos(t, k), p, n, k);
    forall i | 0 <= i < |t'.node|
      ensures NodeOk(t', i) && HomeOk(t', i)
    {
      MovedNode(t, p, n, k, i); MovedHome(t, p, n, k, i);
    }
    forall i, j | 0 <= i < |t'.node| && 0 <= j < |t'.node| ensures PairOk(t', i, j) { MovedPair(t, p, n, k, i, j); }
    forall i | 0 <= i < |t'.node| && t'.lastfree <= i ensures Keyed(t', i) { assert Keyed(t, i); }
  }

  // ----- none of the three changes the map -----

  /** Every non-nil entry of t has its counterpart in t', with the same key and value. */
  ghost predicate Carries(t: T, t': T) {
    forall i :: 0 <= i < |t.node| && !t.node[i].val.VNil? ==>
      exists j :: 0 <= j < |t'.node| && t'.node[j].key == t.node[i].key && t'.node[j].val == t.node[i].val
  }

  lemma SameLookup(t: T, t': T, k: Key)
    requires Inv(t) && Inv(t') && t'.arr == t.arr && Carries(t, t') && Carries(t', t)
    ensures Lookup(t', k) == Lookup(t, k)
  {
    OneLookup(t, t', k);
    OneLookup(t', t, k);
  }

  lemma OneLookup(t: T, t': T, k: Key)
    requires Inv(t) && Inv(t') && t'.arr == t.arr && Carries(t, t')
    ensures !Lookup(t, k).VNil? ==> Lookup(t', k) == Lookup(t, k)
  {
    if !InRange(k, |t.arr|) && IsKey(k) && InHash(t, k) {
      var i :| NodeHas(t, i, k);
      LookupNode(t, k, i);
      if !t.node[i].val.VNil? {
        var j :| 0 <= j < |t'.node| && t'.node[j].key == k && t'.node[j].val == t.node[i].val;
        assert NodeHas(t', j, k);
        LookupNode(t', k, j);
      }
    }
  }

  /** i in t and j in t' hold the same entry. */
  predicate SameEntry(t: T, i: int, t': T, j: int) {
    0 <= i < |t.node| && 0 <= j < |t'.node| && t'.node[j].key == t.node[i].key && t'.node[j].val == t.node[i].val
  }

  lemma MainCarries(t: T, k: Key)
    requires Inv(t) && |t.node| > 0 && t.node[MainPos(t, k)].val.VNil?
    ensures Carries(t, PutMain(t, MainPos(t, k), k)) && Carries(PutMain(t, MainPos(t, k), k), t)
  {
    var t' := PutMain(t, MainPos(t, k), k);
    assert forall i :: 0 <= i < |t.node| && !t.node[i].val.VNil? ==> SameEntry(t, i, t', i);
    assert forall i :: 0 <= i < |t.node| && !t'.node[i].val.VNil? ==> SameEntry(t', i, t, i);
  }

  lemma FreeCarries(t: T, m: int, n: int, k: Key)
    requires Inv(t) && 0 <= n < |t.node| && !Keyed(t, n) && 0 <= m < |t.node| && m != n && t.rank[m] > 0
    ensures Carries(t, PutFree(t, m, n, k)) && Carries(PutFree(t, m, n, k), t)
  {
    var t' := PutFree(t, m, n, k);
    assert NodeOk(t, n);
    assert forall i :: 0 <= i < |t.node| && !t.node[i].val.VNil? ==> SameEntry(t, i, t', i);
    assert forall i :: 0 <= i < |t.node| && !t'.node[i].val.VNil? ==> SameEntry(t', i, t, i);
  }

  lemma MovedCarries(t: T, p: int, n: int, k: Key)
    requires CanMove(t, p, n, k)
    ensures Carries(t, PutMoved(t, MainPos(t, k), p, n, k)) && Carries(PutMoved(t, MainPos(t, k), p, n, k), t)
  {
    var m := MainPos(t, k);
    var t' := PutMoved(t, m, p, n, k);
    assert NodeOk(t, n);
    assert forall i :: 0 <= i < |t.node| && !t.node[i].val.VNil? ==> SameEntry(t, i, t', if i == m then n else i);
    assert forall i :: 0 <= i < |t.node| && !t'.node[i].val.VNil? ==> SameEntry(t', i, t, if i == n then m else i);
  }
}
