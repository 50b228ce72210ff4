/** Counting the keys of a table before a rehash (ltable.c: countint, numusearray, numusehash). */
module TableRehash {
  import opened TableModel
  import opened TableInsert
  import opened TableCount
  import opened TableResize

  /** The largest array part is 2^MAXBITS. */
  const MAXBITS: nat := 26

  function Least(a: int, b: int): int { if a < b then a else b }

  /** The int key countint counts. */
  function IntOf(k: Key): set<int> { if k.KInt? && 0 < k.i <= Pow2(MAXBITS) then {k.i} else {} }

  predicate Filled(arr: seq<Val>, i: int) { 1 <= i <= |arr| && !arr[i - 1].VNil? }

  /** The indices among the first n that hold a value. */
  function ArrayInts(arr: seq<Val>, n: nat): set<int> { set i | 1 <= i <= n && Filled(arr, i) }

  lemma {:induction false} CeilLog2Max(k: int, b: nat)
    requires 1 <= k <= Pow2(b)
    ensures CeilLog2(k) <= b
    decreases b
  {
    if k > 1 { CeilLog2Max((k + 1) / 2, b - 1); }
  }

  predicate InSlice(x: int, i: nat) { (if i == 0 then 0 else Pow2(i - 1)) < x <= Pow2(i) }

  /** ceillog2(x) is the one slice x is in. */
  lemma SliceOf(x: int, i: nat)
    requires x >= 1
    ensures InSlice(x, i) <==> i == CeilLog2(x)
  {
    hide CeilLog2;
    var c := CeilLog2(x);
    if i < c { Pow2Mono(i, c - 1); } else if c < i { Pow2Mono(c, i - 1); }
    assert c == 0 ==> Pow2(c) == 1;
  }

  /** Adding x counts in the slice ceillog2(x) and in no other. */
  lemma CountOne(S: set<int>, x: int, i: nat)
    requires x >= 1 && x !in S
    ensures Slice(S + {x}, i) == Slice(S, i) + if i == CeilLog2(x) then 1 else 0
  {
    hide CeilLog2, Pow2;
    SliceOf(x, i);
    var lo := if i == 0 then 0 else Pow2(i - 1);
    if InSlice(x, i) {
      assert InInterval(S + {x}, lo, Pow2(i)) == InInterval(S, lo, Pow2(i)) + {x};
    } else {
      assert InInterval(S + {x}, lo, Pow2(i)) == InInterval(S, lo, Pow2(i));
    }
  }

  lemma EmptySlices(i: nat)
    ensures Slice({}, i) == 0
  {
    assert InInterval({}, if i == 0 then 0 else Pow2(i - 1), Pow2(i)) == {};
  }

  /** One more array element. */
  lemma CountArray(arr: seq<Val>, i: int, lg: nat)
    requires 1 <= i <= |arr| && InSlice(i, lg)
    ensures var n := if arr[i - 1].VNil? then 0 else 1;
      && |ArrayInts(arr, i)| == |ArrayInts(arr, i - 1)| + n
      && forall j: nat :: Slice(ArrayInts(arr, i), j) == Slice(ArrayInts(arr, i - 1), j) + if j == lg then n else 0
  {
    hide CeilLog2, Pow2, Slice, InSlice;
    var S := ArrayInts(arr, i - 1);
    SliceOf(i, lg);
    if arr[i - 1].VNil? {
      assert ArrayInts(arr, i) == S;
    } else {
      assert ArrayInts(arr, i) == S + {i};
      forall j: nat ensures Slice(ArrayInts(arr, i), j) == Slice(S, j) + if j == lg then 1 else 0 { CountOne(S, i, j); }
    }
  }

  // ----- live keys -----

  /** The keys of the nodes i.. that hold a value. */
  function LiveFrom(t: T, i: nat): set<Key>
    requires i <= |t.node|
  {
    set j | i <= j < |t.node| && !t.node[j].val.VNil? :: t.node[j].key
  }

  function LiveArray(arr: seq<Val>, lo: nat): set<Key>
    requires lo <= |arr|
  {
    set i | lo <= i < |arr| && !arr[i].VNil? :: KInt(i + 1)
  }

  function LiveKeys(t: T): set<Key> { LiveArray(t.arr, 0) + LiveFrom(t, 0) }

  /** The keys that have a value are the live ones. */
  lemma LiveMeans(t: T, k: Key)
    requires Inv(t)
    ensures k in LiveKeys(t) <==> !Lookup(t, k).VNil?
  {
    forall j | 0 <= j < |t.node| && t.node[j].key == k && IsKey(k)
      ensures Lookup(t, k) == t.node[j].val && !InRange(k, |t.arr|)
    {
      assert NodeHas(t, j, k);
      LookupNode(t, k, j);
    }
    forall j | 0 <= j < |t.node| && !t.node[j].val.VNil? ensures IsKey(t.node[j].key) { assert NodeOk(t, j); }
    if InRange(k, |t.arr|) {
      assert k == KInt(k.i - 1 + 1);
    }
  }

  /** The int keys countint counts among the live nodes i.. */
  function HashInts(t: T, i: nat): set<int>
    requires i <= |t.node|
  {
    set j, x | i <= j < |t.node| && !t.node[j].val.VNil? && x in IntOf(t.node[j].key) :: x
  }

  /** One more node. */
  lemma CountNode(t: T, i: nat)
    requires Inv(t) && i < |t.node|
    ensures t.node[i].val.VNil? ==> HashInts(t, i) == HashInts(t, i + 1) && LiveFrom(t, i) == LiveFrom(t, i + 1)
    ensures !t.node[i].val.VNil? ==>
      && HashInts(t, i) == HashInts(t, i + 1) + IntOf(t.node[i].key) && IntOf(t.node[i].key) !! HashInts(t, i + 1)
      && LiveFrom(t, i) == LiveFrom(t, i + 1) + {t.node[i].key} && t.node[i].key !in LiveFrom(t, i + 1)
      && (t.node[i].key.KInt? ==> t.node[i].key.i !in ArrayInts(t.arr, |t.arr|) + HashInts(t, i + 1))
  {
    var k := t.node[i].key;
    if !t.node[i].val.VNil? {
      assert NodeOk(t, i);
      forall j | i < j < |t.node| && !t.node[j].val.VNil?
        ensures t.node[j].key != k
      {
        assert PairOk(t, i, j) && NodeOk(t, j);
      }
      assert LiveFrom(t, i) == LiveFrom(t, i + 1) + {k};
      assert HashInts(t, i) == HashInts(t, i + 1) + IntOf(k);
    } else {
      assert LiveFrom(t, i) == LiveFrom(t, i + 1);
      assert HashInts(t, i) == HashInts(t, i + 1);
    }
  }

  // ----- re-insertion into the resized table -----

  /** The live keys that an array part of size n leaves to the hash part. */
  function Outside(t: T, n: nat): set<Key> { set k | k in LiveKeys(t) && !InRange(k, n) }

  /** t is the resized t0 with the keys in `done` put back. */
  ghost predicate Partial(t0: T, t: T, n: nat, done: set<Key>) {
    && Inv(t) && |t.arr| == n
    && (forall q :: Lookup(t, q) == if q in done then Lookup(t0, q) else VNil)
    && forall i :: Keyed(t, i) ==> t.node[i].key in Outside(t0, n)
  }

  /** The new hash part is big enough for all keys it must hold. */
  predicate BigEnough(t0: T, t: T, n: nat) { |Outside(t0, n)| > 0 ==> !t.dummy && |Outside(t0, n)| <= |t.node| }

  /** A live key always finds room. */
  lemma PartialRoom(t0: T, t: T, n: nat, done: set<Key>, k: Key)
    requires Partial(t0, t, n, done) && BigEnough(t0, t, n) && k in LiveKeys(t0)
    ensures HasRoom(t, k)
  {
    if !InRange(k, n) && !InHash(t, k) {
      var S := Outside(t0, n) - {k};
      assert k in Outside(t0, n);
      assert Outside(t0, n) == S + {k};
      forall i | Keyed(t, i) ensures t.node[i].key in S { assert NodeHas(t, i, t.node[i].key); }
      RoomLeft(t, S);
    }
  }

  /** So does one key more, if there is a place for it. */
  lemma ExtraRoom(t0: T, t: T, n: nat, done: set<Key>, k: Key)
    requires Partial(t0, t, n, done) && (InRange(k, n) || (!t.dummy && |Outside(t0, n)| < |t.node|))
    ensures HasRoom(t, k)
  {
    if !InRange(k, n) { RoomLeft(t, Outside(t0, n)); }
  }

  /** One key is put back: a slot for it was made, then its value stored. */
  lemma PutBack(t0: T, t: T, t1: T, t2: T, n: nat, done: set<Key>, k: Key)
    requires Partial(t0, t, n, done) && k in LiveKeys(t0)
    requires SameMap(t, t1) && Grown(t, t1, k) && Inv(t1) && Inv(t2) && |t2.arr| == n && |t2.node| == |t1.node|
    requires forall q :: Lookup(t2, q) == if q == k then Lookup(t0, k) else Lookup(t1, q)
    requires forall i :: 0 <= i < |t2.node| ==> t2.node[i].key == t1.node[i].key
    ensures Partial(t0, t2, n, done + {k})
  {
    forall i | Keyed(t2, i) ensures t2.node[i].key in Outside(t0, n) {
      assert NodeOk(t2, i) && Keyed(t1, i);
      if t1.node[i].key != k {
        var j :| NodeHas(t, j, t1.node[i].key);
        assert Keyed(t, j);
      }
    }
  }

  /** All live keys are back: the map is the old one. */
  lemma AllBack(t0: T, t: T, n: nat, done: set<Key>)
    requires Inv(t0) && Partial(t0, t, n, done) && LiveKeys(t0) <= done
    ensures SameMap(t0, t)
  {
    forall q ensures Lookup(t, q) == Lookup(t0, q) { LiveMeans(t0, q); }
  }

  /** The resized table before the re-insertion: what the array part kept is there. */
  lemma StartPartial(t0: T, t: T, n: nat)
    requires Inv(t0) && Blank(t)
    requires |t.arr| == n && forall i :: 0 <= i < n ==> t.arr[i] == if i < |t0.arr| then t0.arr[i] else VNil
    ensures Partial(t0, t, n, LiveArray(t0.arr, 0) - LiveArray(t0.arr, Least(n, |t0.arr|)))
  {
    var done := LiveArray(t0.arr, 0) - LiveArray(t0.arr, Least(n, |t0.arr|));
    forall q ensures Lookup(t, q) == if q in done then Lookup(t0, q) else VNil {
      if InRange(q, n) {
        assert q == KInt(q.i - 1 + 1);
        assert Lookup(t, q) == t.arr[q.i - 1];
      } else {
        assert !InHash(t, q) || !IsKey(q);
      }
    }
  }

  /** One more element of the vanishing slice. */
  lemma ArrayStep(arr: seq<Val>, i: nat)
    requires i < |arr|
    ensures var before := LiveArray(arr, 0) - LiveArray(arr, i); var after := LiveArray(arr, 0) - LiveArray(arr, i + 1);
      if arr[i].VNil? then after == before else after == before + {KInt(i + 1)} && KInt(i + 1) in LiveArray(arr, 0)
  {
    assert LiveArray(arr, i) == LiveArray(arr, i + 1) + if arr[i].VNil? then {} else {KInt(i + 1)};
    assert LiveArray(arr, i + 1) <= LiveArray(arr, i) <= LiveArray(arr, 0);
  }

  // ----- the new sizes -----

  /** The indices in use: the positive int keys up to 2^MAXBITS that have a value. */
  function IndexKeys(t: T): set<int> { ArrayInts(t.arr, |t.arr|) + HashInts(t, 0) }

  lemma {:induction false} IntKeysSize(A: set<Key>)
    requires forall k :: k in A ==> k.KInt?
    ensures |set k | k in A :: k.i| == |A|
  {
    if A != {} {
      var k :| k in A;
      IntKeysSize(A - {k});
      assert (set q | q in A :: q.i) == (set q | q in A - {k} :: q.i) + {k.i};
    }
  }

  lemma {:induction false} LiveArraySize(arr: seq<Val>)
    ensures |LiveArray(arr, 0)| == |ArrayInts(arr, |arr|)|
  {
    IntKeysSize(LiveArray(arr, 0));
    var ints := set k | k in LiveArray(arr, 0) :: k.i;
    forall i | i in ArrayInts(arr, |arr|) ensures i in ints { assert KInt(i - 1 + 1) in LiveArray(arr, 0); }
    assert ints == ArrayInts(arr, |arr|);
  }

  lemma LiveSize(t: T)
    requires Inv(t)
    ensures |LiveKeys(t)| == |ArrayInts(t.arr, |t.arr|)| + |LiveFrom(t, 0)|
  {
    hide Pow2;
    LiveArraySize(t.arr);
    forall k | k in LiveFrom(t, 0) ensures k !in LiveArray(t.arr, 0) {
      var j :| 0 <= j < |t.node| && !t.node[j].val.VNil? && t.node[j].key == k;
      assert NodeOk(t, j);
    }
    assert LiveArray(t.arr, 0) !! LiveFrom(t, 0);
  }

  /** The keys an array part of size n takes are counted by Among, the others are Outside. */
  lemma InsideSize(t: T, n: nat)
    requires Inv(t) && |t.arr| <= Pow2(MAXBITS) && n <= Pow2(MAXBITS)
    ensures |LiveKeys(t)| == |ArrayInts(t.arr, |t.arr|)| + |LiveFrom(t, 0)|
    ensures |LiveKeys(t)| == Among(IndexKeys(t), n) + |Outside(t, n)|
  {
    hide Pow2, Inv, LiveArray, LiveFrom, IndexKeys, InInterval, ArrayInts;
    LiveSize(t);
    var inside := set k | k in LiveKeys(t) && InRange(k, n);
    assert LiveKeys(t) == inside + Outside(t, n) && inside !! Outside(t, n);
    IntKeysSize(inside);
    InsideInts(t, n);
    assert (set k | k in inside :: k.i) == (set k | k in LiveKeys(t) && InRange(k, n) :: k.i);
  }

  lemma InsideInts(t: T, n: nat)
    requires |t.arr| <= Pow2(MAXBITS) && n <= Pow2(MAXBITS)
    ensures (set k | k in LiveKeys(t) && InRange(k, n) :: k.i) == InInterval(IndexKeys(t), 0, n)
  {
    hide Pow2;
    var ints := set k | k in LiveKeys(t) && InRange(k, n) :: k.i;
    forall x | x in InInterval(IndexKeys(t), 0, n) ensures x in ints {
      if x in ArrayInts(t.arr, |t.arr|) {
        assert KInt(x - 1 + 1) in LiveArray(t.arr, 0);
      } else {
        var j :| 0 <= j < |t.node| && !t.node[j].val.VNil? && x in IntOf(t.node[j].key);
        assert t.node[j].key in LiveFrom(t, 0);
      }
      assert KInt(x) in LiveKeys(t);
    }
    forall x | x in ints ensures x in InInterval(IndexKeys(t), 0, n) {
      var k :| k in LiveKeys(t) && InRange(k, n) && k.i == x;
      if k in LiveArray(t.arr, 0) {
        assert Filled(t.arr, x);
      } else {
        var j :| 0 <= j < |t.node| && !t.node[j].val.VNil? && t.node[j].key == k;
        assert x in IntOf(t.node[j].key);
      }
    }
  }

  /** The new key counts as one more. */
  lemma WithKey(t: T, ek: Key, n: nat)
    requires Inv(t) && |t.arr| <= Pow2(MAXBITS) && n <= Pow2(MAXBITS) && NewKey(t, ek)
    ensures IntOf(ek) !! IndexKeys(t)
    ensures |IndexKeys(t) + IntOf(ek)| == |IndexKeys(t)| + |IntOf(ek)|
    ensures Among(IndexKeys(t) + IntOf(ek), n) == Among(IndexKeys(t), n) + if InRange(ek, n) then 1 else 0
    ensures |Outside(t, n)| + (if InRange(ek, n) then 0 else 1) == |LiveKeys(t)| + 1 - Among(IndexKeys(t) + IntOf(ek), n)
  {
    hide Pow2, LiveKeys, HashInts;
    InsideSize(t, n);
    NotIndexed(t, ek);
    var S := IndexKeys(t);
    if InRange(ek, n) {
      assert InInterval(S + IntOf(ek), 0, n) == InInterval(S, 0, n) + {ek.i};
    } else {
      assert InInterval(S + IntOf(ek), 0, n) == InInterval(S, 0, n);
    }
  }

  lemma NotIndexed(t: T, ek: Key)
    requires NewKey(t, ek)
    ensures IntOf(ek) !! IndexKeys(t) && (ek.KInt? ==> ek.i !in IndexKeys(t))
  {
    hide Pow2;
    if ek.KInt? {
      forall j | 0 <= j < |t.node| ensures ek.i !in IntOf(t.node[j].key) { assert !NodeHas(t, j, ek); }
    }
  }

  /** Where computesizes stops, no greater power is dense. */
  lemma NoneBeyond(S: set<int>, i: nat, j: nat)
    requires i <= j && 2 * |S| <= Pow2(i)
    ensures !Dense(S, Pow2(j))
  {
    Pow2Mono(i, j);
    AmongMono(S, Pow2(j), Pow2(j));
  }

  /** n is the best size among the powers below 2^i. */
  ghost predicate BestBelow(S: set<int>, n: int, i: nat) {
    && (n == 0 || exists j: nat :: j < i && n == Pow2(j) && Dense(S, n))
    && forall j: nat :: j < i && Dense(S, Pow2(j)) ==> Pow2(j) <= n
  }

  lemma BestStep(S: set<int>, n: int, i: nat)
    requires BestBelow(S, n, i)
    ensures BestBelow(S, if Dense(S, Pow2(i)) then Pow2(i) else n, i + 1)
  {
    hide Pow2, Dense;
    forall j: nat | j < i ensures Pow2(j) <= Pow2(i) { Pow2Mono(j, i); }
    if !Dense(S, Pow2(i)) && n != 0 {
      var j: nat :| j < i && n == Pow2(j) && Dense(S, n);
      assert j < i + 1;
    }
  }

  lemma BestDone(S: set<int>, n: int, i: nat)
    requires BestBelow(S, n, i) && 2 * |S| <= Pow2(i)
    ensures BestSize(S, n)
  {
    forall j: nat | i <= j ensures !Dense(S, Pow2(j)) { NoneBeyond(S, i, j); }
  }

  /** How many keys the hash part must hold when ek joins and the array part has size n. */
  function HashKeys(t: T, ek: Key, n: nat): nat { |Outside(t, n)| + if InRange(ek, n) then 0 else 1 }

  /** A fresh, empty hash part. */
  ghost predicate Blank(t: T) {
    && |t.node| == |t.cid| == |t.rank| == Pow2(t.lsize)
    && (forall i :: 0 <= i < |t.node| ==> t.node[i] == Node(KNil, VNil, NONE))
    && if t.dummy then t.lsize == 0 && t.lastfree <= 0 else t.lastfree == |t.node|
  }

  lemma LiveNode(t: T, i: nat)
    requires Inv(t) && i < |t.node| && !t.node[i].val.VNil?
    ensures t.node[i].key in LiveKeys(t) && Lookup(t, t.node[i].key) == t.node[i].val
  {
    assert NodeOk(t, i) && NodeHas(t, i, t.node[i].key);
    LookupNode(t, t.node[i].key, i);
  }

  lemma LiveIsKey(t: T, k: Key)
    requires Inv(t) && k in LiveKeys(t)
    ensures IsKey(k)
  {
    if k in LiveFrom(t, 0) {
      var j :| 0 <= j < |t.node| && !t.node[j].val.VNil? && t.node[j].key == k;
      assert NodeOk(t, j);
    }
  }

  lemma IndexKeysSize(t: T)
    requires Inv(t) && |t.arr| <= Pow2(MAXBITS)
    ensures |IndexKeys(t)| == |ArrayInts(t.arr, |t.arr|)| + |HashInts(t, 0)|
    ensures forall x :: x in IndexKeys(t) ==> 1 <= x <= Pow2(MAXBITS)
  {
    hide Pow2;
    forall x | x in HashInts(t, 0) ensures x !in ArrayInts(t.arr, |t.arr|) && 1 <= x <= Pow2(MAXBITS) {
      var j :| 0 <= j < |t.node| && !t.node[j].val.VNil? && x in IntOf(t.node[j].key);
      assert NodeOk(t, j);
    }
    assert ArrayInts(t.arr, |t.arr|) !! HashInts(t, 0);
  }

  lemma NoneFrom(t: T)
    ensures HashInts(t, |t.node|) == {} && LiveFrom(t, |t.node|) == {}
  {
  }

  lemma BestStart(S: set<int>)
    ensures BestBelow(S, 0, 0) && Among(S, 0) == 0 && Pow2(0) == 1 && Pow2(MAXBITS) >= 0
  {
    assert InInterval(S, 0, 0) == {};
  }

  lemma PowNext(i: nat)
    ensures Pow2(i + 1) == 2 * Pow2(i)
  {
  }

  /** All keys lie below 2^i. */
  lemma AllCounted(S: set<int>, i: nat)
    ensures Among(S, Pow2(i)) == |S| ==> 2 * |S| <= Pow2(i + 1)
    ensures (forall x :: x in S ==> 1 <= x <= Pow2(i)) ==> Among(S, Pow2(i)) == |S|
  {
    IntervalSize(S, 0, Pow2(i));
    if forall x :: x in S ==> 1 <= x <= Pow2(i) { assert InInterval(S, 0, Pow2(i)) == S; }
  }

  lemma CeilLog2Big(k: nat, b: nat)
    ensures CeilLog2(k) > b ==> k > Pow2(b)
  {
    if 1 <= k <= Pow2(b) { CeilLog2Max(k, b); }
  }

  lemma LiveElem(t: T, i: nat)
    requires i < |t.arr| && !t.arr[i].VNil?
    ensures KInt(i + 1) in LiveKeys(t) && Lookup(t, KInt(i + 1)) == t.arr[i]
  {
  }

  /** Which keys are back before, between and after the two loops of resize. */
  lemma LiveParts(t: T)
    ensures LiveKeys(t) == LiveArray(t.arr, 0) + LiveFrom(t, 0)
    ensures LiveArray(t.arr, 0) - LiveArray(t.arr, |t.arr|) == LiveArray(t.arr, 0) + LiveFrom(t, |t.node|)
  {
  }

  lemma InOrBelow(t: T, ek: Key)
    requires Inv(t) && |t.arr| <= Pow2(MAXBITS)
    ensures forall x :: x in IndexKeys(t) + IntOf(ek) ==> 1 <= x <= Pow2(MAXBITS)
  {
    hide Pow2;
    IndexKeysSize(t);
  }

  /** Adding k would leave the hash part more keys than the biggest one holds. */
  ghost predicate Overflows(t: T, k: Key) {
    exists n: nat :: BestSize(IndexKeys(t) + IntOf(k), n) && n <= Pow2(MAXBITS) && HashKeys(t, k, n) > Pow2(MAXBITS)
  }

  lemma MaxSize()
    ensures Pow2(MAXBITS) == 67108864
  {
    assert Pow2(10) == 1024;
    assert Pow2(20) == 1024 * Pow2(10);
    assert Pow2(26) == 64 * Pow2(20);
  }

  /** A table of fewer than 2^26 entries has room for one more. */
  lemma SmallFits(t: T, k: Key)
    ensures |LiveKeys(t)| < 67108864 ==> !Overflows(t, k)
  {
    MaxSize();
    hide Pow2, BestSize;
    if Overflows(t, k) {
      var n: nat :| BestSize(IndexKeys(t) + IntOf(k), n) && n <= Pow2(MAXBITS) && HashKeys(t, k, n) > Pow2(MAXBITS);
      SubsetSize(Outside(t, n), LiveKeys(t));
    }
  }

  /** The indices in use are the integers from 1 to 2^26 that have a value. */
  lemma IndicesInUse(t: T, x: int)
    requires Inv(t) && |t.arr| <= 67108864
    ensures x in IndexKeys(t) <==> 1 <= x <= 67108864 && Lookup(t, KInt(x)) != VNil
  {
    MaxSize();
    hide Pow2, Lookup;
    LiveMeans(t, KInt(x));
    hide Inv;
    if x in ArrayInts(t.arr, |t.arr|) { assert KInt(x - 1 + 1) in LiveArray(t.arr, 0); }
    if x in HashInts(t, 0) {
      var j :| 0 <= j < |t.node| && !t.node[j].val.VNil? && x in IntOf(t.node[j].key);
      assert t.node[j].key in LiveFrom(t, 0);
    }
    if 1 <= x <= 67108864 && KInt(x) in LiveFrom(t, 0) {
      var j :| 0 <= j < |t.node| && !t.node[j].val.VNil? && t.node[j].key == KInt(x);
      assert x in IntOf(t.node[j].key);
    }
  }

  /** Dense: of the integers from 1 to n more than half are in S. */
  lemma DenseIs(S: set<int>, n: int)
    ensures Dense(S, n) <==> 2 * |set x | x in S && 1 <= x <= n| > n
  {
    assert (set x | x in S && 1 <= x <= n) == InInterval(S, 0, n);
  }

  lemma LowerOver(t: T, t': T, k: Key)
    requires t' == t.(lastfree := t'.lastfree)
    ensures Overflows(t', k) ==> Overflows(t, k)
  {
    hide Pow2, BestSize;
    if Overflows(t', k) {
      var n: nat :| BestSize(IndexKeys(t') + IntOf(k), n) && n <= Pow2(MAXBITS) && HashKeys(t', k, n) > Pow2(MAXBITS);
      assert LiveKeys(t') == LiveKeys(t) && Outside(t', n) == Outside(t, n);
      assert HashInts(t', 0) == HashInts(t, 0) && IndexKeys(t') == IndexKeys(t);
      assert BestSize(IndexKeys(t) + IntOf(k), n) && HashKeys(t, k, n) > Pow2(MAXBITS);
    }
  }

  // ----- a resize that is given up -----

  /** The array part has grown to n, and nothing else has happened. */
  function Widened(t: T, n: nat): T {
    if n > |t.arr| then t.(arr := t.arr + seq(n - |t.arr|, _ => VNil)) else t
  }

  /** A rehash for k that failed: the array part may have its new size, the hash part is the old one. */
  ghost predicate Abandoned(t: T, t': T, k: Key) {
    exists n: nat :: BestSize(IndexKeys(t) + IntOf(k), n) && t' == Widened(t, n).(lastfree := t'.lastfree)
  }

  /** No key of the hash part would disappear behind an array part of the new size. */
  ghost predicate NothingHidden(t: T, k: Key) {
    forall n: nat, q :: BestSize(IndexKeys(t) + IntOf(k), n) && InRange(q, n) && !InRange(q, |t.arr|) ==>
      Lookup(t, q).VNil?
  }

  lemma OneNode(t: T, i: int, j: int, q: Key)
    requires Inv(t) && NodeHas(t, i, q) && NodeHas(t, j, q) && IsKey(q)
    ensures i == j
  {
    assert |t.node| == |t.cid| == |t.rank|;
    assert PairOk(t, i, j);
  }

  lemma SameHash(t: T, t': T, q: Key)
    requires Inv(t) && t'.node == t.node && !InRange(q, |t.arr|) && !InRange(q, |t'.arr|)
    ensures Lookup(t', q) == Lookup(t, q)
  {
    hide Inv;
    assert forall i: int :: NodeHas(t, i, q) <==> NodeHas(t', i, q);
    if IsKey(q) && InHash(t, q) {
      var i :| NodeHas(t, i, q) && Lookup(t, q) == t.node[i].val;
      var j :| NodeHas(t', j, q) && Lookup(t', q) == t'.node[j].val;
      OneNode(t, i, j, q);
    }
  }

  lemma WidenedLookup(t: T, t': T, n: nat, q: Key)
    requires Inv(t) && t' == Widened(t, n).(lastfree := t'.lastfree)
    ensures Lookup(t', q) == if InRange(q, n) && !InRange(q, |t.arr|) then VNil else Lookup(t, q)
  {
    hide Inv;
    if !InRange(q, |t'.arr|) { SameHash(t, t', q); }
  }

  lemma OneBest(S: set<int>, m: nat, n: nat)
    requires BestSize(S, m) && BestSize(S, n)
    ensures m == n
  {
    hide Pow2, Dense;
    if m > 0 { var i: nat :| m == Pow2(i) && Dense(S, m); }
    if n > 0 { var i: nat :| n == Pow2(i) && Dense(S, n); }
  }

  /** After a failed rehash the table is the same map exactly when no key was hidden. */
  lemma AbandonedMap(t: T, t': T, k: Key)
    requires Inv(t) && Abandoned(t, t', k)
    ensures SameMap(t, t') <==> NothingHidden(t, k)
  {
    hide Inv, BestSize, IndexKeys, Lookup, IntOf;
    var n: nat :| BestSize(IndexKeys(t) + IntOf(k), n) && t' == Widened(t, n).(lastfree := t'.lastfree);
    forall q ensures Lookup(t', q) == if InRange(q, n) && !InRange(q, |t.arr|) then VNil else Lookup(t, q) {
      WidenedLookup(t, t', n, q);
    }
    forall m: nat | BestSize(IndexKeys(t) + IntOf(k), m) ensures m == n { OneBest(IndexKeys(t) + IntOf(k), m, n); }
  }

  /** Lowering lastfree first makes no difference. */
  lemma LowerAbandoned(t: T, t1: T, t': T, k: Key)
    requires t1 == t.(lastfree := t1.lastfree) && Abandoned(t1, t', k)
    ensures Abandoned(t, t', k)
  {
    hide BestSize;
    var n: nat :| BestSize(IndexKeys(t1) + IntOf(k), n) && t' == Widened(t1, n).(lastfree := t'.lastfree);
    assert HashInts(t1, 0) == HashInts(t, 0) && IndexKeys(t1) == IndexKeys(t);
    assert BestSize(IndexKeys(t) + IntOf(k), n);
  }

  // ----- what the invariant says of the chains -----

  /** The walk of s links from node i. */
  function Walk(t: T, i: int, s: nat): int {
    if s == 0 then i
    else var j := Walk(t, i, s - 1);
      if 0 <= j < |t.node| then t.node[j].next else NONE
  }

  /** A walk goes down in rank, so no chain has a cycle. */
  lemma {:induction false} Acyclic(t: T, i: int, s: nat)
    requires Inv(t) && 0 <= i < |t.node| && s > 0
    ensures Walk(t, i, s) == NONE || (0 <= Walk(t, i, s) < |t.node| && t.rank[Walk(t, i, s)] < t.rank[i])
    ensures Walk(t, i, s) != i
  {
    if s > 1 { Acyclic(t, i, s - 1); }
    var j := Walk(t, i, s - 1);
    assert 0 <= j < |t.node| ==> NodeOk(t, j);
  }

  /** The walk from n, in the chain of i and not behind it, comes to i. */
  lemma {:induction false} Comes(t: T, n: int, i: int) returns (s: nat)
    requires Inv(t) && Ahead(t, n, i)
    ensures Walk(t, n, s) == i
    decreases t.rank[n]
  {
    if n == i {
      return 0;
    }
    WalkOn(t, n, i);
    var r := Comes(t, t.node[n].next, i);
    WalkFrom(t, n, r);
    return r + 1;
  }

  lemma {:induction false} WalkFrom(t: T, n: int, s: nat)
    requires 0 <= n < |t.node|
    ensures Walk(t, n, s + 1) == Walk(t, t.node[n].next, s)
  {
    if s > 0 { WalkFrom(t, n, s - 1); }
  }

  /** Every key is reached from its main position;
  if it is displaced, that place is taken by a key that belongs there. */
  lemma Reached(t: T, i: int)
    requires Inv(t) && Keyed(t, i)
    ensures exists s: nat :: Walk(t, MainPos(t, t.node[i].key), s) == i
    ensures var m := MainPos(t, t.node[i].key); 0 <= m < |t.node| && Keyed(t, m) && MainPos(t, t.node[m].key) == m
  {
    HomeAhead(t, i);
    var s := Comes(t, MainPos(t, t.node[i].key), i);
    assert HomeOk(t, i);
  }

  // ----- traversal and borders -----

  /** Traversal index: array slots first, then nodes. */
  function KeyAt(t: T, i: int): Key
    requires 0 <= i < |t.arr| + |t.node|
  {
    if i < |t.arr| then KInt(i + 1) else t.node[i - |t.arr|].key
  }

  function ValAt(t: T, i: int): Val
    requires 0 <= i < |t.arr| + |t.node|
  {
    if i < |t.arr| then t.arr[i] else t.node[i - |t.arr|].val
  }

  /** i is where a traversal stands when it has come to k. */
  predicate IndexOf(t: T, k: Key, i: int) {
    if k.KNil? then i == -1 else IsKey(k) && 0 <= i < |t.arr| + |t.node| && KeyAt(t, i) == k
  }

  lemma IndexUnique(t: T, k: Key, i: int, j: int)
    requires Inv(t) && IndexOf(t, k, i) && IndexOf(t, k, j)
    ensures i == j
  {
    if !k.KNil? {
      if i >= |t.arr| { InvNode(t, i - |t.arr|); }
      if j >= |t.arr| { InvNode(t, j - |t.arr|); }
      if i >= |t.arr| && j >= |t.arr| { assert PairOk(t, i - |t.arr|, j - |t.arr|); }
    }
  }

  /** The live keys are those at the indices with a value. */
  lemma LiveAt(t: T, k: Key)
    ensures k in LiveKeys(t) <==> exists i :: 0 <= i < |t.arr| + |t.node| && KeyAt(t, i) == k && !ValAt(t, i).VNil?
  {
    if k in LiveArray(t.arr, 0) {
      assert KeyAt(t, k.i - 1) == k;
    } else if k in LiveFrom(t, 0) {
      var j :| 0 <= j < |t.node| && !t.node[j].val.VNil? && t.node[j].key == k;
      assert KeyAt(t, j + |t.arr|) == k;
    }
  }

  /** t' has the slots of t, perhaps with other values: only existing fields have been assigned. */
  predicate SameSlots(t: T, t': T) {
    && |t'.arr| == |t.arr| && |t'.node| == |t.node|
    && forall i :: 0 <= i < |t.node| ==> t'.node[i].key == t.node[i].key
  }

  lemma SlotsTrans(a: T, b: T, c: T)
    requires SameSlots(a, b) && SameSlots(b, c)
    ensures SameSlots(a, c)
  {
  }

  lemma SameIndex(t: T, t': T)
    requires SameSlots(t, t')
    ensures forall k, i :: IndexOf(t, k, i) <==> IndexOf(t', k, i)
    ensures forall i :: 0 <= i < |t.arr| + |t.node| ==> KeyAt(t, i) == KeyAt(t', i)
  {
    forall i | 0 <= i < |t.arr| + |t.node| ensures KeyAt(t, i) == KeyAt(t', i) { }
  }

  /** A key that has a value is at an index, with that value. */
  lemma LiveIndex(t: T, k: Key) returns (i: int)
    requires Inv(t) && !Lookup(t, k).VNil?
    ensures IndexOf(t, k, i) && 0 <= i < |t.arr| + |t.node|
  {
    LiveMeans(t, k);
    LiveAt(t, k);
    LiveIsKey(t, k);
    hide Inv;
    i :| 0 <= i < |t.arr| + |t.node| && KeyAt(t, i) == k && !ValAt(t, i).VNil?;
  }

  lemma IndexLookup(t: T, k: Key, i: int)
    requires Inv(t) && IndexOf(t, k, i) && i >= 0
    ensures ValAt(t, i) == Lookup(t, k)
  {
    if i >= |t.arr| {
      assert NodeHas(t, i - |t.arr|, k);
      LookupNode(t, k, i - |t.arr|);
    }
  }

  /** luaH_getn returns a border: an index with a value (or 0) followed by one without. */
  ghost predicate Border(t: T, n: int) {
    n >= 0 && (n > 0 ==> !Lookup(t, KInt(n)).VNil?) && Lookup(t, KInt(n + 1)).VNil?
  }

  /** 1..n all have values only if the table holds that many. */
  lemma {:induction false} LiveRun(t: T, n: nat)
    requires Inv(t) && forall x :: 1 <= x <= n ==> !Lookup(t, KInt(x)).VNil?
    ensures n <= |LiveKeys(t)|
  {
    var run := set x | 1 <= x <= n :: KInt(x);
    RunSize(n);
    forall k | k in run ensures k in LiveKeys(t) { LiveMeans(t, k); }
    SubsetSize(run, LiveKeys(t));
  }

  lemma {:induction false} RunSize(n: nat)
    ensures |set x | 1 <= x <= n :: KInt(x)| == n
  {
    if n > 0 {
      RunSize(n - 1);
      assert (set x | 1 <= x <= n :: KInt(x)) == (set x | 1 <= x <= n - 1 :: KInt(x)) + {KInt(n)};
    }
  }

  /** A hash part has room for all keys that were in it. */
  lemma OutsideFits(t: T, n: nat)
    requires Inv(t) && |t.arr| <= n
    ensures |Outside(t, n)| <= if t.dummy then 0 else |t.node|
  {
    assert Outside(t, n) <= LiveFrom(t, 0);
    if t.dummy { assert LiveFrom(t, 0) == {}; }
    AtMostNodes(t, |t.node|);
    SubsetSize(Outside(t, n), NodeKeys(t, |t.node|));
  }

  lemma {:induction false} AtMostNodes(t: T, n: nat)
    requires n <= |t.node|
    ensures |NodeKeys(t, n)| <= n
  {
    hide Pow2, Inv;
    if n > 0 {
      AtMostNodes(t, n - 1);
      var fewer, k := NodeKeys(t, n - 1), t.node[n - 1].key;
      assert NodeKeys(t, n) <= fewer + {k};
      SubsetSize(NodeKeys(t, n), fewer + {k});
    } else {
      assert NodeKeys(t, n) == {};
    }
  }

  lemma NodeSize(t: T)
    requires Inv(t)
    ensures CeilLog2(0) == 0 && CeilLog2(|t.node|) == t.lsize && (t.dummy ==> t.lsize == 0)
  {
    var c := CeilLog2(Pow2(t.lsize));
    CeilLog2Max(Pow2(t.lsize), t.lsize);
    Pow2Mono(c, t.lsize);
    Pow2Mono(0, t.lsize);
  }
}
