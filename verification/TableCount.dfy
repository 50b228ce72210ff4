/** How many keys a table holds, and the best size for its array part (ltable.c: computesizes). */
module TableCount {
  import opened TableModel

  /** The keys of the first n nodes. */
  function NodeKeys(t: T, n: nat): set<Key>
    requires n <= |t.node|
  {
    set i | 0 <= i < n :: t.node[i].key
  }

  /** Nodes with distinct keys hold as many keys as there are nodes. */
  lemma {:induction false} KeysCount(t: T, n: nat)
    requires Inv(t) && n <= |t.node| && forall i :: 0 <= i < n ==> Keyed(t, i)
    ensures |NodeKeys(t, n)| == n
  {
    if n > 0 {
      KeysCount(t, n - 1);
      var k := t.node[n - 1].key;
      assert k !in NodeKeys(t, n - 1) by {
        forall i | 0 <= i < n - 1 ensures t.node[i].key != k { assert PairOk(t, i, n - 1); }
      }
      assert NodeKeys(t, n) == NodeKeys(t, n - 1) + {k};
    }
  }

  /** While fewer keys than nodes are needed, some node is free. */
  lemma RoomLeft(t: T, S: set<Key>)
    requires Inv(t) && |S| < |t.node| && forall i :: Keyed(t, i) ==> t.node[i].key in S
    ensures exists i :: 0 <= i < |t.node| && !Keyed(t, i)
  {
    if forall i :: 0 <= i < |t.node| ==> Keyed(t, i) {
      KeysCount(t, |t.node|);
      SubsetSize(NodeKeys(t, |t.node|), S);
    }
  }

  lemma {:induction false} SubsetSize<A>(a: set<A>, b: set<A>)
    requires a <= b
    ensures |a| <= |b|
  {
    if a != {} {
      var x :| x in a;
      SubsetSize(a - {x}, b - {x});
    }
  }

  // ----- computesizes -----

  /** How many of the numbers lo+1..hi are in S. */
  function InInterval(S: set<int>, lo: int, hi: int): set<int> { set x | x in S && lo < x <= hi }

  function Among(S: set<int>, n: int): nat { |InInterval(S, 0, n)| }

  /** nums[i] counts the keys in S between 2^(i-1) and 2^i. */
  ghost predicate Slices(nums: seq<int>, S: set<int>) {
    forall i :: 0 <= i < |nums| ==> nums[i] == Slice(S, i)
  }

  function Slice(S: set<int>, i: nat): nat { |InInterval(S, if i == 0 then 0 else Pow2(i - 1), Pow2(i))| }

  /** More than half of 1..n is in use. */
  predicate Dense(S: set<int>, n: int) { 2 * Among(S, n) > n }

  /** n is what computesizes should return: the largest power of two that is dense, or 0. */
  ghost predicate BestSize(S: set<int>, n: int) {
    && (n == 0 || exists i: nat :: n == Pow2(i) && Dense(S, n))
    && forall i: nat :: Dense(S, Pow2(i)) ==> Pow2(i) <= n
  }

  lemma Split(S: set<int>, a: int, b: int, c: int)
    requires a <= b <= c
    ensures |InInterval(S, a, c)| == |InInterval(S, a, b)| + |InInterval(S, b, c)|
  {
    assert InInterval(S, a, c) == InInterval(S, a, b) + InInterval(S, b, c);
    assert InInterval(S, a, b) !! InInterval(S, b, c);
  }

  lemma {:induction false} IntervalSize(S: set<int>, a: int, b: int)
    requires a <= b
    ensures |InInterval(S, a, b)| <= b - a
    decreases b - a
  {
    if a < b {
      IntervalSize(S, a, b - 1);
      Split(S, a, b - 1, b);
      assert InInterval(S, b - 1, b) <= {b};
      SubsetSize(InInterval(S, b - 1, b), {b});
    } else {
      assert InInterval(S, a, b) == {};
    }
  }

  lemma {:induction false} Pow2Mono(i: nat, j: nat)
    requires i <= j
    ensures Pow2(i) <= Pow2(j) && (i < j ==> 2 * Pow2(i) <= Pow2(j))
    decreases j
  {
    if i < j { Pow2Mono(i, j - 1); }
  }

  /** One more slice. */
  lemma AmongNext(S: set<int>, i: nat)
    ensures i == 0 ==> Among(S, Pow2(0)) == Slice(S, 0)
    ensures i > 0 ==> Among(S, Pow2(i)) == Among(S, Pow2(i - 1)) + Slice(S, i)
  {
    if i > 0 {
      Split(S, 0, Pow2(i - 1), Pow2(i));
    }
  }

  /** A power with an empty last slice is not dense. */
  lemma EmptySlice(S: set<int>, i: nat)
    requires Slice(S, i) == 0
    ensures !Dense(S, Pow2(i))
  {
    AmongNext(S, i);
    if i > 0 { IntervalSize(S, 0, Pow2(i - 1)); }
  }

  lemma AmongMono(S: set<int>, a: int, b: int)
    requires 0 <= a <= b
    ensures Among(S, a) <= Among(S, b) <= |S|
  {
    Split(S, 0, a, b);
    SubsetSize(InInterval(S, 0, b), S);
  }
}
