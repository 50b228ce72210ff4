/** luaV_concat (lvm.c): several operands at once, on the stack itself. */
module Concat {
  import opened Wrappers
  import opened LuaVM

  /** How numbers are written, and what happens to operands that are neither strings nor numbers. */
  datatype Env = Env(text: int -> string, meta: (Value, Value) -> Result)

  /** MAX_SIZET */
  const MAX_SIZET: int := 0xFFFF_FFFF_FFFF_FFFD

  predicate HasText(v: Value) { v.Str? || v.Number? }

  /** tostring, on a string or a number */
  function Text(e: Env, v: Value): string
    requires HasText(v)
  {
    if v.Str? then v.s else (e.text)(v.n)
  }

  /** The meaning of `..` on two operands; a result that is too long is an error. */
  function Pair(e: Env, a: Value, b: Value): Result {
    if !HasText(a) || !HasText(b) then (e.meta)(a, b)
    else if Text(e, b) == [] then Ok(Str(Text(e, a)))
    else if |Text(e, a)| >= MAX_SIZET - |Text(e, b)| then Err
    else Ok(Str(Text(e, a) + Text(e, b)))
  }

  function PairOf(e: Env): (Value, Value) -> Result { (a, b) => Pair(e, a, b) }

  /** The texts of all values, one after the other. */
  function Texts(e: Env, vs: seq<Value>): string
    requires forall v :: v in vs ==> HasText(v)
  {
    if vs == [] then [] else Text(e, vs[0]) + Texts(e, vs[1..])
  }

  /** Concatenating the tail first. */
  lemma {:induction false} TailFirst(f: (Value, Value) -> Result, vs: seq<Value>, tail: seq<Value>)
    requires tail != []
    ensures ConcatAll(f, tail).Err? ==> ConcatAll(f, vs + tail) == Err
    ensures ConcatAll(f, tail).Ok? ==> ConcatAll(f, vs + tail) == ConcatAll(f, vs + [ConcatAll(f, tail).v])
  {
    if vs == [] {
      assert vs + tail == tail;
      if ConcatAll(f, tail).Ok? { assert vs + [ConcatAll(f, tail).v] == [ConcatAll(f, tail).v]; }
    } else {
      TailFirst(f, vs[1..], tail);
      assert (vs + tail)[1..] == vs[1..] + tail;
      if ConcatAll(f, tail).Ok? {
        var v := ConcatAll(f, tail).v;
        assert (vs + [v])[1..] == vs[1..] + [v];
      }
    }
  }

  /** What Texts is: nothing for no values, and one text after the other. */
  lemma TextsAre(e: Env, vs: seq<Value>)
    requires forall v :: v in vs ==> HasText(v)
    ensures Texts(e, []) == []
    ensures forall s :: Texts(e, [Str(s)] + vs) == s + Texts(e, vs)
    ensures forall n :: Texts(e, [Number(n)] + vs) == (e.text)(n) + Texts(e, vs)
  {
    forall v | HasText(v) ensures Texts(e, [v] + vs) == Text(e, v) + Texts(e, vs) {
      assert ([v] + vs)[1..] == vs;
    }
  }

  /** Strings and numbers, as short as all strings are: together they give all their texts, one after
      the other, empty ones included, unless that is too long. */
  lemma {:induction false} AllTexts(e: Env, vs: seq<Value>)
    requires |vs| >= 2 && forall v :: v in vs ==> HasText(v) && |Text(e, v)| < MAX_SIZET
    ensures ConcatAll(PairOf(e), vs) ==
      if |Texts(e, vs)| < MAX_SIZET then Ok(Str(Texts(e, vs))) else Err
  {
    if |vs| == 2 {
      assert vs == [vs[0], vs[1]] && vs[1..] == [vs[1]];
      TwoValues(PairOf(e), vs[0], vs[1]);
      assert Texts(e, vs) == Text(e, vs[0]) + Texts(e, [vs[1]]);
      assert Texts(e, [vs[1]]) == Text(e, vs[1]) + Texts(e, []) == Text(e, vs[1]);
      assert Text(e, vs[0]) + [] == Text(e, vs[0]);
    } else {
      AllTexts(e, vs[1..]);
      assert Texts(e, vs) == Text(e, vs[0]) + Texts(e, vs[1..]);
      assert Text(e, vs[0]) + [] == Text(e, vs[0]);
    }
  }

  /** A value that is neither string nor number meets the joined text of what follows it: the
      metamethod is called with it on the left. */
  lemma MeetsText(e: Env, front: seq<Value>, a: Value, vs: seq<Value>)
    requires !HasText(a) && |vs| >= 2 && forall v :: v in vs ==> HasText(v) && |Text(e, v)| < MAX_SIZET
    requires |Texts(e, vs)| < MAX_SIZET
    ensures ConcatAll(PairOf(e), front + [a] + vs) ==
      match (e.meta)(a, Str(Texts(e, vs)))
      case Err => Err
      case Ok(v) => ConcatAll(PairOf(e), front + [v])
  {
    AllTexts(e, vs);
    TailFirst(PairOf(e), front + [a], vs);
    LastTwo(e, front, a, Str(Texts(e, vs)));
    assert front + [a] + [Str(Texts(e, vs))] == front + [a, Str(Texts(e, vs))];
  }

  /** Two last operands of which one is neither string nor number give way to what the metamethod
      makes of them, the left one first. */
  lemma LastTwo(e: Env, front: seq<Value>, a: Value, b: Value)
    requires !HasText(a) || !HasText(b)
    ensures ConcatAll(PairOf(e), front + [a, b]) ==
      match (e.meta)(a, b)
      case Err => Err
      case Ok(v) => ConcatAll(PairOf(e), front + [v])
  {
    TwoValues(PairOf(e), a, b);
    TailFirst(PairOf(e), front, [a, b]);
  }

  /** OP_CONCAT in the machine, where `..` is what luaV_concat makes of two operands. */
  lemma MachineConcat(e: Env, p: Prims, i: Instruction, K: seq<Value>, R: Regs)
    requires p.concat == PairOf(e) && i.op.OP_CONCAT? && 0 <= i.b < i.c < |R|
    requires forall v :: v in R[i.b..i.c + 1] ==> HasText(v) && |Text(e, v)| < MAX_SIZET
    ensures var text := Texts(e, R[i.b..i.c + 1]);
      Computes(i, K, p, R) == Some(if |text| < MAX_SIZET then Ok(Str(text)) else Err)
  {
    AllTexts(e, R[i.b..i.c + 1]);
  }

  /** Texts in front of a text that is not empty. */
  lemma TextFront(e: Env, v: Value, vs: seq<Value>)
    requires HasText(v) && vs != [] && forall w :: w in vs ==> HasText(w)
    requires Texts(e, vs) != [] && ConcatAll(PairOf(e), vs) == Ok(Str(Texts(e, vs)))
    ensures Texts(e, [v] + vs) == Text(e, v) + Texts(e, vs) != []
    ensures ConcatAll(PairOf(e), [v] + vs) ==
      if |Text(e, v)| >= MAX_SIZET - |Texts(e, vs)| then Err else Ok(Str(Texts(e, [v] + vs)))
  {
    assert ([v] + vs)[1..] == vs;
  }

  lemma TwoValues(f: (Value, Value) -> Result, a: Value, b: Value)
    ensures ConcatAll(f, [a, b]) == f(a, b)
  {
    assert [a, b][1..] == [b];
  }

  /** What is left to concatenate has the meaning of the whole. */
  ghost predicate Pending(e: Env, whole: seq<Value>, rest: seq<Value>) {
    whole != [] && rest != [] && ConcatAll(PairOf(e), rest) == ConcatAll(PairOf(e), whole)
  }

  /** n values at the end give way to the value they have together. */
  lemma Replaced(e: Env, whole: seq<Value>, rest: seq<Value>, n: nat, v: Value)
    requires Pending(e, whole, rest) && 1 <= n <= |rest| && ConcatAll(PairOf(e), rest[|rest| - n..]) == Ok(v)
    ensures Pending(e, whole, rest[..|rest| - n] + [v])
  {
    var vs, tail := rest[..|rest| - n], rest[|rest| - n..];
    TailFirst(PairOf(e), vs, tail);
    assert rest == vs + tail;
  }

  lemma Failing(e: Env, whole: seq<Value>, rest: seq<Value>, n: nat)
    requires Pending(e, whole, rest) && 1 <= n <= |rest| && ConcatAll(PairOf(e), rest[|rest| - n..]) == Err
    ensures ConcatAll(PairOf(e), whole) == Err
  {
    var vs, tail := rest[..|rest| - n], rest[|rest| - n..];
    TailFirst(PairOf(e), vs, tail);
    assert rest == vs + tail;
  }

  lemma {:induction false} TextsMore(e: Env, vs: seq<Value>, v: Value)
    requires HasText(v) && forall w :: w in vs ==> HasText(w)
    ensures Texts(e, vs + [v]) == Texts(e, vs) + Text(e, v)
  {
    if vs == [] {
      assert vs + [v] == [v];
    } else {
      assert (vs + [v])[1..] == vs[1..] + [v];
      TextsMore(e, vs[1..], v);
    }
  }

  /** A number that is about to be concatenated may be replaced by its text. */
  lemma Converted(e: Env, whole: seq<Value>, rest: seq<Value>, i: nat)
    requires Pending(e, whole, rest) && i < |rest| && HasText(rest[i])
    requires if i == |rest| - 1 then i > 0 && HasText(rest[i - 1]) else
      ConcatAll(PairOf(e), rest[i + 1..]).Ok? && HasText(ConcatAll(PairOf(e), rest[i + 1..]).v)
    ensures Pending(e, whole, rest[i := Str(Text(e, rest[i]))])
  {
    var k := if i == |rest| - 1 then i - 1 else i;
    var rest' := rest[i := Str(Text(e, rest[i]))];
    assert rest == rest[..k] + rest[k..] && rest' == rest[..k] + rest'[k..];
    TailFirst(PairOf(e), rest[..k], rest[k..]);
    TailFirst(PairOf(e), rest[..k], rest'[k..]);
    if i == |rest| - 1 {
      assert rest[k..] == [rest[k], rest[i]] && rest'[k..] == [rest[k], rest'[i]];
      TwoValues(PairOf(e), rest[k], rest[i]);
      TwoValues(PairOf(e), rest[k], rest'[i]);
    } else {
      assert rest[k..][1..] == rest[i + 1..] && rest'[k..][1..] == rest[i + 1..];
    }
  }

  lemma OneText(e: Env, v: Value)
    requires v.Str?
    ensures ConcatAll(PairOf(e), [v]) == Ok(Str(Texts(e, [v]))) && Texts(e, [v]) == v.s
  {
    assert Texts(e, []) == [];
  }

  /** The strings of a pass: what they give together. */
  ghost predicate Group(e: Env, vs: seq<Value>) {
    && vs != [] && (forall v :: v in vs ==> v.Str?) && Texts(e, vs) != []
    && ConcatAll(PairOf(e), vs) == Ok(Str(Texts(e, vs)))
  }

  lemma GroupMore(e: Env, v: Value, vs: seq<Value>)
    requires Group(e, vs) && v.Str?
    ensures |v.s| >= MAX_SIZET - |Texts(e, vs)| ==> ConcatAll(PairOf(e), [v] + vs) == Err
    ensures |v.s| < MAX_SIZET - |Texts(e, vs)| ==> Group(e, [v] + vs) && |Texts(e, [v] + vs)| == |v.s| + |Texts(e, vs)|
  {
    TextFront(e, v, vs);
  }

  /** What is left on the stack, from b up to top. */
  ghost predicate Left(e: Env, whole: seq<Value>, R: array<Value>, b: nat, top: nat)
    reads R
  {
    b < top <= R.Length && Pending(e, whole, R[b..top])
  }

  /** The strings from lo up to top, copied into one buffer. */
  method Copy(e: Env, R: array<Value>, lo: nat, top: nat) returns (buffer: string)
    requires lo <= top <= R.Length && forall v :: v in R[lo..top] ==> v.Str?
    ensures buffer == Texts2(e, R[lo..top])
  {
    buffer := [];
    var i := top - lo;
    while i > 0
      invariant 0 <= i <= top - lo && buffer == Texts2(e, R[lo..top - i])
    {
      assert R[top - i] in R[lo..top];
      assert R[lo..top - i + 1] == R[lo..top - i] + [R[top - i]];
      assert forall v :: v in R[lo..top - i] ==> v in R[lo..top];
      TextsMore(e, R[lo..top - i], R[top - i]);
      buffer := buffer + R[top - i].s;
      i := i - 1;
    }
  }

  /** What the pass has collected, from lo up to top. */
  ghost predicate Collected(e: Env, whole: seq<Value>, R: array<Value>, b: nat, lo: nat, top: nat, tl: int)
    reads R
  {
    b <= lo < top <= R.Length && Left(e, whole, R, b, top) && Group(e, R[lo..top]) && tl == |Texts2(e, R[lo..top])|
  }

  /** The value in front of what the pass has collected, written as a string, joins it. */
  lemma Joins(e: Env, whole: seq<Value>, rest: seq<Value>, k: nat, s: string)
    requires Pending(e, whole, rest) && k + 1 < |rest| && HasText(rest[k]) && s == Text(e, rest[k])
    requires Group(e, rest[k + 1..])
    ensures var rest', tl := rest[k := Str(s)], |Texts2(e, rest[k + 1..])|;
      && Pending(e, whole, rest') && rest'[k..] == [Str(s)] + rest[k + 1..]
      && if |s| < MAX_SIZET - tl then Group(e, rest'[k..]) && |Texts2(e, rest'[k..])| == tl + |s|
         else ConcatAll(PairOf(e), whole) == Err
  {
    hide Group, Pending, ConcatAll;
    var grp, rest' := rest[k + 1..], rest[k := Str(s)];
    GroupFacts(e, grp);
    Converted(e, whole, rest, k);
    assert rest'[k..] == [Str(s)] + grp;
    GroupMore(e, Str(s), grp);
    if |s| < MAX_SIZET - |Texts2(e, grp)| {
      GroupFacts(e, rest'[k..]);
    } else {
      assert rest'[|rest'| - (|rest'| - k)..] == rest'[k..];
      Failing(e, whole, rest', |rest'| - k);
    }
  }

  /** One string more, written in place of its number if it is one. */
  method Take(e: Env, R: array<Value>, b: nat, lo: nat, top: nat, tl: int, ghost whole: seq<Value>)
    returns (ok: bool, tl': int)
    requires b < lo && Collected(e, whole, R, b, lo, top, tl) && HasText(R[lo - 1])
    modifies R
    ensures forall j :: 0 <= j < R.Length && j != lo - 1 ==> R[j] == old(R[j])
    ensures if ok then Collected(e, whole, R, b, lo - 1, top, tl') else ConcatAll(PairOf(e), whole) == Err
  {
    hide Group, Pending, ConcatAll, Texts2;
    ghost var rest := R[b..top];
    assert rest[lo - b..] == R[lo..top];
    var s := Text(e, R[lo - 1]);
    Joins(e, whole, rest, lo - 1 - b, s);
    R[lo - 1] := Str(s);
    assert R[b..top] == rest[lo - 1 - b := Str(s)];
    assert R[lo - 1..top] == rest[lo - 1 - b := Str(s)][lo - 1 - b..];
    ok, tl' := |s| < MAX_SIZET - tl, tl + |s|;
  }

  /** All strings that end below top, at least two, become one. */
  method Collect(e: Env, R: array<Value>, b: nat, top: nat, ghost whole: seq<Value>) returns (ok: bool, n: nat)
    requires Left(e, whole, R, b, top) && top - b >= 2 && HasText(R[top - 2]) && R[top - 1].Str? && R[top - 1].s != []
    modifies R
    ensures forall j :: 0 <= j < R.Length && !(b <= j < top) ==> R[j] == old(R[j])
    ensures if ok then 2 <= n <= top - b && Left(e, whole, R, b, top - n + 1) else ConcatAll(PairOf(e), whole) == Err
  {
    hide Group, Pending, Collected, Texts, Texts2, ConcatAll, Pair;
    var tl := |R[top - 1].s|;
    n := 1;
    FirstText(e, whole, R, b, top);
    while n < top - b && HasText(R[top - n - 1])
      invariant 1 <= n <= top - b && (n == 1 ==> R[..] == old(R[..])) && Collected(e, whole, R, b, top - n, top, tl)
      invariant forall j :: 0 <= j < R.Length && !(b <= j < top) ==> R[j] == old(R[j])
    {
      ok, tl := Take(e, R, b, top - n, top, tl, whole);
      if !ok {
        return;
      }
      n := n + 1;
    }
    ghost var rest := R[b..top];
    CollectedEnd(e, whole, R, b, top - n, top, tl);
    GroupFacts(e, R[top - n..top]);
    var buffer := Copy(e, R, top - n, top);
    assert rest[|rest| - n..] == R[top - n..top];
    R[top - n] := Str(buffer);
    OneLeft(e, whole, R, b, top, n, rest, buffer);
    return true, n;
  }

  lemma CollectedEnd(e: Env, whole: seq<Value>, R: array<Value>, b: nat, lo: nat, top: nat, tl: int)
    requires Collected(e, whole, R, b, lo, top, tl)
    ensures b <= lo < top <= R.Length && Pending(e, whole, R[b..top]) && Group(e, R[lo..top])
  {
    hide Pending, Group;
  }

  lemma FirstText(e: Env, whole: seq<Value>, R: array<Value>, b: nat, top: nat)
    requires Left(e, whole, R, b, top) && top - b >= 2 && R[top - 1].Str? && R[top - 1].s != []
    ensures Collected(e, whole, R, b, top - 1, top, |R[top - 1].s|)
  {
    hide Pending;
    assert R[top - 1..top] == [R[top - 1]];
    OneText(e, R[top - 1]);
    IsGroup(e, R[top - 1]);
  }

  lemma OneLeft(e: Env, whole: seq<Value>, R: array<Value>, b: nat, top: nat, n: nat, rest: seq<Value>, buffer: string)
    requires b < top <= R.Length && |rest| == top - b && 1 <= n <= top - b && Pending(e, whole, rest)
    requires forall j :: 0 <= j < top - b - n ==> R[b + j] == rest[j]
    requires R[top - n] == Str(buffer) && Group(e, rest[|rest| - n..]) && buffer == Texts2(e, rest[|rest| - n..])
    ensures Left(e, whole, R, b, top - n + 1)
  {
    hide Group, Pending;
    GroupFacts(e, rest[|rest| - n..]);
    Replaced(e, whole, rest, n, Str(buffer));
    assert R[b..top - n + 1] == rest[..|rest| - n] + [Str(buffer)];
  }

  /** Texts, of any values: those that have none count for nothing. */
  function Texts2(e: Env, vs: seq<Value>): string { if forall v :: v in vs ==> HasText(v) then Texts(e, vs) else [] }

  lemma IsGroup(e: Env, v: Value)
    requires v.Str? && v.s != [] && ConcatAll(PairOf(e), [v]) == Ok(Str(Texts(e, [v])))
    ensures Group(e, [v])
  {
    assert Texts(e, [v]) == v.s + Texts(e, []);
  }

  lemma GroupFacts(e: Env, vs: seq<Value>)
    requires Group(e, vs)
    ensures (forall v :: v in vs ==> v.Str?) && vs != [] && ConcatAll(PairOf(e), vs) == Ok(Str(Texts(e, vs)))
  {
  }

  /** Two values give way to one. */
  lemma TwoLeft(e: Env, whole: seq<Value>, R: array<Value>, b: nat, top: nat, rest: seq<Value>, v: Value)
    requires b + 2 <= top <= R.Length && |rest| == top - b && Pending(e, whole, rest)
    requires (forall j :: 0 <= j < top - b - 2 ==> R[b + j] == rest[j]) && R[top - 2] == v
    requires PairOf(e)(rest[|rest| - 2], rest[|rest| - 1]) == Ok(v)
    ensures Left(e, whole, R, b, top - 1)
  {
    hide Pending;
    assert rest[|rest| - 2..] == [rest[|rest| - 2], rest[|rest| - 1]];
    TwoValues(PairOf(e), rest[|rest| - 2], rest[|rest| - 1]);
    Replaced(e, whole, rest, 2, v);
    assert R[b..top - 1] == rest[..|rest| - 2] + [v];
  }

  lemma TwoFail(e: Env, whole: seq<Value>, rest: seq<Value>)
    requires |rest| >= 2 && Pending(e, whole, rest) && PairOf(e)(rest[|rest| - 2], rest[|rest| - 1]) == Err
    ensures ConcatAll(PairOf(e), whole) == Err
  {
    hide Pending;
    assert rest[|rest| - 2..] == [rest[|rest| - 2], rest[|rest| - 1]];
    TwoValues(PairOf(e), rest[|rest| - 2], rest[|rest| - 1]);
    Failing(e, whole, rest, 2);
  }

  /** One pass: the last n values give way to one. */
  method Pass(e: Env, R: array<Value>, b: nat, top: nat, ghost whole: seq<Value>) returns (ok: bool, n: nat)
    requires Left(e, whole, R, b, top) && top - b >= 2
    modifies R
    ensures forall j :: 0 <= j < R.Length && !(b <= j < top) ==> R[j] == old(R[j])
    ensures if ok then 2 <= n <= top - b && Left(e, whole, R, b, top - n + 1) else ConcatAll(PairOf(e), whole) == Err
  {
    hide Pending;
    ok, n := true, 2;
    ghost var rest := R[b..top];
    if !HasText(R[top - 2]) || !HasText(R[top - 1]) {
      match (e.meta)(R[top - 2], R[top - 1]) {
        case Err =>
          TwoFail(e, whole, rest);
          ok := false;
        case Ok(v) =>
          R[top - 2] := v;
          TwoLeft(e, whole, R, b, top, rest, v);
      }
    } else {
      Converted(e, whole, rest, |rest| - 1);
      R[top - 1] := Str(Text(e, R[top - 1]));
      assert R[b..top] == rest[|rest| - 1 := R[top - 1]];
      if R[top - 1].s == [] {
        ghost var rest2 := R[b..top];
        R[top - 2] := Str(Text(e, R[top - 2]));
        TwoLeft(e, whole, R, b, top, rest2, R[top - 2]);
      } else {
        ok, n := Collect(e, R, b, top, whole);
      }
    }
  }

  /** luaV_concat: `total` values end at `last`; what remains, in the place of the first, is what
      concatenating them two at a time from the right gives.  Of strings and numbers that is all
      their texts in a row, if it is shorter than 2^64 - 3. */
  method VConcat(e: Env, R: array<Value>, total0: nat, last0: nat) returns (ok: bool)
    requires 2 <= total0 <= last0 + 1 <= R.Length
    modifies R
    ensures var b := last0 + 1 - total0;
      var res := ConcatAll(PairOf(e), old(R[b..last0 + 1]));
      && (ok <==> res.Ok?) && (ok ==> R[b] == res.v)
      && forall j :: 0 <= j < R.Length && !(b <= j <= last0) ==> R[j] == old(R[j])
    ensures var vs := old(R[last0 + 1 - total0..last0 + 1]);
      (forall v :: v in vs ==> (v.Str? || v.Number?) && |Texts(e, [v])| < 18446744073709551613) ==>
        && (ok <==> |Texts(e, vs)| < 18446744073709551613)
        && (ok ==> R[last0 + 1 - total0] == Str(Texts(e, vs)))
  {
    hide Pending, Texts, ConcatAll;
    var total, last := total0, last0;
    ghost var b := last0 + 1 - total0;
    ghost var whole := R[b..last0 + 1];
    assert Left(e, whole, R, b, last0 + 1) by { AtFirst(e, whole); }
    WholeTexts(e, whole);
    while total > 1
      invariant 1 <= total && last + 1 == b + total && last <= last0 && Left(e, whole, R, b, last + 1)
      invariant forall j :: 0 <= j < R.Length && !(b <= j <= last0) ==> R[j] == old(R[j])
    {
      var n;
      ok, n := Pass(e, R, last + 1 - total, last + 1, whole);
      if !ok {
        return;
      }
      total, last := total - (n - 1), last - (n - 1);
    }
    assert last == b < R.Length;
    assert R[b..b + 1] == [R[b]];
    AtLast(e, whole, R[b]);
    ok := true;
  }

  lemma WholeTexts(e: Env, vs: seq<Value>)
    requires |vs| >= 2
    ensures (forall v :: v in vs ==> HasText(v) && |Texts(e, [v])| < MAX_SIZET) ==>
      ConcatAll(PairOf(e), vs) == if |Texts(e, vs)| < MAX_SIZET then Ok(Str(Texts(e, vs))) else Err
  {
    if forall v :: v in vs ==> HasText(v) && |Texts(e, [v])| < MAX_SIZET {
      forall v | v in vs ensures |Text(e, v)| < MAX_SIZET {
        assert Texts(e, [v]) == Text(e, v) + Texts(e, []) == Text(e, v);
      }
      AllTexts(e, vs);
    }
  }

  lemma AtFirst(e: Env, whole: seq<Value>)
    requires whole != []
    ensures Pending(e, whole, whole)
  {
  }

  lemma AtLast(e: Env, whole: seq<Value>, v: Value)
    requires Pending(e, whole, [v])
    ensures whole != [] && ConcatAll(PairOf(e), whole) == Ok(v)
  {
  }
}
