/** What operands name, and what the program's actions do to what they name. */
module GcMeaning {
  import opened Wrappers
  import opened GcHeap
  import opened GcStep
  import opened GcCells
  import opened GcEffects
  import opened GcProgram
  import opened GcInvisible

  // ----- reachability -----

  /** An object refers to what is in its fields, in its value if it is a closed upvalue, in its slot if
      it is an open one, and in the environment and the used slots if it is a thread. */
  lemma PointsTo(objs: Objs, x: Id, y: Id)
    requires x in objs && (objs[x].b.Thread? ==> objs[x].b.top <= |objs[x].b.stack|)
    ensures Points(objs, x, y) <==>
      match objs[x].b
      case Str(_) => false
      case Udata(refs) => exists i :: 0 <= i < |refs| && refs[i] == Some(y)
      case Func(refs) => exists i :: 0 <= i < |refs| && refs[i] == Some(y)
      case Table(refs) => exists i :: 0 <= i < |refs| && refs[i] == Some(y)
      case Proto(refs) => exists i :: 0 <= i < |refs| && refs[i] == Some(y)
      case Closed(v) => v == Some(y)
      case Open(th, level) => IsThread(objs, th) && level < |objs[th].b.stack| && objs[th].b.stack[level] == Some(y)
      case Thread(env, stack, top, _) => env == Some(y) || exists i :: 0 <= i < top && stack[i] == Some(y)
  {
    if objs[x].b.Thread? {
      var b := objs[x].b;
      assert Vals(objs, x) == [b.env] + b.stack[..b.top];
      assert forall i :: 0 <= i < b.top ==> b.stack[..b.top][i] == b.stack[i] == Vals(objs, x)[i + 1];
    }
  }

  /** Every root is reachable, as is what a reachable object refers to, and nothing else is. */
  lemma ReachLeast(h: Heap, A: iset<Id>)
    requires h.main in A && h.running in A && h.registry in A
    requires forall i, x :: 0 <= i < |h.mt| && h.mt[i] == Some(x) ==> x in A
    requires forall x: Id, y: Id :: x in A && Points(h.objs, x, y) ==> y in A
    ensures forall x: Id :: Reach(h, x) ==> x in A
    ensures Reach(h, h.main) && Reach(h, h.running) && Reach(h, h.registry)
    ensures forall i, x :: 0 <= i < |h.mt| && h.mt[i] == Some(x) ==> Reach(h, x)
  {
    hide Points;
    assert Roots(h)[0] == Some(h.main) && Roots(h)[1] == Some(h.running) && Roots(h)[2] == Some(h.registry);
    forall x: Id | Reach(h, x) ensures x in A {
      var p :| PathTo(h, p) && p[|p| - 1] == x;
      PathIn(h, A, p, |p| - 1);
    }
    ReachRoot(h, h.main);
    ReachRoot(h, h.running);
    ReachRoot(h, h.registry);
    forall i, x | 0 <= i < |h.mt| && h.mt[i] == Some(x) ensures Reach(h, x) {
      assert Roots(h)[3 + i] == Some(x);
      ReachRoot(h, x);
    }
  }

  lemma {:induction false} PathIn(h: Heap, A: iset<Id>, p: seq<Id>, i: nat)
    requires PathTo(h, p) && i < |p| && (forall r :: r in Roots(h) && r.Some? ==> r.value in A)
    requires forall x: Id, y: Id :: x in A && Points(h.objs, x, y) ==> y in A
    ensures p[i] in A
  {
    if i > 0 {
      PathIn(h, A, p, i - 1);
      assert Points(h.objs, p[i - 1], p[i]);
    }
  }

  // ----- operands -----

  lemma {:induction false} WalkOn(objs: Objs, r: Ref, steps: seq<nat>, i: nat)
    ensures Walk(objs, r, steps + [i]) == Walk(objs, Walk(objs, r, steps), [i])
    decreases |steps|
  {
    if steps == [] {
      assert steps + [i] == [i];
    } else {
      assert (steps + [i])[0] == steps[0] && (steps + [i])[1..] == steps[1..] + [i];
      if r.Some? && r.value in objs && steps[0] < |Vals(objs, r.value)| {
        WalkOn(objs, Vals(objs, r.value)[steps[0]], steps[1..], i);
      }
    }
  }

  /** The program can name exactly the reachable objects. */
  lemma ReachNamed(h: Heap, x: Id)
    ensures Reach(h, x) <==> exists v :: Named(h, v) == Some(x)
  {
    if Reach(h, x) {
      var p :| PathTo(h, p) && p[|p| - 1] == x;
      var v := PathNamed(h, p, |p| - 1);
    }
    if v :| Named(h, v) == Some(x) {
      assert Roots(h)[v.root] in Roots(h);
      if Roots(h)[v.root].Some? { ReachRoot(h, Roots(h)[v.root].value); }
      WalkReach(h, Roots(h)[v.root], v.steps);
    }
  }

  lemma {:induction false} PathNamed(h: Heap, p: seq<Id>, i: nat) returns (v: Operand)
    requires PathTo(h, p) && i < |p|
    ensures v.At? && v.root < |Roots(h)| && Named(h, v) == Some(p[i])
  {
    if i == 0 {
      var root :| 0 <= root < |Roots(h)| && Roots(h)[root] == Some(p[0]);
      v := At(root, []);
    } else {
      v := PathNamed(h, p, i - 1);
      assert Points(h.objs, p[i - 1], p[i]);
      var k :| 0 <= k < |Vals(h.objs, p[i - 1])| && Vals(h.objs, p[i - 1])[k] == Some(p[i]);
      WalkOn(h.objs, Roots(h)[v.root], v.steps, k);
      assert Walk(h.objs, Some(p[i - 1]), [k]) == Some(p[i]);
      v := At(v.root, v.steps + [k]);
    }
  }

  /** The i-th slot of the running thread, as an operand. */
  function Slot(i: nat): Operand { At(1, [1 + i]) }

  lemma OneStep(objs: Objs, x: Id, k: nat)
    requires x in objs && k < |Vals(objs, x)|
    ensures Walk(objs, Some(x), [k]) == Vals(objs, x)[k]
  {
    assert [k][1..] == [];
  }

  lemma SlotNamed(h: Heap, i: nat)
    requires IsThread(h.objs, h.running) && i < h.objs[h.running].b.top <= |h.objs[h.running].b.stack|
    ensures Named(h, Slot(i)) == h.objs[h.running].b.stack[i]
  {
    assert Roots(h)[1] == Some(h.running);
    assert Vals(h.objs, h.running)[1 + i] == h.objs[h.running].b.stack[i];
    OneStep(h.objs, h.running, 1 + i);
  }

  /** A field of what is in a slot. */
  lemma FieldNamed(h: Heap, i: nat, x: Id, k: nat)
    requires IsThread(h.objs, h.running) && i < h.objs[h.running].b.top <= |h.objs[h.running].b.stack|
    requires h.objs[h.running].b.stack[i] == Some(x) && x in h.objs && k < |Vals(h.objs, x)|
    ensures Named(h, At(1, [1 + i, k])) == Vals(h.objs, x)[k]
  {
    hide Walk, Vals;
    SlotNamed(h, i);
    assert Roots(h)[1] == Some(h.running);
    assert [1 + i, k] == [1 + i] + [k];
    WalkOn(h.objs, Some(h.running), [1 + i], k);
    OneStep(h.objs, x, k);
  }

  // ----- actions -----

  /** After a push the new top slot has the value, and the slots below have what they had. */
  lemma PushNamed(h: Heap, h': Heap, v: Ref)
    requires Pushes(h, h', v)
    ensures var n := h.objs[h.running].b.top;
      Named(h', Slot(n)) == v && forall i :: 0 <= i < n ==> Named(h', Slot(i)) == Named(h, Slot(i))
  {
    hide Named;
    var n := h.objs[h.running].b.top;
    SlotNamed(h', n);
    forall i | 0 <= i < n ensures Named(h', Slot(i)) == Named(h, Slot(i)) {
      SlotNamed(h, i);
      SlotNamed(h', i);
    }
  }

  /** A new table, function, userdata or prototype is on top of the stack, with its fields in order. */
  lemma CreateNamed(h: Heap, kind: Kind, refs: seq<Operand>, h': Heap)
    requires Effect(h, Create(kind, refs), h') && kind in {TABLE, FUNC, UDATA, PROTO}
    ensures var n, x := h.objs[h.running].b.top, h.next;
      && x !in h.objs && Named(h', Slot(n)) == Some(x) && x in h'.objs && |Vals(h'.objs, x)| == |refs|
      && (h'.objs[x].b.Table? <==> kind == TABLE) && (h'.objs[x].b.Func? <==> kind == FUNC)
      && (h'.objs[x].b.Udata? <==> kind == UDATA) && (h'.objs[x].b.Proto? <==> kind == PROTO)
      && forall k :: 0 <= k < |refs| ==> Named(h', At(1, [1 + n, k])) == Named(h, refs[k])
  {
    var n, x := h.objs[h.running].b.top, h.next;
    PushNamed(h, h', Some(x));
    forall k | 0 <= k < |refs| ensures Named(h', At(1, [1 + n, k])) == Named(h, refs[k]) { FieldNamed(h', n, x, k); }
  }

  /** A new upvalue has its first operand as its value; a new thread has it as its environment, and an empty stack. */
  lemma CreateOther(h: Heap, kind: Kind, refs: seq<Operand>, h': Heap)
    requires Effect(h, Create(kind, refs), h') && kind in {UPVAL, THREAD}
    ensures var n, x := h.objs[h.running].b.top, h.next;
      && x !in h.objs && Named(h', Slot(n)) == Some(x) && x in h'.objs && |Vals(h'.objs, x)| == 1
      && (kind == UPVAL ==> h'.objs[x].b.Closed?)
      && (kind == THREAD ==> h'.objs[x].b.Thread? && h'.objs[x].b.stack == [])
      && Named(h', At(1, [1 + n, 0])) == if refs == [] then None else Named(h, refs[0])
  {
    var n, x := h.objs[h.running].b.top, h.next;
    PushNamed(h, h', Some(x));
    FieldNamed(h', n, x, 0);
  }

  /** A new closure is on top of the stack, with the given references, then its captured variables,
      which hold what is in their slots. */
  lemma ClosureNamed(h: Heap, refs: seq<Operand>, captured: seq<nat>, h': Heap)
    requires Effect(h, MakeClosure(refs, captured), h')
    requires forall j :: 0 <= j < |captured| ==> captured[j] < h.objs[h.running].b.top
    ensures var n, x := h.objs[h.running].b.top, h.next;
      && x !in h.objs && Named(h', Slot(n)) == Some(x) && x in h'.objs && h'.objs[x].b.Func?
      && |Vals(h'.objs, x)| == |refs| + |captured|
      && (forall k :: 0 <= k < |refs| ==> Named(h', At(1, [1 + n, k])) == Named(h, refs[k]))
      && forall j :: 0 <= j < |captured| ==> Named(h', At(1, [1 + n, |refs| + j, 0])) == Named(h, Slot(captured[j]))
  {
    hide Named, Vals, InUse, OnTop;
    var x, rs := h.next, NamedAll(h, refs);
    var us :| MakesClosure(h, h', x, rs, captured, us);
    var n := h.objs[h.running].b.top;
    hide Effect, MakesClosure;
    AllInUse(captured, n);
    ClosureIs(h, h', x, rs, captured, us);
    PushNamed(h, h', Some(x));
    forall k | 0 <= k < |refs| ensures Named(h', At(1, [1 + n, k])) == Named(h, refs[k]) { FieldNamed(h', n, x, k); }
    forall j | 0 <= j < |captured|
      ensures Named(h', At(1, [1 + n, |refs| + j, 0])) == Named(h, Slot(captured[j]))
    {
      CapturedNamed(h, h', x, rs, captured, us, j);
    }
  }

  lemma ClosureIs(h: Heap, h': Heap, x: Id, rs: seq<Ref>, captured: seq<nat>, us: seq<Id>)
    requires MakesClosure(h, h', x, rs, captured, us) && InUse(captured, h.objs[h.running].b.top) == captured
    ensures Pushes(h, h', Some(x)) && x !in h.objs && x in h'.objs && h'.objs[x].b.Func?
    ensures Vals(h'.objs, x) == rs + Somes(us) && |us| == |captured|
    ensures IsThread(h'.objs, h'.running) && h'.running == h.running
    ensures var b, n := h'.objs[h'.running].b, h.objs[h.running].b.top;
      b.top == n + 1 <= |b.stack| && b.stack[n] == Some(x)
  {
    hide Vals, InUse, BodiesKept, CellsBut;
    assert Makes(h, h', x, Func(rs + Somes(us)));
    FuncVals(h', x, rs + Somes(us));
  }

  lemma CapturedNamed(h: Heap, h': Heap, x: Id, rs: seq<Ref>, captured: seq<nat>, us: seq<Id>, j: nat)
    requires MakesClosure(h, h', x, rs, captured, us) && j < |captured| == |us|
    requires InUse(captured, h.objs[h.running].b.top) == captured && captured[j] < h.objs[h.running].b.top
    ensures Named(h', At(1, [1 + h.objs[h.running].b.top, |rs| + j, 0])) == Named(h, Slot(captured[j]))
  {
    hide Walk, Named, Vals, BodiesKept, CellsBut;
    var n, k, u := h.objs[h.running].b.top, |rs| + j, us[j];
    assert h'.objs[x].b == Func(rs + Somes(us));
    FuncVals(h', x, rs + Somes(us));
    FieldNamed(h', n, x, k);
    assert h'.objs[u].b == Open(h.running, captured[j]);
    OpenVals(h', u, h.running, captured[j]);
    SlotNamed(h, captured[j]);
    FieldOfField(h', n, k, u);
  }

  lemma FuncVals(h: Heap, x: Id, refs: seq<Ref>)
    requires x in h.objs && h.objs[x].b == Func(refs)
    ensures Vals(h.objs, x) == refs
  {
  }

  lemma OpenVals(h: Heap, u: Id, th: Id, level: nat)
    requires u in h.objs && h.objs[u].b == Open(th, level) && IsThread(h.objs, th) && level < |h.objs[th].b.stack|
    ensures Vals(h.objs, u) == [h.objs[th].b.stack[level]]
  {
  }

  lemma FieldOfField(h: Heap, i: nat, k: nat, u: Id)
    requires Named(h, At(1, [1 + i, k])) == Some(u) && u in h.objs && |Vals(h.objs, u)| > 0
    ensures Named(h, At(1, [1 + i, k, 0])) == Vals(h.objs, u)[0]
  {
    hide Walk, Vals;
    assert [1 + i, k, 0] == [1 + i, k] + [0] && |Roots(h)| > 1;
    WalkOn(h.objs, Roots(h)[1], [1 + i, k], 0);
    OneStep(h.objs, u, 0);
  }

  lemma {:induction false} AllInUse(captured: seq<nat>, top: nat)
    requires forall j :: 0 <= j < |captured| ==> captured[j] < top
    ensures InUse(captured, top) == captured
  {
    if captured != [] {
      AllInUse(captured[..|captured| - 1], top);
      assert captured == captured[..|captured| - 1] + [captured[|captured| - 1]];
    }
  }

  lemma FieldOr(h: Heap, x: Id, k: nat)
    requires x in h.objs
    ensures Walk(h.objs, Some(x), [k]) == if k < |Vals(h.objs, x)| then Vals(h.objs, x)[k] else None
  {
    hide Vals;
    if k < |Vals(h.objs, x)| { OneStep(h.objs, x, k); }
  }

  lemma FieldAt(h: Heap, w: Operand, x: Id, k: nat)
    requires Named(h, w) == Some(x) && w.At? && x in h.objs
    ensures Named(h, At(w.root, w.steps + [k])) == if k < |Vals(h.objs, x)| then Vals(h.objs, x)[k] else None
  {
    hide Walk, Vals;
    WalkOn(h.objs, Roots(h)[w.root], w.steps, k);
    FieldOr(h, x, k);
  }

  /** An assignment to a field changes that field, whoever looks at it, and no other of the object. */
  lemma SetFieldNamed(h: Heap, o: Operand, i: nat, v: Operand, h': Heap, x: Id)
    requires Effect(h, SetField(o, i, v), h') && Named(h, o) == Some(x) && x in h.objs
    requires h.objs[x].b.Table? || h.objs[x].b.Func? || h.objs[x].b.Udata? || h.objs[x].b.Proto?
    requires i < |h.objs[x].b.refs|
    ensures forall w :: Named(h', w) == Some(x) && w.At? ==> Named(h', At(w.root, w.steps + [i])) == Named(h, v)
    ensures forall k, w :: Named(h', w) == Some(x) && w.At? && k != i ==>
      Named(h', At(w.root, w.steps + [k])) == Walk(h.objs, Some(x), [k])
  {
    assert forall k :: 0 <= k < |Vals(h.objs, x)| ==>
      Vals(h'.objs, x)[k] == if k == i then Named(h, v) else Vals(h.objs, x)[k];
    assert |Vals(h'.objs, x)| == |Vals(h.objs, x)| && i < |Vals(h.objs, x)|;
    hide Effect, Walk, Vals, Named;
    forall w | Named(h', w) == Some(x) && w.At? ensures Named(h', At(w.root, w.steps + [i])) == Named(h, v) {
      FieldAt(h', w, x, i);
    }
    forall k, w | Named(h', w) == Some(x) && w.At? && k != i
      ensures Named(h', At(w.root, w.steps + [k])) == Walk(h.objs, Some(x), [k])
    {
      FieldAt(h', w, x, k);
      FieldOr(h, x, k);
      FieldOr(h', x, k);
    }
  }

  /** A fixed object stays, and stays fixed, whatever the program and the collector do. */
  lemma {:induction false} FixedForever(hs: seq<Heap>, actions: seq<Action>, i: nat, j: nat, x: Id, hash: string -> nat)
    requires Trace(hs, actions, hash) && i <= j <= |actions| && x in hs[i].objs && hs[i].objs[x].m.fixed
    ensures x in hs[j].objs && hs[j].objs[x].m.fixed
  {
    hide Took, Inv;
    if i < j {
      FixedForever(hs, actions, i, j - 1, x, hash);
      assert Took(hs[j - 1], actions[j - 1], hs[j - 1 + 1]);
      FixedStays(hs[j - 1], actions[j - 1], hs[j], x);
    }
  }

  lemma FixedStays(h: Heap, a: Action, h': Heap, x: Id)
    requires Took(h, a, h') && x in h.objs && h.objs[x].m.fixed
    ensures x in h'.objs && h'.objs[x].m.fixed
  {
    hide Effect, Touched, Least, StepResult, Reach;
    if a.Collect? { assert x in Fixed(h); }
  }

  /** Only three actions bring something back: an equal string that is there, an open upvalue of a
      captured slot, and what lies between the old top and a higher one. */
  lemma RevivedOnly(h: Heap, a: Action, x: Id)
    requires IsThread(h.objs, h.running)
    ensures x in Revived(h, a) <==>
      || (a.MakeString? && x in h.objs && h.objs[x].b == Str(a.text))
      || (a.MakeClosure? && x in h.objs && InSlots(h.objs[x].b, h.running, a.captured))
      || (a.SetTop? && Between(h.objs[h.running].b, a.n, x))
  {
  }

  ghost predicate InSlots(b: Body, th: Id, captured: seq<nat>) {
    exists j :: 0 <= j < |captured| && b == Open(th, captured[j])
  }

  ghost predicate Between(b: Body, top: nat, x: Id)
    requires b.Thread?
  {
    exists i :: b.top <= i < top && i < |b.stack| && b.stack[i] == Some(x)
  }

  /** A program that never raises a thread's top is calm. */
  lemma NoRaiseCalm(hs: seq<Heap>, actions: seq<Action>)
    requires forall i :: 0 <= i < |actions| && i < |hs| && actions[i].SetTop? && IsThread(hs[i].objs, hs[i].running) ==>
      actions[i].n <= hs[i].objs[hs[i].running].b.top
    ensures AllCalm(hs, actions)
  {
  }
}
