/** What the program does to the heap as it sees it: which objects keep their looks, and how the others change. */
module GcEffects {
  import opened Wrappers
  import opened GcHeap
  import opened GcMark
  import opened GcUpvals
  import opened GcStep
  import opened GcWrite
  import opened GcCells

  datatype Kind = UDATA | FUNC | TABLE | PROTO | UPVAL | THREAD

  /** Where a new reference goes: over the i-th, or behind the last one. */
  function WithRef(b: Body, i: nat, v: Ref): Body
    requires Plain(b)
  {
    match b
    case Udata(refs) => Udata(PutAt(refs, i, v))
    case Func(refs) => Func(PutAt(refs, i, v))
    case Table(refs) => Table(PutAt(refs, i, v))
    case Proto(refs) => Proto(PutAt(refs, i, v))
    case Closed(_) => Closed(v)
  }

  function PutAt(refs: seq<Ref>, i: nat, v: Ref): seq<Ref> { if i < |refs| then refs[i := v] else refs + [v] }

  /** Objects with fields: all but threads, strings and upvalues. */
  predicate HasFields(b: Body) { b.Udata? || b.Func? || b.Table? || b.Proto? }

  /** An object of the given kind with the given references. */
  function BodyOf(kind: Kind, refs: seq<Ref>): Body {
    match kind
    case UDATA => Udata(refs)
    case FUNC => Func(refs)
    case TABLE => Table(refs)
    case PROTO => Proto(refs)
    case UPVAL => Closed(if refs == [] then None else refs[0])
    case THREAD => Thread(if refs == [] then None else refs[0], [], 0, [])
  }

  /** The stack with v on top. */
  function Pushed(b: Body, v: Ref): Body
    requires b.Thread? && b.top <= |b.stack|
  {
    b.(stack := if b.top < |b.stack| then b.stack[b.top := v] else b.stack + [v], top := b.top + 1)
  }

  /** v is on top of the stack that was b's, and everything below is as it was. */
  predicate OnTop(b: Body, v: Ref, b': Body)
    requires b.Thread? && b.top <= |b.stack|
  {
    && b'.Thread? && b'.env == b.env && b'.top == b.top + 1 <= |b'.stack|
    && b'.stack[b.top] == v && (forall i :: 0 <= i < b.top ==> b'.stack[i] == b.stack[i])
    && |b'.stack| == if b.top < |b.stack| then |b.stack| else |b.stack| + 1
  }

  lemma PushedOnTop(b: Body, v: Ref, b': Body)
    requires b.Thread? && b.top <= |b.stack|
    ensures OnTop(b, v, b') <==> Looks(Pushed(b, v), b')
  {
    var s, n := Pushed(b, v).stack, b.top + 1;
    if OnTop(b, v, b') { assert b'.stack[..n] == s[..n]; }
  }

  /** The i-th reference of b, or a new one behind the last, is now v; the others are as they were. */
  predicate FieldSet(b: Body, i: nat, v: Ref, b': Body)
    requires HasFields(b)
  {
    var n, j := |b.refs|, if i < |b.refs| then i else |b.refs|;
    && (b'.Udata? || b'.Func? || b'.Table? || b'.Proto?) && b' == b.(refs := b'.refs)
    && |b'.refs| == (if i < n then n else n + 1) && b'.refs[j] == v
    && forall k :: 0 <= k < n && k != j ==> b'.refs[k] == b.refs[k]
  }

  lemma FieldSetIs(b: Body, i: nat, v: Ref, b': Body)
    requires HasFields(b)
    ensures FieldSet(b, i, v, b') <==> b' == WithRef(b, i, v)
  {
    if FieldSet(b, i, v, b') { assert b'.refs == PutAt(b.refs, i, v); }
  }

  /** Of the stack that was b's, `top` of n slots are in use; slots that have appeared are nil. */
  predicate Framed(b: Body, top: nat, n: nat, b': Body)
    requires b.Thread? && top <= n
  {
    && b'.Thread? && b'.env == b.env && b'.top == top && |b'.stack| == n
    && forall i :: 0 <= i < top ==> b'.stack[i] == if i < |b.stack| then b.stack[i] else None
  }

  lemma FramedIs(b: Body, top: nat, n: nat, b': Body)
    requires b.Thread? && top <= n
    ensures Framed(b, top, n, b') <==> Looks(b.(top := top, stack := Resized(b.stack, n)), b')
  {
    var s := Resized(b.stack, n);
    if Framed(b, top, n, b') { assert b'.stack[..top] == s[..top]; }
  }

  /** A frame of n slots above the bottom: slots that appear are nil, slots that go are forgotten. */
  function Resized(stack: seq<Ref>, n: nat): seq<Ref> {
    if n <= |stack| then stack[..n] else stack + seq(n - |stack|, i => None)
  }

  // ----- keeping one's looks -----

  /** The program cannot tell b' from b: a thread's list of open upvalues and its stale slots do not show. */
  predicate Looks(b: Body, b': Body) {
    if b.Thread? then
      && b'.Thread? && b'.env == b.env && b'.top == b.top && |b'.stack| == |b.stack|
      && (b.top <= |b.stack| ==> b'.stack[..b.top] == b.stack[..b.top])
    else b' == b
  }

  /** All live objects but those in S look as they did. */
  ghost predicate BodiesKept(h: Heap, h': Heap, S: set<Id>) {
    forall x: Id :: Live(h, x) && x !in S ==> Live(h', x) && Looks(h.objs[x].b, h'.objs[x].b)
  }

  /** The same, but upvalues of th at or above the level may be closed. */
  ghost predicate MayClose(h: Heap, h': Heap, th: Id, level: nat) {
    forall x: Id :: Live(h, x) ==>
      && Live(h', x)
      && (Looks(h.objs[x].b, h'.objs[x].b) || (CapturedFrom(h.objs[x].b, th, level) && h'.objs[x].b.Closed?))
  }

  predicate CapturedFrom(b: Body, th: Id, level: nat) { b.Open? && b.th == th && b.level >= level }

  /** The same, but exactly those upvalues are closed. */
  ghost predicate ClosesFrom(h: Heap, h': Heap, th: Id, level: nat, S: set<Id>) {
    forall x: Id :: Live(h, x) && x !in S ==>
      && Live(h', x)
      && if CapturedFrom(h.objs[x].b, th, level) then h'.objs[x].b.Closed? else Looks(h.objs[x].b, h'.objs[x].b)
  }

  predicate SameRoots(h: Heap, h': Heap) {
    h'.main == h.main && h'.running == h.running && h'.registry == h.registry && h'.mt == h.mt
  }

  lemma BodiesTrans(a: Heap, b: Heap, c: Heap, S: set<Id>)
    requires BodiesKept(a, b, S) && BodiesKept(b, c, S)
    ensures BodiesKept(a, c, S)
  {
  }

  /** Every body is the old one, but those in S. */
  lemma BodiesSame(h: Heap, h': Heap, S: set<Id>)
    requires forall x :: Live(h, x) ==> Live(h', x)
    requires forall x :: x in h.objs && x !in S ==> x in h'.objs && h'.objs[x].b == h.objs[x].b
    ensures BodiesKept(h, h', S)
  {
  }

  lemma CloseNone(h: Heap, th: Id, level: nat)
    ensures MayClose(h, h, th, level)
  {
  }

  lemma ClosesTrans(a: Heap, b: Heap, c: Heap, th: Id, level: nat)
    requires MayClose(a, b, th, level) && MayClose(b, c, th, level)
    ensures MayClose(a, c, th, level)
  {
  }

  lemma ClosesAll(h: Heap, h': Heap, th: Id, level: nat)
    requires MayClose(h, h', th, level)
    requires forall u :: u in h'.objs && h'.objs[u].b.Open? && h'.objs[u].b.th == th ==> h'.objs[u].b.level < level
    ensures ClosesFrom(h, h', th, level, {})
  {
  }

  lemma ClosesThen(a: Heap, b: Heap, c: Heap, th: Id, level: nat, S: set<Id>)
    requires ClosesFrom(a, b, th, level, {}) && BodiesKept(b, c, S)
    ensures ClosesFrom(a, c, th, level, S)
  {
  }

  /** One open upvalue of th is freed or closed. */
  lemma CloseLooks(h: Heap, th: Id, h': Heap, level: nat)
    requires IsThread(h.objs, th) && h.objs[th].b.open != []
    requires var u := h.objs[th].b.open[0]; u in h.objs && CapturedFrom(h.objs[u].b, th, level) && u != th
    requires || SameBodies(CloseUv(h, th, 0).objs, h'.objs)
             || (h'.objs == FreeUv(h, th, 0).objs && !Live(h, h.objs[th].b.open[0]))
    requires forall x :: Live(h, x) ==> Live(h', x)
    ensures MayClose(h, h', th, level)
  {
  }

  // ----- effects -----

  /** v is pushed on the running thread's stack. */
  ghost predicate Pushes(h: Heap, h': Heap, v: Ref) {
    && SameRoots(h, h') && BodiesKept(h, h', {h.running}) && CellsKept(h, h')
    && IsThread(h.objs, h.running) && h.objs[h.running].b.top <= |h.objs[h.running].b.stack|
    && Live(h', h.running) && OnTop(h.objs[h.running].b, v, h'.objs[h.running].b)
  }

  /** A new object x with body b, on top of the stack. */
  ghost predicate Makes(h: Heap, h': Heap, x: Id, b: Body) {
    Pushes(h, h', Some(x)) && x !in h.objs && x in h'.objs && Looks(b, h'.objs[x].b)
  }

  /** The one string with that text, on top of the stack. */
  ghost predicate MakesString(h: Heap, h': Heap, x: Id, text: string) {
    && Pushes(h, h', Some(x)) && x in h'.objs && h'.objs[x].b == Str(text)
    && (x in h.objs ==> h.objs[x].b == Str(text))
    && (forall y :: Live(h, y) && h.objs[y].b == Str(text) ==> y == x)
  }

  /** The captured slots that are in use. */
  function InUse(captured: seq<nat>, top: nat): seq<nat> {
    if captured == [] then []
    else
      var last := captured[|captured| - 1];
      InUse(captured[..|captured| - 1], top) + if last < top then [last] else []
  }

  function Somes(us: seq<Id>): (r: seq<Ref>)
    ensures |r| == |us| && forall i :: 0 <= i < |r| ==> r[i] == Some(us[i])
  {
    seq(|us|, i requires 0 <= i < |us| => Some(us[i]))
  }

  /** us are the open upvalues of the given slots of th: those there were, and new ones for the others. */
  ghost predicate Captures(h: Heap, h': Heap, th: Id, slots: seq<nat>, us: seq<Id>) {
    && |us| == |slots|
    && (forall j :: 0 <= j < |us| ==> Live(h', us[j]) && h'.objs[us[j]].b == Open(th, slots[j]))
    && (forall j :: 0 <= j < |us| && Live(h, us[j]) ==> h.objs[us[j]].b == Open(th, slots[j]))
    && (forall j, y :: 0 <= j < |us| && Live(h, y) && h.objs[y].b == Open(th, slots[j]) ==> y == us[j])
  }

  /** A new closure x, on top of the stack, with its captured variables. */
  ghost predicate MakesClosure(h: Heap, h': Heap, x: Id, refs: seq<Ref>, captured: seq<nat>, us: seq<Id>) {
    && Makes(h, h', x, Func(refs + Somes(us)))
    && Captures(h, h', h.running, InUse(captured, h.objs[h.running].b.top), us)
  }

  ghost predicate SetsField(h: Heap, h': Heap, o: Ref, i: nat, v: Ref) {
    && SameRoots(h, h') && CellsKept(h, h')
    && if o.Some? && o.value in h.objs && HasFields(h.objs[o.value].b) then
         BodiesKept(h, h', {o.value}) && o.value in h'.objs && FieldSet(h.objs[o.value].b, i, v, h'.objs[o.value].b)
       else BodiesKept(h, h', {})
  }

  /** A write to slot i of th: the captured variable there has the new value, too. */
  ghost predicate SetsSlot(h: Heap, h': Heap, th: Id, i: nat, v: Ref) {
    && SameRoots(h, h')
    && (forall u: Id :: LiveUpval(h, u) ==> LiveUpval(h', u) && Cell(h'.objs, u) == SlotCell(h, th, i, v, u))
    && if IsThread(h.objs, th) && i < |h.objs[th].b.stack| then
         BodiesKept(h, h', {th}) && th in h'.objs && h'.objs[th].b == h.objs[th].b.(stack := h.objs[th].b.stack[i := v])
       else BodiesKept(h, h', {})
  }

  /** The variable u has the new value, wherever it is kept. */
  ghost predicate SetsUpval(h: Heap, h': Heap, u: Ref, v: Ref) {
    if u.Some? && u.value in h.objs && h.objs[u.value].b.Closed? then
      && SameRoots(h, h') && CellsBut(h, h', u)
      && BodiesKept(h, h', {u.value}) && u.value in h'.objs && h'.objs[u.value].b == Closed(v)
    else if u.Some? && u.value in h.objs && h.objs[u.value].b.Open? then
      SetsSlot(h, h', h.objs[u.value].b.th, h.objs[u.value].b.level, v)
    else Quiet(h, h')
  }

  /** Nothing changes. */
  ghost predicate Quiet(h: Heap, h': Heap) { SameRoots(h, h') && Still(h, h') }

  /** The string o is fixed, and no other object that was not. */
  ghost predicate Fixes(h: Heap, h': Heap, o: Ref) {
    && Quiet(h, h')
    && (o.Some? && o.value in h.objs && h.objs[o.value].b.Str? ==> o.value in h'.objs && h'.objs[o.value].m.fixed)
    && forall x: Id :: x in h'.objs && h'.objs[x].m.fixed ==> (x in h.objs && h.objs[x].m.fixed) || o == Some(x)
  }

  ghost predicate Still(h: Heap, h': Heap) { BodiesKept(h, h', {}) && CellsKept(h, h') }

  /** The running thread gets a frame of n slots, `top` of them in use; what is captured above is closed. */
  ghost predicate Frames(h: Heap, h': Heap, top: nat, n: nat) {
    && SameRoots(h, h') && CellsKept(h, h') && ClosesFrom(h, h', h.running, top, {h.running})
    && IsThread(h.objs, h.running) && Live(h', h.running) && top <= n
    && Framed(h.objs[h.running].b, top, n, h'.objs[h.running].b)
  }

  ghost predicate SetsEnv(h: Heap, h': Heap, th: Ref, v: Ref) {
    && SameRoots(h, h') && CellsKept(h, h')
    && if th.Some? && IsThread(h.objs, th.value) then
         BodiesKept(h, h', {th.value}) && th.value in h'.objs && Looks(h.objs[th.value].b.(env := v), h'.objs[th.value].b)
       else BodiesKept(h, h', {})
  }

  ghost predicate SetsMt(h: Heap, h': Heap, i: nat, v: Ref) {
    && Still(h, h') && h'.main == h.main && h'.running == h.running && h'.registry == h.registry
    && h'.mt == if i < |h.mt| then h.mt[i := v] else h.mt
  }

  ghost predicate Runs(h: Heap, h': Heap, th: Ref) {
    && Still(h, h') && h'.main == h.main && h'.registry == h.registry && h'.mt == h.mt
    && h'.running == if th.Some? && IsThread(h.objs, th.value) then th.value else h.running
  }

  /** The collector shows nothing: what the program can reach is there, and looks as it did. */
  ghost predicate Unseen(h: Heap, h': Heap) {
    && SameRoots(h, h')
    && forall x: Id :: Reach(h, x) ==> x in h.objs && x in h'.objs && SeenSame(h, h', x)
  }

  ghost predicate SeenSame(h: Heap, h': Heap, x: Id)
    requires x in h.objs && x in h'.objs
  {
    if IsUpval(h.objs[x].b) then
      && IsUpval(h'.objs[x].b) && Cell(h'.objs, x) == Cell(h.objs, x)
      && (h'.objs[x].b == h.objs[x].b || (h'.objs[x].b.Closed? && h.objs[x].b.Open? && !Reach(h, h.objs[x].b.th)))
    else Looks(h.objs[x].b, h'.objs[x].b)
  }

  lemma RootsSame(h: Heap, h': Heap)
    requires Roots(h') == Roots(h)
    ensures SameRoots(h, h')
  {
    assert Roots(h)[0] == Roots(h')[0] && Roots(h)[1] == Roots(h')[1] && Roots(h)[2] == Roots(h')[2];
    assert h.mt == Roots(h)[3..] && h'.mt == Roots(h')[3..];
  }

  lemma SameUnseen(h: Heap, h': Heap)
    requires Safe(h) && Same(h, h') && forall x :: Reach(h, x) ==> x in h'.objs
    ensures Unseen(h, h')
  {
    RootsSame(h, h');
    forall x: Id | Reach(h, x) ensures x in h.objs && x in h'.objs && SeenSame(h, h', x) {
      ReachSafe(h, x);
      SeenAs(h, h', x);
    }
  }

  lemma SeenAs(h: Heap, h': Heap, x: Id)
    requires x in h.objs && x in h'.objs && Vals(h'.objs, x) == Vals(h.objs, x)
    requires SameContent(h.objs[x].b, h'.objs[x].b)
    requires h.objs[x].b.Open? && Reach(h, h.objs[x].b.th) ==> h'.objs[x].b == h.objs[x].b
    ensures SeenSame(h, h', x)
  {
    if IsUpval(h.objs[x].b) {
      CellIsVals(h.objs, x);
      CellIsVals(h'.objs, x);
    } else if h.objs[x].b.Thread? {
      assert Vals(h.objs, x)[1..] == (if h.objs[x].b.top <= |h.objs[x].b.stack| then h.objs[x].b.stack[..h.objs[x].b.top] else h.objs[x].b.stack);
      assert Vals(h'.objs, x)[1..] == (if h'.objs[x].b.top <= |h'.objs[x].b.stack| then h'.objs[x].b.stack[..h'.objs[x].b.top] else h'.objs[x].b.stack);
    }
  }

  // ----- effects one after the other -----

  lemma LooksTrans(a: Body, b: Body, c: Body)
    requires Looks(a, b) && Looks(b, c)
    ensures Looks(a, c)
  {
  }

  lemma LaterOnTop(b: Body, b1: Body, v: Ref, b2: Body)
    requires b.Thread? && b.top <= |b.stack| && Looks(b, b1) && OnTop(b1, v, b2)
    ensures OnTop(b, v, b2)
  {
    forall i | 0 <= i < b.top ensures b2.stack[i] == b.stack[i] { assert b1.stack[..b.top][i] == b.stack[..b.top][i]; }
  }

  /** Something that does not show, then a push. */
  lemma ThenPushes(h: Heap, h1: Heap, h2: Heap, v: Ref)
    requires SameRoots(h, h1) && Still(h, h1) && Pushes(h1, h2, v)
    requires IsThread(h.objs, h.running) && Live(h, h.running) && h.objs[h.running].b.top <= |h.objs[h.running].b.stack|
    ensures Pushes(h, h2, v)
  {
    LaterOnTop(h.objs[h.running].b, h1.objs[h.running].b, v, h2.objs[h.running].b);
    hide Looks, OnTop;
    CellsTrans(h, h1, h2);
    hide CellsBut;
    forall x: Id | Live(h, x) && x !in {h.running} ensures Live(h2, x) && Looks(h.objs[x].b, h2.objs[x].b) {
      LooksTrans(h.objs[x].b, h1.objs[x].b, h2.objs[x].b);
    }
  }

  /** A change to an object that is new. */
  lemma BodiesButNew(h: Heap, h1: Heap, h2: Heap, x: Id)
    requires BodiesKept(h, h1, {}) && BodiesKept(h1, h2, {x}) && x !in h.objs
    ensures BodiesKept(h, h2, {})
  {
    hide Looks;
    forall y: Id | Live(h, y) && y !in {} ensures Live(h2, y) && Looks(h.objs[y].b, h2.objs[y].b) {
      assert y !in {};
      LooksTrans(h.objs[y].b, h1.objs[y].b, h2.objs[y].b);
    }
  }

  lemma StringAlone(h: Heap, x: Id, y: Id, text: string, hash: string -> nat)
    requires Inv(h, hash) && x in h.objs && y in h.objs && h.objs[x].b == Str(text) && h.objs[y].b == Str(text)
    ensures x == y
  {
    assert StringsOk(h, hash);
  }

  /** One more captured variable. */
  lemma CapturesMore(h: Heap, h1: Heap, h2: Heap, th: Id, slots: seq<nat>, us: seq<Id>, level: nat, u: Id)
    requires Captures(h, h1, th, slots, us) && BodiesKept(h, h1, {}) && BodiesKept(h1, h2, {})
    requires Live(h2, u) && h2.objs[u].b == Open(th, level)
    requires forall y :: y in h1.objs && h1.objs[y].b == Open(th, level) ==> y == u
    ensures Captures(h, h2, th, slots + [level], us + [u])
  {
  }

  lemma CapturesStay(h: Heap, h1: Heap, h2: Heap, th: Id, slots: seq<nat>, us: seq<Id>, S: set<Id>)
    requires Captures(h, h1, th, slots, us) && BodiesKept(h1, h2, S)
    requires forall x :: x in S && x in h1.objs ==> !h1.objs[x].b.Open?
    ensures Captures(h, h2, th, slots, us)
  {
  }

  lemma CapturesNone(h: Heap, h1: Heap, th: Id)
    ensures Captures(h, h1, th, [], [])
  {
  }
}
