/** Ownership of shared message handlers (include/gsml3parser/flat_handler.h). */
module FlatHandlers {

  /** The trampoline's address marks a handler whose context is a per-owner holder. */
  datatype Fn = NullFn | Trampoline | Plain(id: nat)

  datatype Handler = Handler(fn: Fn, ctx: nat)

  const EMPTY := Handler(NullFn, 0)

  predicate IsShared(h: Handler) { h.fn == Trampoline && h.ctx != 0 }

  /**
   The handler objects in scope; the holders on the heap, each with a reference to a callable; the reference count of
   each live callable; and the callables freed so far.
   */
  datatype Heap = Heap(vars: map<nat, Handler>, holders: map<nat, nat>, counts: map<nat, nat>, freed: seq<nat>)

  datatype Op =
    | MakePlain(v: nat, fn: nat, ctx: nat)
    | MakeShared(v: nat, holder: nat, callable: nat)
    | CopyNew(v: nat, from: nat, holder: nat)
    | MoveNew(v: nat, from: nat)
    | CopyAssign(v: nat, from: nat, holder: nat)
    | MoveAssign(v: nat, from: nat)
    | Release(v: nat)
    | Destroy(v: nat)

  /** What the language and the heap guarantee: objects are constructed once, allocations are fresh. */
  predicate Allowed(h: Heap, op: Op) {
    match op
    case MakePlain(v, _, _) => v !in h.vars
    case MakeShared(v, a, c) => v !in h.vars && a != 0 && a !in h.holders && c !in h.counts && c !in h.freed
    case CopyNew(v, from, a) => v !in h.vars && from in h.vars && a != 0 && a !in h.holders
    case MoveNew(v, from) => v !in h.vars && from in h.vars
    case CopyAssign(v, from, a) => v in h.vars && from in h.vars && a != 0 && a !in h.holders
    case MoveAssign(v, from) => v in h.vars && from in h.vars
    case Release(v) => v in h.vars
    case Destroy(v) => v in h.vars
  }

  // ----- The steps -----

  /** A fresh holder sharing the callable of an existing one. */
  function Acquire(h: Heap, ctx: nat, a: nat): Heap
    requires ctx in h.holders && h.holders[ctx] in h.counts
  {
    var c := h.holders[ctx];
    h.(holders := h.holders[a := c], counts := h.counts[c := h.counts[c] + 1])
  }

  /** Deleting a holder drops one reference; the last one frees the callable. */
  function DeleteHolder(h: Heap, ctx: nat): Heap
    requires ctx in h.holders && h.holders[ctx] in h.counts && h.counts[h.holders[ctx]] >= 1
  {
    var c := h.holders[ctx];
    if h.counts[c] == 1 then h.(holders := h.holders - {ctx}, counts := h.counts - {c}, freed := h.freed + [c])
    else h.(holders := h.holders - {ctx}, counts := h.counts[c := h.counts[c] - 1])
  }

  /** Every shared handler in scope has a live holder whose callable is live. */
  predicate Backed(h: Heap) {
    && (forall v :: v in h.vars && IsShared(h.vars[v]) ==> h.vars[v].ctx in h.holders)
    && (forall a :: a in h.holders ==> h.holders[a] in h.counts && h.counts[h.holders[a]] >= 1)
  }

  function ReleaseShared(h: Heap, x: Handler): Heap
    requires Backed(h) && (IsShared(x) ==> x.ctx in h.holders)
  {
    if IsShared(x) then DeleteHolder(h, x.ctx) else h
  }

  function Step(h: Heap, op: Op): Heap
    requires Backed(h) && Allowed(h, op)
  {
    match op
    case MakePlain(v, f, c) => h.(vars := h.vars[v := Handler(Plain(f), c)])
    case MakeShared(v, a, c) =>
      h.(holders := h.holders[a := c], counts := h.counts[c := 1], vars := h.vars[v := Handler(Trampoline, a)])
    case CopyNew(v, from, a) =>
      var x := h.vars[from];
      if IsShared(x) then var g := Acquire(h, x.ctx, a); g.(vars := g.vars[v := x.(ctx := a)])
      else h.(vars := h.vars[v := x])
    case MoveNew(v, from) => h.(vars := h.vars[v := h.vars[from]][from := EMPTY])
    case CopyAssign(v, from, a) =>
      if v == from then h
      else
        var x := h.vars[from];
        var g := if IsShared(x) then Acquire(h, x.ctx, a) else h;
        var r := ReleaseShared(g, h.vars[v]);
        r.(vars := r.vars[v := if IsShared(x) then x.(ctx := a) else x])
    case MoveAssign(v, from) =>
      if v == from then h
      else var r := ReleaseShared(h, h.vars[v]); r.(vars := r.vars[v := h.vars[from]][from := EMPTY])
    case Release(v) => var r := ReleaseShared(h, h.vars[v]); r.(vars := r.vars[v := EMPTY])
    case Destroy(v) => var r := ReleaseShared(h, h.vars[v]); r.(vars := r.vars - {v})
  }

  // ----- Ownership -----

  /** The holders that refer to a callable. */
  function Holding(holders: map<nat, nat>, c: nat): set<nat> { set a | a in holders && holders[a] == c }

  /** Callables: the count is the number of holders, and a freed callable is gone for good. */
  predicate Counted(holders: map<nat, nat>, counts: map<nat, nat>, freed: seq<nat>) {
    && (forall a :: a in holders ==> holders[a] in counts)
    && (forall c :: c in counts ==> counts[c] == |Holding(holders, c)| && counts[c] >= 1)
    && (forall i :: 0 <= i < |freed| ==> freed[i] !in counts)
    && (forall i, j :: 0 <= i < j < |freed| ==> freed[i] != freed[j])
  }

  /** Holders: each belongs to exactly one handler in scope. */
  predicate OwnedOnce(vars: map<nat, Handler>, holders: map<nat, nat>) {
    && 0 !in holders
    && (forall v :: v in vars && IsShared(vars[v]) ==> vars[v].ctx in holders)
    && (forall v, w :: v in vars && w in vars && v != w && IsShared(vars[v]) && IsShared(vars[w]) ==>
          vars[v].ctx != vars[w].ctx)
    && (forall a :: a in holders ==> exists v :: v in vars && IsShared(vars[v]) && vars[v].ctx == a)
  }

  predicate Owned(h: Heap) { OwnedOnce(h.vars, h.holders) && Counted(h.holders, h.counts, h.freed) }

  lemma AddHolder(holders: map<nat, nat>, counts: map<nat, nat>, freed: seq<nat>, a: nat, c: nat)
    requires Counted(holders, counts, freed) && a !in holders && c !in freed
    ensures Counted(holders[a := c], counts[c := (if c in counts then counts[c] else 0) + 1], freed)
  {
    var g := holders[a := c];
    assert Holding(g, c) == Holding(holders, c) + {a};
    forall d | d != c ensures Holding(g, d) == Holding(holders, d) {}
    if c !in counts { assert Holding(holders, c) == {}; }
  }

  lemma DropHolder(h: Heap, a: nat)
    requires Counted(h.holders, h.counts, h.freed) && a in h.holders
    ensures var g := DeleteHolder(h, a); Counted(g.holders, g.counts, g.freed)
  {
    var c := h.holders[a];
    var g := DeleteHolder(h, a);
    assert Holding(h.holders, c) == Holding(g.holders, c) + {a};
    forall d | d != c ensures Holding(g.holders, d) == Holding(h.holders, d) {}
    if h.counts[c] == 1 {
      assert Holding(g.holders, c) == {};
      forall b | b in g.holders ensures g.holders[b] in g.counts { assert b !in Holding(g.holders, c); }
    }
  }

  lemma OwnedBacked(h: Heap)
    requires Owned(h)
    ensures Backed(h)
  {
  }

  lemma LiveIsNotFreed(h: Heap, a: nat)
    requires Owned(h) && a in h.holders
    ensures h.holders[a] in h.counts && h.holders[a] !in h.freed
  {
  }

  predicate Vacant(vars: map<nat, Handler>, v: nat) { v in vars ==> !IsShared(vars[v]) }

  lemma BindFresh(vars: map<nat, Handler>, holders: map<nat, nat>, v: nat, a: nat, c: nat)
    requires OwnedOnce(vars, holders) && Vacant(vars, v) && a !in holders && a != 0
    ensures OwnedOnce(vars[v := Handler(Trampoline, a)], holders[a := c])
  {
    var g := vars[v := Handler(Trampoline, a)];
    assert g[v].ctx == a;
    forall b | b in holders
      ensures exists w :: w in g && IsShared(g[w]) && g[w].ctx == b
    {
      var w :| w in vars && IsShared(vars[w]) && vars[w].ctx == b;
      assert w != v && g[w] == vars[w];
    }
  }

  lemma BindPlain(vars: map<nat, Handler>, holders: map<nat, nat>, v: nat, x: Handler)
    requires OwnedOnce(vars, holders) && Vacant(vars, v) && !IsShared(x)
    ensures OwnedOnce(vars[v := x], holders)
  {
    var g := vars[v := x];
    forall b | b in holders
      ensures exists w :: w in g && IsShared(g[w]) && g[w].ctx == b
    {
      var w :| w in vars && IsShared(vars[w]) && vars[w].ctx == b;
      assert w != v && g[w] == vars[w];
    }
  }

  lemma Unbind(vars: map<nat, Handler>, holders: map<nat, nat>, v: nat)
    requires OwnedOnce(vars, holders) && v in vars && IsShared(vars[v])
    ensures OwnedOnce(vars[v := EMPTY], holders - {vars[v].ctx})
  {
    var g := vars[v := EMPTY];
    forall b | b in holders - {vars[v].ctx}
      ensures exists w :: w in g && IsShared(g[w]) && g[w].ctx == b
    {
      var w :| w in vars && IsShared(vars[w]) && vars[w].ctx == b;
      assert w != v && g[w] == vars[w];
    }
  }

  lemma Transfer(vars: map<nat, Handler>, holders: map<nat, nat>, v: nat, from: nat)
    requires OwnedOnce(vars, holders) && Vacant(vars, v) && from in vars && v != from
    ensures OwnedOnce(vars[v := vars[from]][from := EMPTY], holders)
  {
    var g := vars[v := vars[from]][from := EMPTY];
    forall b | b in holders
      ensures exists w :: w in g && IsShared(g[w]) && g[w].ctx == b
    {
      var w :| w in vars && IsShared(vars[w]) && vars[w].ctx == b;
      if w == from { assert g[v] == vars[w]; } else { assert g[w] == vars[w]; }
    }
  }

  lemma Forget(vars: map<nat, Handler>, holders: map<nat, nat>, v: nat)
    requires OwnedOnce(vars, holders) && Vacant(vars, v)
    ensures OwnedOnce(vars - {v}, holders)
  {
    var g := vars - {v};
    forall b | b in holders
      ensures exists w :: w in g && IsShared(g[w]) && g[w].ctx == b
    {
      var w :| w in vars && IsShared(vars[w]) && vars[w].ctx == b;
      assert w != v && g[w] == vars[w];
    }
  }

  /** Releasing what `v` owns and emptying it. */
  lemma ReleaseOwned(h: Heap, v: nat)
    requires Owned(h) && Backed(h) && v in h.vars
    ensures var r := ReleaseShared(h, h.vars[v]); Owned(r.(vars := h.vars[v := EMPTY])) && r.vars == h.vars
  {
    if IsShared(h.vars[v]) {
      DropHolder(h, h.vars[v].ctx);
      Unbind(h.vars, h.holders, v);
    } else {
      BindPlain(h.vars, h.holders, v, EMPTY);
    }
  }

  lemma CopyNewOwned(h: Heap, v: nat, from: nat, a: nat)
    requires Owned(h) && Backed(h) && Allowed(h, CopyNew(v, from, a))
    ensures Owned(Step(h, CopyNew(v, from, a)))
  {
    hide OwnedOnce, Counted;
    var x := h.vars[from];
    if IsShared(x) {
      LiveIsNotFreed(h, x.ctx);
      var c := h.holders[x.ctx];
      AddHolder(h.holders, h.counts, h.freed, a, c);
      BindFresh(h.vars, h.holders, v, a, c);
    } else {
      BindPlain(h.vars, h.holders, v, x);
    }
  }

  /** Assigning a handler that owns nothing. */
  lemma AssignPlainOwned(h: Heap, v: nat, x: Handler)
    requires Owned(h) && Backed(h) && v in h.vars && !IsShared(x)
    ensures var r := ReleaseShared(h, h.vars[v]); Owned(r.(vars := r.vars[v := x]))
  {
    hide OwnedOnce, Counted;
    ReleaseOwned(h, v);
    var r := ReleaseShared(h, h.vars[v]);
    BindPlain(h.vars[v := EMPTY], r.holders, v, x);
    assert h.vars[v := EMPTY][v := x] == h.vars[v := x];
  }

  /** Assigning a shared handler: the new reference is acquired before the old one is dropped. */
  lemma AssignSharedOwned(h: Heap, v: nat, ctx: nat, a: nat)
    requires Owned(h) && Backed(h) && v in h.vars && ctx in h.holders && a != 0 && a !in h.holders
    ensures var g := Acquire(h, ctx, a); Backed(g) && (IsShared(h.vars[v]) ==> h.vars[v].ctx in g.holders)
    ensures var r := ReleaseShared(Acquire(h, ctx, a), h.vars[v]);
      Owned(r.(vars := h.vars[v := Handler(Trampoline, a)])) && r.vars == h.vars
  {
    hide OwnedOnce, Counted;
    var old', c := h.vars[v], h.holders[ctx];
    LiveIsNotFreed(h, ctx);
    AddHolder(h.holders, h.counts, h.freed, a, c);
    var g := Acquire(h, ctx, a);
    if IsShared(old') {
      DropHolder(g, old'.ctx);
      Unbind(h.vars, h.holders, v);
      BindFresh(h.vars[v := EMPTY], h.holders - {old'.ctx}, v, a, c);
      assert (h.holders - {old'.ctx})[a := c] == g.holders - {old'.ctx};
      assert h.vars[v := EMPTY][v := Handler(Trampoline, a)] == h.vars[v := Handler(Trampoline, a)];
    } else {
      BindFresh(h.vars, h.holders, v, a, c);
    }
  }

  lemma CopyAssignOwned(h: Heap, v: nat, from: nat, a: nat)
    requires Owned(h) && Backed(h) && Allowed(h, CopyAssign(v, from, a)) && v != from
    ensures Owned(Step(h, CopyAssign(v, from, a)))
  {
    hide Owned, Acquire, DeleteHolder;
    var x := h.vars[from];
    if IsShared(x) { AssignSharedOwned(h, v, x.ctx, a); } else { AssignPlainOwned(h, v, x); }
  }

  lemma MoveAssignOwned(h: Heap, v: nat, from: nat)
    requires Owned(h) && Backed(h) && v in h.vars && from in h.vars && v != from
    ensures Owned(Step(h, MoveAssign(v, from)))
  {
    hide OwnedOnce, Counted;
    ReleaseOwned(h, v);
    var r := ReleaseShared(h, h.vars[v]);
    var e := h.vars[v := EMPTY];
    Transfer(e, r.holders, v, from);
    assert e[v := e[from]][from := EMPTY] == h.vars[v := h.vars[from]][from := EMPTY];
  }

  /** Every operation keeps ownership exact: no double free, no leak, no dangling holder. */
  lemma StepOwned(h: Heap, op: Op)
    requires Owned(h) && Backed(h) && Allowed(h, op)
    ensures Owned(Step(h, op))
  {
    hide OwnedOnce, Counted;
    match op {
      case MakePlain(v, f, c) => BindPlain(h.vars, h.holders, v, Handler(Plain(f), c));
      case MakeShared(v, a, c) =>
        AddHolder(h.holders, h.counts, h.freed, a, c);
        BindFresh(h.vars, h.holders, v, a, c);
      case CopyNew(v, from, a) => CopyNewOwned(h, v, from, a);
      case MoveNew(v, from) => Transfer(h.vars, h.holders, v, from);
      case CopyAssign(v, from, a) => if v != from { CopyAssignOwned(h, v, from, a); }
      case MoveAssign(v, from) => if v != from { MoveAssignOwned(h, v, from); }
      case Release(v) => ReleaseOwned(h, v);
      case Destroy(v) =>
        ReleaseOwned(h, v);
        var r := ReleaseShared(h, h.vars[v]);
        Forget(h.vars[v := EMPTY], r.holders, v);
        assert h.vars[v := EMPTY] - {v} == h.vars - {v};
    }
  }

  lemma StepKeeps(h: Heap, op: Op)
    requires Owned(h) && Backed(h) && Allowed(h, op)
    ensures Owned(Step(h, op)) && Backed(Step(h, op))
  {
    StepOwned(h, op);
    OwnedBacked(Step(h, op));
  }

  // ----- Whole runs -----

  predicate AllowedRun(h: Heap, ops: seq<Op>)
    requires Owned(h)
    decreases |ops|
  {
    OwnedBacked(h);
    ops == [] || (Allowed(h, ops[0]) && (StepOwned(h, ops[0]); AllowedRun(Step(h, ops[0]), ops[1..])))
  }

  function Run(h: Heap, ops: seq<Op>): Heap
    requires Owned(h) && AllowedRun(h, ops)
    decreases |ops|
  {
    OwnedBacked(h);
    if ops == [] then h else StepOwned(h, ops[0]); Run(Step(h, ops[0]), ops[1..])
  }

  /** Over every run of operations, ownership is exact at the end, and what is freed stays freed. */
  lemma {:induction false} OwnershipOverRuns(h: Heap, ops: seq<Op>)
    requires Owned(h) && AllowedRun(h, ops)
    ensures Owned(Run(h, ops)) && h.freed <= Run(h, ops).freed
    decreases |ops|
  {
    hide Owned;
    if ops != [] {
      OwnedBacked(h);
      StepOwned(h, ops[0]);
      OwnershipOverRuns(Step(h, ops[0]), ops[1..]);
    }
  }

  const NOTHING := Heap(map[], map[], map[], [])

  /** When the last handler is gone, no holder and no callable is left, and each callable was freed exactly once. */
  lemma NothingLeaks(ops: seq<Op>)
    requires AllowedRun(NOTHING, ops) && Run(NOTHING, ops).vars == map[]
    ensures var h := Run(NOTHING, ops);
      && h.holders == map[] && h.counts == map[]
      && (forall i, j :: 0 <= i < j < |h.freed| ==> h.freed[i] != h.freed[j])
      && (forall i :: 0 <= i < |ops| && ops[i].MakeShared? ==> ops[i].callable in h.freed)
  {
    hide Owned;
    assert Owned(NOTHING) by { EmptyOwned(); }
    OwnershipOverRuns(NOTHING, ops);
    EmptyScope(Run(NOTHING, ops));
    forall i | 0 <= i < |ops| && ops[i].MakeShared?
      ensures ops[i].callable in Run(NOTHING, ops).freed
    {
      MadeIsTracked(NOTHING, ops, i);
    }
  }

  lemma EmptyOwned()
    ensures Owned(NOTHING)
  {
  }

  /** A live callable is still counted, or freed, at the end of a run. */
  lemma {:induction false} StaysTracked(h: Heap, ops: seq<Op>, c: nat)
    requires Owned(h) && AllowedRun(h, ops) && (c in h.counts || c in h.freed)
    ensures var g := Run(h, ops); c in g.counts || c in g.freed
    decreases |ops|
  {
    hide Owned;
    if ops != [] {
      OwnedBacked(h);
      StepOwned(h, ops[0]);
      FreedOrCounted(h, ops[0], c);
      StaysTracked(Step(h, ops[0]), ops[1..], c);
    }
  }

  lemma {:induction false} MadeIsTracked(h: Heap, ops: seq<Op>, i: nat)
    requires Owned(h) && AllowedRun(h, ops) && i < |ops| && ops[i].MakeShared?
    ensures var g := Run(h, ops); ops[i].callable in g.counts || ops[i].callable in g.freed
    decreases |ops|
  {
    hide Owned;
    OwnedBacked(h);
    StepOwned(h, ops[0]);
    if i == 0 {
      StaysTracked(Step(h, ops[0]), ops[1..], ops[0].callable);
    } else {
      MadeIsTracked(Step(h, ops[0]), ops[1..], i - 1);
    }
  }

  lemma EmptyScope(h: Heap)
    requires Owned(h) && h.vars == map[]
    ensures h.holders == map[] && h.counts == map[]
    ensures forall i, j :: 0 <= i < j < |h.freed| ==> h.freed[i] != h.freed[j]
  {
    assert forall a :: a !in h.holders;
    assert forall c :: Holding(h.holders, c) == {};
    assert forall c :: c !in h.counts;
  }

  /** A callable is freed by the step that removes its last holder, and by no other. */
  lemma FreedAtZero(h: Heap, op: Op, c: nat)
    requires Owned(h) && Backed(h) && Allowed(h, op) && c in h.counts
    ensures var g := Step(h, op); (c in g.freed <==> Holding(g.holders, c) == {}) && (c in g.freed <==> c !in g.counts)
  {
    StepOwned(h, op);
    FreedOrCounted(h, op, c);
    CountedOrGone(Step(h, op), c);
  }

  lemma CountedOrGone(g: Heap, c: nat)
    requires Owned(g)
    ensures c in g.counts <==> Holding(g.holders, c) != {}
    ensures c in g.counts ==> c !in g.freed
  {
    if c in g.counts { assert |Holding(g.holders, c)| >= 1; }
  }

  lemma FreedOrCounted(h: Heap, op: Op, c: nat)
    requires Backed(h) && Allowed(h, op) && (c in h.counts || c in h.freed)
    ensures c in Step(h, op).freed || c in Step(h, op).counts
  {
  }

  // ----- What a handler refers to -----

  /** What invoking a handler in scope calls: nothing, a plain function with its context, or a shared callable. */
  datatype Target = Nothing | Function(fn: Fn, ctx: nat) | Callable(id: nat)

  function TargetOf(h: Heap, v: nat): Target
    requires Backed(h) && v in h.vars
  {
    var x := h.vars[v];
    if IsShared(x) then Callable(h.holders[x.ctx]) else if x.fn == NullFn then Nothing else Function(x.fn, x.ctx)
  }

  /** A move empties its source. */
  predicate Empties(op: Op, w: nat) { (op.MoveNew? || op.MoveAssign?) && w == op.from && op.v != op.from }

  /** What the written handler refers to afterwards. */
  function NewTarget(h: Heap, op: Op): Target
    requires Backed(h) && Allowed(h, op) && !op.Destroy?
  {
    match op
    case MakePlain(_, f, c) => Function(Plain(f), c)
    case MakeShared(_, _, c) => Callable(c)
    case CopyNew(_, from, _) => TargetOf(h, from)
    case MoveNew(_, from) => TargetOf(h, from)
    case CopyAssign(_, from, _) => TargetOf(h, from)
    case MoveAssign(_, from) => TargetOf(h, from)
    case Release(_) => Nothing
  }

  /** What a handler refers to, given the holders. */
  predicate Refers(x: Handler, holders: map<nat, nat>, t: Target) {
    if IsShared(x) then x.ctx in holders && t == Callable(holders[x.ctx])
    else t == if x.fn == NullFn then Nothing else Function(x.fn, x.ctx)
  }

  lemma RefersIs(h: Heap, v: nat)
    requires Backed(h) && v in h.vars
    ensures forall t :: Refers(h.vars[v], h.holders, t) <==> t == TargetOf(h, v)
  {
  }

  lemma ReleaseHolders(h: Heap, x: Handler)
    requires Backed(h) && (IsShared(x) ==> x.ctx in h.holders)
    ensures var r := ReleaseShared(h, x);
      r.holders == (if IsShared(x) then h.holders - {x.ctx} else h.holders) && r.vars == h.vars
  {
  }

  /** Releasing what `v` owns leaves every other handler's holder alone. */
  lemma OthersKept(h: Heap, v: nat, w: nat, t: Target)
    requires Owned(h) && Backed(h) && v in h.vars && w in h.vars && v != w && Refers(h.vars[w], h.holders, t)
    ensures Refers(h.vars[w], ReleaseShared(h, h.vars[v]).holders, t)
  {
    ReleaseHolders(h, h.vars[v]);
  }

  lemma CopyAssignFollows(h: Heap, v: nat, from: nat, a: nat, w: nat)
    requires Owned(h) && Backed(h) && Allowed(h, CopyAssign(v, from, a)) && w in h.vars
    ensures var g := Step(h, CopyAssign(v, from, a));
      w in g.vars && Refers(g.vars[w], g.holders, TargetOf(h, if w == v then from else w))
  {
    hide Counted, DeleteHolder;
    var x := h.vars[from];
    RefersIs(h, w);
    RefersIs(h, from);
    if v == from {
    } else if IsShared(x) {
      var g := Acquire(h, x.ctx, a);
      AssignSharedOwned(h, v, x.ctx, a);
      ReleaseHolders(g, h.vars[v]);
    } else {
      ReleaseHolders(h, h.vars[v]);
    }
  }

  lemma MoveAssignFollows(h: Heap, v: nat, from: nat, w: nat)
    requires Owned(h) && Backed(h) && v in h.vars && from in h.vars && w in h.vars
    ensures var g := Step(h, MoveAssign(v, from));
      w in g.vars && Refers(g.vars[w], g.holders,
                            if w == from && v != from then Nothing else TargetOf(h, if w == v then from else w))
  {
    hide Counted, ReleaseShared;
    RefersIs(h, from);
    RefersIs(h, w);
    if v != from { OthersKept(h, v, from, TargetOf(h, from)); }
    if w != v { OthersKept(h, v, w, TargetOf(h, w)); }
    ReleaseHolders(h, h.vars[v]);
  }

  lemma ReleaseFollows(h: Heap, v: nat, w: nat)
    requires Owned(h) && Backed(h) && v in h.vars && w in h.vars
    ensures var g := Step(h, Release(v));
      w in g.vars && Refers(g.vars[w], g.holders, if w == v then Nothing else TargetOf(h, w))
    ensures var g := Step(h, Destroy(v)); w != v ==> w in g.vars && Refers(g.vars[w], g.holders, TargetOf(h, w))
  {
    hide Counted, ReleaseShared;
    RefersIs(h, w);
    if w != v { OthersKept(h, v, w, TargetOf(h, w)); }
    ReleaseHolders(h, h.vars[v]);
  }

  lemma ConstructFollows(h: Heap, op: Op, w: nat)
    requires Owned(h) && Backed(h) && Allowed(h, op) && (op.MakePlain? || op.MakeShared? || op.CopyNew? || op.MoveNew?)
    requires w in Step(h, op).vars
    ensures var g := Step(h, op); Refers(g.vars[w], g.holders,
      if w == op.v then NewTarget(h, op) else if Empties(op, w) then Nothing else TargetOf(h, w))
  {
    hide Counted;
    if w != op.v { RefersIs(h, w); }
    if op.CopyNew? || op.MoveNew? { RefersIs(h, op.from); }
  }

  /**
   A copy and a move refer to what their source referred to; a moved-from and a released handler refer to nothing;
   and no other handler in scope is affected.
   */
  lemma TargetsFollow(h: Heap, op: Op, w: nat)
    requires Owned(h) && Backed(h) && Allowed(h, op) && w in Step(h, op).vars
    ensures w == op.v ==> !op.Destroy? && Refers(Step(h, op).vars[w], Step(h, op).holders, NewTarget(h, op))
    ensures Empties(op, w) ==> Refers(Step(h, op).vars[w], Step(h, op).holders, Nothing)
    ensures w != op.v && !Empties(op, w) ==>
      w in h.vars && Refers(Step(h, op).vars[w], Step(h, op).holders, TargetOf(h, w))
  {
    hide Owned, Backed, Refers, TargetOf, Step;
    ScopeAfter(h, op, w);
    match op {
      case CopyAssign(v, from, a) => CopyAssignFollows(h, v, from, a, w);
      case MoveAssign(v, from) => MoveAssignFollows(h, v, from, w);
      case Release(v) => ReleaseFollows(h, v, w);
      case Destroy(v) => ReleaseFollows(h, v, w);
      case _ => ConstructFollows(h, op, w);
    }
  }

  lemma ScopeAfter(h: Heap, op: Op, w: nat)
    requires Backed(h) && Allowed(h, op) && w in Step(h, op).vars
    ensures (w == op.v ==> !op.Destroy?) && (w != op.v ==> w in h.vars)
    ensures op.CopyAssign? || op.MoveAssign? || op.Release? || op.Destroy? ==> w in h.vars
  {
  }

  /** The same operations in place: handler objects and the heap they own. */
  class Handlers {
    var vars: map<nat, Handler>
    var holders: map<nat, nat>
    var counts: map<nat, nat>
    var freed: seq<nat>

    ghost function Value(): Heap
      reads this
    {
      Heap(vars, holders, counts, freed)
    }

    /** Ownership is exact; every operation keeps it so. */
    ghost predicate Valid()
      reads this
    {
      Owned(Value()) && Backed(Value())
    }

    constructor ()
      ensures Valid() && Value() == NOTHING
    {
      vars, holders, counts, freed := map[], map[], map[], [];
    }

    /** A fresh holder that shares the callable of a live one. */
    method AcquireShared(ctx: nat, a: nat)
      requires ctx in holders && holders[ctx] in counts && a != 0 && a !in holders
      modifies this`holders, this`counts
      ensures Value() == Acquire(old(Value()), ctx, a)
      ensures Holding(holders, holders[a]) == old(Holding(holders, holders[ctx])) + {a} && a !in old(holders)
    {
      var c := holders[ctx];
      holders := holders[a := c];
      counts := counts[c := counts[c] + 1];
    }

    /** Deletes the holder of a shared handler; the holder must be live. */
    method ReleaseHeld(x: Handler)
      requires Backed(Value()) && (IsShared(x) ==> x.ctx in holders)
      modifies this`holders, this`counts, this`freed
      ensures Value() == ReleaseShared(old(Value()), x)
    {
      if x.fn == Trampoline && x.ctx != 0 {
        var c := holders[x.ctx];
        holders := holders - {x.ctx};
        if counts[c] == 1 {
          counts := counts - {c};
          freed := freed + [c];
        } else {
          counts := counts[c := counts[c] - 1];
        }
      }
    }

    method Make(v: nat, a: nat, callable: nat)
      requires Valid() && Allowed(Value(), MakeShared(v, a, callable))
      modifies this
      ensures Valid() && Value() == Step(old(Value()), MakeShared(v, a, callable))
    {
      hide Owned;
      StepKeeps(Value(), MakeShared(v, a, callable));
      holders := holders[a := callable];
      counts := counts[callable := 1];
      vars := vars[v := Handler(Trampoline, a)];
    }

    method CopyConstruct(v: nat, from: nat, a: nat)
      requires Valid() && Allowed(Value(), CopyNew(v, from, a))
      modifies this
      ensures Valid() && Value() == Step(old(Value()), CopyNew(v, from, a))
    {
      hide Owned;
      StepKeeps(Value(), CopyNew(v, from, a));
      var x := vars[from];
      if IsShared(x) {
        AcquireShared(x.ctx, a);
        x := x.(ctx := a);
      }
      vars := vars[v := x];
    }

    method MoveConstruct(v: nat, from: nat)
      requires Valid() && Allowed(Value(), MoveNew(v, from))
      modifies this
      ensures Valid() && Value() == Step(old(Value()), MoveNew(v, from))
    {
      hide Owned;
      StepKeeps(Value(), MoveNew(v, from));
      vars := vars[v := vars[from]];
      vars := vars[from := EMPTY];
    }

    method AssignCopy(v: nat, from: nat, a: nat)
      requires Valid() && Allowed(Value(), CopyAssign(v, from, a))
      modifies this
      ensures Valid() && Value() == Step(old(Value()), CopyAssign(v, from, a))
    {
      hide Owned, Acquire, ReleaseShared;
      StepKeeps(Value(), CopyAssign(v, from, a));
      if v == from { return; }
      var x := vars[from];
      if IsShared(x) {
        AssignSharedOwned(Value(), v, x.ctx, a);
        AcquireShared(x.ctx, a);
        x := x.(ctx := a);
      }
      ReleaseHeld(vars[v]);
      vars := vars[v := x];
    }

    method AssignMove(v: nat, from: nat)
      requires Valid() && Allowed(Value(), MoveAssign(v, from))
      modifies this
      ensures Valid() && Value() == Step(old(Value()), MoveAssign(v, from))
    {
      hide Owned, ReleaseShared;
      StepKeeps(Value(), MoveAssign(v, from));
      if v == from { return; }
      ReleaseHeld(vars[v]);
      vars := vars[v := vars[from]];
      vars := vars[from := EMPTY];
    }

    method ReleaseHandler(v: nat)
      requires Valid() && Allowed(Value(), Release(v))
      modifies this
      ensures Valid() && Value() == Step(old(Value()), Release(v))
    {
      hide Owned, ReleaseShared;
      StepKeeps(Value(), Release(v));
      ReleaseHeld(vars[v]);
      vars := vars[v := EMPTY];
    }

    method DestroyHandler(v: nat)
      requires Valid() && Allowed(Value(), Destroy(v))
      modifies this
      ensures Valid() && Value() == Step(old(Value()), Destroy(v))
    {
      hide Owned, ReleaseShared;
      StepKeeps(Value(), Destroy(v));
      ReleaseHeld(vars[v]);
      vars := vars - {v};
    }
  }
}
