/**
 Array descriptors: their row-major strides, and the destructor that frees a chain of descriptors with a
 worklist instead of recursion.
 */
module Descriptors {
  import opened Sums
  import opened Tensors

  type Id = nat

  // ---------------------------------------------------------------- strides

  /** What one step along every axis adds to the position. */
  ghost function StridesOf(shape: seq<nat>): (s: seq<nat>)
    ensures |s| == |shape|
  {
    if shape == [] then [] else [Size(shape[1..])] + StridesOf(shape[1..])
  }

  /** The position an index has by its strides. */
  ghost function Offset(strides: seq<nat>, idx: seq<int>): int
    requires |strides| == |idx|
  {
    if strides == [] then 0 else idx[0] * strides[0] + Offset(strides[1..], idx[1..])
  }

  /** Strides find the row-major position: different indices of the shape get different places below its size. */
  lemma {:induction false} OffsetIsRavel(shape: seq<nat>, idx: seq<int>)
    requires |idx| == |shape|
    ensures Offset(StridesOf(shape), idx) == Ravel(shape, idx)
  {
    if shape != [] {
      OffsetIsRavel(shape[1..], idx[1..]);
      assert StridesOf(shape)[1..] == StridesOf(shape[1..]);
    }
  }

  lemma StridesInjective(shape: seq<nat>, a: seq<int>, b: seq<int>)
    requires ValidIndex(a, shape) && ValidIndex(b, shape) && Offset(StridesOf(shape), a) == Offset(StridesOf(shape), b)
    ensures a == b && 0 <= Offset(StridesOf(shape), a) < Size(shape)
  {
    OffsetIsRavel(shape, a);
    OffsetIsRavel(shape, b);
    RavelUnravel(shape, a);
    RavelUnravel(shape, b);
  }

  /** Fills the strides from the last axis to the first. */
  method Init(shape: seq<nat>) returns (strides: array<nat>, size: nat)
    ensures strides[..] == StridesOf(shape) && size == Size(shape)
  {
    strides := new nat[|shape|](i => 0);
    size := 1;
    var i := |shape|;
    while i > 0
      invariant 0 <= i <= |shape| == strides.Length
      invariant strides[i..] == StridesOf(shape[i..]) && size == Size(shape[i..])
    {
      i := i - 1;
      ghost var rest := strides[i + 1..];
      assert shape[i..][1..] == shape[i + 1..];
      strides[i] := size;
      assert strides[i..] == [size] + rest;
      size := size * shape[i];
      MulCommutes(shape[i], Size(shape[i + 1..]));
    }
    assert shape[0..] == shape && strides[0..] == strides[..];
  }

  // ---------------------------------------------------------------- handles

  type Graph = map<Id, seq<Id>>

  ghost function AnyId(s: set<Id>): (d: Id)
    requires s != {}
    ensures d in s
  {
    assert |s| > 0;
    var d :| d in s; d
  }

  /** The number of input slots that hold a handle to x. */
  ghost function Slots(m: Graph, x: Id): nat
    decreases m.Keys
  {
    if m.Keys == {} then 0
    else
      var d := AnyId(m.Keys);
      multiset(m[d])[x] + Slots(m - {d}, x)
  }

  lemma {:induction false} PickSlots(m: Graph, d: Id, x: Id)
    requires d in m
    ensures Slots(m, x) == multiset(m[d])[x] + Slots(m - {d}, x)
    decreases m.Keys
  {
    var e := AnyId(m.Keys);
    if e != d {
      PickSlots(m - {e}, d, x);
      PickSlots(m - {d}, e, x);
      assert m - {e} - {d} == m - {d} - {e};
    }
  }

  /** A handle in some slot is a handle in some descriptor's slots. */
  lemma {:induction false} FindHolder(m: Graph, x: Id) returns (d: Id)
    requires Slots(m, x) > 0
    ensures d in m && x in m[d]
    decreases m.Keys
  {
    var e := AnyId(m.Keys);
    if x in m[e] {
      d := e;
    } else {
      d := FindHolder(m - {e}, x);
    }
  }

  lemma HolderCounts(m: Graph, d: Id, x: Id)
    requires d in m && x in m[d]
    ensures Slots(m, x) > 0
  {
    PickSlots(m, d, x);
    assert multiset(m[d])[x] > 0;
  }

  /** Clearing a descriptor's inputs takes its handles away. */
  lemma ClearSlots(m: Graph, d: Id, x: Id)
    requires d in m
    ensures Slots(m, x) == multiset(m[d])[x] + Slots(m[d := []], x)
  {
    PickSlots(m, d, x);
    PickSlots(m[d := []], d, x);
    assert m[d := []] - {d} == m - {d};
  }

  /** Removing a descriptor without inputs changes no count. */
  lemma RemoveEmpty(m: Graph, d: Id, x: Id)
    requires d in m && m[d] == []
    ensures Slots(m - {d}, x) == Slots(m, x)
  {
    PickSlots(m, d, x);
  }

  // ---------------------------------------------------------------- reachability

  /** Every input is a descriptor of lower rank: the graph has no cycles. */
  ghost predicate Ranked(m: Graph, rank: Id -> nat, bound: nat) {
    && (forall d :: d in m ==> rank(d) < bound)
    && forall d, x :: d in m && x in m[d] ==> x in m && rank(x) < rank(d)
  }

  /** Held from outside, or an input of something reachable. */
  ghost predicate Reachable(m: Graph, held: multiset<Id>, rank: Id -> nat, bound: nat, x: Id)
    requires Ranked(m, rank, bound) && x in m
    decreases bound - rank(x)
  {
    held[x] > 0 || exists d :: d in m && x in m[d] && Reachable(m, held, rank, bound, d)
  }

  // ---------------------------------------------------------------- the accounts

  ghost predicate CountOf(m: Graph, handles: multiset<Id>, held: multiset<Id>, work: multiset<Id>, x: Id) {
    && handles[x] == held[x] + Slots(m, x) + work[x]
    && (handles[x] > 0 ==> x in m)
  }

  /** Every handle is in an input slot, held outside or in a worklist, and nothing dangles. */
  ghost predicate Counted(m: Graph, handles: multiset<Id>, held: multiset<Id>, work: multiset<Id>) {
    forall x {:trigger CountOf(m, handles, held, work, x)} :: CountOf(m, handles, held, work, x)
  }

  /** Everything but the descriptors being destroyed has a handle. */
  ghost predicate AllHeld(m: Graph, handles: multiset<Id>, dying: set<Id>) {
    forall x :: x in m && x !in dying ==> handles[x] > 0
  }

  function Lonely(keys: set<Id>, handles: multiset<Id>): set<Id> {
    set x: Id | x in keys && handles[x] <= 1
  }

  /** Handles after copying a descriptor's inputs once each, clearing them and dropping the copies that others share. */
  ghost function AfterClear(m: Graph, handles: multiset<Id>, d: Id): multiset<Id>
    requires d in m
  {
    var keys : set<Id> := set x: Id | x in m[d];
    var copied := handles + multiset(keys) - multiset(m[d]);
    copied - multiset(keys - Lonely(keys, copied))
  }

  ghost function Pushed(m: Graph, handles: multiset<Id>, d: Id): set<Id>
    requires d in m
  {
    var keys : set<Id> := set x: Id | x in m[d];
    Lonely(keys, handles + multiset(keys) - multiset(m[d]))
  }

  /** One clearing step: the accounts stay balanced, and a pushed handle is the only one. */
  lemma ClearKeepsCounts(m: Graph, handles: multiset<Id>, held: multiset<Id>, work: multiset<Id>, d: Id)
    requires d in m && d !in m[d] && Counted(m, handles, held, work)
    ensures Counted(m[d := []], AfterClear(m, handles, d), held, work + multiset(Pushed(m, handles, d)))
    ensures forall x :: x in m && x !in Pushed(m, handles, d) && handles[x] > 0 ==> AfterClear(m, handles, d)[x] > 0
    ensures forall x :: x in Pushed(m, handles, d) ==>
            AfterClear(m, handles, d)[x] == 1 && x in m[d] && held[x] == 0 && work[x] == 0
    ensures AfterClear(m, handles, d)[d] == handles[d]
  {
    var keys : set<Id> := set x: Id | x in m[d];
    var pushed, after := Pushed(m, handles, d), AfterClear(m, handles, d);
    forall x
      ensures CountOf(m[d := []], after, held, work + multiset(pushed), x)
      ensures x in m && x !in pushed && handles[x] > 0 ==> after[x] > 0
      ensures x in pushed ==> after[x] == 1 && x in m[d] && held[x] == 0 && work[x] == 0
      ensures x !in m[d] ==> after[x] == handles[x]
    {
      CountAfterClear(m, handles, held, work, d, x);
    }
  }

  lemma CountAfterClear(m: Graph, handles: multiset<Id>, held: multiset<Id>, work: multiset<Id>, d: Id, x: Id)
    requires d in m && d !in m[d] && Counted(m, handles, held, work)
    ensures var pushed, after := Pushed(m, handles, d), AfterClear(m, handles, d);
            CountOf(m[d := []], after, held, work + multiset(pushed), x)
            && (x in m && x !in pushed && handles[x] > 0 ==> after[x] > 0)
            && (x in pushed ==> after[x] == 1 && x in m[d] && held[x] == 0 && work[x] == 0)
            && (x !in m[d] ==> after[x] == handles[x])
  {
    var keys : set<Id> := set y: Id | y in m[d];
    var slots := multiset(m[d]);
    var copied := handles + multiset(keys) - slots;
    ClearSlots(m, d, x);
    assert CountOf(m, handles, held, work, x);
    assert x in keys <==> slots[x] > 0;
    assert multiset(keys)[x] == if x in keys then 1 else 0;
    assert copied[x] == held[x] + Slots(m[d := []], x) + work[x] + multiset(keys)[x];
    var lonely: set<Id> := Lonely(keys, copied);
    assert multiset(keys - lonely)[x] == if x in keys && x !in lonely then 1 else 0;
    assert multiset(lonely)[x] == if x in lonely then 1 else 0;
  }

  // ---------------------------------------------------------------- the worklist

  /** Worklist handles are the only ones. */
  ghost predicate OnlyHandles(work: seq<Id>, handles: multiset<Id>) {
    forall x {:trigger handles[x]} :: multiset(work)[x] > 0 ==> handles[x] == 1
  }

  /** The state between two rounds of the worklist, relative to the graph at the start. */
  ghost predicate Draining(m0: Graph, m: Graph, handles: multiset<Id>, held: multiset<Id>, work: seq<Id>, root: Id) {
    && root in m && m[root] == [] && handles[root] == 0
    && (forall x :: x in m ==> x in m0 && (x != root ==> m[x] == m0[x]))
    && Counted(m, handles, held, multiset(work)) && AllHeld(m, handles, {root}) && OnlyHandles(work, handles)
  }

  lemma DrainStart(m0: Graph, handles: multiset<Id>, held: multiset<Id>, root: Id, work: seq<Id>)
    requires root in m0 && root !in m0[root] && handles[root] == 0 && Counted(m0, handles, held, multiset{})
             && AllHeld(m0, handles, {root})
    requires multiset(work) == multiset{} + multiset(Pushed(m0, handles, root))
    ensures Draining(m0, m0[root := []], AfterClear(m0, handles, root), held, work, root)
  {
    ClearKeepsCounts(m0, handles, held, multiset{}, root);
  }

  /** The accounts after a round, in which the top descriptor's inputs are cleared and then it is freed. */
  lemma RoundCounts(m: Graph, handles: multiset<Id>, held: multiset<Id>, rest: multiset<Id>, top: Id)
    requires top in m && top !in m[top] && Counted(m, handles, held, rest + multiset{top}) && handles[top] == 1
    ensures Counted(m[top := []] - {top}, AfterClear(m, handles, top) - multiset{top}, held,
            rest + multiset(Pushed(m, handles, top)))
  {
    var w := rest + multiset{top};
    ClearKeepsCounts(m, handles, held, w, top);
    var m1, after, pushed := m[top := []], AfterClear(m, handles, top), multiset(Pushed(m, handles, top));
    forall x
      ensures CountOf(m1 - {top}, after - multiset{top}, held, rest + pushed, x)
    {
      assert CountOf(m1, after, held, w + pushed, x);
      RemoveEmpty(m1, top, x);
    }
  }

  /** The handles the worklist holds after a round are again the only ones. */
  lemma RoundOnly(m: Graph, handles: multiset<Id>, held: multiset<Id>, rest: seq<Id>, top: Id, work1: seq<Id>)
    requires top in m && top !in m[top] && Counted(m, handles, held, multiset(rest) + multiset{top})
             && handles[top] == 1
    requires forall x {:trigger handles[x]} :: multiset(rest)[x] > 0 ==> handles[x] == 1
    requires multiset(work1) == multiset(rest) + multiset(Pushed(m, handles, top))
    ensures OnlyHandles(work1, AfterClear(m, handles, top) - multiset{top})
  {
    var w, pushed := multiset(rest) + multiset{top}, Pushed(m, handles, top);
    ClearKeepsCounts(m, handles, held, w, top);
    forall x {:trigger (AfterClear(m, handles, top) - multiset{top})[x]} | multiset(work1)[x] > 0
      ensures (AfterClear(m, handles, top) - multiset{top})[x] == 1
    {
      assert multiset(pushed)[x] == if x in pushed then 1 else 0;
      assert CountOf(m, handles, held, w, x);
      if x in pushed {
        assert w[x] == 0;
      } else {
        assert multiset(rest)[x] > 0;
        assert handles[x] == 1 && w[x] >= 1;
        NotInSlots(m, top, x);
      }
    }
  }

  /** What a round does to the handles of the freed descriptor and of the root. */
  lemma RoundEnds(m: Graph, handles: multiset<Id>, held: multiset<Id>, w: multiset<Id>, root: Id, top: Id)
    requires root in m && handles[root] == 0 && Counted(m, handles, held, w) && top in m && top !in m[top]
             && handles[top] == 1
    ensures AfterClear(m, handles, top)[top] == 1 && AfterClear(m, handles, top)[root] == 0 && top != root
  {
    ClearKeepsCounts(m, handles, held, w, top);
    assert CountOf(m, handles, held, w, root);
    NotInSlots(m, top, root);
  }

  /** One round of the worklist. */
  lemma DrainRound(m0: Graph, m: Graph, handles: multiset<Id>, held: multiset<Id>, rest: seq<Id>, root: Id, top: Id,
                   work1: seq<Id>)
    requires Draining(m0, m, handles, held, rest + [top], root) && top in m && top !in m[top]
    requires multiset(work1) == multiset(rest) + multiset(Pushed(m, handles, top))
    ensures AfterClear(m, handles, top)[top] == 1 && top != root
    ensures Draining(m0, m[top := []] - {top}, AfterClear(m, handles, top) - multiset{top}, held, work1, root)
  {
    var w := multiset(rest) + multiset{top};
    assert multiset(rest + [top]) == w;
    assert w[top] > 0 && handles[top] == 1;
    RoundEnds(m, handles, held, w, root, top);
    RoundCounts(m, handles, held, multiset(rest), top);
    RoundOnly(m, handles, held, rest, top, work1);
    RoundHeld(m, handles, held, w, root, top);
  }

  lemma RoundHeld(m: Graph, handles: multiset<Id>, held: multiset<Id>, w: multiset<Id>, root: Id, top: Id)
    requires top in m && top !in m[top] && top != root && AllHeld(m, handles, {root}) && Counted(m, handles, held, w)
    ensures AllHeld(m[top := []] - {top}, AfterClear(m, handles, top) - multiset{top}, {root})
  {
    ClearKeepsCounts(m, handles, held, w, top);
  }

  lemma NotInSlots(m: Graph, d: Id, x: Id)
    requires d in m
    ensures Slots(m, x) == 0 ==> x !in m[d]
  {
    if x in m[d] {
      HolderCounts(m, d, x);
    }
  }

  lemma DrainEnd(m0: Graph, m: Graph, handles: multiset<Id>, held: multiset<Id>, root: Id)
    requires Draining(m0, m, handles, held, [], root)
    ensures Counted(m - {root}, handles, held, multiset{}) && AllHeld(m - {root}, handles, {})
  {
    forall x
      ensures CountOf(m - {root}, handles, held, multiset{}, x)
    {
      assert CountOf(m, handles, held, multiset([]), x);
      RemoveEmpty(m, root, x);
    }
  }

  // ---------------------------------------------------------------- who survives

  ghost predicate Within(m: Graph, m0: Graph) {
    forall x :: x in m ==> x in m0 && m[x] == m0[x]
  }

  lemma {:induction false} SurvivorReachable(m0: Graph, m: Graph, handles: multiset<Id>, held: multiset<Id>,
                                             rank: Id -> nat, bound: nat, x: Id)
    requires Ranked(m0, rank, bound) && Within(m, m0) && Counted(m, handles, held, multiset{})
             && AllHeld(m, handles, {}) && x in m
    ensures Reachable(m0, held, rank, bound, x)
    decreases bound - rank(x)
  {
    assert CountOf(m, handles, held, multiset{}, x);
    if held[x] == 0 {
      var d := FindHolder(m, x);
      SurvivorReachable(m0, m, handles, held, rank, bound, d);
    }
  }

  lemma {:induction false} ReachableSurvives(m0: Graph, m: Graph, handles: multiset<Id>, held: multiset<Id>,
                                             rank: Id -> nat, bound: nat, x: Id)
    requires Ranked(m0, rank, bound) && Within(m, m0) && Counted(m, handles, held, multiset{}) && x in m0
             && Reachable(m0, held, rank, bound, x)
    ensures x in m
    decreases bound - rank(x)
  {
    assert CountOf(m, handles, held, multiset{}, x);
    if held[x] == 0 {
      var d :| d in m0 && x in m0[d] && Reachable(m0, held, rank, bound, d);
      ReachableSurvives(m0, m, handles, held, rank, bound, d);
      HolderCounts(m, d, x);
    }
  }

  // ---------------------------------------------------------------- the heap of descriptors

  /** The living descriptors and all handles to them: `handles[x]` is the use count of x. */
  class Heap {
    var inputs: Graph
    var handles: multiset<Id>

    constructor (inputs: Graph, handles: multiset<Id>)
      ensures this.inputs == inputs && this.handles == handles
    {
      this.inputs := inputs;
      this.handles := handles;
    }

    /** Takes copies of the inputs' handles, clears the inputs, and moves the handles nobody else has to the
        worklist. */
    method AppendDeletableInputs(d: Id, work: seq<Id>) returns (work1: seq<Id>)
      requires d in inputs
      modifies this
      ensures inputs == old(inputs)[d := []] && handles == AfterClear(old(inputs), old(handles), d)
      ensures multiset(work1) == multiset(work) + multiset(Pushed(old(inputs), old(handles), d))
    {
      var keys : set<Id> := set x: Id | x in inputs[d];
      handles := handles + multiset(keys);
      handles := handles - multiset(inputs[d]);
      inputs := inputs[d := []];
      var dropped;
      work1, dropped := SplitLonely(keys, handles, work);
      handles := handles - multiset(dropped);
    }

    /** The end of a handle's life: its descriptor, whose inputs are already empty, is freed without further work. */
    method Release(top: Id)
      requires top in inputs && inputs[top] == [] && handles[top] == 1
      modifies this
      ensures inputs == old(inputs) - {top} && handles == old(handles) - multiset{top}
    {
      handles := handles - multiset{top};
      inputs := inputs - {top};
    }

    /** One round of the worklist: takes the last handle, clears its descriptor's inputs and lets it go. */
    method FreeLast(work: seq<Id>, ghost m0: Graph, ghost held: multiset<Id>, ghost root: Id)
      returns (work1: seq<Id>, top: Id)
      requires |work| > 0 && Draining(m0, inputs, handles, held, work, root) && forall d, x :: d in m0 && x in m0[d] ==>
               x != d
      modifies this
      ensures Draining(m0, inputs, handles, held, work1, root)
      ensures top in old(inputs) && inputs.Keys == old(inputs.Keys) - {top}
    {
      top := work[|work| - 1];
      var rest := work[..|work| - 1];
      assert work == rest + [top];
      assert multiset(work)[top] > 0;
      assert CountOf(inputs, handles, held, multiset(work), top);
      ghost var m, h := inputs, handles;
      work1 := AppendDeletableInputs(top, rest);
      DrainRound(m0, m, h, held, rest, root, top, work1);
      Release(top);
    }

    /** Frees descriptors until the worklist is empty. */
    method Drain(work0: seq<Id>, ghost m0: Graph, ghost held: multiset<Id>, ghost root: Id) returns (freed: seq<Id>)
      requires Draining(m0, inputs, handles, held, work0, root) && forall d, x :: d in m0 && x in m0[d] ==> x != d
      modifies this
      ensures Draining(m0, inputs, handles, held, [], root)
      ensures inputs.Keys <= old(inputs.Keys) && FreedOnce(freed, old(inputs.Keys), inputs.Keys)
    {
      var work := work0;
      freed := [];
      while |work| > 0
        invariant Draining(m0, inputs, handles, held, work, root)
        invariant inputs.Keys <= old(inputs.Keys) && FreedOnce(freed, old(inputs.Keys), inputs.Keys)
        decreases |inputs.Keys|
      {
        ghost var before := inputs.Keys;
        var rest, top := FreeLast(work, m0, held, root);
        FreedNext(freed, old(inputs.Keys), before, top);
        freed := freed + [top];
        work := rest;
      }
      assert work == [];
    }

    /** Frees everything only the dying descriptor holds; nothing to do if it has no inputs. */
    method FreeInputs(root: Id, ghost held: multiset<Id>) returns (freed: seq<Id>)
      requires root in inputs && handles[root] == 0 && forall d, x :: d in inputs && x in inputs[d] ==> x != d
      requires Counted(inputs, handles, held, multiset{}) && AllHeld(inputs, handles, {root})
      modifies this
      ensures Draining(old(inputs), inputs, handles, held, [], root)
      ensures inputs.Keys <= old(inputs.Keys) && FreedOnce(freed, old(inputs.Keys), inputs.Keys)
    {
      ghost var m0, before := inputs, handles;
      freed := [];
      if inputs[root] == [] {
        return;
      }
      var work := AppendDeletableInputs(root, []);
      DrainStart(m0, before, held, root, work);
      assert inputs.Keys == m0.Keys;
      freed := Drain(work, m0, held, root);
    }

    /** The destructor of a descriptor nobody holds.  Exactly the descriptors that nothing held from outside can
        reach are freed, each once, and the others keep their inputs. */
    method Destroy(root: Id, ghost held: multiset<Id>, ghost rank: Id -> nat, ghost bound: nat) returns (freed: seq<Id>)
      requires root in inputs && handles[root] == 0 && Ranked(inputs, rank, bound)
      requires Counted(inputs, handles, held, multiset{}) && AllHeld(inputs, handles, {root})
      modifies this
      ensures forall x :: x in old(inputs) ==> (x in inputs <==> Reachable(old(inputs), held, rank, bound, x))
      ensures Within(inputs, old(inputs)) && Counted(inputs, handles, held, multiset{}) && AllHeld(inputs, handles, {})
      ensures FreedOnce(freed, old(inputs.Keys), inputs.Keys)
    {
      ghost var m0 := inputs;
      freed := FreeInputs(root, held);
      DrainEnd(m0, inputs, handles, held, root);
      FreedNext(freed, m0.Keys, inputs.Keys, root);
      inputs := inputs - {root};
      freed := freed + [root];
      Survivors(m0, inputs, handles, held, rank, bound);
    }
  }

  /** `freed` lists the members of `all` that are not in `left`, once each. */
  ghost predicate FreedOnce(freed: seq<Id>, all: set<Id>, left: set<Id>) {
    multiset(freed) == multiset(all - left)
  }

  lemma FreedNext(freed: seq<Id>, all: set<Id>, left: set<Id>, x: Id)
    requires FreedOnce(freed, all, left) && x in left && left <= all
    ensures FreedOnce(freed + [x], all, left - {x})
  {
    MultisetAdd(all - left, x);
    assert all - (left - {x}) == (all - left) + {x};
  }

  lemma Survivors(m0: Graph, m: Graph, handles: multiset<Id>, held: multiset<Id>, rank: Id -> nat, bound: nat)
    requires Ranked(m0, rank, bound) && Within(m, m0) && Counted(m, handles, held, multiset{})
             && AllHeld(m, handles, {})
    ensures forall x :: x in m0 ==> (x in m <==> Reachable(m0, held, rank, bound, x))
  {
    forall x | x in m0
      ensures x in m <==> Reachable(m0, held, rank, bound, x)
    {
      if x in m {
        SurvivorReachable(m0, m, handles, held, rank, bound, x);
      }
      if Reachable(m0, held, rank, bound, x) {
        ReachableSurvives(m0, m, handles, held, rank, bound, x);
      }
    }
  }

  /** Moves the handles that are the only ones to the worklist, in any order. */
  method SplitLonely(keys: set<Id>, handles: multiset<Id>, work: seq<Id>) returns (work1: seq<Id>, dropped: set<Id>)
    ensures multiset(work1) == multiset(work) + multiset(Lonely(keys, handles))
            && dropped == keys - Lonely(keys, handles)
  {
    work1, dropped := work, {};
    var rest := keys;
    ghost var pushed: set<Id> := {};
    while rest != {}
      invariant rest <= keys && pushed == Lonely(keys - rest, handles) && dropped == (keys - rest) - pushed
      invariant multiset(work1) == multiset(work) + multiset(pushed)
      decreases rest
    {
      var x :| x in rest;
      rest := rest - {x};
      if handles[x] <= 1 {
        MultisetAdd(pushed, x);
        work1 := work1 + [x];
        pushed := pushed + {x};
      } else {
        dropped := dropped + {x};
      }
    }
    assert keys - rest == keys;
  }

  lemma MultisetAdd(s: set<Id>, x: Id)
    requires x !in s
    ensures multiset(s + {x}) == multiset(s) + multiset{x}
  {
  }
}
