/**
 Contracting a fused region to one `Compiled` primitive keeps the graph invariant: what is outside the
 region reads the new arrays where it read the root, and the new arrays stand for the terms of the
 arrays they replace.
 */
module Contraction {
  import opened Wrappers
  import opened ArrayGraph
  import opened Dfs
  import opened LiveGraph
  import opened Region

  /** A region to contract: its inputs, its arrays in order, the arrays it has to provide, and the ids of
      the arrays that will provide them. */
  datatype Cut = Cut(region: set<Id>, root: Id, inputs: seq<Id>, fused: seq<Id>, outputs: seq<Id>, ids: seq<Id>)
  {
    function NewRoot(): Id
      requires |ids| > 0
    {
      ids[|ids| - 1]
    }
  }

  ghost predicate CutOk(h: Heap, pm: ParentsMap, v: View, c: Cut) {
    && c.root in c.region && c.root in v.ord
    && (forall x :: x in c.region ==> x in v.live && x in v.ord && v.ord[x] <= v.ord[c.root] && IsInner(h, x))
    && (forall x, e :: x in c.region && x != c.root && Listed(pm, x, e) ==> e.user in c.region)
    && BoundaryOk(h, v, c.region, c.inputs)
    && InnerOk(h, c.inputs, c.fused)
    && (forall x :: x in c.region <==> x in c.fused)
    && |c.ids| == |c.outputs| > 0 && c.outputs[|c.outputs| - 1] == c.root
    && (forall k :: 0 <= k < |c.outputs| ==> c.outputs[k] in c.region)
    && (forall k :: 0 <= k < |c.ids| ==> c.ids[k] !in h)
    && NoDuplicates(c.ids)
  }

  ghost predicate IsInner(h: Heap, x: Id) {
    x in h && h[x].prim.Some? && h[x].prim.value.Base? && IsFusable(h[x].prim.value.kind)
  }

  ghost predicate IsPrimOf(h: Heap, prim: Primitive, c: Cut) {
    && prim.Compiled? && prim.inputs == c.inputs && prim.outputs == c.outputs && prim.tape == c.fused
    && forall x :: x in prim.constants && x in c.inputs ==> x in h && h[x].prim.None?
  }

  /** The heap after contraction. */
  ghost predicate HeapContracted(h: Heap, pm: ParentsMap, h2: Heap, c: Cut, prim: Primitive)
    requires |c.ids| > 0
  {
    && (forall p :: p in h2 <==> p in h || p in c.ids)
    && (forall p {:trigger h2[p]} :: p in h ==> SameButInputs(h[p], h2[p]))
    && (forall p, i {:trigger h2[p].inputs[i]} :: p in h && 0 <= i < |h[p].inputs| ==>
          h2[p].inputs[i] == if Listed(pm, c.root, Edge(p, i)) then c.NewRoot() else h[p].inputs[i])
    && (forall k {:trigger c.ids[k]} :: 0 <= k < |c.ids| ==>
          c.ids[k] in h2 &&
          var n := h2[c.ids[k]];
          && n.prim == Some(prim) && n.inputs == c.inputs
          && n.siblings == c.ids[..k] + c.ids[k + 1..] && n.position == k)
  }

  /** The consumer map after contraction. */
  ghost predicate UsesContracted(pm: ParentsMap, pm2: ParentsMap, c: Cut)
    requires |c.ids| > 0
  {
    forall x, e :: Listed(pm2, x, e) <==>
      if x == c.NewRoot() then Listed(pm, c.root, e)
      else x !in c.region &&
           ((Listed(pm, x, e) && (x in c.inputs ==> e.user !in c.region))
            || (e.user in c.ids && e.slot < |c.inputs| && x == c.inputs[e.slot]))
  }

  function ToSet(s: seq<Id>): set<Id> {
    set x | x in s
  }

  function OriginOf(c: Cut, x: Id): Id
    requires |c.ids| == |c.outputs|
  {
    if x in c.ids then c.outputs[IndexOf(c.ids, x)] else x
  }

  function ViewContracted(v: View, c: Cut): View
    requires |c.ids| == |c.outputs| && c.root in v.ord && forall k :: 0 <= k < |c.outputs| ==> c.outputs[k] in v.den
  {
    View(
      (v.live - c.region) + ToSet(c.ids),
      v.stale,
      map x | x in v.ord.Keys + ToSet(c.ids) :: if x in c.ids then v.ord[c.root] else v.ord[x],
      map x | x in v.den.Keys + ToSet(c.ids) :: if x in c.ids then v.den[OriginOf(c, x)] else v.den[x])
  }

  ghost predicate Contracts(h: Heap, pm: ParentsMap, v: View, h2: Heap, pm2: ParentsMap, v2: View, c: Cut,
                            prim: Primitive) {
    && Good(h, pm, v) && CutOk(h, pm, v, c) && IsPrimOf(h, prim, c)
    && HeapContracted(h, pm, h2, c, prim)
    && UsesContracted(pm, pm2, c)
    && (forall k :: 0 <= k < |c.outputs| ==> c.outputs[k] in v.den)
    && v2 == ViewContracted(v, c)
  }

  // ---------------------------------------------------------------- values survive

  /** Rewriting inputs elsewhere does not change what a primitive computes from given arguments. */
  lemma NodeValueFrame<V>(h: Heap, h2: Heap, sem: Semantics<V>, p: Id, args: seq<V>)
    requires p in h
    requires h.Keys <= h2.Keys
    requires forall x {:trigger h2[x]} :: x in h ==> SameButInputs(h[x], h2[x])
    requires h[p].prim.Some? && h[p].prim.value.Compiled? ==>
               && (forall t :: t in h[p].prim.value.tape ==> t in h && h2[t] == h[t])
               && (forall x :: x in h[p].prim.value.inputs ==> x in h)
    ensures NodeValue(h, sem, p, args) == NodeValue(h2, sem, p, args)
  {
    assert SameButInputs(h[p], h2[p]);
    if h[p].prim.Some? && h[p].prim.value.Compiled? && |args| == |h[p].prim.value.inputs| {
      var c := h[p].prim.value;
      forall x | x in c.inputs
        ensures x in h && x in h2 && LeafValue(h, sem, x) == LeafValue(h2, sem, x)
      {
        assert SameButInputs(h[x], h2[x]);
      }
      assert Bind(h, sem, c, args) == Bind(h2, sem, c, args);
      RunTapeFrame(h, h2, sem, c.tape, Bind(h, sem, c, args));
    }
  }

  /** Running a prefix of the layout computes the terms of the arrays laid out. */
  lemma {:induction false} CaptureRun(h: Heap, v: View, c: Cut, fused: seq<Id>, env: map<Id, Term>)
    requires InnerOk(h, c.inputs, fused)
    requires forall x :: x in fused ==> IsInner(h, x) && NodeGood(h, v, x)
    requires forall x :: x in c.inputs ==> x in env
    requires forall x :: x in env ==> x in v.den && env[x] == v.den[x]
    ensures RunTape(h, Symbolic(), fused, env).Some?
    ensures var e := RunTape(h, Symbolic(), fused, env).value;
            && (forall x :: x in env || x in fused ==> x in e)
            && (forall x :: x in e ==> x in v.den && e[x] == v.den[x])
    decreases |fused|
  {
    if fused != [] {
      var t := fused[|fused| - 1];
      CaptureRun(h, v, c, fused[..|fused| - 1], env);
      var e := RunTape(h, Symbolic(), fused[..|fused| - 1], env).value;
      assert NodeGood(h, v, t);
      assert AllBound(h[t].inputs, e);
      assert Lookup(h[t].inputs, e) == Lookup(h[t].inputs, v.den);
    }
  }

  /** The new primitive, run on the terms of its inputs, gives the terms of the arrays it replaces. */
  lemma CapturedValue(h: Heap, pm: ParentsMap, v: View, c: Cut, prim: Primitive, k: nat)
    requires Good(h, pm, v) && CutOk(h, pm, v, c) && IsPrimOf(h, prim, c) && k < |c.outputs|
    ensures AllBound(c.inputs, v.den) && c.outputs[k] in v.den
    ensures PrimitiveValue(h, Symbolic(), prim, Lookup(c.inputs, v.den), k) == Some(v.den[c.outputs[k]])
  {
    forall i | 0 <= i < |c.inputs|
      ensures c.inputs[i] in h && c.inputs[i] in v.den
      ensures c.inputs[i] in prim.constants ==> LeafValue(h, Symbolic(), c.inputs[i]) == v.den[c.inputs[i]]
    {
      assert NodeGood(h, v, c.inputs[i]);
    }
    var args := Lookup(c.inputs, v.den);
    var env := Bind(h, Symbolic(), prim, args);
    forall x | x in env
      ensures x in v.den && env[x] == v.den[x]
    {
      assert x == c.inputs[IndexOf(c.inputs, x)];
    }
    forall x | x in c.fused
      ensures IsInner(h, x) && NodeGood(h, v, x)
    {
    }
    CaptureRun(h, v, c, c.fused, env);
  }

  // ---------------------------------------------------------------- arrays outside the region

  /** What slot `i` of a surviving array reads afterwards. */
  lemma KeptInput(h: Heap, pm: ParentsMap, v: View, h2: Heap, pm2: ParentsMap, v2: View, c: Cut, prim: Primitive,
                  p: Id, i: nat)
    requires Contracts(h, pm, v, h2, pm2, v2, c, prim)
    requires p in v.live && p !in c.region && p in h && i < |h[p].inputs|
    ensures p in h2 && i < |h2[p].inputs|
    ensures var x := h[p].inputs[i];
            var y := h2[p].inputs[i];
            && y == (if x == c.root then c.NewRoot() else x)
            && (x in c.region ==> x == c.root)
            && y in v2.live && y in v2.ord && x in v.ord && v2.ord[y] == v.ord[x]
            && x in v.den && y in v2.den && v2.den[y] == v.den[x]
            && Listed(pm2, y, Edge(p, i))
  {
    assert NodeGood(h, v, p);
    var x := h[p].inputs[i];
    assert Listed(pm, x, Edge(p, i));
    assert SameButInputs(h[p], h2[p]);
    assert NodeGood(h, v, x);
    if Listed(pm, c.root, Edge(p, i)) {
      assert ReadsAt(h, Edge(p, i), c.root);
    }
    NewIds(h, pm, v, c);
    var y := h2[p].inputs[i];
    assert y == (if x == c.root then c.NewRoot() else x);
  }

  lemma NewIds(h: Heap, pm: ParentsMap, v: View, c: Cut)
    requires Good(h, pm, v) && CutOk(h, pm, v, c)
    ensures forall x :: x in v.live ==> x !in c.ids && x in h
    ensures forall k :: 0 <= k < |c.ids| ==> IndexOf(c.ids, c.ids[k]) == k && OriginOf(c, c.ids[k]) == c.outputs[k]
    ensures forall x, e :: Listed(pm, x, e) ==> x !in c.ids && e.user !in c.ids
  {
    forall x | x in v.live
      ensures x !in c.ids && x in h
    {
      assert NodeGood(h, v, x);
    }
  }

  lemma KeptOrder(h: Heap, pm: ParentsMap, v: View, h2: Heap, pm2: ParentsMap, v2: View, c: Cut, prim: Primitive, p: Id)
    requires Contracts(h, pm, v, h2, pm2, v2, c, prim)
    requires p in v.live && p !in c.region
    ensures p in h2 && OrderGood(h2, v2, p)
    ensures p in v2.live && p in v2.ord && p in v.ord && v2.ord[p] == v.ord[p]
  {
    assert NodeGood(h, v, p) && OrderGood(h, v, p);
    assert SameButInputs(h[p], h2[p]);
    NewIds(h, pm, v, c);
    forall i {:trigger h2[p].inputs[i]} | 0 <= i < |h2[p].inputs|
      ensures h2[p].inputs[i] in v2.live && h2[p].inputs[i] in v2.ord && v2.ord[h2[p].inputs[i]] < v.ord[p]
    {
      KeptInput(h, pm, v, h2, pm2, v2, c, prim, p, i);
    }
  }

  /** No sibling of a surviving array is in the region. */
  lemma KeptSibling(h: Heap, pm: ParentsMap, v: View, c: Cut, p: Id, q: Id)
    requires Good(h, pm, v) && CutOk(h, pm, v, c)
    requires p in v.live && p !in c.region && p in h && q in Group(h, p)
    ensures q in v.live && q !in c.region && q in h
  {
    assert NodeGood(h, v, p) && GroupGood(h, v, p);
    GroupIsOutputs(h, p, q);
    assert q in v.live;
    assert NodeGood(h, v, q);
    assert p in Group(h, q);
    assert h[q].siblings == [] ==> Group(h, q) == {q};
  }

  lemma KeptGroup(h: Heap, pm: ParentsMap, v: View, h2: Heap, pm2: ParentsMap, v2: View, c: Cut, prim: Primitive, p: Id)
    requires Contracts(h, pm, v, h2, pm2, v2, c, prim)
    requires p in v.live && p !in c.region
    ensures p in h2 && GroupGood(h2, v2, p)
  {
    assert NodeGood(h, v, p) && GroupGood(h, v, p);
    assert SameButInputs(h[p], h2[p]);
    forall q | q in Group(h, p)
      ensures q in v2.live && q in v2.ord && q in v.ord && v2.ord[q] == v.ord[q] && v.ord[q] == v.ord[p]
      ensures q in h2 && h2[q].inputs == h2[p].inputs
    {
      KeptSibling(h, pm, v, c, p, q);
      KeptOrder(h, pm, v, h2, pm2, v2, c, prim, q);
      GroupIsOutputs(h, p, q);
      assert SameButInputs(h[q], h2[q]);
      forall i | 0 <= i < |h[p].inputs|
        ensures h2[q].inputs[i] == h2[p].inputs[i]
      {
        KeptInput(h, pm, v, h2, pm2, v2, c, prim, p, i);
        KeptInput(h, pm, v, h2, pm2, v2, c, prim, q, i);
      }
    }
    SiblingsKept(h, h2, p);
    assert Group(h2, p) == Group(h, p);
    assert p in Group(h, p);
  }

  lemma SiblingsKept(h: Heap, h2: Heap, p: Id)
    requires SiblingsOk(h, p)
    requires h.Keys <= h2.Keys
    requires forall x {:trigger h2[x]} :: x in h ==> SameButInputs(h[x], h2[x])
    requires forall q {:trigger h2[q]} :: q in Group(h, p) ==> q in h2 && h2[q].inputs == h2[p].inputs
    ensures SiblingsOk(h2, p)
  {
    assert SameButInputs(h[p], h2[p]);
    assert Outputs(h2, p) == Outputs(h, p);
    forall k | 0 <= k < |Outputs(h, p)|
      ensures var q := Outputs(h, p)[k];
              && HasPosition(h2, q) && h2[q].position == k && Outputs(h2, q) == Outputs(h2, p)
              && h2[q].inputs == h2[p].inputs && h2[q].prim == h2[p].prim
    {
      var q := Outputs(h, p)[k];
      assert q in Group(h, p);
      assert SameButInputs(h[q], h2[q]);
      assert Outputs(h2, q) == Outputs(h, q);
    }
  }

  /** An already captured inner tape is not touched. */
  lemma CapturedUntouched(h: Heap, pm: ParentsMap, v: View, h2: Heap, c: Cut, prim: Primitive, t: Id)
    requires Good(h, pm, v) && CutOk(h, pm, v, c) && HeapContracted(h, pm, h2, c, prim)
    requires t in h && t !in v.live && t !in v.stale
    ensures h2[t] == h[t]
  {
    assert SameButInputs(h[t], h2[t]);
    forall i | 0 <= i < |h[t].inputs|
      ensures h2[t].inputs[i] == h[t].inputs[i]
    {
      assert !Listed(pm, c.root, Edge(t, i));
    }
    assert h2[t].inputs == h[t].inputs;
  }

  lemma KeptMeaning(h: Heap, pm: ParentsMap, v: View, h2: Heap, pm2: ParentsMap, v2: View, c: Cut, prim: Primitive,
                    p: Id)
    requires Contracts(h, pm, v, h2, pm2, v2, c, prim)
    requires p in v.live && p !in c.region
    ensures Consistent(h2, v2.den, p) && PrimGood(h2, v2, p)
  {
    assert NodeGood(h, v, p);
    assert SameButInputs(h[p], h2[p]);
    NewIds(h, pm, v, c);
    forall i | 0 <= i < |h2[p].inputs|
      ensures h2[p].inputs[i] in v2.den && v2.den[h2[p].inputs[i]] == v.den[h[p].inputs[i]]
    {
      KeptInput(h, pm, v, h2, pm2, v2, c, prim, p, i);
    }
    assert Lookup(h2[p].inputs, v2.den) == Lookup(h[p].inputs, v.den);
    if h[p].prim.Some? && h[p].prim.value.Compiled? {
      forall i | 0 <= i < |h[p].prim.value.tape|
        ensures var t := h[p].prim.value.tape[i];
                t in h && h2[t] == h[t] && t in h2 && t !in v2.live && t !in v2.stale
      {
        CapturedUntouched(h, pm, v, h2, c, prim, h[p].prim.value.tape[i]);
      }
      forall i | 0 <= i < |h[p].prim.value.inputs|
        ensures h[p].prim.value.inputs[i] in h2
      {
        assert SameButInputs(h[h[p].prim.value.inputs[i]], h2[h[p].prim.value.inputs[i]]);
      }
    }
    NodeValueFrame(h, h2, Symbolic(), p, Lookup(h[p].inputs, v.den));
  }

  // ---------------------------------------------------------------- the new arrays

  lemma NewOutputs(h: Heap, pm: ParentsMap, h2: Heap, c: Cut, prim: Primitive, k: nat)
    requires |c.ids| > 0 && HeapContracted(h, pm, h2, c, prim) && NoDuplicates(c.ids)
    requires k < |c.ids|
    ensures HasPosition(h2, c.ids[k]) && Outputs(h2, c.ids[k]) == c.ids
    ensures forall q :: q in Group(h2, c.ids[k]) ==> q in c.ids
  {
    assert c.ids[k] in h2;
    var n := h2[c.ids[k]];
    assert n.siblings == c.ids[..k] + c.ids[k + 1..];
    assert n.siblings[..k] == c.ids[..k] && n.siblings[k..] == c.ids[k + 1..];
  }

  lemma NewGroup(h: Heap, pm: ParentsMap, h2: Heap, c: Cut, prim: Primitive, k: nat)
    requires |c.ids| > 0 && HeapContracted(h, pm, h2, c, prim) && NoDuplicates(c.ids)
    requires k < |c.ids|
    ensures SiblingsOk(h2, c.ids[k])
  {
    NewOutputs(h, pm, h2, c, prim, k);
    forall j | 0 <= j < |c.ids|
      ensures var q := c.ids[j];
              && HasPosition(h2, q) && h2[q].position == j && Outputs(h2, q) == c.ids
              && h2[q].inputs == h2[c.ids[k]].inputs && h2[q].prim == h2[c.ids[k]].prim
    {
      NewOutputs(h, pm, h2, c, prim, j);
    }
  }

  /** The inputs of the new primitive lie outside the region and before its root. */
  lemma InputEarlier(h: Heap, pm: ParentsMap, v: View, c: Cut, i: nat)
    requires Good(h, pm, v) && CutOk(h, pm, v, c) && i < |c.inputs|
    ensures c.inputs[i] in v.live && c.inputs[i] !in c.region && c.inputs[i] in h
    ensures c.inputs[i] in v.ord && v.ord[c.inputs[i]] < v.ord[c.root] && c.inputs[i] in v.den
  {
    assert HasReader(h, c.region, c.inputs[i]);
    var e: Edge :| e.user in c.region && ReadsAt(h, e, c.inputs[i]);
    ReadsBefore(h, pm, v, e);
    assert NodeGood(h, v, c.inputs[i]);
  }

  lemma ReadsBefore(h: Heap, pm: ParentsMap, v: View, e: Edge)
    requires Good(h, pm, v) && e.user in v.live && e.user in h && e.slot < |h[e.user].inputs|
    ensures var x := h[e.user].inputs[e.slot];
            x in v.live && x in v.ord && e.user in v.ord && v.ord[x] < v.ord[e.user]
  {
    assert NodeGood(h, v, e.user) && OrderGood(h, v, e.user);
  }

  /** A surviving array keeps its position and its term. */
  lemma ViewKept(v: View, c: Cut, x: Id)
    requires |c.ids| == |c.outputs| && c.root in v.ord && forall k :: 0 <= k < |c.outputs| ==> c.outputs[k] in v.den
    requires x in v.live && x in v.ord && x in v.den && x !in c.region && x !in c.ids
    ensures var v2 := ViewContracted(v, c);
            x in v2.live && x in v2.ord && v2.ord[x] == v.ord[x] && x in v2.den && v2.den[x] == v.den[x]
  {
  }

  lemma NewOrder(h: Heap, pm: ParentsMap, v: View, h2: Heap, pm2: ParentsMap, v2: View, c: Cut, prim: Primitive, i: nat)
    requires Contracts(h, pm, v, h2, pm2, v2, c, prim)
    requires i < |c.inputs|
    ensures c.inputs[i] in v2.live && c.inputs[i] in v2.ord && v2.ord[c.inputs[i]] < v.ord[c.root]
    ensures c.inputs[i] in v2.den && c.inputs[i] in v.den && v2.den[c.inputs[i]] == v.den[c.inputs[i]]
  {
    InputEarlier(h, pm, v, c, i);
    NewIds(h, pm, v, c);
    ViewKept(v, c, c.inputs[i]);
  }

  lemma NewNodeGood(h: Heap, pm: ParentsMap, v: View, h2: Heap, pm2: ParentsMap, v2: View, c: Cut, prim: Primitive,
                    k: nat)
    requires Contracts(h, pm, v, h2, pm2, v2, c, prim)
    requires k < |c.ids|
    ensures NodeGood(h2, v2, c.ids[k])
  {
    NewPosition(h, pm, v, h2, pm2, v2, c, prim, k);
    NewGroup(h, pm, h2, c, prim, k);
    NewMeaning(h, pm, v, h2, pm2, v2, c, prim, k);
    NewCapture(h, pm, v, h2, pm2, v2, c, prim, k);
  }

  lemma NewPosition(h: Heap, pm: ParentsMap, v: View, h2: Heap, pm2: ParentsMap, v2: View, c: Cut, prim: Primitive,
                    k: nat)
    requires Contracts(h, pm, v, h2, pm2, v2, c, prim)
    requires k < |c.ids|
    ensures c.ids[k] in h2 && OrderGood(h2, v2, c.ids[k]) && (SiblingsOk(h2, c.ids[k]) ==> GroupGood(h2, v2, c.ids[k]))
  {
    assert c.ids[k] in h2;
    assert forall q :: q in c.ids ==> q in v2.live && q in v2.ord && v2.ord[q] == v.ord[c.root];
    NewOutputs(h, pm, h2, c, prim, k);
    forall i {:trigger c.inputs[i]} | 0 <= i < |c.inputs|
      ensures c.inputs[i] in v2.live && c.inputs[i] in v2.ord && v2.ord[c.inputs[i]] < v.ord[c.root]
    {
      NewOrder(h, pm, v, h2, pm2, v2, c, prim, i);
    }
  }

  lemma NewCapture(h: Heap, pm: ParentsMap, v: View, h2: Heap, pm2: ParentsMap, v2: View, c: Cut, prim: Primitive,
                   k: nat)
    requires Contracts(h, pm, v, h2, pm2, v2, c, prim)
    requires k < |c.ids| && c.ids[k] in h2
    ensures PrimGood(h2, v2, c.ids[k])
  {
    NewIds(h, pm, v, c);
    forall i {:trigger c.fused[i]} | 0 <= i < |c.fused|
      ensures c.fused[i] in h2 && c.fused[i] !in v2.live && c.fused[i] !in v2.stale
    {
      InnerUntouched(h, pm, v, h2, c, prim, c.fused[i]);
    }
    forall i {:trigger c.inputs[i]} | 0 <= i < |c.inputs|
      ensures c.inputs[i] in h2
    {
      assert c.inputs[i] in v.live;
    }
    assert c.ids[k] in h2;
  }

  lemma NewMeaning(h: Heap, pm: ParentsMap, v: View, h2: Heap, pm2: ParentsMap, v2: View, c: Cut, prim: Primitive,
                   k: nat)
    requires Contracts(h, pm, v, h2, pm2, v2, c, prim)
    requires k < |c.ids|
    ensures Consistent(h2, v2.den, c.ids[k])
  {
    assert c.ids[k] in h2;
    NewIds(h, pm, v, c);
    CapturedValue(h, pm, v, c, prim, k);
    var args := Lookup(c.inputs, v.den);
    forall i {:trigger c.inputs[i]} | 0 <= i < |c.inputs|
      ensures c.inputs[i] in v2.den && v2.den[c.inputs[i]] == v.den[c.inputs[i]]
    {
      NewOrder(h, pm, v, h2, pm2, v2, c, prim, i);
    }
    assert Lookup(c.inputs, v2.den) == args;
    PrimFrame(h, pm, v, h2, c, prim, args, k);
  }

  lemma PrimFrame(h: Heap, pm: ParentsMap, v: View, h2: Heap, c: Cut, prim: Primitive, args: seq<Term>, k: nat)
    requires Good(h, pm, v) && CutOk(h, pm, v, c) && IsPrimOf(h, prim, c) && HeapContracted(h, pm, h2, c, prim)
    requires |args| == |c.inputs|
    ensures PrimitiveValue(h, Symbolic(), prim, args, k) == PrimitiveValue(h2, Symbolic(), prim, args, k)
  {
    forall t | t in c.fused
      ensures t in h && t in h2 && h2[t] == h[t]
    {
      InnerUntouched(h, pm, v, h2, c, prim, t);
    }
    forall i | 0 <= i < |c.inputs|
      ensures c.inputs[i] in h
    {
      InputEarlier(h, pm, v, c, i);
    }
    BindFrame(h, h2, prim, args);
    RunTapeFrame(h, h2, Symbolic(), c.fused, Bind(h, Symbolic(), prim, args));
  }

  lemma BindFrame(h: Heap, h2: Heap, prim: Primitive, args: seq<Term>)
    requires prim.Compiled? && |args| == |prim.inputs|
    requires h.Keys <= h2.Keys && forall x {:trigger h2[x]} :: x in h ==> SameButInputs(h[x], h2[x])
    requires forall x :: x in prim.inputs ==> x in h
    ensures forall x :: x in prim.inputs ==> x in h2
    ensures Bind(h, Symbolic(), prim, args) == Bind(h2, Symbolic(), prim, args)
  {
    forall x | x in prim.inputs
      ensures LeafValue(h, Symbolic(), x) == LeafValue(h2, Symbolic(), x)
    {
      assert SameButInputs(h[x], h2[x]);
    }
  }

  /** The arrays of the region themselves are not redirected: none of them reads the root. */
  lemma InnerUntouched(h: Heap, pm: ParentsMap, v: View, h2: Heap, c: Cut, prim: Primitive, t: Id)
    requires Good(h, pm, v) && CutOk(h, pm, v, c) && HeapContracted(h, pm, h2, c, prim)
    requires t in c.region
    ensures t in h && t in h2 && h2[t] == h[t]
  {
    assert NodeGood(h, v, t) && OrderGood(h, v, t);
    assert SameButInputs(h[t], h2[t]);
    forall i | 0 <= i < |h[t].inputs|
      ensures h2[t].inputs[i] == h[t].inputs[i]
    {
      assert h[t].inputs[i] != c.root;
      assert !Listed(pm, c.root, Edge(t, i));
    }
    assert h2[t].inputs == h[t].inputs;
  }

  // ---------------------------------------------------------------- the consumer map

  lemma CoveredContracted(h: Heap, pm: ParentsMap, v: View, h2: Heap, pm2: ParentsMap, v2: View, c: Cut,
                          prim: Primitive)
    requires Contracts(h, pm, v, h2, pm2, v2, c, prim)
    ensures Covered(h2, pm2, v2)
  {
    forall p, i | p in v2.live && p in h2 && 0 <= i < |h2[p].inputs|
      ensures Listed(pm2, h2[p].inputs[i], Edge(p, i))
    {
      if p in c.ids {
        NewInputListed(h, pm, v, h2, pm2, v2, c, prim, IndexOf(c.ids, p), i);
      } else {
        assert p in v.live && p !in c.region;
        assert NodeGood(h, v, p);
        assert SameButInputs(h[p], h2[p]);
        KeptInput(h, pm, v, h2, pm2, v2, c, prim, p, i);
      }
    }
  }

  lemma NewInputListed(h: Heap, pm: ParentsMap, v: View, h2: Heap, pm2: ParentsMap, v2: View, c: Cut, prim: Primitive,
                       k: nat, i: nat)
    requires Contracts(h, pm, v, h2, pm2, v2, c, prim)
    requires k < |c.ids| && i < |c.inputs|
    ensures c.ids[k] in h2 && h2[c.ids[k]].inputs == c.inputs
    ensures Listed(pm2, c.inputs[i], Edge(c.ids[k], i))
  {
    assert c.ids[k] in h2;
    InputEarlier(h, pm, v, c, i);
    NewIds(h, pm, v, c);
    UseListed(pm, pm2, c, k, i);
  }

  lemma UseListed(pm: ParentsMap, pm2: ParentsMap, c: Cut, k: nat, i: nat)
    requires |c.ids| > 0 && UsesContracted(pm, pm2, c) && k < |c.ids| && i < |c.inputs|
    requires c.inputs[i] !in c.region && c.inputs[i] != c.NewRoot()
    ensures Listed(pm2, c.inputs[i], Edge(c.ids[k], i))
  {
  }

  lemma SoundContracted(h: Heap, pm: ParentsMap, v: View, h2: Heap, pm2: ParentsMap, v2: View, c: Cut, prim: Primitive)
    requires Contracts(h, pm, v, h2, pm2, v2, c, prim)
    ensures SoundUses(h2, pm2, v2)
  {
    NewIds(h, pm, v, c);
    forall x, e | Listed(pm2, x, e)
      ensures x in h2 && e.user in h2 && e.slot < |h2[e.user].inputs|
      ensures (e.user in v2.live && ReadsAt(h2, e, x)) || e.user in v2.stale
    {
      if e.user in c.ids && e.slot < |c.inputs| && x == c.inputs[e.slot] && x != c.NewRoot() {
        var k := IndexOf(c.ids, e.user);
        assert c.ids[k] in h2;
        assert c.inputs[e.slot] in v.live;
      } else {
        var y := if x == c.NewRoot() then c.root else x;
        assert Listed(pm, y, e);
        assert SameButInputs(h[e.user], h2[e.user]);
        if e.user !in v.stale {
          SoundUser(h, pm, v, pm2, c, x, y, e);
          KeptInput(h, pm, v, h2, pm2, v2, c, prim, e.user, e.slot);
        }
        assert x in h2 by {
          if x == c.NewRoot() { assert c.ids[|c.ids| - 1] in h2; }
        }
      }
    }
  }

  /** No array of the region is listed any more. */
  lemma SoundUser(h: Heap, pm: ParentsMap, v: View, pm2: ParentsMap, c: Cut, x: Id, y: Id, e: Edge)
    requires Good(h, pm, v) && CutOk(h, pm, v, c) && UsesContracted(pm, pm2, c)
    requires Listed(pm2, x, e) && Listed(pm, y, e) && e.user in v.live
    requires y == if x == c.NewRoot() then c.root else x
    ensures e.user !in c.region && ReadsAt(h, e, y)
  {
    assert ReadsAt(h, e, y);
    if e.user in c.region {
      assert NodeGood(h, v, e.user) && OrderGood(h, v, e.user);
      assert h[e.user].inputs[e.slot] == y;
      InnerReads(h, c.inputs, c.fused, e);
      NewIds(h, pm, v, c);
      assert false;
    }
  }

  /** Contracting a region keeps the invariant. */
  lemma ContractKeepsGood(h: Heap, pm: ParentsMap, v: View, h2: Heap, pm2: ParentsMap, v2: View, c: Cut,
                          prim: Primitive)
    requires Contracts(h, pm, v, h2, pm2, v2, c, prim)
    ensures Good(h2, pm2, v2)
  {
    forall p | p in v2.live
      ensures NodeGood(h2, v2, p)
    {
      if p in c.ids {
        NewNodeGood(h, pm, v, h2, pm2, v2, c, prim, IndexOf(c.ids, p));
      } else {
        KeptOrder(h, pm, v, h2, pm2, v2, c, prim, p);
        KeptGroup(h, pm, v, h2, pm2, v2, c, prim, p);
        KeptMeaning(h, pm, v, h2, pm2, v2, c, prim, p);
      }
    }
    CoveredContracted(h, pm, v, h2, pm2, v2, c, prim);
    SoundContracted(h, pm, v, h2, pm2, v2, c, prim);
  }
}
