/**
 What `compile_fuse` leaves behind: no array that could still be fused reads one it could be fused with,
 and every `Compiled` array was built from fusable arrays of one stream.
 */
module Complete {
  import opened Wrappers
  import Tensors
  import opened ArrayGraph
  import opened Dfs
  import opened LiveGraph
  import opened Region
  import opened Contraction

  // ---------------------------------------------------------------- the first recursion leaves nothing out

  /** Nothing but its users can keep `x` out of a region of this stream and root shape. */
  ghost predicate MayJoin(h: Heap, outputs: set<Id>, x: Id, stream: nat, shape: seq<nat>) {
    && x in h && h[x].prim.Some? && h[x].prim.value.Base?
    && !h[x].prim.value.kind.Other? && h[x].prim.value.stream == stream
    && (x in outputs ==> h[x].shape == shape)
  }

  ghost predicate UsedWithin(pm: ParentsMap, x: Id, region: set<Id>) {
    forall e :: Listed(pm, x, e) ==> e.user in region
  }

  ghost predicate UsesAreReads(h: Heap, pm: ParentsMap, region: set<Id>) {
    forall x, e :: Listed(pm, x, e) && e.user in region ==> ReadsAt(h, e, x)
  }

  /** What is used by an array new in `region`, only used inside, and may join, has joined. */
  ghost predicate Exhausted(h: Heap, pm: ParentsMap, outputs: set<Id>, stream: nat, shape: seq<nat>, cache: set<Id>,
                            region: set<Id>) {
    forall x, e {:trigger Listed(pm, x, e)} ::
      Listed(pm, x, e) && e.user in region && e.user !in cache && UsedWithin(pm, x, region)
      && MayJoin(h, outputs, x, stream, shape) ==>
        x in region
  }

  lemma {:induction false} CollectedGrows(h: Heap, pm: ParentsMap, outputs: set<Id>, a: Id, depth: nat, stream: nat,
                                          shape: seq<nat>, cache: set<Id>)
    ensures var r := Collected(h, pm, outputs, a, depth, stream, shape, cache); r.Some? ==> cache <= r.value
    decreases if depth < MAX_COMPILE_DEPTH then MAX_COMPILE_DEPTH - depth else 0, 0
  {
    if a in h && !Stops(h, outputs, a, depth, stream, shape) {
      InputsGrow(h, pm, outputs, h[a].inputs, depth + 1, stream, shape, cache + {a});
    }
  }

  lemma {:induction false} InputsGrow(h: Heap, pm: ParentsMap, outputs: set<Id>, inputs: seq<Id>, depth: nat,
                                      stream: nat, shape: seq<nat>, cache: set<Id>)
    ensures var r := CollectedInputs(h, pm, outputs, inputs, depth, stream, shape, cache); r.Some? ==> cache <= r.value
    decreases if depth < MAX_COMPILE_DEPTH then MAX_COMPILE_DEPTH - depth else 0, 1 + |inputs|
  {
    if inputs != [] {
      CollectedGrows(h, pm, outputs, inputs[0], depth, stream, shape, cache);
      var more := Collected(h, pm, outputs, inputs[0], depth, stream, shape, cache);
      if more.Some? {
        InputsGrow(h, pm, outputs, inputs[1..], depth, stream, shape, more.value);
      }
    }
  }

  /** An input that may join and is only used from what is already collected joins. */
  lemma {:induction false} InputJoins(h: Heap, pm: ParentsMap, outputs: set<Id>, inputs: seq<Id>, depth: nat,
                                      stream: nat, shape: seq<nat>, cache: set<Id>, region: set<Id>, i: nat)
    requires CollectedInputs(h, pm, outputs, inputs, depth, stream, shape, cache) == Some(region)
    requires 0 < depth < 11 && i < |inputs|
    requires MayJoin(h, outputs, inputs[i], stream, shape) && UsedWithin(pm, inputs[i], cache)
    ensures inputs[i] in region
    decreases |inputs|
  {
    CollectedGrows(h, pm, outputs, inputs[0], depth, stream, shape, cache);
    var more := Collected(h, pm, outputs, inputs[0], depth, stream, shape, cache).value;
    InputsGrow(h, pm, outputs, inputs[1..], depth, stream, shape, more);
    if i > 0 {
      InputJoins(h, pm, outputs, inputs[1..], depth, stream, shape, more, region, i - 1);
    } else if inputs[0] !in cache {
      FirstJoins(h, pm, outputs, inputs[0], depth, stream, shape, cache, more);
    }
  }

  lemma FirstJoins(h: Heap, pm: ParentsMap, outputs: set<Id>, a: Id, depth: nat, stream: nat, shape: seq<nat>,
                   cache: set<Id>, region: set<Id>)
    requires Collected(h, pm, outputs, a, depth, stream, shape, cache) == Some(region) && 0 < depth < 11
    requires a !in cache && MayJoin(h, outputs, a, stream, shape) && UsedWithin(pm, a, cache)
    ensures a in region
  {
    assert forall e :: e in UsersOf(pm, a) ==> Listed(pm, a, e);
    InputsGrow(h, pm, outputs, h[a].inputs, depth + 1, stream, shape, cache + {a});
  }

  /** Below the depth limit the recursion leaves out nothing that could join. */
  lemma {:induction false} CollectedExhausts(h: Heap, pm: ParentsMap, outputs: set<Id>, a: Id, depth: nat, stream: nat,
                                             shape: seq<nat>, cache: set<Id>, region: set<Id>)
    requires Collected(h, pm, outputs, a, depth, stream, shape, cache) == Some(region)
    requires depth <= |cache| && |region| < 11 && UsesAreReads(h, pm, region)
    ensures Exhausted(h, pm, outputs, stream, shape, cache, region)
    decreases if depth < MAX_COMPILE_DEPTH then MAX_COMPILE_DEPTH - depth else 0, 0
  {
    if region != cache {
      var grown := cache + {a};
      assert CollectedInputs(h, pm, outputs, h[a].inputs, depth + 1, stream, shape, grown) == Some(region);
      InputsGrow(h, pm, outputs, h[a].inputs, depth + 1, stream, shape, grown);
      Sizes(grown, region);
      InputsExhaust(h, pm, outputs, h[a].inputs, depth + 1, stream, shape, grown, region);
      forall x, e: Edge | Listed(pm, x, e) && e.user in region && e.user !in cache && UsedWithin(pm, x, region)
                          && MayJoin(h, outputs, x, stream, shape)
        ensures x in region
      {
        if UsedWithin(pm, x, grown) {
          assert ReadsAt(h, e, x);
          InputJoins(h, pm, outputs, h[a].inputs, depth + 1, stream, shape, grown, region, e.slot);
        }
      }
    }
  }

  lemma Sizes(a: set<Id>, b: set<Id>)
    requires a <= b
    ensures |a| <= |b|
  {
    assert b == a + (b - a);
  }

  lemma {:induction false} InputsExhaust(h: Heap, pm: ParentsMap, outputs: set<Id>, inputs: seq<Id>, depth: nat,
                                         stream: nat, shape: seq<nat>, cache: set<Id>, region: set<Id>)
    requires CollectedInputs(h, pm, outputs, inputs, depth, stream, shape, cache) == Some(region)
    requires depth <= |cache| && |region| < 11 && UsesAreReads(h, pm, region)
    ensures Exhausted(h, pm, outputs, stream, shape, cache, region)
    decreases if depth < MAX_COMPILE_DEPTH then MAX_COMPILE_DEPTH - depth else 0, 1 + |inputs|
  {
    if inputs != [] {
      var more := Collected(h, pm, outputs, inputs[0], depth, stream, shape, cache).value;
      CollectedGrows(h, pm, outputs, inputs[0], depth, stream, shape, cache);
      InputsGrow(h, pm, outputs, inputs[1..], depth, stream, shape, more);
      Sizes(cache, more);
      Sizes(more, region);
      CollectedExhausts(h, pm, outputs, inputs[0], depth, stream, shape, cache, more);
      InputsExhaust(h, pm, outputs, inputs[1..], depth, stream, shape, more, region);
    }
  }

  /** An array read from the region that stayed outside could not join, or has a user outside. */
  lemma RegionExhausted(h: Heap, pm: ParentsMap, v: View, outputs: set<Id>, root: Id, stream: nat, region: set<Id>,
                        x: Id)
    requires Good(h, pm, v) && RegionOk(h, pm, v, outputs, root, stream, region)
    requires Collected(h, pm, outputs, root, 0, stream, h[root].shape, {}) == Some(region) && |region| < 11
    requires HasReader(h, region, x) && x !in region && MayJoin(h, outputs, x, stream, h[root].shape)
    ensures exists e :: Listed(pm, x, e) && e.user !in region
  {
    CollectedExhausts(h, pm, outputs, root, 0, stream, h[root].shape, {}, region);
    var e: Edge :| e.user in region && ReadsAt(h, e, x);
    assert Listed(pm, h[e.user].inputs[e.slot], Edge(e.user, e.slot));
    assert !UsedWithin(pm, x, region);
  }

  // ---------------------------------------------------------------- and goes no deeper than the limit

  /** `path` goes from `root` down to `x` inside the region, each array reading the next. */
  ghost predicate Descends(h: Heap, region: set<Id>, root: Id, x: Id, path: seq<Id>) {
    && |path| > 0 && path[0] == root && path[|path| - 1] == x
    && (forall k :: 0 <= k < |path| ==> path[k] in region)
    && (forall k :: 0 <= k < |path| - 1 ==> ReadBy(h, path[k + 1], path[k]))
  }

  /** At most ten reads below the root. */
  ghost predicate Near(h: Heap, region: set<Id>, root: Id, x: Id) {
    exists path :: Descends(h, region, root, x, path) && |path| <= 11
  }

  ghost predicate AllNear(h: Heap, region: set<Id>, root: Id) {
    forall x {:trigger Near(h, region, root, x)} :: x in region ==> Near(h, region, root, x)
  }

  lemma NearGrows(h: Heap, cache: set<Id>, root: Id, a: Id, path: seq<Id>)
    requires AllNear(h, cache, root) && |path| <= 11 && Descends(h, cache + {a}, root, a, path)
    ensures AllNear(h, cache + {a}, root)
  {
    forall x | x in cache
      ensures Near(h, cache + {a}, root, x)
    {
      assert Near(h, cache, root, x);
      var p :| Descends(h, cache, root, x, p) && |p| <= 11;
      assert Descends(h, cache + {a}, root, x, p);
    }
    assert Near(h, cache + {a}, root, a);
  }

  lemma {:induction false} CollectedNear(h: Heap, pm: ParentsMap, outputs: set<Id>, a: Id, depth: nat, stream: nat,
                                         shape: seq<nat>, cache: set<Id>, region: set<Id>, root: Id, path: seq<Id>)
    requires Collected(h, pm, outputs, a, depth, stream, shape, cache) == Some(region) && AllNear(h, cache, root)
    requires |path| == depth
    requires if depth == 0 then a == root
             else Descends(h, cache, root, path[depth - 1], path) && ReadBy(h, a, path[depth - 1])
    ensures AllNear(h, region, root)
    decreases if depth < MAX_COMPILE_DEPTH then MAX_COMPILE_DEPTH - depth else 0, 0
  {
    if region != cache {
      assert Descends(h, cache + {a}, root, a, path + [a]);
      NearGrows(h, cache, root, a, path + [a]);
      InputsNear(h, pm, outputs, a, h[a].inputs, depth + 1, stream, shape, cache + {a}, region, root, path + [a]);
    }
  }

  lemma {:induction false} InputsNear(h: Heap, pm: ParentsMap, outputs: set<Id>, a: Id, inputs: seq<Id>, depth: nat,
                                      stream: nat, shape: seq<nat>, cache: set<Id>, region: set<Id>, root: Id,
                                      path: seq<Id>)
    requires CollectedInputs(h, pm, outputs, inputs, depth, stream, shape, cache) == Some(region)
    requires AllNear(h, cache, root) && |path| == depth && Descends(h, cache, root, a, path)
    requires forall i :: 0 <= i < |inputs| ==> ReadBy(h, inputs[i], a)
    ensures AllNear(h, region, root)
    decreases if depth < MAX_COMPILE_DEPTH then MAX_COMPILE_DEPTH - depth else 0, 1 + |inputs|
  {
    if inputs != [] {
      var more := Collected(h, pm, outputs, inputs[0], depth, stream, shape, cache).value;
      CollectedGrows(h, pm, outputs, inputs[0], depth, stream, shape, cache);
      CollectedNear(h, pm, outputs, inputs[0], depth, stream, shape, cache, more, root, path);
      assert Descends(h, more, root, a, path);
      InputsNear(h, pm, outputs, a, inputs[1..], depth, stream, shape, more, region, root, path);
    }
  }

  // ---------------------------------------------------------------- what is left on the tape

  /** `x`, read by `p`, cannot be fused with it: it may not join, or someone else reads it too. */
  ghost predicate Barred(h: Heap, pm: ParentsMap, outputs: set<Id>, p: Id, stream: nat, x: Id)
    requires p in h
  {
    MayJoin(h, outputs, x, stream, h[p].shape) ==> exists e :: Listed(pm, x, e) && e.user !in Group(h, p)
  }

  ghost predicate AllBarred(h: Heap, pm: ParentsMap, outputs: set<Id>, p: Id, stream: nat)
    requires p in h
  {
    forall i {:trigger h[p].inputs[i]} :: 0 <= i < |h[p].inputs| ==>
      Barred(h, pm, outputs, p, stream, h[p].inputs[i])
  }

  /** Nothing more can be fused with `p`.  A region that reached the depth limit may end at arrays that
      could be fused; it has at least eleven arrays. */
  ghost predicate NothingLeft(h: Heap, pm: ParentsMap, outputs: set<Id>, p: Id) {
    p in h &&
    match h[p].prim
    case None => true
    case Some(Base(_, kind, _, stream)) => !kind.Other? ==> AllBarred(h, pm, outputs, p, stream)
    case Some(Compiled(stream, _, _, tape, _)) => |tape| < 11 ==> AllBarred(h, pm, outputs, p, stream)
  }

  /** The primitive was built from more than one array, all fusable and of its stream and at most ten reads
      away from the last; it provides that one and the graph outputs among them, and its constants are the
      inputs of one element without primitive that the function does not take. */
  ghost predicate PrimBuilt(h: Heap, outputs: set<Id>, inputIds: set<Id>, prim: Primitive) {
    && prim.Compiled? && |prim.tape| > 1
    && (forall k {:trigger prim.tape[k]} :: 0 <= k < |prim.tape| ==> FitsIn(h, prim.stream, prim.tape[k]))
    && AllNear(h, ToSet(prim.tape), prim.tape[|prim.tape| - 1])
    && (forall x :: x in prim.outputs <==>
          x in ToSet(prim.tape) && (x in outputs || x == prim.tape[|prim.tape| - 1]))
    && (forall x :: x in prim.constants <==> x in prim.inputs && IsConstant(h, inputIds, x))
  }

  ghost predicate FitsIn(h: Heap, stream: nat, t: Id) {
    && t in h && h[t].prim.Some? && h[t].prim.value.Base?
    && !h[t].prim.value.kind.Other? && h[t].prim.value.stream == stream
  }

  ghost predicate IsConstant(h: Heap, inputIds: set<Id>, x: Id) {
    x in h && h[x].prim.None? && Tensors.Size(h[x].shape) == 1 && x !in inputIds
  }

  /** `p` has the shape and the type of `o`. */
  ghost predicate LooksLike(h: Heap, p: Id, o: Id) {
    p in h && o in h && h[p].shape == h[o].shape && h[p].dtype == h[o].dtype
  }

  /** A `Compiled` array looks like the one it replaces, and its primitive is built as it should be. */
  ghost predicate WellBuilt(h: Heap, outputs: set<Id>, inputIds: set<Id>, p: Id) {
    p in h &&
    match h[p].prim
    case Some(Compiled(stream, inputs, outs, tape, constants)) =>
      && PrimBuilt(h, outputs, inputIds, h[p].prim.value)
      && h[p].position < |outs| && LooksLike(h, p, outs[h[p].position])
    case _ => true
  }

  /** Done with: fused as far as it goes. */
  ghost predicate Finished(h: Heap, pm: ParentsMap, outputs: set<Id>, inputIds: set<Id>, p: Id) {
    NothingLeft(h, pm, outputs, p) && WellBuilt(h, outputs, inputIds, p)
  }

  // ---------------------------------------------------------------- finished arrays stay finished

  lemma DescendsFrame(h: Heap, h2: Heap, region: set<Id>, root: Id, x: Id, path: seq<Id>)
    requires Descends(h, region, root, x, path)
    requires forall t :: t in region ==> t in h && t in h2 && h2[t] == h[t]
    ensures Descends(h2, region, root, x, path)
  {
    forall k | 0 <= k < |path| - 1
      ensures ReadBy(h2, path[k + 1], path[k])
    {
      assert ReadBy(h, path[k + 1], path[k]);
    }
  }

  lemma PrimBuiltFrame(h: Heap, h2: Heap, outputs: set<Id>, inputIds: set<Id>, prim: Primitive)
    requires PrimBuilt(h, outputs, inputIds, prim)
    requires h.Keys <= h2.Keys && forall x {:trigger h2[x]} :: x in h ==> SameButInputs(h[x], h2[x])
    requires forall t :: t in prim.tape ==> t in h && t in h2 && h2[t] == h[t]
    requires forall x :: x in prim.inputs ==> x in h
    ensures PrimBuilt(h2, outputs, inputIds, prim)
  {
    var region, root := ToSet(prim.tape), prim.tape[|prim.tape| - 1];
    forall k {:trigger prim.tape[k]} | 0 <= k < |prim.tape|
      ensures FitsIn(h2, prim.stream, prim.tape[k])
    {
      assert FitsIn(h, prim.stream, prim.tape[k]) && h2[prim.tape[k]] == h[prim.tape[k]];
    }
    forall x | x in region
      ensures Near(h2, region, root, x)
    {
      assert Near(h, region, root, x);
      var path :| Descends(h, region, root, x, path) && |path| <= 11;
      DescendsFrame(h, h2, region, root, x, path);
    }
    forall x | x in prim.inputs
      ensures IsConstant(h, inputIds, x) <==> IsConstant(h2, inputIds, x)
    {
      assert SameButInputs(h[x], h2[x]);
    }
  }

  lemma KeptWellBuilt(h: Heap, pm: ParentsMap, v: View, h2: Heap, pm2: ParentsMap, v2: View, c: Cut, prim: Primitive,
                      outputs: set<Id>, inputIds: set<Id>, p: Id)
    requires Contracts(h, pm, v, h2, pm2, v2, c, prim)
    requires p in v.live && p !in c.region && WellBuilt(h, outputs, inputIds, p)
    ensures WellBuilt(h2, outputs, inputIds, p)
  {
    assert NodeGood(h, v, p) && PrimGood(h, v, p) && SameButInputs(h[p], h2[p]);
    if h[p].prim.Some? && h[p].prim.value.Compiled? {
      var inner := h[p].prim.value;
      forall t | t in inner.tape
        ensures t in h && t in h2 && h2[t] == h[t]
      {
        var i :| 0 <= i < |inner.tape| && inner.tape[i] == t;
        CapturedUntouched(h, pm, v, h2, c, prim, t);
      }
      PrimBuiltFrame(h, h2, outputs, inputIds, inner);
      assert SameButInputs(h[inner.outputs[h[p].position]], h2[inner.outputs[h[p].position]]);
    }
  }

  /** An input that was barred stays barred, or has become a `Compiled` array. */
  lemma KeptBarred(h: Heap, pm: ParentsMap, v: View, h2: Heap, pm2: ParentsMap, v2: View, c: Cut, prim: Primitive,
                   outputs: set<Id>, p: Id, stream: nat, i: nat)
    requires Contracts(h, pm, v, h2, pm2, v2, c, prim)
    requires p in v.live && p !in c.region && p in h && i < |h[p].inputs|
    requires Barred(h, pm, outputs, p, stream, h[p].inputs[i])
    ensures p in h2 && i < |h2[p].inputs| && Barred(h2, pm2, outputs, p, stream, h2[p].inputs[i])
  {
    var x := h[p].inputs[i];
    KeptInput(h, pm, v, h2, pm2, v2, c, prim, p, i);
    NewIds(h, pm, v, c);
    assert SameButInputs(h[p], h2[p]) && NodeGood(h, v, p);
    ReadsBefore(h, pm, v, Edge(p, i));
    assert SameButInputs(h[x], h2[x]);
    if x == c.root {
      assert c.ids[|c.ids| - 1] in h2;
    } else if MayJoin(h2, outputs, x, stream, h2[p].shape) {
      var e :| Listed(pm, x, e) && e.user !in Group(h, p);
      UserMoves(h, pm, v, pm2, c, x, e);
      assert forall q :: q in Group(h, p) ==> q in v.live;
    }
  }

  /** A user outside the region stays listed; one inside is replaced by the new arrays. */
  lemma UserMoves(h: Heap, pm: ParentsMap, v: View, pm2: ParentsMap, c: Cut, x: Id, e: Edge)
    requires Good(h, pm, v) && CutOk(h, pm, v, c) && UsesContracted(pm, pm2, c)
    requires Listed(pm, x, e) && x in v.live && x !in c.region
    ensures if e.user !in c.region then Listed(pm2, x, e) else exists k :: Listed(pm2, x, Edge(c.ids[0], k))
  {
    NewIds(h, pm, v, c);
    if e.user in c.region {
      InnerReads(h, c.inputs, c.fused, e);
      var k :| 0 <= k < |c.inputs| && c.inputs[k] == x;
      UseListed(pm, pm2, c, 0, k);
    }
  }

  lemma KeptFinished(h: Heap, pm: ParentsMap, v: View, h2: Heap, pm2: ParentsMap, v2: View, c: Cut, prim: Primitive,
                     outputs: set<Id>, inputIds: set<Id>, p: Id)
    requires Contracts(h, pm, v, h2, pm2, v2, c, prim)
    requires p in v.live && p !in c.region && Finished(h, pm, outputs, inputIds, p)
    ensures Finished(h2, pm2, outputs, inputIds, p)
  {
    KeptWellBuilt(h, pm, v, h2, pm2, v2, c, prim, outputs, inputIds, p);
    assert SameButInputs(h[p], h2[p]);
    if h[p].prim.Some? && AllBarred(h, pm, outputs, p, h[p].prim.value.stream) {
      forall i {:trigger h2[p].inputs[i]} | 0 <= i < |h2[p].inputs|
        ensures Barred(h2, pm2, outputs, p, h[p].prim.value.stream, h2[p].inputs[i])
      {
        KeptBarred(h, pm, v, h2, pm2, v2, c, prim, outputs, p, h[p].prim.value.stream, i);
      }
    }
  }

  // ---------------------------------------------------------------- entries that are finished now

  /** An entry with nothing to fuse is finished as it is. */
  lemma AloneFinished(h: Heap, pm: ParentsMap, v: View, outputs: set<Id>, inputIds: set<Id>, t: Id, cache: set<Id>)
    requires Good(h, pm, v) && t in v.live && t in h
    requires h[t].prim.Some? ==>
               && h[t].prim.value.Base?
               && Collected(h, pm, outputs, t, 0, h[t].prim.value.stream, h[t].shape, {}) == Some(cache)
               && (cache == {} || RegionOk(h, pm, v, outputs, t, h[t].prim.value.stream, cache))
    requires |cache| <= 1
    ensures Finished(h, pm, outputs, inputIds, t)
  {
    assert NodeGood(h, v, t);
    if h[t].prim.Some? && !h[t].prim.value.kind.Other? {
      var stream := h[t].prim.value.stream;
      InputsGrow(h, pm, outputs, h[t].inputs, 1, stream, h[t].shape, {t});
      Sizes({t}, cache);
      Alone(cache, t);
      forall i {:trigger h[t].inputs[i]} | 0 <= i < |h[t].inputs|
        ensures Barred(h, pm, outputs, t, stream, h[t].inputs[i])
      {
        ReadsBefore(h, pm, v, Edge(t, i));
        assert ReadsAt(h, Edge(t, i), h[t].inputs[i]);
        if MayJoin(h, outputs, h[t].inputs[i], stream, h[t].shape) {
          RegionExhausted(h, pm, v, outputs, t, stream, cache, h[t].inputs[i]);
        }
      }
    }
  }

  lemma Alone(s: set<Id>, t: Id)
    requires t in s && |s| <= 1
    ensures s == {t}
  {
    assert |s - {t}| == |s| - 1;
  }

  /** An input of the new primitive that may join has a user outside the region. */
  lemma UsedOutside(h: Heap, pm: ParentsMap, v: View, c: Cut, outputs: set<Id>, stream: nat, i: nat)
    requires Good(h, pm, v) && CutOk(h, pm, v, c) && i < |c.inputs| && |c.fused| < 11
    requires RegionOk(h, pm, v, outputs, c.root, stream, c.region)
    requires Collected(h, pm, outputs, c.root, 0, stream, h[c.root].shape, {}) == Some(c.region)
    requires MayJoin(h, outputs, c.inputs[i], stream, h[c.root].shape)
    ensures exists e :: Listed(pm, c.inputs[i], e) && e.user !in c.region
  {
    assert c.region == ToSet(c.fused);
    ToSetSize(c.fused);
    RegionExhausted(h, pm, v, outputs, c.root, stream, c.region, c.inputs[i]);
  }

  lemma MayJoinBefore(h: Heap, h2: Heap, outputs: set<Id>, x: Id, stream: nat, shape: seq<nat>)
    requires MayJoin(h2, outputs, x, stream, shape) && x in h && SameButInputs(h[x], h2[x])
    ensures MayJoin(h, outputs, x, stream, shape)
  {
  }

  lemma NewBarred(h: Heap, pm: ParentsMap, v: View, h2: Heap, pm2: ParentsMap, c: Cut, prim: Primitive,
                  outputs: set<Id>, k: nat, i: nat)
    requires Good(h, pm, v) && CutOk(h, pm, v, c) && HeapContracted(h, pm, h2, c, prim) && UsesContracted(pm, pm2, c)
    requires k < |c.ids| && i < |c.inputs| && |c.fused| < 11
    requires RegionOk(h, pm, v, outputs, c.root, prim.stream, c.region)
    requires Collected(h, pm, outputs, c.root, 0, prim.stream, h[c.root].shape, {}) == Some(c.region)
    requires c.ids[k] in h2 && h2[c.ids[k]].shape == h[c.root].shape
    ensures Barred(h2, pm2, outputs, c.ids[k], prim.stream, c.inputs[i])
  {
    var x := c.inputs[i];
    InputEarlier(h, pm, v, c, i);
    if MayJoin(h2, outputs, x, prim.stream, h2[c.ids[k]].shape) {
      MayJoinBefore(h, h2, outputs, x, prim.stream, h2[c.ids[k]].shape);
      UsedOutside(h, pm, v, c, outputs, prim.stream, i);
      var e :| Listed(pm, x, e) && e.user !in c.region;
      UserMoves(h, pm, v, pm2, c, x, e);
      NewIds(h, pm, v, c);
      NewOutputs(h, pm, h2, c, prim, k);
    }
  }

  lemma NewPrimBuilt(h: Heap, pm: ParentsMap, v: View, h2: Heap, c: Cut, prim: Primitive, outputs: set<Id>,
                     inputIds: set<Id>)
    requires Good(h, pm, v) && CutOk(h, pm, v, c) && IsPrimOf(h, prim, c) && HeapContracted(h, pm, h2, c, prim)
    requires PrimBuilt(h, outputs, inputIds, prim)
    ensures PrimBuilt(h2, outputs, inputIds, prim)
  {
    forall t | t in prim.tape
      ensures t in h && t in h2 && h2[t] == h[t]
    {
      InnerUntouched(h, pm, v, h2, c, prim, t);
    }
    forall x | x in prim.inputs
      ensures x in h
    {
      var i :| 0 <= i < |c.inputs| && c.inputs[i] == x;
      InputEarlier(h, pm, v, c, i);
    }
    PrimBuiltFrame(h, h2, outputs, inputIds, prim);
  }

  /** The new arrays of a contraction are finished. */
  lemma NewFinished(h: Heap, pm: ParentsMap, v: View, h2: Heap, pm2: ParentsMap, c: Cut, prim: Primitive,
                    outputs: set<Id>, inputIds: set<Id>, k: nat)
    requires Good(h, pm, v) && CutOk(h, pm, v, c) && IsPrimOf(h, prim, c)
    requires HeapContracted(h, pm, h2, c, prim) && UsesContracted(pm, pm2, c)
    requires RegionOk(h, pm, v, outputs, c.root, prim.stream, c.region) && k < |c.ids|
    requires Collected(h, pm, outputs, c.root, 0, prim.stream, h[c.root].shape, {}) == Some(c.region)
    requires PrimBuilt(h, outputs, inputIds, prim)
    requires c.outputs[k] in h && h[c.outputs[k]].shape == h[c.root].shape
    requires c.ids[k] in h2 && h2[c.ids[k]].shape == h[c.root].shape && h2[c.ids[k]].dtype == h[c.outputs[k]].dtype
    ensures Finished(h2, pm2, outputs, inputIds, c.ids[k])
  {
    var p := c.ids[k];
    assert h2[p].prim == Some(prim) && h2[p].inputs == c.inputs && h2[p].position == k;
    NewPrimBuilt(h, pm, v, h2, c, prim, outputs, inputIds);
    assert SameButInputs(h[c.outputs[k]], h2[c.outputs[k]]);
    if |c.fused| < 11 {
      forall i | 0 <= i < |c.inputs|
        ensures Barred(h2, pm2, outputs, p, prim.stream, c.inputs[i])
      {
        NewBarred(h, pm, v, h2, pm2, c, prim, outputs, k, i);
      }
    }
  }

  lemma {:induction false} ToSetSize(s: seq<Id>)
    ensures |ToSet(s)| <= |s|
  {
    if s != [] {
      var k := |s| - 1;
      ToSetSize(s[..k]);
      assert ToSet(s) == ToSet(s[..k]) + {s[k]};
    }
  }
}
