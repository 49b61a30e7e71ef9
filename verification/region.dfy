/**
 `compile_fuse`: contracts fusable regions of the graph into single `Compiled` arrays.
 */
module Region {
  import opened Wrappers
  import opened ArrayGraph
  import opened Dfs
  import opened LiveGraph

  const MAX_COMPILE_DEPTH := 11

  predicate Fusable(h: Heap, a: Id, stream: nat) {
    && a in h && h[a].prim.Some? && h[a].prim.value.Base?
    && IsFusable(h[a].prim.value.kind) && h[a].prim.value.stream == stream
  }

  /** The invariant of the first recursion: everything collected can be fused with the root, and apart
      from the root it is only used from inside. */
  ghost predicate RegionOk(h: Heap, pm: ParentsMap, v: View, outputs: set<Id>, root: Id, stream: nat, region: set<Id>) {
    && root in region && root in h && root in v.ord
    && (forall x :: x in region ==>
          && x in v.live && x in v.ord && v.ord[x] <= v.ord[root]
          && Fusable(h, x, stream)
          && (x in outputs ==> h[x].shape == h[root].shape))
    && (forall x {:trigger HasReader(h, region, x)} :: x in region && x != root ==> HasReader(h, region, x))
    && (forall x, e :: x in region && x != root && Listed(pm, x, e) ==> e.user in region)
  }

  ghost predicate HasReader(h: Heap, region: set<Id>, x: Id) {
    exists e: Edge :: e.user in region && ReadsAt(h, e, x)
  }

  /** The loop over the listed users of `a`. */
  method AllUsersIn(pm: ParentsMap, a: Id, cache: set<Id>) returns (all: bool)
    requires a in pm
    ensures all <==> forall e :: Listed(pm, a, e) ==> e.user in cache
  {
    var parents := pm[a];
    for k := 0 to |parents|
      invariant forall j :: 0 <= j < k ==> parents[j].user in cache
    {
      if parents[k].user !in cache {
        assert Listed(pm, a, parents[k]);
        return false;
      }
    }
    return true;
  }

  lemma RegionStarts(h: Heap, pm: ParentsMap, v: View, outputs: set<Id>, root: Id, stream: nat)
    requires Good(h, pm, v) && root in v.live && Fusable(h, root, stream)
    ensures RegionOk(h, pm, v, outputs, root, stream, {root})
  {
    assert NodeGood(h, v, root);
  }

  lemma RegionGrows(h: Heap, pm: ParentsMap, v: View, outputs: set<Id>, root: Id, stream: nat, region: set<Id>, a: Id)
    requires Good(h, pm, v) && RegionOk(h, pm, v, outputs, root, stream, region)
    requires HasReader(h, region, a) && Fusable(h, a, stream)
    requires a in outputs ==> h[a].shape == h[root].shape
    requires forall e :: Listed(pm, a, e) ==> e.user in region
    ensures RegionOk(h, pm, v, outputs, root, stream, region + {a})
  {
    var region2 := region + {a};
    ReaderLater(h, pm, v, region, a);
    forall x | x in region2 && x != root
      ensures HasReader(h, region2, x)
    {
      assert HasReader(h, region, x);
      var e: Edge :| e.user in region && ReadsAt(h, e, x);
      assert e.user in region2;
    }
  }

  /** What stops the first recursion at an array before it looks at the array's users. */
  predicate Stops(h: Heap, outputs: set<Id>, a: Id, depth: nat, stream: nat, shape: seq<nat>)
    requires a in h
  {
    depth >= MAX_COMPILE_DEPTH || !Fusable(h, a, stream) || (a in outputs && h[a].shape != shape)
  }

  /** The set the first recursion collects, started from `cache`; None when it looks up the users of an
      array the consumer map has no entry for. */
  function Collected(h: Heap, pm: ParentsMap, outputs: set<Id>, a: Id, depth: nat, stream: nat, shape: seq<nat>,
                     cache: set<Id>): Option<set<Id>>
    decreases if depth < MAX_COMPILE_DEPTH then MAX_COMPILE_DEPTH - depth else 0, 0
  {
    if a in cache || a !in h || Stops(h, outputs, a, depth, stream, shape) then Some(cache)
    else if depth > 0 && a !in pm then None
    else if depth > 0 && exists e :: e in pm[a] && e.user !in cache then Some(cache)
    else CollectedInputs(h, pm, outputs, h[a].inputs, depth + 1, stream, shape, cache + {a})
  }

  function CollectedInputs(h: Heap, pm: ParentsMap, outputs: set<Id>, inputs: seq<Id>, depth: nat, stream: nat,
                           shape: seq<nat>, cache: set<Id>): Option<set<Id>>
    decreases if depth < MAX_COMPILE_DEPTH then MAX_COMPILE_DEPTH - depth else 0, 1 + |inputs|
  {
    if inputs == [] then Some(cache)
    else
      match Collected(h, pm, outputs, inputs[0], depth, stream, shape, cache)
      case None => None
      case Some(more) => CollectedInputs(h, pm, outputs, inputs[1..], depth, stream, shape, more)
  }

  /** The first recursion of the fuser: collects into `cache` what can be fused with the root. */
  method Collect(h: Heap, pm: ParentsMap, ghost v: View, outputs: set<Id>, ghost root: Id,
                 a: Id, depth: nat, stream: nat, shape: seq<nat>, cache0: set<Id>)
    returns (cache: set<Id>)
    requires Good(h, pm, v)
    requires root in h && h[root].shape == shape
    requires a in v.live && depth <= MAX_COMPILE_DEPTH
    requires depth == 0 ==> a == root && cache0 == {}
    requires depth > 0 ==> RegionOk(h, pm, v, outputs, root, stream, cache0) && HasReader(h, cache0, a)
    decreases MAX_COMPILE_DEPTH - depth, 1
    ensures cache0 <= cache
    ensures cache == {} || RegionOk(h, pm, v, outputs, root, stream, cache)
    ensures Collected(h, pm, outputs, a, depth, stream, shape, cache0) == Some(cache)
  {
    cache := cache0;
    if a in cache || depth >= MAX_COMPILE_DEPTH || !Fusable(h, a, stream)
       || (a in outputs && h[a].shape != shape) {
      return;
    }
    if depth > 0 {
      ReaderListed(h, pm, v, cache, a);
      var allParentsIn := AllUsersIn(pm, a, cache);
      if !allParentsIn {
        return;
      }
      RegionGrows(h, pm, v, outputs, root, stream, cache, a);
    } else {
      RegionStarts(h, pm, v, outputs, root, stream);
      assert cache + {a} == {root};
    }
    cache := CollectInputs(h, pm, v, outputs, root, a, depth, stream, shape, cache + {a});
  }

  /** The recursion over the inputs of an array that has just been collected. */
  method CollectInputs(h: Heap, pm: ParentsMap, ghost v: View, outputs: set<Id>, ghost root: Id,
                       a: Id, depth: nat, stream: nat, shape: seq<nat>, cache0: set<Id>)
    returns (cache: set<Id>)
    requires Good(h, pm, v)
    requires root in h && h[root].shape == shape
    requires a in v.live && a in h && depth < MAX_COMPILE_DEPTH && a in cache0
    requires RegionOk(h, pm, v, outputs, root, stream, cache0)
    decreases MAX_COMPILE_DEPTH - depth, 0
    ensures cache0 <= cache
    ensures RegionOk(h, pm, v, outputs, root, stream, cache)
    ensures CollectedInputs(h, pm, outputs, h[a].inputs, depth + 1, stream, shape, cache0) == Some(cache)
  {
    cache := cache0;
    CollectedStarts(h, pm, outputs, h[a].inputs, depth + 1, stream, shape, cache0);
    for i := 0 to |h[a].inputs|
      invariant cache0 <= cache
      invariant RegionOk(h, pm, v, outputs, root, stream, cache)
      invariant CollectedSoFar(h, pm, outputs, h[a].inputs, i, depth + 1, stream, shape, cache0, cache)
    {
      InputOfRegion(h, pm, v, cache, a, i);
      ghost var before := cache;
      cache := Collect(h, pm, v, outputs, root, h[a].inputs[i], depth + 1, stream, shape, cache);
      CollectedStep(h, pm, outputs, h[a].inputs, i, depth + 1, stream, shape, cache0, before, cache);
    }
    CollectedEnds(h, pm, outputs, h[a].inputs, depth + 1, stream, shape, cache0, cache);
  }

  /** After the first `i` inputs the recursion has collected `cache`. */
  ghost predicate CollectedSoFar(h: Heap, pm: ParentsMap, outputs: set<Id>, inputs: seq<Id>, i: nat, depth: nat,
                                 stream: nat, shape: seq<nat>, cache0: set<Id>, cache: set<Id>)
    requires i <= |inputs|
  {
    CollectedInputs(h, pm, outputs, inputs, depth, stream, shape, cache0)
    == CollectedInputs(h, pm, outputs, inputs[i..], depth, stream, shape, cache)
  }

  lemma CollectedStarts(h: Heap, pm: ParentsMap, outputs: set<Id>, inputs: seq<Id>, depth: nat, stream: nat,
                        shape: seq<nat>, cache: set<Id>)
    ensures CollectedSoFar(h, pm, outputs, inputs, 0, depth, stream, shape, cache, cache)
  {
    assert inputs[0..] == inputs;
  }

  lemma CollectedStep(h: Heap, pm: ParentsMap, outputs: set<Id>, inputs: seq<Id>, i: nat, depth: nat, stream: nat,
                      shape: seq<nat>, cache0: set<Id>, cache: set<Id>, more: set<Id>)
    requires i < |inputs| && CollectedSoFar(h, pm, outputs, inputs, i, depth, stream, shape, cache0, cache)
    requires Collected(h, pm, outputs, inputs[i], depth, stream, shape, cache) == Some(more)
    ensures CollectedSoFar(h, pm, outputs, inputs, i + 1, depth, stream, shape, cache0, more)
  {
    assert inputs[i..][1..] == inputs[i + 1..];
  }

  lemma CollectedEnds(h: Heap, pm: ParentsMap, outputs: set<Id>, inputs: seq<Id>, depth: nat, stream: nat,
                      shape: seq<nat>, cache0: set<Id>, cache: set<Id>)
    requires CollectedSoFar(h, pm, outputs, inputs, |inputs|, depth, stream, shape, cache0, cache)
    ensures CollectedInputs(h, pm, outputs, inputs, depth, stream, shape, cache0) == Some(cache)
  {
  }

  /** An array without an entry in the consumer map is never collected below the root. */
  lemma {:induction false} NeverCollected(h: Heap, pm: ParentsMap, outputs: set<Id>, a: Id, depth: nat, stream: nat,
                                          shape: seq<nat>, cache: set<Id>, x: Id)
    requires depth > 0 && x !in pm && x !in cache
    ensures var r := Collected(h, pm, outputs, a, depth, stream, shape, cache); r.Some? ==> x !in r.value
    decreases if depth < MAX_COMPILE_DEPTH then MAX_COMPILE_DEPTH - depth else 0, 0
  {
    if a in h && !Stops(h, outputs, a, depth, stream, shape) && a in pm {
      NeverAmongInputs(h, pm, outputs, h[a].inputs, depth + 1, stream, shape, cache + {a}, x);
    }
  }

  lemma {:induction false} NeverAmongInputs(h: Heap, pm: ParentsMap, outputs: set<Id>, inputs: seq<Id>, depth: nat,
                                            stream: nat, shape: seq<nat>, cache: set<Id>, x: Id)
    requires depth > 0 && x !in pm && x !in cache
    ensures var r := CollectedInputs(h, pm, outputs, inputs, depth, stream, shape, cache); r.Some? ==> x !in r.value
    decreases if depth < MAX_COMPILE_DEPTH then MAX_COMPILE_DEPTH - depth else 0, 1 + |inputs|
  {
    if inputs != [] {
      NeverCollected(h, pm, outputs, inputs[0], depth, stream, shape, cache, x);
      var more := Collected(h, pm, outputs, inputs[0], depth, stream, shape, cache);
      if more.Some? {
        NeverAmongInputs(h, pm, outputs, inputs[1..], depth, stream, shape, more.value, x);
      }
    }
  }

  /** The recursion over inputs fails at one that could be fused and has no entry. */
  lemma {:induction false} InputThrows(h: Heap, pm: ParentsMap, outputs: set<Id>, inputs: seq<Id>, depth: nat,
                                       stream: nat, shape: seq<nat>, cache: set<Id>, i: nat)
    requires depth > 0 && i < |inputs| && inputs[i] in h && inputs[i] !in pm && inputs[i] !in cache
    requires !Stops(h, outputs, inputs[i], depth, stream, shape)
    ensures CollectedInputs(h, pm, outputs, inputs, depth, stream, shape, cache) == None
    decreases |inputs|
  {
    if i > 0 {
      NeverCollected(h, pm, outputs, inputs[0], depth, stream, shape, cache, inputs[i]);
      var more := Collected(h, pm, outputs, inputs[0], depth, stream, shape, cache);
      if more.Some? {
        InputThrows(h, pm, outputs, inputs[1..], depth, stream, shape, more.value, i - 1);
      }
    }
  }

  /** On any graph: taking in an array that reads one without an entry, which could be fused too, throws. */
  lemma ReaderThrows(h: Heap, pm: ParentsMap, outputs: set<Id>, a: Id, depth: nat, stream: nat, shape: seq<nat>,
                     cache: set<Id>, i: nat)
    requires a in h && a !in cache && !Stops(h, outputs, a, depth, stream, shape)
    requires depth > 0 ==> a in pm && forall e :: e in pm[a] ==> e.user in cache
    requires i < |h[a].inputs|
    requires var x := h[a].inputs[i];
             && x in h && x !in pm && x !in cache && x != a
             && !Stops(h, outputs, x, depth + 1, stream, shape)
    ensures Collected(h, pm, outputs, a, depth, stream, shape, cache) == None
  {
    InputThrows(h, pm, outputs, h[a].inputs, depth + 1, stream, shape, cache + {a}, i);
  }

  lemma InputOfRegion(h: Heap, pm: ParentsMap, v: View, region: set<Id>, a: Id, i: nat)
    requires Good(h, pm, v) && a in region && a in v.live && a in h && i < |h[a].inputs|
    ensures HasReader(h, region, h[a].inputs[i]) && h[a].inputs[i] in v.live
  {
    assert NodeGood(h, v, a);
    assert ReadsAt(h, Edge(a, i), h[a].inputs[i]);
  }

  lemma ReaderListed(h: Heap, pm: ParentsMap, v: View, region: set<Id>, a: Id)
    requires Good(h, pm, v) && HasReader(h, region, a)
    requires forall x :: x in region ==> x in v.live
    ensures a in pm
  {
    var e: Edge :| e.user in region && ReadsAt(h, e, a);
    assert Listed(pm, h[e.user].inputs[e.slot], Edge(e.user, e.slot));
  }

  lemma ReaderLater(h: Heap, pm: ParentsMap, v: View, region: set<Id>, a: Id)
    requires Good(h, pm, v) && HasReader(h, region, a)
    requires forall x :: x in region ==> x in v.live
    ensures a in v.live && a in v.ord && exists x :: x in region && x in v.ord && v.ord[a] < v.ord[x]
  {
    var e: Edge :| e.user in region && ReadsAt(h, e, a);
    assert NodeGood(h, v, e.user) && NodeGood(h, v, h[e.user].inputs[e.slot]);
  }

  // ---------------------------------------------------------------- the second recursion

  /** Each entry is new and only reads the collected inputs and earlier entries. */
  ghost predicate InnerOk(h: Heap, inputs: seq<Id>, fused: seq<Id>) {
    fused == [] ||
    var k := |fused| - 1;
    && InnerOk(h, inputs, fused[..k])
    && fused[k] in h && fused[k] !in fused[..k]
    && forall i {:trigger h[fused[k]].inputs[i]} :: 0 <= i < |h[fused[k]].inputs| ==>
         h[fused[k]].inputs[i] in inputs || h[fused[k]].inputs[i] in fused[..k]
  }

  lemma {:induction false} InnerOkGrows(h: Heap, inputs: seq<Id>, more: seq<Id>, fused: seq<Id>)
    requires InnerOk(h, inputs, fused) && inputs <= more
    ensures InnerOk(h, more, fused)
  {
    if fused != [] {
      InnerOkGrows(h, inputs, more, fused[..|fused| - 1]);
      assert forall x :: x in inputs ==> x in more;
    }
  }

  /** The collected inputs lie outside the region, are distinct, and are read from inside it. */
  ghost predicate BoundaryOk(h: Heap, v: View, region: set<Id>, inputs: seq<Id>) {
    && NoDuplicates(inputs)
    && (forall k :: 0 <= k < |inputs| ==>
        inputs[k] !in region && inputs[k] in v.live && HasReader(h, region, inputs[k]))
  }

  /** What has been laid out is in the region, and a visited array is laid out or still waits above `a`. */
  ghost predicate LayoutOk(h: Heap, v: View, region: set<Id>, a: Id, inputs: seq<Id>, fused: seq<Id>,
                           tapeSet: set<Id>) {
    && BoundaryOk(h, v, region, inputs) && InnerOk(h, inputs, fused)
    && (forall x :: x in fused ==> x in region && x in tapeSet)
    && (forall x :: x in tapeSet ==> x in v.ord && a in v.ord && (x in fused || v.ord[x] > v.ord[a]))
  }

  /** The layout grew by arrays not after `a`. */
  ghost predicate LayoutGrows(v: View, bound: int, inputs0: seq<Id>, fused0: seq<Id>, tapeSet0: set<Id>,
                              inputs: seq<Id>, fused: seq<Id>, tapeSet: set<Id>)
  {
    && inputs0 <= inputs && fused0 <= fused && tapeSet0 <= tapeSet
    && (forall x :: x in fused && x !in fused0 ==> x in v.ord && v.ord[x] < bound)
    && (forall x :: x in tapeSet ==> x in tapeSet0 || x in fused)
  }

  lemma LayoutGrowsOn(v: View, b1: int, b2: int, inputs0: seq<Id>, fused0: seq<Id>, tapeSet0: set<Id>,
                      inputs1: seq<Id>, fused1: seq<Id>, tapeSet1: set<Id>,
                      inputs: seq<Id>, fused: seq<Id>, tapeSet: set<Id>)
    requires b2 <= b1
    requires LayoutGrows(v, b1, inputs0, fused0, tapeSet0, inputs1, fused1, tapeSet1)
    requires LayoutGrows(v, b2, inputs1, fused1, tapeSet1, inputs, fused, tapeSet)
    ensures LayoutGrows(v, b1, inputs0, fused0, tapeSet0, inputs, fused, tapeSet)
    ensures forall x :: x in fused1 ==> x in fused
    ensures forall x :: x in inputs1 ==> x in inputs
  {
  }

  /** The second recursion of the fuser: lays the region out in order and collects its inputs. */
  method Layout(h: Heap, ghost v: View, region: set<Id>, a: Id, inputs0: seq<Id>, fused0: seq<Id>, tapeSet0: set<Id>)
    returns (inputs: seq<Id>, fused: seq<Id>, tapeSet: set<Id>)
    requires forall x :: x in region ==> x in v.live && NodeGood(h, v, x)
    requires a in v.live && a in v.ord && (a in region || HasReader(h, region, a))
    requires LayoutOk(h, v, region, a, inputs0, fused0, tapeSet0)
    decreases v.ord[a], 1
    ensures LayoutOk(h, v, region, a, inputs, fused, tapeSet)
    ensures LayoutGrows(v, v.ord[a] + 1, inputs0, fused0, tapeSet0, inputs, fused, tapeSet)
    ensures if a in region then a in fused else a in inputs
    ensures a in region && a !in tapeSet0 ==>
              |fused| > 0 && fused[|fused| - 1] == a
              && forall x :: x in fused[..|fused| - 1] && x !in fused0 ==> x in v.ord && v.ord[x] < v.ord[a]
  {
    inputs, fused, tapeSet := inputs0, fused0, tapeSet0;
    if a !in region {
      if a !in inputs {
        inputs := inputs + [a];
        InnerOkGrows(h, inputs0, inputs, fused);
      }
      return;
    }
    if a in tapeSet {
      return;
    }
    tapeSet := tapeSet + {a};
    assert NodeGood(h, v, a);
    inputs, fused, tapeSet := LayoutInputs(h, v, region, a, inputs, fused, tapeSet);
    assert (fused + [a])[..|fused|] == fused;
    fused := fused + [a];
  }

  /** The loop over the inputs of an array of the region. */
  method LayoutInputs(h: Heap, ghost v: View, region: set<Id>, a: Id, inputs0: seq<Id>, fused0: seq<Id>,
                      tapeSet0: set<Id>)
    returns (inputs: seq<Id>, fused: seq<Id>, tapeSet: set<Id>)
    requires forall x :: x in region ==> x in v.live && NodeGood(h, v, x)
    requires a in region && a in v.ord && a in h && NodeGood(h, v, a)
    requires BoundaryOk(h, v, region, inputs0) && InnerOk(h, inputs0, fused0)
    requires forall x :: x in fused0 ==> x in region && x in tapeSet0
    requires forall x :: x in tapeSet0 ==> x in v.ord && (x in fused0 || v.ord[x] >= v.ord[a])
    decreases v.ord[a], 0
    ensures BoundaryOk(h, v, region, inputs) && InnerOk(h, inputs, fused)
    ensures forall x :: x in fused ==> x in region && x in tapeSet
    ensures LayoutGrows(v, v.ord[a], inputs0, fused0, tapeSet0, inputs, fused, tapeSet)
    ensures forall j {:trigger h[a].inputs[j]} :: 0 <= j < |h[a].inputs| ==>
            h[a].inputs[j] in inputs || h[a].inputs[j] in fused
  {
    inputs, fused, tapeSet := inputs0, fused0, tapeSet0;
    for i := 0 to |h[a].inputs|
      invariant BoundaryOk(h, v, region, inputs) && InnerOk(h, inputs, fused)
      invariant forall x :: x in fused ==> x in region && x in tapeSet
      invariant LayoutGrows(v, v.ord[a], inputs0, fused0, tapeSet0, inputs, fused, tapeSet)
      invariant forall j {:trigger h[a].inputs[j]} :: 0 <= j < i ==> h[a].inputs[j] in inputs || h[a].inputs[j] in fused
    {
      var x := h[a].inputs[i];
      assert ReadsAt(h, Edge(a, i), x);
      WaitingAbove(h, v, region, a, i, inputs0, fused0, tapeSet0, inputs, fused, tapeSet);
      ghost var inputs1, fused1, tapeSet1 := inputs, fused, tapeSet;
      inputs, fused, tapeSet := Layout(h, v, region, x, inputs, fused, tapeSet);
      LayoutGrowsOn(v, v.ord[a], v.ord[x] + 1, inputs0, fused0, tapeSet0, inputs1, fused1, tapeSet1, inputs, fused,
          tapeSet);
    }
  }

  lemma WaitingAbove(h: Heap, v: View, region: set<Id>, a: Id, i: nat, inputs0: seq<Id>, fused0: seq<Id>,
                     tapeSet0: set<Id>,
                     inputs: seq<Id>, fused: seq<Id>, tapeSet: set<Id>)
    requires NodeGood(h, v, a) && a in v.ord && i < |h[a].inputs|
    requires BoundaryOk(h, v, region, inputs) && InnerOk(h, inputs, fused)
    requires forall x :: x in fused ==> x in region && x in tapeSet
    requires forall x :: x in tapeSet0 ==> x in v.ord && (x in fused0 || v.ord[x] >= v.ord[a])
    requires LayoutGrows(v, v.ord[a], inputs0, fused0, tapeSet0, inputs, fused, tapeSet)
    requires forall x :: x in region ==> x in v.live && NodeGood(h, v, x)
    ensures h[a].inputs[i] in v.live && h[a].inputs[i] in v.ord && v.ord[h[a].inputs[i]] < v.ord[a]
    ensures LayoutOk(h, v, region, h[a].inputs[i], inputs, fused, tapeSet)
  {
    assert OrderGood(h, v, a);
    forall x | x in tapeSet
      ensures x in v.ord && (x in fused || v.ord[x] > v.ord[h[a].inputs[i]])
    {
      if x in fused {
        assert NodeGood(h, v, x);
      }
    }
  }

  /** The layout contains the whole region. */
  lemma {:induction false} LayoutComplete(h: Heap, v: View, region: set<Id>, root: Id, inputs: seq<Id>, fused: seq<Id>,
                                          x: Id)
    requires root in v.ord && root in fused && x in region
    requires forall y :: y in region ==> y in v.live && NodeGood(h, v, y) && y in v.ord && v.ord[y] <= v.ord[root]
    requires forall y :: y in region && y != root ==> HasReader(h, region, y)
    requires BoundaryOk(h, v, region, inputs) && InnerOk(h, inputs, fused)
    decreases v.ord[root] - v.ord[x]
    ensures x in fused
  {
    if x != root {
      var e: Edge :| e.user in region && ReadsAt(h, e, x);
      assert NodeGood(h, v, e.user) && OrderGood(h, v, e.user);
      LayoutComplete(h, v, region, root, inputs, fused, e.user);
      InnerReads(h, inputs, fused, e);
    }
  }

  lemma {:induction false} InnerReads(h: Heap, inputs: seq<Id>, fused: seq<Id>, e: Edge)
    requires InnerOk(h, inputs, fused) && e.user in fused && e.user in h && e.slot < |h[e.user].inputs|
    ensures h[e.user].inputs[e.slot] in inputs || h[e.user].inputs[e.slot] in fused
  {
    var k := |fused| - 1;
    if fused[k] != e.user {
      InnerReads(h, inputs, fused[..k], e);
    }
  }

  /** `path` follows uses: each entry is read by the next. */
  ghost predicate UsePath(h: Heap, v: View, path: seq<Id>) {
    && (forall k :: 0 <= k < |path| ==> path[k] in v.live)
    && (forall k :: 0 <= k < |path| - 1 ==> ReadBy(h, path[k], path[k + 1]))
  }

  ghost predicate ReadBy(h: Heap, x: Id, user: Id) {
    user in h && x in h[user].inputs
  }

  /** The region is convex: no path of uses leaves it and comes back. */
  lemma {:induction false} RegionConvex(h: Heap, pm: ParentsMap, v: View, outputs: set<Id>, root: Id, stream: nat,
                                        region: set<Id>, path: seq<Id>, k: nat)
    requires Good(h, pm, v) && RegionOk(h, pm, v, outputs, root, stream, region)
    requires UsePath(h, v, path) && k < |path|
    requires path[0] in region && path[|path| - 1] in region
    ensures path[k] in region
  {
    if k > 0 {
      RegionConvex(h, pm, v, outputs, root, stream, region, path, k - 1);
      if path[k - 1] != root {
        assert ReadBy(h, path[k - 1], path[k]);
        var i :| 0 <= i < |h[path[k]].inputs| && h[path[k]].inputs[i] == path[k - 1];
        assert Listed(pm, path[k - 1], Edge(path[k], i));
      } else if path[k] !in region {
        PathClimbs(h, pm, v, path, k - 1, |path| - 1);
        assert false;
      }
    }
  }

  lemma {:induction false} PathClimbs(h: Heap, pm: ParentsMap, v: View, path: seq<Id>, j: nat, k: nat)
    requires Good(h, pm, v) && UsePath(h, v, path) && j < k < |path|
    ensures path[j] in v.ord && path[k] in v.ord && v.ord[path[j]] < v.ord[path[k]]
  {
    assert ReadBy(h, path[k - 1], path[k]);
    assert NodeGood(h, v, path[k]) && OrderGood(h, v, path[k]);
    var i :| 0 <= i < |h[path[k]].inputs| && h[path[k]].inputs[i] == path[k - 1];
    if j < k - 1 {
      PathClimbs(h, pm, v, path, j, k - 1);
    }
  }
}
