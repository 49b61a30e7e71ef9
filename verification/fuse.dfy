/**
 `compile_fuse`: walks the tape backwards and contracts every fusable region it finds.
 */
module Fuse {
  import opened Wrappers
  import Tensors
  import opened ArrayGraph
  import opened Dfs
  import opened LiveGraph
  import opened Region
  import opened Contraction

  /** `remove_if` on a list of users: drops the users inside the region, and nothing else. */
  function Outside(edges: seq<Edge>, region: set<Id>): (r: seq<Edge>)
    ensures forall e :: e in r <==> e in edges && e.user !in region
    ensures |r| <= |edges| && ((forall i :: 0 <= i < |edges| ==> edges[i].user !in region) ==> r == edges)
  {
    if edges == [] then []
    else (if edges[0].user in region then [] else [edges[0]]) + Outside(edges[1..], region)
  }

  ghost predicate SameListed(pm: ParentsMap, pm2: ParentsMap) {
    forall x, e :: Listed(pm, x, e) <==> Listed(pm2, x, e)
  }

  /** `pm1` is `pm` without the lists of the inner arrays. */
  ghost predicate InnerDropped(pm: ParentsMap, pm1: ParentsMap, fused: seq<Id>)
    requires |fused| > 0
  {
    forall x, e :: Listed(pm1, x, e) <==> Listed(pm, x, e) && x !in fused[..|fused| - 1]
  }

  /** `pm2` is `pm` with the users of the inputs inside the region replaced by the new arrays. */
  ghost predicate UsersReplaced(pm: ParentsMap, pm2: ParentsMap, inputs: seq<Id>, region: set<Id>, ids: seq<Id>) {
    forall x, e :: Listed(pm2, x, e) <==>
      || (Listed(pm, x, e) && (x in inputs ==> e.user !in region))
      || (e.user in ids && e.slot < |inputs| && x == inputs[e.slot])
  }

  lemma SetUsers(pm: ParentsMap, x: Id, users: seq<Edge>)
    ensures forall y, e :: Listed(pm[x := users], y, e) <==> if y == x then e in users else Listed(pm, y, e)
  {
  }

  /** Takes the inner arrays out of the consumer map and collects those that are outputs of the graph. */
  method DropInner(pm: ParentsMap, fused: seq<Id>, region: set<Id>, outputs: set<Id>)
    returns (pm1: ParentsMap, oldOutputs: seq<Id>)
    requires |fused| > 0
    requires forall x, e :: x in fused[..|fused| - 1] && Listed(pm, x, e) ==> e.user in region
    ensures InnerDropped(pm, pm1, fused)
    ensures forall x :: x in oldOutputs <==> x in fused[..|fused| - 1] && x in outputs
  {
    pm1, oldOutputs := pm, [];
    for j := 0 to |fused| - 1
      invariant DroppedUpTo(pm, pm1, fused, j)
      invariant forall x :: x in oldOutputs <==> x in fused[..j] && x in outputs
    {
      var f := fused[j];
      assert fused[..j + 1] == fused[..j] + [f];
      ghost var before := pm1;
      if f in outputs {
        oldOutputs := oldOutputs + [f];
        pm1 := pm1[f := Outside(UsersOf(pm1, f), region)];
      } else {
        pm1 := pm1 - {f};
      }
      DropStep(pm, before, pm1, fused, j, region);
    }
  }

  ghost predicate DroppedUpTo(pm: ParentsMap, pm1: ParentsMap, fused: seq<Id>, j: nat)
    requires j <= |fused|
  {
    forall x, e :: Listed(pm1, x, e) <==> Listed(pm, x, e) && x !in fused[..j]
  }

  lemma DropStep(pm: ParentsMap, before: ParentsMap, after: ParentsMap, fused: seq<Id>, j: nat, region: set<Id>)
    requires j < |fused| - 1 && DroppedUpTo(pm, before, fused, j)
    requires forall x, e :: x in fused[..|fused| - 1] && Listed(pm, x, e) ==> e.user in region
    requires after == before - {fused[j]} || after == before[fused[j] := Outside(UsersOf(before, fused[j]), region)]
    ensures DroppedUpTo(pm, after, fused, j + 1)
  {
    var f := fused[j];
    assert fused[..j + 1] == fused[..j] + [f];
    assert f in fused[..|fused| - 1];
    forall e
      ensures !Listed(after, f, e)
    {
      if e in UsersOf(before, f) {
        assert Listed(before, f, e) && Listed(pm, f, e);
      }
    }
    forall x, e | x != f
      ensures Listed(after, x, e) <==> Listed(before, x, e)
    {
    }
  }

  /** `array::make_arrays`: one array per shape, all results of `prim` on `inputs`, siblings of one another. */
  method MakeArrays(h: Heap, next: nat, shapes: seq<seq<nat>>, dtypes: seq<nat>, prim: Primitive, inputs: seq<Id>)
    returns (h1: Heap, ids: seq<Id>)
    requires |dtypes| == |shapes|
    requires forall p :: p in h ==> p < next
    ensures |ids| == |shapes| && NoDuplicates(ids)
    ensures forall k :: 0 <= k < |ids| ==> ids[k] !in h && ids[k] < next + |shapes|
    ensures forall p :: p in h1 <==> p in h || p in ids
    ensures forall p {:trigger h1[p]} :: p in h ==> h1[p] == h[p]
    ensures forall k {:trigger ids[k]} :: 0 <= k < |ids| ==>
              ids[k] in h1 &&
              h1[ids[k]] == Node(Some(prim), inputs, ids[..k] + ids[k + 1..], k, shapes[k], dtypes[k], false, 0)
  {
    ids := seq(|shapes|, k requires 0 <= k < |shapes| => next + k);
    h1 := h;
    for k := 0 to |shapes|
      invariant forall p :: p in h1 <==> p in h || p in ids[..k]
      invariant forall p {:trigger h1[p]} :: p in h ==> h1[p] == h[p]
      invariant forall j {:trigger ids[j]} :: 0 <= j < k ==>
                  ids[j] in h1 &&
                  h1[ids[j]] == Node(Some(prim), inputs, ids[..j] + ids[j + 1..], j, shapes[j], dtypes[j], false, 0)
    {
      assert ids[..k + 1] == ids[..k] + [ids[k]];
      h1 := h1[ids[k] := Node(Some(prim), inputs, ids[..k] + ids[k + 1..], k, shapes[k], dtypes[k], false, 0)];
    }
    assert ids[..|shapes|] == ids;
  }

  /** Replaces the users inside the region by the new arrays, for every input of the new primitive. */
  method RepointInputs(pm: ParentsMap, inputs: seq<Id>, region: set<Id>, ids: seq<Id>) returns (pm2: ParentsMap)
    requires NoDuplicates(inputs) && forall k :: 0 <= k < |ids| ==> ids[k] !in region
    ensures UsersReplaced(pm, pm2, inputs, region, ids)
  {
    pm2 := pm;
    for i := 0 to |inputs|
      invariant UsersReplaced(pm, pm2, inputs[..i], region, ids)
    {
      var pairs := Outside(UsersOf(pm2, inputs[i]), region);
      ghost var kept, before := pairs, pm2;
      for k := 0 to |ids|
        invariant forall e :: e in pairs <==> e in kept || (e.slot == i && e.user in ids[..k])
      {
        assert ids[..k + 1] == ids[..k] + [ids[k]];
        pairs := pairs + [Edge(ids[k], i)];
      }
      assert ids[..|ids|] == ids;
      pm2 := pm2[inputs[i] := pairs];
      RepointStep(pm, before, pm2, inputs, region, ids, i);
    }
    assert inputs[..|inputs|] == inputs;
  }

  lemma RepointStep(pm: ParentsMap, before: ParentsMap, after: ParentsMap, inputs: seq<Id>, region: set<Id>,
                    ids: seq<Id>, i: nat)
    requires NoDuplicates(inputs) && i < |inputs| && UsersReplaced(pm, before, inputs[..i], region, ids)
    requires inputs[i] in after && after == before[inputs[i] := after[inputs[i]]]
    requires forall e :: e in after[inputs[i]] <==>
               (e in UsersOf(before, inputs[i]) && e.user !in region) || (e.slot == i && e.user in ids)
    ensures UsersReplaced(pm, after, inputs[..i + 1], region, ids)
  {
    var x, pre, post := inputs[i], inputs[..i], inputs[..i + 1];
    assert post == pre + [x];
    assert x !in pre;
    SetUsers(before, x, after[x]);
    forall e
      ensures Listed(after, x, e) <==>
              (Listed(pm, x, e) && e.user !in region) || (e.user in ids && e.slot < |post| && x == post[e.slot])
    {
      assert e in UsersOf(before, x) <==> Listed(before, x, e);
      assert e.slot < |pre| ==> pre[e.slot] != x;
    }
    forall y, e | y != x
      ensures Listed(after, y, e) <==> || (Listed(pm, y, e) && (y in post ==> e.user !in region))
                                       || (e.user in ids && e.slot < |post| && y == post[e.slot])
    {
      assert Listed(after, y, e) <==> Listed(before, y, e);
      assert e.slot < |pre| ==> post[e.slot] == pre[e.slot];
    }
  }

  lemma RedirectNothing(h: Heap, h2: Heap, pm: ParentsMap, src: Id, dst: Id)
    requires Redirected(h, h2, pm, src, dst)
    requires forall e :: !Listed(pm, src, e)
    ensures h2 == h
  {
    forall p | p in h
      ensures h2[p] == h[p]
    {
      assert SameButInputs(h[p], h2[p]);
      assert h2[p].inputs == h[p].inputs;
    }
  }

  /** Points the users of every old output at the new array that provides it. */
  method MergeOutputs(h: Heap, pm: ParentsMap, ids: seq<Id>, outputs: seq<Id>) returns (h2: Heap, pm2: ParentsMap)
    requires |ids| == |outputs| > 0
    requires forall k :: 0 <= k < |ids| ==> ids[k] !in outputs
    requires forall k, e :: 0 <= k < |ids| ==> !Listed(pm, ids[k], e)
    requires forall k, e :: 0 <= k < |ids| - 1 ==> !Listed(pm, outputs[k], e)
    requires forall e :: Listed(pm, outputs[|ids| - 1], e) ==> e.user in h && e.slot < |h[e.user].inputs|
    ensures Redirected(h, h2, pm, outputs[|ids| - 1], ids[|ids| - 1])
    ensures Moved(pm, pm2, outputs[|ids| - 1], ids[|ids| - 1])
  {
    h2, pm2 := h, pm;
    for o := 0 to |outputs|
      invariant o < |outputs| ==> h2 == h && SameListed(pm, pm2)
      invariant o == |outputs| ==> Redirected(h, h2, pm, outputs[|ids| - 1], ids[|ids| - 1])
                                   && Moved(pm, pm2, outputs[|ids| - 1], ids[|ids| - 1])
    {
      ghost var pm1 := pm2;
      h2, pm2 := MergeOne(h2, pm2, ids[o], outputs[o]);
      if o < |outputs| - 1 {
        RedirectNothing(h, h2, pm1, outputs[o], ids[o]);
      }
    }
  }

  // ---------------------------------------------------------------- one region

  lemma FusedIsRegion(h: Heap, pm: ParentsMap, v: View, outputs: set<Id>, root: Id, stream: nat, region: set<Id>,
                      inputs: seq<Id>, fused: seq<Id>)
    requires Good(h, pm, v) && RegionOk(h, pm, v, outputs, root, stream, region)
    requires BoundaryOk(h, v, region, inputs) && InnerOk(h, inputs, fused)
    requires root in fused && forall x :: x in fused ==> x in region
    ensures forall x :: x in region <==> x in fused
  {
    forall x | x in region
      ensures x in fused
    {
      LayoutComplete(h, v, region, root, inputs, fused, x);
    }
  }

  /** Scalar constants among the inputs of the new primitive. */
  method ScalarConstants(h: Heap, inputs: seq<Id>, inputIds: set<Id>) returns (constants: set<Id>)
    requires Allocated(h, inputs)
    ensures forall x :: x in constants <==>
              x in inputs && x in h && Tensors.Size(h[x].shape) == 1 && h[x].prim.None? && x !in inputIds
  {
    constants := {};
    for i := 0 to |inputs|
      invariant forall x :: x in constants <==>
                  x in inputs[..i] && x in h && Tensors.Size(h[x].shape) == 1 && h[x].prim.None? && x !in inputIds
    {
      var x := inputs[i];
      assert inputs[..i + 1] == inputs[..i] + [x];
      if Tensors.Size(h[x].shape) == 1 && h[x].prim.None? && x !in inputIds {
        constants := constants + {x};
      }
    }
    assert inputs[..|inputs|] == inputs;
  }

  /** The check for different output shapes; false is the runtime error. */
  method SameShapes(h: Heap, oldOutputs: seq<Id>) returns (ok: bool)
    requires Allocated(h, oldOutputs) && |oldOutputs| > 0
    ensures ok <==> forall k :: 0 <= k < |oldOutputs| ==>
            h[oldOutputs[k]].shape == h[oldOutputs[|oldOutputs| - 1]].shape
  {
    for k := 0 to |oldOutputs|
      invariant forall j :: 0 <= j < k ==> h[oldOutputs[j]].shape == h[oldOutputs[|oldOutputs| - 1]].shape
    {
      if h[oldOutputs[k]].shape != h[oldOutputs[|oldOutputs| - 1]].shape {
        return false;
      }
    }
    return true;
  }

  /** Redirecting the users of the root leaves the new arrays alone. */
  lemma NewArraysStay(h: Heap, pm: ParentsMap, v: View, h1: Heap, pm2: ParentsMap, h2: Heap, c: Cut, k: nat)
    requires Good(h, pm, v) && CutOk(h, pm, v, c) && k < |c.ids| && c.ids[k] in h1
    requires forall e :: Listed(pm2, c.root, e) <==> Listed(pm, c.root, e)
    requires Redirected(h1, h2, pm2, c.root, c.NewRoot())
    ensures c.ids[k] in h2 && h2[c.ids[k]] == h1[c.ids[k]]
  {
    NewIds(h, pm, v, c);
    var p := c.ids[k];
    assert SameButInputs(h1[p], h2[p]);
    forall i | 0 <= i < |h1[p].inputs|
      ensures h2[p].inputs[i] == h1[p].inputs[i]
    {
      assert !Listed(pm, c.root, Edge(p, i));
    }
    assert h2[p].inputs == h1[p].inputs;
  }

  lemma HeapSteps(h: Heap, pm: ParentsMap, v: View, h1: Heap, pm2: ParentsMap, h2: Heap, c: Cut, prim: Primitive)
    requires Good(h, pm, v) && CutOk(h, pm, v, c)
    requires forall p :: p in h1 <==> p in h || p in c.ids
    requires forall p {:trigger h1[p]} :: p in h ==> h1[p] == h[p]
    requires forall k {:trigger c.ids[k]} :: 0 <= k < |c.ids| ==>
               c.ids[k] in h1 && h1[c.ids[k]].prim == Some(prim) && h1[c.ids[k]].inputs == c.inputs
               && h1[c.ids[k]].siblings == c.ids[..k] + c.ids[k + 1..] && h1[c.ids[k]].position == k
    requires forall e :: Listed(pm2, c.root, e) <==> Listed(pm, c.root, e)
    requires Redirected(h1, h2, pm2, c.root, c.NewRoot())
    ensures HeapContracted(h, pm, h2, c, prim)
    ensures forall k {:trigger c.ids[k]} :: 0 <= k < |c.ids| ==> c.ids[k] in h2 && h2[c.ids[k]] == h1[c.ids[k]]
  {
    forall k {:trigger c.ids[k]} | 0 <= k < |c.ids|
      ensures c.ids[k] in h2 && h2[c.ids[k]] == h1[c.ids[k]]
    {
      NewArraysStay(h, pm, v, h1, pm2, h2, c, k);
    }
    forall p {:trigger h2[p]} | p in h
      ensures SameButInputs(h[p], h2[p])
    {
      assert h1[p] == h[p] && SameButInputs(h1[p], h2[p]);
    }
    forall p, i {:trigger h2[p].inputs[i]} | p in h && 0 <= i < |h[p].inputs|
      ensures h2[p].inputs[i] == if Listed(pm, c.root, Edge(p, i)) then c.NewRoot() else h[p].inputs[i]
    {
      assert h1[p] == h[p];
    }
  }

  lemma UseSteps(h: Heap, pm: ParentsMap, v: View, pm1: ParentsMap, pm2: ParentsMap, pm3: ParentsMap, c: Cut)
    requires Good(h, pm, v) && CutOk(h, pm, v, c)
    requires |c.fused| > 0 && c.fused[|c.fused| - 1] == c.root && c.root !in c.fused[..|c.fused| - 1]
    requires InnerDropped(pm, pm1, c.fused) && UsersReplaced(pm1, pm2, c.inputs, c.region, c.ids)
    requires Moved(pm2, pm3, c.root, c.NewRoot())
    ensures forall e :: Listed(pm2, c.root, e) <==> Listed(pm, c.root, e)
    ensures UsesContracted(pm, pm3, c)
  {
    NewIds(h, pm, v, c);
    assert forall x :: x in c.region <==> x in c.fused[..|c.fused| - 1] || x == c.root;
    assert c.root !in c.inputs;
    assert c.ids[|c.ids| - 1] !in h;
    forall x, e
      ensures Listed(pm3, x, e) <==>
              if x == c.NewRoot() then Listed(pm, c.root, e)
              else x !in c.region &&
                   ((Listed(pm, x, e) && (x in c.inputs ==> e.user !in c.region))
                    || (e.user in c.ids && e.slot < |c.inputs| && x == c.inputs[e.slot]))
    {
      if x == c.NewRoot() {
        assert !Listed(pm2, x, e) by {
          if e.slot < |c.inputs| { assert c.inputs[e.slot] in v.live; }
        }
      } else if e.slot < |c.inputs| {
        assert c.inputs[e.slot] !in c.region;
      }
    }
  }

  /** Lays the region out, takes its inner arrays out of the consumer map, and lists the arrays the new
      primitive has to provide. */
  method CutRegion(h: Heap, pm: ParentsMap, ghost v: View, arr: Id, region: set<Id>, stream: nat, outputs: set<Id>)
    returns (inputs: seq<Id>, fused: seq<Id>, pm1: ParentsMap, oldOutputs: seq<Id>)
    requires Good(h, pm, v) && RegionOk(h, pm, v, outputs, arr, stream, region)
    ensures BoundaryOk(h, v, region, inputs) && InnerOk(h, inputs, fused) && Allocated(h, inputs)
    ensures forall x :: x in region <==> x in fused
    ensures |fused| > 0 && fused[|fused| - 1] == arr && arr !in fused[..|fused| - 1]
    ensures InnerDropped(pm, pm1, fused)
    ensures |oldOutputs| > 0 && oldOutputs[|oldOutputs| - 1] == arr
    ensures forall k :: 0 <= k < |oldOutputs| - 1 ==> oldOutputs[k] in fused[..|fused| - 1]
    ensures forall k :: 0 <= k < |oldOutputs| ==>
            oldOutputs[k] in region && (oldOutputs[k] in outputs || oldOutputs[k] == arr)
    ensures forall x :: x in region && x in outputs ==> x in oldOutputs
  {
    assert NodeGood(h, v, arr);
    var tapeSet: set<Id>;
    inputs, fused, tapeSet := Layout(h, v, region, arr, [], [], {});
    FusedIsRegion(h, pm, v, outputs, arr, stream, region, inputs, fused);
    InputsAllocated(h, pm, v, region, inputs);
    assert forall x :: x in fused <==> x in fused[..|fused| - 1] || x == arr;
    var inner: seq<Id>;
    pm1, inner := DropInner(pm, fused, region, outputs);
    oldOutputs := inner + [arr];
    forall k | 0 <= k < |inner|
      ensures oldOutputs[k] in fused[..|fused| - 1] && oldOutputs[k] in outputs && oldOutputs[k] in region
    {
      assert oldOutputs[k] == inner[k] && inner[k] in inner;
    }
  }

  lemma OutputsKnown(h: Heap, pm: ParentsMap, v: View, outputs: set<Id>, root: Id, stream: nat, region: set<Id>,
                     oldOutputs: seq<Id>)
    requires Good(h, pm, v) && RegionOk(h, pm, v, outputs, root, stream, region)
    requires forall k :: 0 <= k < |oldOutputs| ==>
             oldOutputs[k] in region && (oldOutputs[k] in outputs || oldOutputs[k] == root)
    ensures forall k :: 0 <= k < |oldOutputs| ==>
              oldOutputs[k] in h && h[oldOutputs[k]].shape == h[root].shape && oldOutputs[k] in v.den
    ensures forall x :: x in region ==> IsInner(h, x)
  {
    forall k | 0 <= k < |oldOutputs|
      ensures oldOutputs[k] in h && oldOutputs[k] in v.den
    {
      assert NodeGood(h, v, oldOutputs[k]);
    }
  }

  lemma CutReady(h: Heap, pm: ParentsMap, v: View, outputs: set<Id>, stream: nat, c: Cut)
    requires Good(h, pm, v) && RegionOk(h, pm, v, outputs, c.root, stream, c.region)
    requires BoundaryOk(h, v, c.region, c.inputs) && InnerOk(h, c.inputs, c.fused)
    requires forall x :: x in c.region <==> x in c.fused
    requires |c.ids| == |c.outputs| > 0 && c.outputs[|c.outputs| - 1] == c.root
    requires forall k :: 0 <= k < |c.outputs| ==> c.outputs[k] in c.region
    requires NoDuplicates(c.ids) && forall k :: 0 <= k < |c.ids| ==> c.ids[k] !in h
    ensures CutOk(h, pm, v, c)
  {
  }

  /** New arrays with the shapes and types of others. */
  method MakeLike(h: Heap, next: nat, others: seq<Id>, prim: Primitive, inputs: seq<Id>)
    returns (h1: Heap, ids: seq<Id>)
    requires Allocated(h, others) && forall p :: p in h ==> p < next
    ensures |ids| == |others| && NoDuplicates(ids)
    ensures forall k :: 0 <= k < |ids| ==> ids[k] !in h && ids[k] < next + |ids|
    ensures forall p :: p in h1 <==> p in h || p in ids
    ensures forall p {:trigger h1[p]} :: p in h ==> h1[p] == h[p]
    ensures forall k {:trigger ids[k]} :: 0 <= k < |ids| ==>
              ids[k] in h1 &&
              h1[ids[k]] == Node(Some(prim), inputs, ids[..k] + ids[k + 1..], k, h[others[k]].shape, h[others[k]].dtype,
                                 false, 0)
  {
    var shapes := seq(|others|, k requires 0 <= k < |others| => h[others[k]].shape);
    var types := seq(|others|, k requires 0 <= k < |others| => h[others[k]].dtype);
    h1, ids := MakeArrays(h, next, shapes, types, prim, inputs);
  }

  /** Builds the `Compiled` primitive for a collected region and rewires the graph around it.  `ok` is
      false when the outputs have different shapes, which does not happen. */
  method ContractRegion(h: Heap, pm: ParentsMap, ghost v: View, next: nat, arr: Id, region: set<Id>, stream: nat,
                        outputs: set<Id>, inputIds: set<Id>)
    returns (ok: bool, h2: Heap, pm2: ParentsMap, c: Cut, prim: Primitive, ghost v2: View)
    requires Good(h, pm, v) && RegionOk(h, pm, v, outputs, arr, stream, region)
    requires forall p :: p in h ==> p < next
    ensures ok
    ensures c.region == region && c.root == arr
    ensures Contracts(h, pm, v, h2, pm2, v2, c, prim)
    ensures forall p :: p in h2 ==> p < next + |c.ids|
    ensures forall k :: 0 <= k < |c.outputs| ==> c.outputs[k] in outputs || c.outputs[k] == arr
    ensures forall x :: x in region && x in outputs ==> x in c.outputs
    ensures |c.fused| > 0 && c.fused[|c.fused| - 1] == arr
    ensures arr in h && h[arr].prim.Some? && prim.stream == h[arr].prim.value.stream
    ensures forall x :: x in prim.constants <==>
              x in c.inputs && x in h && Tensors.Size(h[x].shape) == 1 && h[x].prim.None? && x !in inputIds
    ensures forall k {:trigger c.ids[k]} :: 0 <= k < |c.ids| ==>
              && c.ids[k] in h2 && k < |c.outputs| && c.outputs[k] in h
              && h2[c.ids[k]].shape == h[c.outputs[k]].shape && h2[c.ids[k]].dtype == h[c.outputs[k]].dtype
              && h[c.outputs[k]].shape == h[arr].shape
  {
    var inputs, fused, pm1, oldOutputs := CutRegion(h, pm, v, arr, region, stream, outputs);
    OutputsKnown(h, pm, v, outputs, arr, stream, region, oldOutputs);
    ok := SameShapes(h, oldOutputs);
    var constants := ScalarConstants(h, inputs, inputIds);
    prim := Compiled(h[arr].prim.value.stream, inputs, oldOutputs, fused, constants);
    var h1, ids := MakeLike(h, next, oldOutputs, prim, inputs);
    c := Cut(region, arr, inputs, fused, oldOutputs, ids);
    CutReady(h, pm, v, outputs, stream, c);
    h2, pm2 := Rewire(h, pm, v, h1, pm1, c, prim);
    v2 := ViewContracted(v, c);
  }

  /** Repoints the inputs of the new primitive and the users of the arrays it replaces. */
  method Rewire(h: Heap, pm: ParentsMap, ghost v: View, h1: Heap, pm1: ParentsMap, c: Cut, prim: Primitive)
    returns (h2: Heap, pm2: ParentsMap)
    requires Good(h, pm, v) && CutOk(h, pm, v, c)
    requires |c.fused| > 0 && c.fused[|c.fused| - 1] == c.root && c.root !in c.fused[..|c.fused| - 1]
    requires InnerDropped(pm, pm1, c.fused)
    requires forall k :: 0 <= k < |c.outputs| - 1 ==> c.outputs[k] in c.fused[..|c.fused| - 1]
    requires forall p :: p in h1 <==> p in h || p in c.ids
    requires forall p {:trigger h1[p]} :: p in h ==> h1[p] == h[p]
    requires forall k {:trigger c.ids[k]} :: 0 <= k < |c.ids| ==>
               c.ids[k] in h1 && h1[c.ids[k]].prim == Some(prim) && h1[c.ids[k]].inputs == c.inputs
               && h1[c.ids[k]].siblings == c.ids[..k] + c.ids[k + 1..] && h1[c.ids[k]].position == k
    ensures HeapContracted(h, pm, h2, c, prim) && UsesContracted(pm, pm2, c)
    ensures forall k {:trigger c.ids[k]} :: 0 <= k < |c.ids| ==> c.ids[k] in h2 && h2[c.ids[k]] == h1[c.ids[k]]
  {
    NewIds(h, pm, v, c);
    var repointed := RepointInputs(pm1, c.inputs, c.region, c.ids);
    MergeReady(h, pm, v, h1, pm1, repointed, c);
    h2, pm2 := MergeOutputs(h1, repointed, c.ids, c.outputs);
    UseSteps(h, pm, v, pm1, repointed, pm2, c);
    HeapSteps(h, pm, v, h1, repointed, h2, c, prim);
  }

  lemma InputsAllocated(h: Heap, pm: ParentsMap, v: View, region: set<Id>, inputs: seq<Id>)
    requires Good(h, pm, v) && BoundaryOk(h, v, region, inputs)
    ensures Allocated(h, inputs)
  {
    forall k | 0 <= k < |inputs|
      ensures inputs[k] in h
    {
      assert NodeGood(h, v, inputs[k]);
    }
  }

  lemma MergeReady(h: Heap, pm: ParentsMap, v: View, h1: Heap, pm1: ParentsMap, pm2: ParentsMap, c: Cut)
    requires Good(h, pm, v) && CutOk(h, pm, v, c)
    requires |c.fused| > 0 && c.root !in c.fused[..|c.fused| - 1]
    requires h.Keys <= h1.Keys
    requires forall p {:trigger h1[p]} :: p in h ==> h1[p] == h[p]
    requires InnerDropped(pm, pm1, c.fused) && UsersReplaced(pm1, pm2, c.inputs, c.region, c.ids)
    requires forall k :: 0 <= k < |c.outputs| - 1 ==> c.outputs[k] in c.fused[..|c.fused| - 1]
    ensures forall k :: 0 <= k < |c.ids| ==> c.ids[k] !in c.outputs
    ensures forall k, e :: 0 <= k < |c.ids| ==> !Listed(pm2, c.ids[k], e)
    ensures forall k, e :: 0 <= k < |c.ids| - 1 ==> !Listed(pm2, c.outputs[k], e)
    ensures forall e :: Listed(pm2, c.outputs[|c.ids| - 1], e) ==> e.user in h1 && e.slot < |h1[e.user].inputs|
  {
    NewIds(h, pm, v, c);
    assert c.root !in c.inputs;
    forall e | Listed(pm2, c.root, e)
      ensures e.user in h1 && e.slot < |h1[e.user].inputs|
    {
      assert !(e.slot < |c.inputs| && c.root == c.inputs[e.slot]);
      assert Listed(pm, c.root, e);
      assert h1[e.user] == h[e.user];
    }
  }
}
