/**
 The invariant of the graph while the compiler rewrites it, and the one rewriting primitive the passes
 share (`merge_one`).
 */
module LiveGraph {
  import opened Wrappers
  import opened ArrayGraph
  import opened Dfs

  /** What the proofs track beside the heap: the arrays still accounted for by the tape, users the
      consumer map may still list although the tape dropped them, a topological position for every live
      array, and the term every array stands for. */
  datatype View = View(live: set<Id>, stale: set<Id>, ord: map<Id, nat>, den: map<Id, Term>)

  /** Everything a live array reads is live and earlier. */
  ghost predicate OrderGood(h: Heap, v: View, p: Id)
    requires p in h
  {
    p in v.ord &&
    forall i {:trigger h[p].inputs[i]} :: 0 <= i < |h[p].inputs| ==>
      h[p].inputs[i] in v.live && h[p].inputs[i] in v.ord && v.ord[h[p].inputs[i]] < v.ord[p]
  }

  ghost predicate GroupGood(h: Heap, v: View, p: Id)
    requires p in h
  {
    && SiblingsOk(h, p)
    && (forall q {:trigger q in v.live} :: q in Group(h, p) ==>
        q in v.live && q in v.ord && p in v.ord && v.ord[q] == v.ord[p])
  }

  ghost predicate PrimGood(h: Heap, v: View, p: Id)
    requires p in h
  {
    match h[p].prim
    case None => h[p].siblings == []
    case Some(Base(_, kind, _, _)) => IsFusable(kind) ==> h[p].siblings == []
    case Some(c) =>
      && (forall i {:trigger c.tape[i]} :: 0 <= i < |c.tape| ==>
          c.tape[i] in h && c.tape[i] !in v.live && c.tape[i] !in v.stale)
      && (forall i {:trigger c.inputs[i]} :: 0 <= i < |c.inputs| ==> c.inputs[i] in h)
  }

  ghost predicate NodeGood(h: Heap, v: View, p: Id) {
    p in h && OrderGood(h, v, p) && GroupGood(h, v, p) && Consistent(h, v.den, p) && PrimGood(h, v, p)
  }

  /** The consumer map lists every read of a live array, and nothing wrong about live users. */
  ghost predicate Covered(h: Heap, pm: ParentsMap, v: View) {
    forall p, i :: p in v.live && p in h && 0 <= i < |h[p].inputs| ==> Listed(pm, h[p].inputs[i], Edge(p, i))
  }

  ghost predicate SoundUses(h: Heap, pm: ParentsMap, v: View) {
    forall x, e :: Listed(pm, x, e) ==>
      && x in h && e.user in h && e.slot < |h[e.user].inputs|
      && ((e.user in v.live && ReadsAt(h, e, x)) || e.user in v.stale)
  }

  ghost predicate Good(h: Heap, pm: ParentsMap, v: View) {
    && v.live !! v.stale && v.stale <= h.Keys
    && (forall p {:trigger NodeGood(h, v, p)} :: p in v.live ==> NodeGood(h, v, p))
    && Covered(h, pm, v)
    && SoundUses(h, pm, v)
  }

  /** Without stale users the map lists exactly the reads of the live arrays. */
  lemma GoodIsExact(h: Heap, pm: ParentsMap, v: View)
    requires Good(h, pm, v) && v.stale == {}
    ensures forall x, e :: Listed(pm, x, e) <==> e.user in v.live && ReadsAt(h, e, x)
  {
    forall x, e: Edge | e.user in v.live && ReadsAt(h, e, x)
      ensures Listed(pm, x, e)
    {
      assert Listed(pm, h[e.user].inputs[e.slot], Edge(e.user, e.slot));
    }
  }

  // ---------------------------------------------------------------- merge_one

  /** `h2` is `h` with every read that `pm` lists for `src` redirected to `dst`. */
  ghost predicate Redirected(h: Heap, h2: Heap, pm: ParentsMap, src: Id, dst: Id) {
    && h2.Keys == h.Keys
    && (forall p {:trigger h2[p]} :: p in h ==> SameButInputs(h[p], h2[p]))
    && (forall p, i {:trigger h2[p].inputs[i]} :: p in h && 0 <= i < |h[p].inputs| ==>
          h2[p].inputs[i] == if Listed(pm, src, Edge(p, i)) then dst else h[p].inputs[i])
  }

  ghost predicate SameButInputs(n: Node, m: Node) {
    m == n.(inputs := m.inputs) && |m.inputs| == |n.inputs|
  }

  /** `pm2` is `pm` with the list of `src` moved to `dst`. */
  ghost predicate Moved(pm: ParentsMap, pm2: ParentsMap, src: Id, dst: Id) {
    forall x, e :: Listed(pm2, x, e) <==>
      if x == dst then Listed(pm, dst, e) || Listed(pm, src, e) else x != src && Listed(pm, x, e)
  }

  /** The heap after pointing the given reads at `dst`. */
  function Repoint(h: Heap, edges: seq<Edge>, dst: Id): Heap {
    if edges == [] then h
    else
      var e, h1 := edges[|edges| - 1], Repoint(h, edges[..|edges| - 1], dst);
      if e.user in h1 && e.slot < |h1[e.user].inputs|
      then h1[e.user := h1[e.user].(inputs := h1[e.user].inputs[e.slot := dst])]
      else h1
  }

  function MoveUsers(pm: ParentsMap, dst: Id, src: Id): ParentsMap {
    if src !in pm then pm
    else map x | x in pm.Keys + {dst} && x != src :: if x == dst then UsersOf(pm, dst) + pm[src] else pm[x]
  }

  lemma {:induction false} RepointEffect(h: Heap, edges: seq<Edge>, dst: Id)
    requires forall e :: e in edges ==> e.user in h && e.slot < |h[e.user].inputs|
    ensures Repoint(h, edges, dst).Keys == h.Keys
    ensures forall p {:trigger Repoint(h, edges, dst)[p]} :: p in h ==>
            Repointed(p, h[p], Repoint(h, edges, dst)[p], edges, dst)
  {
    if edges != [] {
      var k := |edges| - 1;
      var e, h1 := edges[k], Repoint(h, edges[..k], dst);
      RepointEffect(h, edges[..k], dst);
      assert Repointed(e.user, h[e.user], h1[e.user], edges[..k], dst);
      assert edges == edges[..k] + [e];
    }
  }

  ghost predicate Repointed(p: Id, n: Node, m: Node, edges: seq<Edge>, dst: Id) {
    SameButInputs(n, m) &&
    forall i :: 0 <= i < |n.inputs| ==> m.inputs[i] == if Edge(p, i) in edges then dst else n.inputs[i]
  }

  lemma MergeEffect(h: Heap, pm: ParentsMap, dst: Id, src: Id)
    requires dst != src
    requires forall e :: Listed(pm, src, e) ==> e.user in h && e.slot < |h[e.user].inputs|
    ensures Redirected(h, Repoint(h, UsersOf(pm, src), dst), pm, src, dst)
    ensures Moved(pm, MoveUsers(pm, dst, src), src, dst)
  {
    assert forall e :: e in UsersOf(pm, src) <==> Listed(pm, src, e);
    RepointEffect(h, UsersOf(pm, src), dst);
    var h2 := Repoint(h, UsersOf(pm, src), dst);
    forall p {:trigger h2[p]} | p in h
      ensures SameButInputs(h[p], h2[p])
      ensures forall i :: 0 <= i < |h[p].inputs| ==>
              h2[p].inputs[i] == if Listed(pm, src, Edge(p, i)) then dst else h[p].inputs[i]
    {
      assert Repointed(p, h[p], h2[p], UsersOf(pm, src), dst);
    }
  }

  /** `merge_one`: every listed user of `src` reads `dst` instead. */
  method MergeOne(h: Heap, pm: ParentsMap, dst: Id, src: Id) returns (h2: Heap, pm2: ParentsMap)
    requires dst != src
    requires forall e :: Listed(pm, src, e) ==> e.user in h && e.slot < |h[e.user].inputs|
    ensures h2 == Repoint(h, UsersOf(pm, src), dst) && pm2 == MoveUsers(pm, dst, src)
    ensures Redirected(h, h2, pm, src, dst) && Moved(pm, pm2, src, dst)
  {
    h2, pm2 := h, pm;
    MergeEffect(h, pm, dst, src);
    if src !in pm {
      return;
    }
    var edges := pm[src];
    var pairs := UsersOf(pm, dst);
    for k := 0 to |edges|
      invariant h2 == Repoint(h, edges[..k], dst)
      invariant pairs == UsersOf(pm, dst) + edges[..k]
    {
      var e := edges[k];
      assert Listed(pm, src, e);
      assert edges[..k + 1] == edges[..k] + [e] && edges[..k + 1][..k] == edges[..k];
      StillInRange(h, pm, edges, k, src, dst);
      h2 := h2[e.user := h2[e.user].(inputs := h2[e.user].inputs[e.slot := dst])];
      pairs := pairs + [e];
    }
    assert edges[..|edges|] == edges;
    pm2 := map x | x in pm.Keys + {dst} && x != src :: if x == dst then pairs else pm[x];
  }

  lemma StillInRange(h: Heap, pm: ParentsMap, edges: seq<Edge>, k: nat, src: Id, dst: Id)
    requires src in pm && edges == pm[src] && k < |edges|
    requires forall e :: Listed(pm, src, e) ==> e.user in h && e.slot < |h[e.user].inputs|
    ensures edges[k].user in Repoint(h, edges[..k], dst)
    ensures edges[k].slot < |Repoint(h, edges[..k], dst)[edges[k].user].inputs|
  {
    assert forall e :: e in edges ==> Listed(pm, src, e);
    RepointEffect(h, edges[..k], dst);
    assert Repointed(edges[k].user, h[edges[k].user], Repoint(h, edges[..k], dst)[edges[k].user], edges[..k], dst);
  }
}
