/**
 `compile_simplify` on graphs of single-output primitives: merges equal scalar constants, then merges
 equivalent users of the same array, and drops what is no longer used.
 */
module Simplify {
  import opened Wrappers
  import opened ArrayGraph
  import opened Dfs
  import opened LiveGraph

  /** `Primitive::is_equivalent` between primitives of one type, as far as the model knows it: primitives
      it accepts compute the same function. */
  ghost predicate SoundEquivalence(equiv: (Primitive, Primitive) -> bool) {
    forall p: Primitive, q: Primitive {:trigger equiv(p, q)} ::
      p.Base? && q.Base? && p.kind == q.kind && equiv(p, q) ==> p.attrs == q.attrs
  }

  ghost predicate OnlyInputsChanged(h: Heap, h2: Heap) {
    h2.Keys == h.Keys && forall p {:trigger h2[p]} :: p in h ==> SameButInputs(h[p], h2[p])
  }

  ghost predicate InGraph(v: View, x: Id) {
    x in v.live || x in v.stale
  }

  /** What merging keeps for every array, kept or merged away: single output, an unchanged term, and
      earlier inputs. */
  ghost predicate MergeOk(h: Heap, v: View, p: Id) {
    && p in h && p in v.ord
    && h[p].siblings == [] && h[p].position == 0
    && (h[p].prim.Some? ==> h[p].prim.value.Base? && !h[p].available)
    && (h[p].prim.None? ==> h[p].inputs == [])
    && Consistent(h, v.den, p)
    && forall i {:trigger h[p].inputs[i]} :: 0 <= i < |h[p].inputs| ==>
         InGraph(v, h[p].inputs[i]) && h[p].inputs[i] in v.ord && v.ord[h[p].inputs[i]] < v.ord[p]
  }

  /** The listed users are right, and none is listed twice. */
  ghost predicate ListsOk(h: Heap, pm: ParentsMap, v: View) {
    && (forall x, e :: Listed(pm, x, e) ==> InGraph(v, x) && InGraph(v, e.user) && ReadsAt(h, e, x))
    && (forall x :: x in pm ==> NoDuplicates(pm[x]))
  }

  /** `v.live` are the arrays whose reads are all listed, `v.stale` those merged away. */
  ghost predicate Merging(h: Heap, pm: ParentsMap, v: View) {
    && v.live !! v.stale
    && (forall p {:trigger MergeOk(h, v, p)} :: InGraph(v, p) ==> MergeOk(h, v, p))
    && ListsOk(h, pm, v)
    && Covered(h, pm, v)
  }

  // ---------------------------------------------------------------- one merge

  ghost predicate Merges(h: Heap, pm: ParentsMap, v: View, h2: Heap, pm2: ParentsMap, dst: Id, src: Id) {
    && Merging(h, pm, v) && dst != src && InGraph(v, dst) && InGraph(v, src)
    && dst in v.ord && src in v.ord && v.ord[dst] < v.ord[src]
    && dst in v.den && src in v.den && v.den[dst] == v.den[src]
    && Redirected(h, h2, pm, src, dst) && Moved(pm, pm2, src, dst)
    && (src in pm ==> dst in pm2 && pm2[dst] == (if dst in pm then pm[dst] else []) + pm[src])
    && (forall x {:trigger pm2[x]} :: x in pm2 && (x != dst || src !in pm) ==> x in pm && pm2[x] == pm[x])
  }

  lemma MergedInput(h: Heap, pm: ParentsMap, v: View, h2: Heap, pm2: ParentsMap, dst: Id, src: Id, p: Id, i: nat)
    requires Merges(h, pm, v, h2, pm2, dst, src)
    requires InGraph(v, p) && p in h && i < |h[p].inputs|
    ensures p in h2 && i < |h2[p].inputs|
    ensures var x, y := h[p].inputs[i], h2[p].inputs[i];
            && (y == x || (y == dst && x == src))
            && InGraph(v, y) && y in v.ord && p in v.ord && v.ord[y] < v.ord[p]
            && x in v.den && y in v.den && v.den[y] == v.den[x]
            && (Listed(pm, x, Edge(p, i)) ==> Listed(pm2, y, Edge(p, i)))
  {
    assert MergeOk(h, v, p);
    assert SameButInputs(h[p], h2[p]);
    if Listed(pm, src, Edge(p, i)) {
      assert ReadsAt(h, Edge(p, i), src);
    }
  }

  lemma MergeKeepsNode(h: Heap, pm: ParentsMap, v: View, h2: Heap, pm2: ParentsMap, dst: Id, src: Id, p: Id)
    requires Merges(h, pm, v, h2, pm2, dst, src) && InGraph(v, p)
    ensures MergeOk(h2, v, p)
  {
    assert MergeOk(h, v, p);
    assert SameButInputs(h[p], h2[p]);
    forall i {:trigger h2[p].inputs[i]} | 0 <= i < |h2[p].inputs|
      ensures InGraph(v, h2[p].inputs[i]) && h2[p].inputs[i] in v.ord && v.ord[h2[p].inputs[i]] < v.ord[p]
      ensures h2[p].inputs[i] in v.den && v.den[h2[p].inputs[i]] == v.den[h[p].inputs[i]]
    {
      MergedInput(h, pm, v, h2, pm2, dst, src, p, i);
    }
    assert Lookup(h2[p].inputs, v.den) == Lookup(h[p].inputs, v.den);
  }

  lemma MergeKeepsLists(h: Heap, pm: ParentsMap, v: View, h2: Heap, pm2: ParentsMap, dst: Id, src: Id)
    requires Merges(h, pm, v, h2, pm2, dst, src)
    ensures ListsOk(h2, pm2, v)
  {
    forall x, e | Listed(pm2, x, e)
      ensures InGraph(v, x) && InGraph(v, e.user) && ReadsAt(h2, e, x)
    {
      var y := if x == dst && Listed(pm, src, e) then src else x;
      assert Listed(pm, y, e);
      assert MergeOk(h, v, e.user);
      assert SameButInputs(h[e.user], h2[e.user]);
      assert ReadsAt(h, e, y) && (Listed(pm, src, e) ==> ReadsAt(h, e, src));
      assert h2[e.user].inputs[e.slot] == x;
    }
    forall x | x in pm2
      ensures NoDuplicates(pm2[x])
    {
      if x == dst && src in pm {
        var a := if dst in pm then pm[dst] else [];
        forall i, j | 0 <= i < |a| && 0 <= j < |pm[src]|
          ensures a[i] != pm[src][j]
        {
          assert Listed(pm, dst, a[i]) && Listed(pm, src, pm[src][j]);
        }
        assert NoDuplicates(pm[src]);
        assert NoDuplicates(a);
      }
    }
  }

  /** Merging an array into an earlier one with the same term changes no term, and loses no read. */
  lemma MergeKeeps(h: Heap, pm: ParentsMap, v: View, h2: Heap, pm2: ParentsMap, dst: Id, src: Id)
    requires Merges(h, pm, v, h2, pm2, dst, src)
    ensures Merging(h2, pm2, v)
  {
    forall p | InGraph(v, p)
      ensures MergeOk(h2, v, p)
    {
      MergeKeepsNode(h, pm, v, h2, pm2, dst, src, p);
    }
    MergeKeepsLists(h, pm, v, h2, pm2, dst, src);
    forall p, i | p in v.live && p in h2 && 0 <= i < |h2[p].inputs|
      ensures Listed(pm2, h2[p].inputs[i], Edge(p, i))
    {
      assert SameButInputs(h[p], h2[p]);
      MergedInput(h, pm, v, h2, pm2, dst, src, p, i);
    }
  }

  /** The depth-1 equivalence check. */
  predicate ArrayEquivalent(h: Heap, equiv: (Primitive, Primitive) -> bool, a: Id, b: Id) {
    && a in h && b in h
    && h[a].prim.Some? && h[b].prim.Some?
    && h[a].prim.value.Base? && h[b].prim.value.Base?
    && h[a].prim.value.uid != h[b].prim.value.uid
    && h[a].prim.value.kind == h[b].prim.value.kind
    && h[a].inputs == h[b].inputs
    && equiv(h[a].prim.value, h[b].prim.value)
  }

  lemma EquivalentTerms(h: Heap, pm: ParentsMap, v: View, equiv: (Primitive, Primitive) -> bool, a: Id, b: Id)
    requires Merging(h, pm, v) && SoundEquivalence(equiv)
    requires InGraph(v, a) && InGraph(v, b) && ArrayEquivalent(h, equiv, a, b)
    ensures SameTerm(v, a, b) && SameTerm(v, b, a)
  {
    assert MergeOk(h, v, a) && MergeOk(h, v, b);
  }

  // ---------------------------------------------------------------- merging the users of one array

  /** Tape positions compare like the ghost order. */
  ghost predicate OrderAgrees(order: map<Id, nat>, v: View) {
    && (forall p :: InGraph(v, p) ==> p in order && p in v.ord)
    && (forall p, q {:trigger OrderedAlike(order, v.ord, p, q)} :: InGraph(v, p) && InGraph(v, q) ==>
        OrderedAlike(order, v.ord, p, q))
  }

  ghost predicate OrderedAlike(order: map<Id, nat>, ord: map<Id, nat>, p: Id, q: Id) {
    && p in order && q in order && p in ord && q in ord
    && (order[p] < order[q] <==> ord[p] < ord[q])
    && (order[p] == order[q] ==> p == q)
  }

  /** Another array before `p` has the same term. */
  ghost predicate HasTwin(v: View, p: Id) {
    exists d :: InGraph(v, d) && TwinBefore(v, d, p)
  }

  ghost predicate TwinBefore(v: View, d: Id, p: Id) {
    SameTerm(v, d, p) && d in v.ord && p in v.ord && v.ord[d] < v.ord[p]
  }

  ghost predicate SameTerm(v: View, d: Id, p: Id) {
    d in v.den && p in v.den && v.den[d] == v.den[p] && v.den[p].Apply?
  }

  predicate AllDifferent(d: Id, p: Id, s: Id) {
    d != p && d != s && p != s
  }

  /** Of three arrays with one term at most one is no output. */
  ghost predicate Sparse(v: View, outputs: set<Id>) {
    forall d, p, s {:trigger SameTerm(v, d, p), SameTerm(v, p, s)} ::
      InGraph(v, d) && InGraph(v, p) && InGraph(v, s) && AllDifferent(d, p, s)
      && SameTerm(v, d, p) && SameTerm(v, p, s) ==>
        p in outputs || s in outputs
  }

  /** What is known of an array that was merged away: it is no output, an earlier array has its term, and
      it does not get users again unless there are three arrays of that term. */
  ghost predicate OutOk(pm: ParentsMap, v: View, outputs: set<Id>, p: Id) {
    p !in outputs && HasTwin(v, p) && (Sparse(v, outputs) ==> p !in pm)
  }

  ghost predicate StaleOk(pm: ParentsMap, v: View, outputs: set<Id>) {
    forall p {:trigger OutOk(pm, v, outputs, p)} :: p in v.stale ==> OutOk(pm, v, outputs, p)
  }

  ghost predicate MaskedUser(edges: seq<Edge>, mask: seq<bool>, p: Id) {
    exists k :: 0 <= k < |edges| && k < |mask| && mask[k] && edges[k].user == p
  }

  /** The state of the scan over the users of `a`. */
  ghost predicate Scanning(h: Heap, pm: ParentsMap, v: View, a: Id, edges: seq<Edge>, mask: seq<bool>,
                           outputs: set<Id>, keys: set<Id>) {
    && Merging(h, pm, v) && RetiredUncovered(h, pm, v)
    && a in pm && pm[a] == edges && |mask| == |edges|
    && (forall k {:trigger edges[k]} :: 0 <= k < |edges| ==>
          InGraph(v, edges[k].user) && a in v.ord && edges[k].user in v.ord && v.ord[a] < v.ord[edges[k].user])
    && StaleOk(pm, v, outputs) && (forall p :: MaskedUser(edges, mask, p) ==> OutOk(pm, v, outputs, p))
    && (forall p :: p in keys ==> p in pm || MaskedUser(edges, mask, p))
  }

  /** `tape_order[x]`: an array without a number reads as 0. */
  function OrderOf(order: map<Id, nat>, x: Id): nat {
    if x in order then order[x] else 0
  }

  /** The users `p` and `q`, in the order they are listed, have to be merged: other primitives of one type, on
      the same inputs, which the type calls equivalent, the later on the tape (the second of two without
      order) no output of the graph. */
  ghost predicate MustMerge(h: Heap, order: map<Id, nat>, outputs: set<Id>, equiv: (Primitive, Primitive) -> bool,
                            p: Id, q: Id) {
    var pAt, qAt := if p in order then order[p] else 0, if q in order then order[q] else 0;
    var src, dst := if qAt < pAt then p else q, if qAt < pAt then q else p;
    && p in h && q in h && p != q && src !in outputs
    && h[p].prim.Some? && h[q].prim.Some? && h[p].prim.value.Base? && h[q].prim.value.Base?
    && h[p].prim.value.uid != h[q].prim.value.uid && h[p].prim.value.kind == h[q].prim.value.kind
    && ReadAlike(h, p, q) && equiv(h[src].prim.value, h[dst].prim.value)
  }

  ghost predicate ReadAlike(h: Heap, p: Id, q: Id) {
    p in h && q in h && h[p].inputs == h[q].inputs
  }

  /** Live arrays that read alike still do. */
  ghost predicate AlikeKept(h: Heap, h2: Heap, live: set<Id>) {
    forall p, q {:trigger ReadAlike(h2, p, q)} :: p in live && q in live && ReadAlike(h, p, q) ==> ReadAlike(h2, p, q)
  }

  lemma MergeAlikeKept(h: Heap, pm: ParentsMap, v: View, h2: Heap, pm2: ParentsMap, dst: Id, src: Id)
    requires Merges(h, pm, v, h2, pm2, dst, src)
    ensures AlikeKept(h, h2, v.live)
  {
    forall p, q | p in v.live && q in v.live && ReadAlike(h, p, q)
      ensures ReadAlike(h2, p, q)
    {
      assert SameButInputs(h[p], h2[p]) && SameButInputs(h[q], h2[q]);
      forall i | 0 <= i < |h[p].inputs|
        ensures h2[p].inputs[i] == h2[q].inputs[i]
      {
        assert Listed(pm, h[p].inputs[i], Edge(p, i)) && Listed(pm, h[q].inputs[i], Edge(q, i));
        assert Listed(pm, src, Edge(p, i)) ==> ReadsAt(h, Edge(p, i), src);
        assert Listed(pm, src, Edge(q, i)) ==> ReadsAt(h, Edge(q, i), src);
      }
    }
  }

  lemma MustMergeKept(h: Heap, h2: Heap, live: set<Id>, order: map<Id, nat>, outputs: set<Id>,
                      equiv: (Primitive, Primitive) -> bool, p: Id, q: Id)
    requires OnlyInputsChanged(h, h2) && AlikeKept(h, h2, live) && p in live && q in live
    requires MustMerge(h, order, outputs, equiv, p, q)
    ensures MustMerge(h2, order, outputs, equiv, p, q)
  {
    assert SameButInputs(h[p], h2[p]) && SameButInputs(h[q], h2[q]);
    assert ReadAlike(h2, p, q);
  }

  /** Of live users that have to be merged, at positions `i` and between `i` and `j`, one has been. */
  ghost predicate RowMerged(h: Heap, live: set<Id>, order: map<Id, nat>, outputs: set<Id>,
                            equiv: (Primitive, Primitive) -> bool, edges: seq<Edge>, mask: seq<bool>, i: nat, j: nat) {
    i < |mask| == |edges| && j <= |edges| &&
    forall l: nat {:trigger MustMerge(h, order, outputs, equiv, edges[i].user, edges[l].user)} ::
      i < l < j && edges[i].user in live && edges[l].user in live
      && MustMerge(h, order, outputs, equiv, edges[i].user, edges[l].user) ==>
        mask[i] || mask[l]
  }

  ghost predicate MaskExtends(mask: seq<bool>, mask2: seq<bool>) {
    |mask2| == |mask| && forall k :: 0 <= k < |mask| && mask[k] ==> mask2[k]
  }

  /** The comparison at a later state decides about the users as they were. */
  lemma ComparedMerged(h: Heap, h1: Heap, live: set<Id>, order: map<Id, nat>, outputs: set<Id>,
                       equiv: (Primitive, Primitive) -> bool, edges: seq<Edge>, mask: seq<bool>, i: nat, j: nat)
    requires OnlyInputsChanged(h, h1) && AlikeKept(h, h1, live)
    requires i < j < |edges| == |mask|
    requires edges[i].user in live && edges[j].user in live
             && MustMerge(h1, order, outputs, equiv, edges[i].user, edges[j].user) ==>
               mask[i] || mask[j]
    ensures edges[i].user in live && edges[j].user in live
            && MustMerge(h, order, outputs, equiv, edges[i].user, edges[j].user) ==>
              mask[i] || mask[j]
  {
    if edges[i].user in live && edges[j].user in live
       && MustMerge(h, order, outputs, equiv, edges[i].user, edges[j].user) {
      MustMergeKept(h, h1, live, order, outputs, equiv, edges[i].user, edges[j].user);
    }
  }

  lemma AlikeKeptOn(h: Heap, h1: Heap, h2: Heap, live: set<Id>)
    requires AlikeKept(h, h1, live) && AlikeKept(h1, h2, live)
    ensures AlikeKept(h, h2, live)
  {
    forall p, q | p in live && q in live && ReadAlike(h, p, q)
      ensures ReadAlike(h2, p, q)
    {
      assert ReadAlike(h1, p, q);
    }
  }

  /** One more comparison of a row. */
  lemma RowMergedNext(h: Heap, h1: Heap, h2: Heap, live: set<Id>, order: map<Id, nat>, outputs: set<Id>,
                      equiv: (Primitive, Primitive) -> bool, edges: seq<Edge>, mask: seq<bool>, mask2: seq<bool>,
                      i: nat, j: nat)
    requires OnlyInputsChanged(h, h1) && AlikeKept(h, h1, live) && AlikeKept(h1, h2, live)
    requires RowMerged(h, live, order, outputs, equiv, edges, mask, i, j) && MaskExtends(mask, mask2) && i < j < |edges|
    requires MustMerge(h1, order, outputs, equiv, edges[i].user, edges[j].user) ==> mask2[i] || mask2[j]
    ensures RowMerged(h, live, order, outputs, equiv, edges, mask2, i, j + 1) && AlikeKept(h, h2, live)
  {
    ComparedMerged(h, h1, live, order, outputs, equiv, edges, mask2, i, j);
    AlikeKeptOn(h, h1, h2, live);
  }

  /** Of every two live users that have to be merged, the first before position `i`, one has been. */
  ghost predicate RowsMerged(h: Heap, live: set<Id>, order: map<Id, nat>, outputs: set<Id>,
                             equiv: (Primitive, Primitive) -> bool, edges: seq<Edge>, mask: seq<bool>, i: nat) {
    i <= |edges| == |mask| &&
    forall k: nat {:trigger RowMerged(h, live, order, outputs, equiv, edges, mask, k, |edges|)} :: k < i ==>
      RowMerged(h, live, order, outputs, equiv, edges, mask, k, |edges|)
  }

  /** One more row, from a later state. */
  lemma RowsMergedNext(h: Heap, h1: Heap, live: set<Id>, order: map<Id, nat>, outputs: set<Id>,
                       equiv: (Primitive, Primitive) -> bool, edges: seq<Edge>, mask: seq<bool>, mask2: seq<bool>,
                       i: nat)
    requires OnlyInputsChanged(h, h1) && AlikeKept(h, h1, live) && i < |edges|
    requires RowsMerged(h, live, order, outputs, equiv, edges, mask, i)
    requires MaskExtends(mask, mask2)
    requires mask2[i] || RowMerged(h1, live, order, outputs, equiv, edges, mask2, i, |edges|)
    ensures RowsMerged(h, live, order, outputs, equiv, edges, mask2, i + 1)
  {
    forall k: nat | k < i + 1
      ensures RowMerged(h, live, order, outputs, equiv, edges, mask2, k, |edges|)
    {
      if k < i {
        assert RowMerged(h, live, order, outputs, equiv, edges, mask, k, |edges|);
      } else {
        forall l: nat | i < l < |edges|
          ensures edges[i].user in live && edges[l].user in live
                  && MustMerge(h, order, outputs, equiv, edges[i].user, edges[l].user) ==>
                    mask2[i] || mask2[l]
        {
          if !mask2[i] {
            ComparedMerged(h, h1, live, order, outputs, equiv, edges, mask2, i, l);
          }
        }
      }
    }
  }

  /** The variables of the scan. */
  datatype Scan = Scan(h: Heap, pm: ParentsMap, mask: seq<bool>)

  /** One comparison: the later of the two users is merged into the earlier. */
  function CompareStep(st: Scan, edges: seq<Edge>, i: nat, j: nat, order: map<Id, nat>, outputs: set<Id>,
                       equiv: (Primitive, Primitive) -> bool): (r: Scan)
    requires |st.mask| == |edges| && i < |edges| && j < |edges|
    ensures |r.mask| == |edges|
  {
    var swap := OrderOf(order, edges[j].user) < OrderOf(order, edges[i].user);
    var srcIdx, dstIdx := if swap then i else j, if swap then j else i;
    var src, dst := edges[srcIdx].user, edges[dstIdx].user;
    if src != dst && ArrayEquivalent(st.h, equiv, src, dst) && src !in outputs
    then Scan(Repoint(st.h, UsersOf(st.pm, src), dst), MoveUsers(st.pm, dst, src), st.mask[srcIdx := true])
    else st
  }

  function NoMask(n: nat): (mask: seq<bool>)
    ensures |mask| == n && forall k :: 0 <= k < n ==> !mask[k]
  {
    seq(n, k => false)
  }

  function InnerLoop(st: Scan, edges: seq<Edge>, i: nat, j: nat, order: map<Id, nat>, outputs: set<Id>,
                     equiv: (Primitive, Primitive) -> bool): (r: Scan)
    requires |st.mask| == |edges| && i < |edges| && j <= |edges|
    decreases |edges| - j
    ensures |r.mask| == |edges|
  {
    if j == |edges| then st
    else InnerLoop(if st.mask[j] then st else CompareStep(st, edges, i, j, order, outputs, equiv), edges, i, j + 1,
        order, outputs, equiv)
  }

  function OuterLoop(st: Scan, edges: seq<Edge>, i: nat, order: map<Id, nat>, outputs: set<Id>,
                     equiv: (Primitive, Primitive) -> bool): (r: Scan)
    requires |st.mask| == |edges| && i <= |edges|
    decreases |edges| - i
    ensures |r.mask| == |edges|
  {
    if i == |edges| then st
    else OuterLoop(if st.mask[i] then st else InnerLoop(st, edges, i, i + 1, order, outputs, equiv), edges, i + 1,
        order, outputs, equiv)
  }

  /** Merging two users of `a` keeps the state of the scan. */
  lemma CompareKeeps(h: Heap, pm: ParentsMap, v: View, a: Id, edges: seq<Edge>, mask: seq<bool>, outputs: set<Id>,
                     keys: set<Id>, h2: Heap, pm2: ParentsMap, srcIdx: nat, dst: Id)
    requires Scanning(h, pm, v, a, edges, mask, outputs, keys) && srcIdx < |edges|
    requires Merges(h, pm, v, h2, pm2, dst, edges[srcIdx].user) && pm2 == MoveUsers(pm, dst, edges[srcIdx].user)
    requires edges[srcIdx].user !in outputs && dst in v.ord && a in v.ord && v.ord[a] < v.ord[dst]
    requires SameTerm(v, dst, edges[srcIdx].user)
    ensures Scanning(h2, pm2, v, a, edges, mask[srcIdx := true], outputs, keys)
    ensures OnlyInputsChanged(h, h2)
  {
    var src := edges[srcIdx].user;
    MergeKeeps(h, pm, v, h2, pm2, dst, src);
    MergeKeepsUncovered(h, pm, v, h2, pm2, dst, src);
    MaskGrows(edges, mask, srcIdx);
    forall p | p in v.stale || MaskedUser(edges, mask, p)
      ensures OutOk(pm2, v, outputs, p)
    {
      assert OutOk(pm, v, outputs, p);
      NotRevived(pm, v, dst, src, outputs, p);
    }
    assert TwinBefore(v, dst, src);
  }

  /** Merging into `dst` gives no array users again, unless three arrays have the term of `dst`. */
  lemma NotRevived(pm: ParentsMap, v: View, dst: Id, src: Id, outputs: set<Id>, p: Id)
    requires InGraph(v, dst) && InGraph(v, src) && TwinBefore(v, dst, src) && src !in outputs
    requires InGraph(v, p) && OutOk(pm, v, outputs, p)
    ensures OutOk(MoveUsers(pm, dst, src), v, outputs, p)
  {
    if p == dst {
      var d :| InGraph(v, d) && TwinBefore(v, d, p);
      assert SameTerm(v, d, p) && SameTerm(v, p, src);
    }
  }

  /** One comparison of the inner loop. */
  method Compare(h: Heap, pm: ParentsMap, a: Id, edges: seq<Edge>, i: nat, j: nat, mask: seq<bool>,
                 order: map<Id, nat>, outputs: set<Id>,
                 equiv: (Primitive, Primitive) -> bool, ghost v: View, ghost keys: set<Id>)
    returns (h2: Heap, pm2: ParentsMap, mask2: seq<bool>)
    requires SoundEquivalence(equiv) && OrderAgrees(order, v)
    requires Scanning(h, pm, v, a, edges, mask, outputs, keys) && i < |edges| && j < |edges|
    ensures Scanning(h2, pm2, v, a, edges, mask2, outputs, keys)
    ensures OnlyInputsChanged(h, h2)
    ensures Scan(h2, pm2, mask2) == CompareStep(Scan(h, pm, mask), edges, i, j, order, outputs, equiv)
    ensures AlikeKept(h, h2, v.live) && MaskExtends(mask, mask2)
    ensures MustMerge(h, order, outputs, equiv, edges[i].user, edges[j].user) ==> mask2[i] || mask2[j]
  {
    h2, pm2, mask2 := h, pm, mask;
    var srcIdx, dstIdx := j, i;
    if OrderOf(order, edges[srcIdx].user) < OrderOf(order, edges[dstIdx].user) {
      srcIdx, dstIdx := dstIdx, srcIdx;
    }
    var src, dst := edges[srcIdx].user, edges[dstIdx].user;
    if src != dst && ArrayEquivalent(h, equiv, src, dst) && src !in outputs {
      ReadyToMerge(h, pm, v, a, edges, mask, outputs, keys, order, equiv, src, dst);
      h2, pm2 := MergeOne(h, pm, dst, src);
      CompareKeeps(h, pm, v, a, edges, mask, outputs, keys, h2, pm2, srcIdx, dst);
      MergeAlikeKept(h, pm, v, h2, pm2, dst, src);
      mask2 := mask[srcIdx := true];
    }
  }

  lemma ReadyToMerge(h: Heap, pm: ParentsMap, v: View, a: Id, edges: seq<Edge>, mask: seq<bool>, outputs: set<Id>,
                     keys: set<Id>, order: map<Id, nat>, equiv: (Primitive, Primitive) -> bool, src: Id, dst: Id)
    requires SoundEquivalence(equiv) && OrderAgrees(order, v) && Scanning(h, pm, v, a, edges, mask, outputs, keys)
    requires InGraph(v, src) && InGraph(v, dst) && src != dst && OrderOf(order, dst) <= OrderOf(order, src)
    requires ArrayEquivalent(h, equiv, src, dst)
    ensures dst in v.ord && src in v.ord && v.ord[dst] < v.ord[src]
    ensures SameTerm(v, dst, src)
    ensures forall e :: Listed(pm, src, e) ==> e.user in h && e.slot < |h[e.user].inputs|
  {
    EquivalentTerms(h, pm, v, equiv, src, dst);
    assert OrderedAlike(order, v.ord, dst, src);
  }

  lemma MaskGrows(edges: seq<Edge>, mask: seq<bool>, k: nat)
    requires |mask| == |edges| && k < |edges|
    ensures forall p :: MaskedUser(edges, mask[k := true], p) <==> MaskedUser(edges, mask, p) || p == edges[k].user
  {
    var mask2 := mask[k := true];
    forall p | MaskedUser(edges, mask, p) || p == edges[k].user
      ensures MaskedUser(edges, mask2, p)
    {
      if p != edges[k].user {
        var j :| 0 <= j < |edges| && j < |mask| && mask[j] && edges[j].user == p;
        assert mask2[j];
      } else {
        assert mask2[k];
      }
    }
  }

  /** The state of the inner loop before position `j`. */
  ghost predicate RowState(h0: Heap, mask0: seq<bool>, h: Heap, pm: ParentsMap, v: View, a: Id, edges: seq<Edge>,
                           mask: seq<bool>, order: map<Id, nat>, outputs: set<Id>,
                           equiv: (Primitive, Primitive) -> bool, keys: set<Id>, i: nat, j: nat) {
    && Scanning(h, pm, v, a, edges, mask, outputs, keys)
    && OnlyInputsChanged(h0, h) && AlikeKept(h0, h, v.live) && MaskExtends(mask0, mask)
    && RowMerged(h0, v.live, order, outputs, equiv, edges, mask, i, j)
  }

  lemma RowStarts(h: Heap, pm: ParentsMap, v: View, a: Id, edges: seq<Edge>, mask: seq<bool>, order: map<Id, nat>,
                  outputs: set<Id>, equiv: (Primitive, Primitive) -> bool, keys: set<Id>, i: nat)
    requires Scanning(h, pm, v, a, edges, mask, outputs, keys) && i < |edges|
    ensures RowState(h, mask, h, pm, v, a, edges, mask, order, outputs, equiv, keys, i, i + 1)
  {
  }

  /** One round of the inner loop. */
  method RowEntry(ghost h0: Heap, ghost mask0: seq<bool>, h: Heap, pm: ParentsMap, a: Id, edges: seq<Edge>, i: nat,
                  j: nat, mask: seq<bool>, order: map<Id, nat>, outputs: set<Id>,
                  equiv: (Primitive, Primitive) -> bool, ghost v: View, ghost keys: set<Id>)
    returns (h2: Heap, pm2: ParentsMap, mask2: seq<bool>)
    requires SoundEquivalence(equiv) && OrderAgrees(order, v) && i < j < |edges|
    requires RowState(h0, mask0, h, pm, v, a, edges, mask, order, outputs, equiv, keys, i, j)
    ensures RowState(h0, mask0, h2, pm2, v, a, edges, mask2, order, outputs, equiv, keys, i, j + 1)
    ensures InnerLoop(Scan(h, pm, mask), edges, i, j, order, outputs, equiv)
            == InnerLoop(Scan(h2, pm2, mask2), edges, i, j + 1, order, outputs, equiv)
  {
    h2, pm2, mask2 := h, pm, mask;
    if !mask[j] {
      h2, pm2, mask2 := Compare(h, pm, a, edges, i, j, mask, order, outputs, equiv, v, keys);
      RowMergedNext(h0, h, h2, v.live, order, outputs, equiv, edges, mask, mask2, i, j);
      OnlyInputsTransitive(h0, h, h2);
    }
  }

  lemma InnerLoopEnds(st: Scan, edges: seq<Edge>, i: nat, order: map<Id, nat>, outputs: set<Id>,
                      equiv: (Primitive, Primitive) -> bool)
    requires |st.mask| == |edges| && i < |edges|
    ensures InnerLoop(st, edges, i, |edges|, order, outputs, equiv) == st
  {
  }

  /** The inner loop. */
  method MergeRow(h: Heap, pm: ParentsMap, a: Id, edges: seq<Edge>, i: nat, mask: seq<bool>,
                  order: map<Id, nat>, outputs: set<Id>,
                  equiv: (Primitive, Primitive) -> bool, ghost v: View, ghost keys: set<Id>)
    returns (h2: Heap, pm2: ParentsMap, mask2: seq<bool>)
    requires SoundEquivalence(equiv) && OrderAgrees(order, v)
    requires Scanning(h, pm, v, a, edges, mask, outputs, keys) && i < |edges|
    ensures RowState(h, mask, h2, pm2, v, a, edges, mask2, order, outputs, equiv, keys, i, |edges|)
    ensures Scan(h2, pm2, mask2) == InnerLoop(Scan(h, pm, mask), edges, i, i + 1, order, outputs, equiv)
  {
    h2, pm2, mask2 := h, pm, mask;
    ghost var end := InnerLoop(Scan(h, pm, mask), edges, i, i + 1, order, outputs, equiv);
    RowStarts(h, pm, v, a, edges, mask, order, outputs, equiv, keys, i);
    for j := i + 1 to |edges|
      invariant RowState(h, mask, h2, pm2, v, a, edges, mask2, order, outputs, equiv, keys, i, j)
      invariant InnerLoop(Scan(h2, pm2, mask2), edges, i, j, order, outputs, equiv) == end
    {
      h2, pm2, mask2 := RowEntry(h, mask, h2, pm2, a, edges, i, j, mask2, order, outputs, equiv, v, keys);
    }
    InnerLoopEnds(Scan(h2, pm2, mask2), edges, i, order, outputs, equiv);
  }

  lemma NobodyMasked(edges: seq<Edge>, mask: seq<bool>)
    requires forall k :: 0 <= k < |mask| ==> !mask[k]
    ensures forall p {:trigger MaskedUser(edges, mask, p)} :: !MaskedUser(edges, mask, p)
  {
  }

  lemma ScanStarts(h: Heap, pm: ParentsMap, v: View, a: Id, mask: seq<bool>, outputs: set<Id>, keys: set<Id>)
    requires Merging(h, pm, v) && RetiredUncovered(h, pm, v) && a in pm && InGraph(v, a) && keys <= pm.Keys
    requires mask == NoMask(|pm[a]|) && StaleOk(pm, v, outputs)
    ensures Scanning(h, pm, v, a, pm[a], mask, outputs, keys)
  {
    var edges := pm[a];
    assert forall k :: 0 <= k < |mask| ==> !mask[k];
    NobodyMasked(edges, mask);
    forall k {:trigger edges[k]} | 0 <= k < |edges|
      ensures InGraph(v, edges[k].user) && a in v.ord && edges[k].user in v.ord && v.ord[a] < v.ord[edges[k].user]
    {
      assert Listed(pm, a, edges[k]);
      assert MergeOk(h, v, edges[k].user) && MergeOk(h, v, a);
      assert h[edges[k].user].inputs[edges[k].slot] == a;
    }
  }

  /** The two nested loops over the users of `a`. */
  method MergeUsers(h: Heap, pm: ParentsMap, a: Id, order: map<Id, nat>, outputs: set<Id>,
                    equiv: (Primitive, Primitive) -> bool,
                    ghost v: View, ghost keys: set<Id>)
    returns (h2: Heap, pm2: ParentsMap, mask: seq<bool>)
    requires SoundEquivalence(equiv) && OrderAgrees(order, v)
    requires Merging(h, pm, v) && RetiredUncovered(h, pm, v) && a in pm && InGraph(v, a) && keys <= pm.Keys
    requires StaleOk(pm, v, outputs)
    ensures Scanning(h2, pm2, v, a, pm[a], mask, outputs, keys)
    ensures OnlyInputsChanged(h, h2)
    ensures Scan(h2, pm2, mask) == OuterLoop(Scan(h, pm, NoMask(|pm[a]|)), pm[a], 0, order, outputs, equiv)
    ensures RowsMerged(h, v.live, order, outputs, equiv, pm[a], mask, |pm[a]|)
  {
    h2, pm2 := h, pm;
    var edges := pm[a];
    mask := NoMask(|edges|);
    ghost var start := Scan(h, pm, mask);
    ScanStarts(h, pm, v, a, mask, outputs, keys);
    for i := 0 to |edges|
      invariant Scanning(h2, pm2, v, a, edges, mask, outputs, keys) && OnlyInputsChanged(h, h2)
      invariant OuterLoop(Scan(h2, pm2, mask), edges, i, order, outputs, equiv)
                == OuterLoop(start, edges, 0, order, outputs, equiv)
      invariant AlikeKept(h, h2, v.live) && RowsMerged(h, v.live, order, outputs, equiv, edges, mask, i)
    {
      ghost var before, maskBefore := h2, mask;
      if !mask[i] {
        h2, pm2, mask := MergeRow(h2, pm2, a, edges, i, mask, order, outputs, equiv, v, keys);
      }
      RowsMergedNext(h, before, v.live, order, outputs, equiv, edges, maskBefore, mask, i);
      OnlyInputsTransitive(h, before, h2);
      AlikeKeptOn(h, before, h2, v.live);
    }
  }

  /** The entries that are not masked, in order. */
  function Unmasked(edges: seq<Edge>, mask: seq<bool>): seq<Edge>
    requires |mask| == |edges|
  {
    if edges == [] then [] else (if mask[0] then [] else [edges[0]]) + Unmasked(edges[1..], mask[1..])
  }

  lemma {:induction false} UnmaskedIs(edges: seq<Edge>, mask: seq<bool>)
    requires |mask| == |edges|
    ensures forall e :: e in Unmasked(edges, mask) <==> exists k :: 0 <= k < |edges| && !mask[k] && edges[k] == e
    ensures NoDuplicates(edges) ==> NoDuplicates(Unmasked(edges, mask))
  {
    if edges != [] {
      var rest, more := Unmasked(edges[1..], mask[1..]), edges[1..];
      UnmaskedIs(edges[1..], mask[1..]);
      forall e
        ensures e in Unmasked(edges, mask) <==> exists k :: 0 <= k < |edges| && !mask[k] && edges[k] == e
      {
        if k :| 0 <= k < |edges| && !mask[k] && edges[k] == e {
          assert k > 0 ==> more[k - 1] == e && !mask[1..][k - 1];
        }
        if e in rest {
          var k :| 0 <= k < |more| && !mask[1..][k] && more[k] == e;
          assert edges[k + 1] == e && !mask[k + 1];
        }
      }
      if NoDuplicates(edges) {
        assert forall i, j :: 0 <= i < j < |more| ==> more[i] == edges[i + 1] && more[j] == edges[j + 1];
        assert edges[0] !in rest;
      }
    }
  }

  /** Erasing the masked entries, last first. */
  method EraseMasked(edges: seq<Edge>, mask: seq<bool>) returns (kept: seq<Edge>)
    requires |mask| == |edges|
    ensures kept == Unmasked(edges, mask)
  {
    kept := edges;
    for i := |edges| downto 0
      invariant |kept| >= i && kept[..i] == edges[..i]
      invariant kept[i..] == Unmasked(edges[i..], mask[i..])
    {
      assert edges[i..][1..] == edges[i + 1..] && mask[i..][1..] == mask[i + 1..];
      assert kept[i] == kept[..i + 1][i] == edges[i];
      assert kept[i..] == [edges[i]] + kept[i + 1..];
      if mask[i] {
        ghost var before := kept;
        kept := kept[..i] + kept[i + 1..];
        assert kept[i..] == before[i + 1..];
      }
      assert kept[..i] == edges[..i];
    }
    assert kept[0..] == kept && edges[0..] == edges && mask[0..] == mask;
  }

  // ---------------------------------------------------------------- retiring what was merged away

  /** Some read of `p` is not listed any more. */
  ghost predicate Uncovered(h: Heap, pm: ParentsMap, p: Id) {
    p in h && exists i {:trigger h[p].inputs[i]} :: 0 <= i < |h[p].inputs| && !Listed(pm, h[p].inputs[i], Edge(p, i))
  }

  ghost predicate RetiredUncovered(h: Heap, pm: ParentsMap, v: View) {
    forall p {:trigger Uncovered(h, pm, p)} :: p in v.stale ==> Uncovered(h, pm, p)
  }

  lemma MergeKeepsUncovered(h: Heap, pm: ParentsMap, v: View, h2: Heap, pm2: ParentsMap, dst: Id, src: Id)
    requires Merges(h, pm, v, h2, pm2, dst, src) && RetiredUncovered(h, pm, v)
    ensures RetiredUncovered(h2, pm2, v)
  {
    forall p | p in v.stale
      ensures Uncovered(h2, pm2, p)
    {
      assert Uncovered(h, pm, p);
      var i :| 0 <= i < |h[p].inputs| && !Listed(pm, h[p].inputs[i], Edge(p, i));
      assert SameButInputs(h[p], h2[p]);
      assert Listed(pm, src, Edge(p, i)) ==> ReadsAt(h, Edge(p, i), src);
      assert h2[p].inputs[i] == h[p].inputs[i];
      assert !Listed(pm2, h2[p].inputs[i], Edge(p, i));
    }
  }

  function Retire(v: View, gone: set<Id>): View {
    View(v.live - gone, v.stale + gone, v.ord, v.den)
  }

  ghost function MaskedUsers(edges: seq<Edge>, mask: seq<bool>): (r: set<Id>)
    requires |mask| == |edges|
    ensures forall p :: p in r <==> MaskedUser(edges, mask, p)
  {
    set k | 0 <= k < |edges| && mask[k] :: edges[k].user
  }

  /** Erasing the masked users of `a` and retiring them. */
  lemma RetireKeeps(h: Heap, pm: ParentsMap, v: View, a: Id, edges: seq<Edge>, mask: seq<bool>, outputs: set<Id>,
                    keys: set<Id>, kept: seq<Edge>)
    requires Scanning(h, pm, v, a, edges, mask, outputs, keys) && RetiredUncovered(h, pm, v)
    requires NoDuplicates(kept)
    requires forall e :: e in kept <==> exists k :: 0 <= k < |edges| && !mask[k] && edges[k] == e
    ensures Merging(h, pm[a := kept], Retire(v, MaskedUsers(edges, mask)))
    ensures RetiredUncovered(h, pm[a := kept], Retire(v, MaskedUsers(edges, mask)))
    ensures StaleOk(pm[a := kept], Retire(v, MaskedUsers(edges, mask)), outputs)
  {
    var pm2, v2 := pm[a := kept], Retire(v, MaskedUsers(edges, mask));
    assert forall x, e :: Listed(pm2, x, e) ==> Listed(pm, x, e);
    assert forall p :: MaskedUser(edges, mask, p) ==> InGraph(v, p);
    assert forall p :: InGraph(v2, p) <==> InGraph(v, p);
    forall p | InGraph(v2, p)
      ensures MergeOk(h, v2, p)
    {
      assert MergeOk(h, v, p);
    }
    forall p, i | p in v2.live && p in h && 0 <= i < |h[p].inputs|
      ensures Listed(pm2, h[p].inputs[i], Edge(p, i))
    {
      assert Listed(pm, h[p].inputs[i], Edge(p, i));
      assert !MaskedUser(edges, mask, p);
    }
    RetiredOk(pm, v, a, edges, mask, outputs, kept);
    forall p | p in v2.stale
      ensures Uncovered(h, pm2, p)
    {
      RetiredIsUncovered(h, pm, v, a, edges, mask, outputs, keys, kept, p);
    }
  }

  lemma RetiredOk(pm: ParentsMap, v: View, a: Id, edges: seq<Edge>, mask: seq<bool>, outputs: set<Id>, kept: seq<Edge>)
    requires a in pm && |mask| == |edges| && StaleOk(pm, v, outputs)
    requires forall p :: MaskedUser(edges, mask, p) ==> OutOk(pm, v, outputs, p) && InGraph(v, p)
    ensures StaleOk(pm[a := kept], Retire(v, MaskedUsers(edges, mask)), outputs)
  {
    var v2 := Retire(v, MaskedUsers(edges, mask));
    assert forall p :: InGraph(v2, p) <==> InGraph(v, p);
    forall p | p in v2.stale
      ensures OutOk(pm[a := kept], v2, outputs, p)
    {
      assert OutOk(pm, v, outputs, p);
      var d :| InGraph(v, d) && TwinBefore(v, d, p);
      assert InGraph(v2, d) && TwinBefore(v2, d, p);
      SparseSame(v, v2, outputs);
    }
  }

  lemma SparseSame(v: View, v2: View, outputs: set<Id>)
    requires v2.den == v.den && forall p :: InGraph(v2, p) ==> InGraph(v, p)
    ensures Sparse(v, outputs) ==> Sparse(v2, outputs)
    ensures (forall p :: InGraph(v2, p) <==> InGraph(v, p)) ==> (Sparse(v, outputs) <==> Sparse(v2, outputs))
  {
    assert forall p, q :: SameTerm(v, p, q) <==> SameTerm(v2, p, q);
  }

  lemma RetiredIsUncovered(h: Heap, pm: ParentsMap, v: View, a: Id, edges: seq<Edge>, mask: seq<bool>,
                           outputs: set<Id>, keys: set<Id>,
                           kept: seq<Edge>, p: Id)
    requires Scanning(h, pm, v, a, edges, mask, outputs, keys) && RetiredUncovered(h, pm, v)
    requires forall e :: e in kept <==> exists k :: 0 <= k < |edges| && !mask[k] && edges[k] == e
    requires p in v.stale || MaskedUser(edges, mask, p)
    ensures Uncovered(h, pm[a := kept], p)
  {
    if p in v.stale {
      assert Uncovered(h, pm, p);
      var i :| 0 <= i < |h[p].inputs| && !Listed(pm, h[p].inputs[i], Edge(p, i));
      assert forall e :: e in kept ==> Listed(pm, a, e);
    } else {
      var k :| 0 <= k < |edges| && mask[k] && edges[k].user == p;
      assert Listed(pm, a, edges[k]);
      assert ReadsAt(h, edges[k], a);
      assert h[p].inputs[edges[k].slot] == a;
      assert NoDuplicates(edges);
      assert Edge(p, edges[k].slot) == edges[k];
      assert edges[k] !in kept;
    }
  }

  /** Every kept array that is not an output has an entry in the consumer map. */
  ghost predicate HasEntries(pm: ParentsMap, v: View, outputs: set<Id>) {
    forall p :: p in v.live ==> p in outputs || p in pm
  }

  /** `maybe_merge_parents` as a function: the descriptors and the map afterwards. */
  function MergedParents(h: Heap, pm: ParentsMap, a: Id, order: map<Id, nat>, outputs: set<Id>,
                         equiv: (Primitive, Primitive) -> bool): (Heap, ParentsMap)
  {
    if a !in pm then (h, pm)
    else
      var st := OuterLoop(Scan(h, pm, NoMask(|pm[a]|)), pm[a], 0, order, outputs, equiv);
      (st.h, st.pm[a := Unmasked(pm[a], st.mask)])
  }

  /** Of every two users that had to be merged, one is no longer listed. */
  lemma MergedLeave(h: Heap, live: set<Id>, order: map<Id, nat>, outputs: set<Id>,
                    equiv: (Primitive, Primitive) -> bool, edges: seq<Edge>, mask: seq<bool>)
    requires RowsMerged(h, live, order, outputs, equiv, edges, mask, |edges|) && NoDuplicates(edges)
    ensures forall k: nat, l: nat {:trigger edges[k], edges[l]} ::
              k < l < |edges| && edges[k].user in live && edges[l].user in live
              && MustMerge(h, order, outputs, equiv, edges[k].user, edges[l].user) ==>
                edges[k] !in Unmasked(edges, mask) || edges[l] !in Unmasked(edges, mask)
  {
    UnmaskedIs(edges, mask);
    forall k: nat, l: nat | k < l < |edges| && edges[k].user in live && edges[l].user in live
                            && MustMerge(h, order, outputs, equiv, edges[k].user, edges[l].user)
      ensures mask[k] || mask[l]
    {
      assert RowMerged(h, live, order, outputs, equiv, edges, mask, k, |edges|);
    }
  }

  /** `maybe_merge_parents`: merges equivalent users of `a`, so that of two that have to be merged one leaves the
      list; `discard` when `a` has no entry in the map and is not an output. */
  method MaybeMergeParents(h: Heap, pm: ParentsMap, a: Id, order: map<Id, nat>, outputs: set<Id>,
                           equiv: (Primitive, Primitive) -> bool, ghost v: View)
    returns (h2: Heap, pm2: ParentsMap, discard: bool, ghost v2: View)
    requires SoundEquivalence(equiv) && OrderAgrees(order, v) && InGraph(v, a)
    requires Merging(h, pm, v) && RetiredUncovered(h, pm, v) && HasEntries(pm, v, outputs) && StaleOk(pm, v, outputs)
    ensures Merging(h2, pm2, v2) && RetiredUncovered(h2, pm2, v2) && HasEntries(pm2, v2, outputs)
    ensures StaleOk(pm2, v2, outputs) && RetiredAfter(v, v2, a)
    ensures v2.ord == v.ord && v2.den == v.den && v2.live <= v.live && v2.live + v2.stale == v.live + v.stale
    ensures v.live * outputs <= v2.live
    ensures discard <==> a !in pm && a !in outputs
    ensures discard ==> a !in v2.live
    ensures OnlyInputsChanged(h, h2)
    ensures (h2, pm2) == MergedParents(h, pm, a, order, outputs, equiv)
    ensures a in pm ==> a in pm2
    ensures a in pm ==>
              forall k: nat, l: nat {:trigger pm[a][k], pm[a][l]} ::
                k < l < |pm[a]| && pm[a][k].user in v.live && pm[a][l].user in v.live
                && MustMerge(h, order, outputs, equiv, pm[a][k].user, pm[a][l].user) ==>
                  pm[a][k] !in pm2[a] || pm[a][l] !in pm2[a]
  {
    h2, pm2, v2 := h, pm, v;
    if a !in pm {
      return h2, pm2, a !in outputs, v2;
    }
    var mask;
    h2, pm2, mask := MergeUsers(h, pm, a, order, outputs, equiv, v, pm.Keys);
    var kept := EraseMasked(pm[a], mask);
    UnmaskedIs(pm[a], mask);
    RetireKeeps(h2, pm2, v, a, pm[a], mask, outputs, pm.Keys, kept);
    v2 := Retire(v, MaskedUsers(pm[a], mask));
    MergedLeave(h, v.live, order, outputs, equiv, pm[a], mask);
    pm2 := pm2[a := kept];
    discard := false;
  }

  /** What is retired comes after `a`. */
  ghost predicate RetiredAfter(v: View, v2: View, a: Id) {
    forall p :: p in v2.stale ==> p in v.stale || (a in v.ord && p in v.ord && v.ord[a] < v.ord[p])
  }

  // ---------------------------------------------------------------- the passes

  /** A tape whose entries are in increasing order. */
  ghost predicate Increasing(v: View, tape: seq<Id>) {
    && (forall k {:trigger tape[k]} :: 0 <= k < |tape| ==> InGraph(v, tape[k]) && tape[k] in v.ord)
    && (forall j, k :: 0 <= j < k < |tape| ==> tape[j] in v.ord && tape[k] in v.ord && v.ord[tape[j]] < v.ord[tape[k]])
  }

  ghost predicate SameFrame(v: View, v2: View, outputs: set<Id>) {
    && v2.ord == v.ord && v2.den == v.den && v2.live <= v.live && v2.live + v2.stale == v.live + v.stale
    && v.live * outputs <= v2.live
  }

  lemma IncreasingPush(v: View, newTape: seq<Id>, t: Id)
    requires Increasing(v, newTape) && InGraph(v, t) && t in v.ord
    requires forall k :: 0 <= k < |newTape| ==> newTape[k] in v.ord && v.ord[newTape[k]] < v.ord[t]
    ensures Increasing(v, newTape + [t])
  {
  }

  /** The variables of the simplifier. */
  datatype Simplified = Simplified(h: Heap, pm: ParentsMap, tape: seq<Id>)

  /** A pass from entry `k` on; `st.tape` is the new tape. */
  function PassFrom(st: Simplified, tape: seq<Id>, k: nat, order: map<Id, nat>, outputs: set<Id>,
                    equiv: (Primitive, Primitive) -> bool): Simplified
    requires k <= |tape|
    decreases |tape| - k
  {
    if k == |tape| then st
    else
      var (h2, pm2) := MergedParents(st.h, st.pm, tape[k], order, outputs, equiv);
      var discard := tape[k] !in st.pm && tape[k] !in outputs;
      PassFrom(Simplified(h2, pm2, if discard then st.tape else st.tape + [tape[k]]), tape, k + 1, order, outputs,
        equiv)
  }

  function Passes(st: Simplified, passes: nat, order: map<Id, nat>, outputs: set<Id>,
                  equiv: (Primitive, Primitive) -> bool): Simplified
    decreases passes
  {
    if passes == 0 then st
    else Passes(PassFrom(Simplified(st.h, st.pm, []), st.tape, 0, order, outputs, equiv), passes - 1, order, outputs,
        equiv)
  }

  /** No array that was merged away is on the tape, unless an array may get its users back. */
  ghost predicate NoStaleKept(v: View, tape: seq<Id>, outputs: set<Id>) {
    Sparse(v, outputs) ==> forall m {:trigger tape[m]} :: 0 <= m < |tape| ==> tape[m] !in v.stale
  }

  /** What the passes keep between two entries. */
  ghost predicate Consistency(h: Heap, pm: ParentsMap, v: View, outputs: set<Id>) {
    Merging(h, pm, v) && RetiredUncovered(h, pm, v) && HasEntries(pm, v, outputs) && StaleOk(pm, v, outputs)
  }

  /** The state of a pass before entry `k`. */
  ghost predicate PassState(h: Heap, pm: ParentsMap, v0: View, v: View, tape: seq<Id>, k: nat, newTape: seq<Id>,
                            outputs: set<Id>)
    requires k <= |tape|
  {
    && Consistency(h, pm, v, outputs)
    && SameFrame(v0, v, outputs)
    && Increasing(v0, newTape)
    && (forall m :: 0 <= m < |newTape| ==> newTape[m] in tape[..k])
    && (forall p :: p in v.live ==> p in newTape || p in tape[k..])
    && NoStaleKept(v, newTape, outputs)
  }

  /** One entry of a pass. */
  method SimplifyEntry(h: Heap, pm: ParentsMap, tape: seq<Id>, k: nat, newTape0: seq<Id>, order: map<Id, nat>,
                       outputs: set<Id>, equiv: (Primitive, Primitive) -> bool, ghost v0: View, ghost v: View)
    returns (h2: Heap, pm2: ParentsMap, newTape: seq<Id>, ghost v2: View)
    requires SoundEquivalence(equiv) && OrderAgrees(order, v0)
    requires Increasing(v0, tape) && k < |tape| && PassState(h, pm, v0, v, tape, k, newTape0, outputs)
    ensures PassState(h2, pm2, v0, v2, tape, k + 1, newTape, outputs) && OnlyInputsChanged(h, h2)
    ensures PassFrom(Simplified(h, pm, newTape0), tape, k, order, outputs, equiv)
            == PassFrom(Simplified(h2, pm2, newTape), tape, k + 1, order, outputs, equiv)
  {
    var discard;
    newTape := newTape0;
    FrameAgrees(order, v0, v, outputs, tape[k]);
    h2, pm2, discard, v2 := MaybeMergeParents(h, pm, tape[k], order, outputs, equiv, v);
    assert tape[k..] == [tape[k]] + tape[k + 1..];
    assert tape[..k + 1] == tape[..k] + [tape[k]];
    PrefixEarlier(v0, tape, k, newTape);
    NoStalePush(pm, v, v2, outputs, newTape, tape[k]);
    if !discard {
      IncreasingPush(v0, newTape, tape[k]);
      newTape := newTape + [tape[k]];
    }
  }

  lemma NoStalePush(pm: ParentsMap, v: View, v2: View, outputs: set<Id>, newTape: seq<Id>, t: Id)
    requires NoStaleKept(v, newTape, outputs) && StaleOk(pm, v, outputs) && RetiredAfter(v, v2, t)
    requires v2.den == v.den && v2.live + v2.stale == v.live + v.stale
    requires forall m :: 0 <= m < |newTape| ==> newTape[m] in v.ord && t in v.ord && v.ord[newTape[m]] < v.ord[t]
    ensures NoStaleKept(v2, newTape, outputs)
    ensures t in pm || t in outputs ==> NoStaleKept(v2, newTape + [t], outputs)
  {
    assert forall x :: InGraph(v, x) <==> x in v.live + v.stale;
    assert forall x :: InGraph(v2, x) <==> x in v2.live + v2.stale;
    SparseSame(v, v2, outputs);
    assert t in v.stale ==> OutOk(pm, v, outputs, t);
  }

  lemma PrefixEarlier(v: View, tape: seq<Id>, k: nat, newTape: seq<Id>)
    requires Increasing(v, tape) && k < |tape| && forall m :: 0 <= m < |newTape| ==> newTape[m] in tape[..k]
    ensures forall m :: 0 <= m < |newTape| ==>
            newTape[m] in v.ord && tape[k] in v.ord && v.ord[newTape[m]] < v.ord[tape[k]]
  {
  }

  /** One pass over the tape: kept arrays stay on it, in order. */
  method SimplifyPass(h: Heap, pm: ParentsMap, tape: seq<Id>, order: map<Id, nat>, outputs: set<Id>,
                      equiv: (Primitive, Primitive) -> bool, ghost v: View)
    returns (h2: Heap, pm2: ParentsMap, newTape: seq<Id>, ghost v2: View)
    requires SoundEquivalence(equiv) && OrderAgrees(order, v) && Consistency(h, pm, v, outputs)
    requires Increasing(v, tape) && forall p :: p in v.live ==> p in tape
    ensures Consistency(h2, pm2, v2, outputs)
    ensures SameFrame(v, v2, outputs) && OnlyInputsChanged(h, h2)
    ensures Increasing(v, newTape) && forall p :: p in v2.live ==> p in newTape
    ensures (forall t :: t in newTape ==> t in tape) && NoStaleKept(v2, newTape, outputs)
    ensures Simplified(h2, pm2, newTape) == PassFrom(Simplified(h, pm, []), tape, 0, order, outputs, equiv)
  {
    h2, pm2, v2, newTape := h, pm, v, [];
    ghost var end := PassFrom(Simplified(h, pm, []), tape, 0, order, outputs, equiv);
    for k := 0 to |tape|
      invariant PassState(h2, pm2, v, v2, tape, k, newTape, outputs) && OnlyInputsChanged(h, h2)
      invariant PassFrom(Simplified(h2, pm2, newTape), tape, k, order, outputs, equiv) == end
    {
      ghost var before := h2;
      h2, pm2, newTape, v2 := SimplifyEntry(h2, pm2, tape, k, newTape, order, outputs, equiv, v, v2);
      OnlyInputsTransitive(h, before, h2);
    }
    assert tape[|tape|..] == [] && tape[..|tape|] == tape;
  }

  lemma FrameAgrees(order: map<Id, nat>, v: View, v2: View, outputs: set<Id>, t: Id)
    requires OrderAgrees(order, v) && SameFrame(v, v2, outputs) && InGraph(v, t)
    ensures OrderAgrees(order, v2) && InGraph(v2, t)
  {
    assert forall x :: InGraph(v, x) <==> x in v.live + v.stale;
    assert forall x :: InGraph(v2, x) <==> x in v2.live + v2.stale;
    assert forall x :: InGraph(v, x) <==> InGraph(v2, x);
  }

  // ---------------------------------------------------------------- scalars

  /** Entry `k` is available and without dimensions, and an earlier one is too and holds the same. */
  ghost predicate DuplicateScalar(h: Heap, tape: seq<Id>, k: nat)
    requires Allocated(h, tape) && k < |tape|
  {
    && h[tape[k]].available && h[tape[k]].shape == []
    && exists j :: 0 <= j < k && SameScalar(h[tape[j]], h[tape[k]])
  }

  /** Both can be read, neither has dimensions, and they hold the same bits of one type. */
  ghost predicate SameScalar(n: Node, m: Node) {
    && n.available && n.shape == [] && m.available && m.shape == []
    && n.bits == m.bits && n.dtype == m.dtype
  }

  /** `scalars` maps every scalar's bits and type to its first occurrence on the tape. */
  ghost predicate FirstScalars(h: Heap, tape: seq<Id>, k: nat, scalars: map<(nat, nat), Id>)
    requires Allocated(h, tape) && k <= |tape|
  {
    && (forall key :: key in scalars ==> FirstAt(h, tape, k, key, scalars[key]))
    && (forall j {:trigger tape[j]} :: 0 <= j < k && IsScalar(h[tape[j]]) ==>
        (h[tape[j]].bits, h[tape[j]].dtype) in scalars)
  }

  ghost predicate FirstAt(h: Heap, tape: seq<Id>, k: nat, key: (nat, nat), x: Id)
    requires Allocated(h, tape) && k <= |tape|
  {
    exists j {:trigger tape[j]} :: 0 <= j < k && tape[j] == x && IsScalar(h[x]) && (h[x].bits, h[x].dtype) == key
                                   && forall i :: 0 <= i < j ==> !SameScalar(h[tape[i]], h[x])
  }

  /** The table after the first `k` entries. */
  function ScalarTable(h: Heap, tape: seq<Id>, k: nat): map<(nat, nat), Id>
    requires Allocated(h, tape) && k <= |tape|
  {
    if k == 0 then map[]
    else
      var table, n := ScalarTable(h, tape, k - 1), h[tape[k - 1]];
      if IsScalar(n) && (n.bits, n.dtype) !in table then table[(n.bits, n.dtype) := tape[k - 1]] else table
  }

  method FindScalars(h: Heap, tape: seq<Id>) returns (scalars: map<(nat, nat), Id>)
    requires Allocated(h, tape)
    ensures FirstScalars(h, tape, |tape|, scalars) && scalars == ScalarTable(h, tape, |tape|)
  {
    scalars := map[];
    for k := 0 to |tape|
      invariant FirstScalars(h, tape, k, scalars) && scalars == ScalarTable(h, tape, k)
    {
      var n := h[tape[k]];
      forall key | key in scalars
        ensures FirstAt(h, tape, k + 1, key, scalars[key])
      {
        assert FirstAt(h, tape, k, key, scalars[key]);
      }
      if IsScalar(n) && (n.bits, n.dtype) !in scalars {
        assert FirstAt(h, tape, k + 1, (n.bits, n.dtype), tape[k]);
        scalars := scalars[(n.bits, n.dtype) := tape[k]];
      }
    }
  }

  /** The scalar merges from entry `k` on; `st.tape` is the new tape. */
  function ScalarsFrom(st: Simplified, tape: seq<Id>, k: nat, table: map<(nat, nat), Id>): Simplified
    requires k <= |tape|
    decreases |tape| - k
  {
    if k == |tape| then st
    else
      var arr := tape[k];
      if arr in st.h && IsScalar(st.h[arr]) && (st.h[arr].bits, st.h[arr].dtype) in table
         && table[(st.h[arr].bits, st.h[arr].dtype)] != arr
      then
        var rep := table[(st.h[arr].bits, st.h[arr].dtype)];
        ScalarsFrom(Simplified(Repoint(st.h, UsersOf(st.pm, arr), rep), MoveUsers(st.pm, rep, arr), st.tape), tape,
          k + 1, table)
      else ScalarsFrom(Simplified(st.h, st.pm, st.tape + [arr]), tape, k + 1, table)
  }

  function WithoutArray(v: View, x: Id): View {
    View(v.live - {x}, v.stale, v.ord, v.den)
  }

  /** A leaf nobody reads can be dropped altogether. */
  lemma DropKeeps(h: Heap, pm: ParentsMap, v: View, x: Id)
    requires Merging(h, pm, v) && v.stale == {} && x in v.live && x !in pm && x in h && h[x].inputs == []
    ensures Merging(h, pm, WithoutArray(v, x))
  {
    var v2 := WithoutArray(v, x);
    forall p | InGraph(v2, p)
      ensures MergeOk(h, v2, p)
    {
      assert MergeOk(h, v, p);
      forall i {:trigger h[p].inputs[i]} | 0 <= i < |h[p].inputs|
        ensures InGraph(v2, h[p].inputs[i])
      {
        assert Listed(pm, h[p].inputs[i], Edge(p, i));
      }
    }
  }

  /** Merges one duplicate scalar into its representative and drops it. */
  method MergeScalar(h: Heap, pm: ParentsMap, dst: Id, src: Id, outputs: set<Id>, ghost v: View)
    returns (h2: Heap, pm2: ParentsMap, ghost v2: View)
    requires Merging(h, pm, v) && v.stale == {} && HasEntries(pm, v, outputs)
    requires dst in v.live && src in v.live && dst in v.ord && src in v.ord && v.ord[dst] < v.ord[src]
    requires dst in h && src in h && SameScalar(h[dst], h[src])
    ensures Merging(h2, pm2, v2) && HasEntries(pm2, v2, outputs) && OnlyInputsChanged(h, h2)
    ensures v2 == WithoutArray(v, src)
    ensures h2 == Repoint(h, UsersOf(pm, src), dst) && pm2 == MoveUsers(pm, dst, src)
  {
    assert MergeOk(h, v, dst) && MergeOk(h, v, src);
    h2, pm2 := MergeOne(h, pm, dst, src);
    MergeKeeps(h, pm, v, h2, pm2, dst, src);
    assert SameButInputs(h[src], h2[src]);
    DropKeeps(h2, pm2, v, src);
    v2 := WithoutArray(v, src);
  }

  /** The tape after merging scalars: the entries that are not duplicates of earlier scalars, in order. */
  ghost predicate ScalarsMerged(h: Heap, tape: seq<Id>, k: nat, newTape: seq<Id>)
    requires Allocated(h, tape) && k <= |tape|
  {
    && (forall t :: t in newTape ==>
          exists j {:trigger DuplicateScalar(h, tape, j)} :: 0 <= j < k && tape[j] == t && !DuplicateScalar(h, tape, j))
    && (forall j {:trigger DuplicateScalar(h, tape, j)} :: 0 <= j < k && !DuplicateScalar(h, tape, j) ==>
        tape[j] in newTape)
  }

  ghost predicate ScalarState(h0: Heap, h: Heap, pm: ParentsMap, v0: View, v: View, tape: seq<Id>, k: nat,
                              newTape: seq<Id>, outputs: set<Id>)
    requires Allocated(h0, tape) && k <= |tape|
  {
    && Merging(h, pm, v) && HasEntries(pm, v, outputs) && OnlyInputsChanged(h0, h)
    && v.stale == {} && v.ord == v0.ord && v.den == v0.den
    && Increasing(v0, newTape) && ScalarsMerged(h0, tape, k, newTape)
    && (forall p :: p in v.live <==> p in newTape || p in tape[k..])
  }

  method ScalarEntry(ghost h0: Heap, h: Heap, pm: ParentsMap, tape: seq<Id>, k: nat, newTape0: seq<Id>,
                     scalars: map<(nat, nat), Id>,
                     outputs: set<Id>, ghost v0: View, ghost v: View)
    returns (h2: Heap, pm2: ParentsMap, newTape: seq<Id>, ghost v2: View)
    requires Allocated(h0, tape) && Increasing(v0, tape) && k < |tape|
    requires FirstScalars(h0, tape, |tape|, scalars)
    requires ScalarState(h0, h, pm, v0, v, tape, k, newTape0, outputs)
    ensures ScalarState(h0, h2, pm2, v0, v2, tape, k + 1, newTape, outputs)
    ensures ScalarsFrom(Simplified(h, pm, newTape0), tape, k, scalars)
            == ScalarsFrom(Simplified(h2, pm2, newTape), tape, k + 1, scalars)
  {
    h2, pm2, v2, newTape := h, pm, v, newTape0;
    var arr := tape[k];
    assert tape[k..] == [arr] + tape[k + 1..];
    assert SameButInputs(h0[arr], h[arr]);
    if IsScalar(h[arr]) && scalars[(h[arr].bits, h[arr].dtype)] != arr {
      var rep := scalars[(h[arr].bits, h[arr].dtype)];
      var j := Representative(h0, v0, tape, scalars, k);
      assert rep in newTape;
      assert SameButInputs(h0[rep], h[rep]);
      h2, pm2, v2 := MergeScalar(h, pm, rep, arr, outputs, v);
      NewTapeEarlier(h0, v0, tape, k, newTape);
      DropEntry(h0, v0, tape, k, newTape, v.live);
      OnlyInputsTransitive(h0, h, h2);
    } else {
      NotDuplicate(h0, v0, tape, scalars, k);
      NewTapeEarlier(h0, v0, tape, k, newTape);
      IncreasingPush(v0, newTape, arr);
      KeepEntry(h0, tape, k, newTape, v.live);
      newTape := newTape + [arr];
    }
  }

  lemma OnlyInputsTransitive(h0: Heap, h: Heap, h2: Heap)
    requires OnlyInputsChanged(h0, h) && OnlyInputsChanged(h, h2)
    ensures OnlyInputsChanged(h0, h2)
  {
    forall p {:trigger h2[p]} | p in h0
      ensures SameButInputs(h0[p], h2[p])
    {
      assert SameButInputs(h0[p], h[p]) && SameButInputs(h[p], h2[p]);
    }
  }

  lemma KeepEntry(h: Heap, tape: seq<Id>, k: nat, newTape: seq<Id>, live: set<Id>)
    requires Allocated(h, tape) && k < |tape| && ScalarsMerged(h, tape, k, newTape) && !DuplicateScalar(h, tape, k)
    requires forall p :: p in live <==> p in newTape || p in tape[k..]
    ensures ScalarsMerged(h, tape, k + 1, newTape + [tape[k]])
    ensures forall p :: p in live <==> p in newTape + [tape[k]] || p in tape[k + 1..]
  {
    assert tape[k..] == [tape[k]] + tape[k + 1..];
  }

  lemma DropEntry(h: Heap, v: View, tape: seq<Id>, k: nat, newTape: seq<Id>, live: set<Id>)
    requires Allocated(h, tape) && Increasing(v, tape) && k < |tape|
    requires ScalarsMerged(h, tape, k, newTape) && DuplicateScalar(h, tape, k)
    requires tape[k] !in newTape
    requires forall p :: p in live <==> p in newTape || p in tape[k..]
    ensures ScalarsMerged(h, tape, k + 1, newTape)
    ensures forall p :: p in live - {tape[k]} <==> p in newTape || p in tape[k + 1..]
  {
    assert tape[k..] == [tape[k]] + tape[k + 1..];
    RestLater(v, tape, k);
  }

  lemma RestLater(v: View, tape: seq<Id>, k: nat)
    requires Increasing(v, tape) && k < |tape|
    ensures tape[k] !in tape[k + 1..]
  {
  }

  /** Merging scalars: a tape entry survives exactly when it is not a duplicate of an earlier scalar. */
  method MergeScalars(h: Heap, pm: ParentsMap, tape: seq<Id>, outputs: set<Id>, ghost v: View)
    returns (h2: Heap, pm2: ParentsMap, newTape: seq<Id>, ghost v2: View)
    requires Merging(h, pm, v) && v.stale == {} && HasEntries(pm, v, outputs)
    requires Allocated(h, tape) && Increasing(v, tape) && (forall p :: p in v.live <==> p in tape)
    ensures Merging(h2, pm2, v2) && HasEntries(pm2, v2, outputs) && OnlyInputsChanged(h, h2)
    ensures v2.stale == {} && v2.ord == v.ord && v2.den == v.den
    ensures Increasing(v2, newTape) && (forall p :: p in v2.live <==> p in newTape)
    ensures ScalarsMerged(h, tape, |tape|, newTape)
    ensures forall k {:trigger tape[k]} :: 0 <= k < |tape| ==>
              (tape[k] !in newTape <==>
                && h[tape[k]].available && h[tape[k]].shape == []
                && exists j {:trigger tape[j]} :: 0 <= j < k && h[tape[j]].available && h[tape[j]].shape == []
                     && h[tape[j]].bits == h[tape[k]].bits && h[tape[j]].dtype == h[tape[k]].dtype)
    ensures Simplified(h2, pm2, newTape)
            == ScalarsFrom(Simplified(h, pm, []), tape, 0, ScalarTable(h, tape, |tape|))
  {
    h2, pm2, v2, newTape := h, pm, v, [];
    var scalars := FindScalars(h, tape);
    ghost var end := ScalarsFrom(Simplified(h, pm, []), tape, 0, scalars);
    for k := 0 to |tape|
      invariant ScalarState(h, h2, pm2, v, v2, tape, k, newTape, outputs)
      invariant ScalarsFrom(Simplified(h2, pm2, newTape), tape, k, scalars) == end
    {
      h2, pm2, newTape, v2 := ScalarEntry(h, h2, pm2, tape, k, newTape, scalars, outputs, v, v2);
    }
    assert tape[|tape|..] == [];
    DroppedScalars(h, v, tape, newTape);
  }

  /** What leaves the tape is what repeats an earlier scalar, written out. */
  lemma DroppedScalars(h: Heap, v: View, tape: seq<Id>, newTape: seq<Id>)
    requires Allocated(h, tape) && Increasing(v, tape) && ScalarsMerged(h, tape, |tape|, newTape)
    ensures forall k {:trigger tape[k]} :: 0 <= k < |tape| ==>
              (tape[k] !in newTape <==>
                && h[tape[k]].available && h[tape[k]].shape == []
                && exists j {:trigger tape[j]} :: 0 <= j < k && h[tape[j]].available && h[tape[j]].shape == []
                     && h[tape[j]].bits == h[tape[k]].bits && h[tape[j]].dtype == h[tape[k]].dtype)
  {
    forall k {:trigger tape[k]} | 0 <= k < |tape|
      ensures tape[k] !in newTape <==> DuplicateScalar(h, tape, k)
    {
      if tape[k] in newTape {
        var j :| 0 <= j < |tape| && tape[j] == tape[k] && !DuplicateScalar(h, tape, j);
        assert j == k;
      }
    }
  }

  lemma NewTapeEarlier(h: Heap, v: View, tape: seq<Id>, k: nat, newTape: seq<Id>)
    requires Allocated(h, tape) && Increasing(v, tape) && k < |tape| && ScalarsMerged(h, tape, k, newTape)
    ensures forall m :: 0 <= m < |newTape| ==>
            newTape[m] in v.ord && tape[k] in v.ord && v.ord[newTape[m]] < v.ord[tape[k]]
    ensures tape[k] !in newTape
  {
    forall m | 0 <= m < |newTape|
      ensures newTape[m] in v.ord && v.ord[newTape[m]] < v.ord[tape[k]]
    {
      assert newTape[m] in newTape;
      var j :| 0 <= j < k && tape[j] == newTape[m];
    }
  }

  lemma Representative(h: Heap, v: View, tape: seq<Id>, scalars: map<(nat, nat), Id>, k: nat) returns (j: nat)
    requires Allocated(h, tape) && Increasing(v, tape) && FirstScalars(h, tape, |tape|, scalars)
    requires k < |tape| && IsScalar(h[tape[k]])
    requires (h[tape[k]].bits, h[tape[k]].dtype) in scalars ==> scalars[(h[tape[k]].bits, h[tape[k]].dtype)] != tape[k]
    ensures (h[tape[k]].bits, h[tape[k]].dtype) in scalars
    ensures j < k && tape[j] == scalars[(h[tape[k]].bits, h[tape[k]].dtype)] && SameScalar(h[tape[j]], h[tape[k]])
    ensures !DuplicateScalar(h, tape, j) && DuplicateScalar(h, tape, k)
  {
    var key := (h[tape[k]].bits, h[tape[k]].dtype);
    var x := scalars[key];
    assert FirstAt(h, tape, |tape|, key, x);
    j :| 0 <= j < |tape| && tape[j] == x && IsScalar(h[x]) && (h[x].bits, h[x].dtype) == key
         && forall i :: 0 <= i < j ==> !SameScalar(h[tape[i]], h[x]);
    assert SameScalar(h[tape[k]], h[x]) && SameScalar(h[x], h[tape[k]]);
    assert j < k;
    assert SameScalar(h[tape[j]], h[tape[k]]);
  }

  lemma NotDuplicate(h: Heap, v: View, tape: seq<Id>, scalars: map<(nat, nat), Id>, k: nat)
    requires Allocated(h, tape) && Increasing(v, tape) && FirstScalars(h, tape, |tape|, scalars)
    requires k < |tape|
    requires IsScalar(h[tape[k]]) && (h[tape[k]].bits, h[tape[k]].dtype) in scalars ==>
               scalars[(h[tape[k]].bits, h[tape[k]].dtype)] == tape[k]
    ensures IsScalar(h[tape[k]]) ==> (h[tape[k]].bits, h[tape[k]].dtype) in scalars
    ensures !DuplicateScalar(h, tape, k)
  {
    if IsScalar(h[tape[k]]) {
      var key := (h[tape[k]].bits, h[tape[k]].dtype);
      assert key in scalars;
      var x := scalars[key];
      assert FirstAt(h, tape, |tape|, key, x);
      var j :| 0 <= j < |tape| && tape[j] == x && IsScalar(h[x]) && (h[x].bits, h[x].dtype) == key
               && forall i :: 0 <= i < j ==> !SameScalar(h[tape[i]], h[x]);
      assert j == k;
    }
  }

  // ---------------------------------------------------------------- the whole of compile_simplify

  /** No array on the tape was merged away, and none reads one that was. */
  ghost predicate Settled(h: Heap, gone: set<Id>, tape: seq<Id>) {
    forall t {:trigger t in tape} :: t in tape ==> t !in gone && ReadsNone(h, gone, t)
  }

  ghost predicate ReadsNone(h: Heap, gone: set<Id>, t: Id) {
    t in h && forall i {:trigger h[t].inputs[i]} :: 0 <= i < |h[t].inputs| ==> h[t].inputs[i] !in gone
  }

  /** The graph invariant with exactly the arrays on the tape live. */
  ghost function TapeView(v: View, tape: seq<Id>): View {
    var live := set t | t in tape;
    View(live, (v.live + v.stale) - live, v.ord, v.den)
  }

  lemma SingleGroup(h: Heap, v: View, p: Id)
    requires p in h && h[p].siblings == [] && h[p].position == 0 && p in v.live && p in v.ord
    ensures GroupGood(h, v, p)
  {
    assert Outputs(h, p) == [p];
  }

  /** The result of simplification keeps the graph invariant - everything the tape reads is on it and the
      consumer map covers it - exactly when it has settled. */
  lemma SettledIffGood(h: Heap, pm: ParentsMap, v: View, tape: seq<Id>)
    requires Merging(h, pm, v) && RetiredUncovered(h, pm, v)
    requires (forall p :: p in v.live ==> p in tape) && (forall t :: t in tape ==> InGraph(v, t))
    ensures Good(h, pm, TapeView(v, tape)) <==> Settled(h, v.stale, tape)
  {
    if Settled(h, v.stale, tape) {
      SettledIsGood(h, pm, v, tape);
    }
    if Good(h, pm, TapeView(v, tape)) {
      GoodIsSettled(h, pm, v, tape);
    }
  }

  lemma SettledIsGood(h: Heap, pm: ParentsMap, v: View, tape: seq<Id>)
    requires Merging(h, pm, v) && Settled(h, v.stale, tape)
    requires (forall p :: p in v.live ==> p in tape) && (forall t :: t in tape ==> InGraph(v, t))
    ensures Good(h, pm, TapeView(v, tape))
  {
    var w := TapeView(v, tape);
    assert forall t :: t in w.live <==> t in tape;
    assert forall t :: t in w.live <==> t in v.live;
    assert forall x :: InGraph(v, x) <==> x in w.live || x in w.stale;
    forall p | p in w.live
      ensures NodeGood(h, w, p)
    {
      assert MergeOk(h, v, p) && ReadsNone(h, v.stale, p);
      SingleGroup(h, w, p);
    }
    forall x | x in w.stale
      ensures x in h
    {
      assert MergeOk(h, v, x);
    }
    forall x, e | Listed(pm, x, e)
      ensures x in h && e.user in h
    {
      assert MergeOk(h, v, x) && MergeOk(h, v, e.user);
    }
  }

  lemma GoodIsSettled(h: Heap, pm: ParentsMap, v: View, tape: seq<Id>)
    requires Merging(h, pm, v) && RetiredUncovered(h, pm, v) && Good(h, pm, TapeView(v, tape))
    ensures Settled(h, v.stale, tape)
  {
    var w := TapeView(v, tape);
    forall t | t in tape
      ensures t !in v.stale && t in h
    {
      assert NodeGood(h, w, t) && Covered(h, pm, w);
      assert !Uncovered(h, pm, t);
    }
    forall t | t in tape
      ensures ReadsNone(h, v.stale, t)
    {
      assert NodeGood(h, w, t) && OrderGood(h, w, t);
    }
  }

  function OrderTable(tape: seq<Id>): map<Id, nat> {
    map x | x in tape :: IndexOf(tape, x)
  }

  /** `tape_order`. */
  method TapeOrder(tape: seq<Id>, ghost v: View) returns (order: map<Id, nat>)
    requires Increasing(v, tape) && v.stale == {} && forall p :: p in v.live <==> p in tape
    ensures OrderAgrees(order, v) && order == OrderTable(tape)
  {
    order := map[];
    for k := 0 to |tape|
      invariant forall p :: p in order <==> p in tape[..k]
      invariant forall j {:trigger tape[j]} :: 0 <= j < k ==> tape[j] in order && order[tape[j]] == j
    {
      assert tape[..k + 1] == tape[..k] + [tape[k]];
      if tape[k] !in order {
        order := order[tape[k] := k];
      }
    }
    assert tape[..|tape|] == tape;
  }

  /** What the passes keep, relative to the view after the scalar merges. */
  ghost predicate PassesState(h: Heap, pm: ParentsMap, w: View, v1: View, outputs: set<Id>, order: map<Id, nat>,
                              tape1: seq<Id>, tape: seq<Id>) {
    && Consistency(h, pm, w, outputs) && SameFrame(v1, w, outputs) && OrderAgrees(order, w)
    && Increasing(w, tape) && (forall p :: p in w.live ==> p in tape) && (forall t :: t in tape ==> t in tape1)
    && NoStaleKept(w, tape, outputs)
  }

  method SimplifyPasses(h: Heap, pm: ParentsMap, tape1: seq<Id>, order: map<Id, nat>, outputs: set<Id>, passes: nat,
                        equiv: (Primitive, Primitive) -> bool, ghost v1: View)
    returns (h2: Heap, pm2: ParentsMap, tape2: seq<Id>, ghost w: View)
    requires SoundEquivalence(equiv) && PassesState(h, pm, v1, v1, outputs, order, tape1, tape1)
    ensures PassesState(h2, pm2, w, v1, outputs, order, tape1, tape2) && OnlyInputsChanged(h, h2)
    ensures Simplified(h2, pm2, tape2) == Passes(Simplified(h, pm, tape1), passes, order, outputs, equiv)
  {
    h2, pm2, tape2, w := h, pm, tape1, v1;
    ghost var end := Passes(Simplified(h, pm, tape1), passes, order, outputs, equiv);
    for pass := 0 to passes
      invariant PassesState(h2, pm2, w, v1, outputs, order, tape1, tape2) && OnlyInputsChanged(h, h2)
      invariant Passes(Simplified(h2, pm2, tape2), passes - pass, order, outputs, equiv) == end
    {
      ghost var before, hb := w, h2;
      h2, pm2, tape2, w := SimplifyPass(h2, pm2, tape2, order, outputs, equiv, w);
      FrameStep(v1, before, w, outputs, order, tape2);
      OnlyInputsTransitive(h, hb, h2);
    }
  }

  /** The laid out arrays with a read that the consumer map does not list. */
  ghost function Unlisted(h: Heap, pm: ParentsMap, laidOut: seq<Id>): set<Id> {
    set p | p in laidOut && Uncovered(h, pm, p)
  }

  /** The result of `compile_simplify` as a function of its arguments. */
  function SimplifiedBy(h: Heap, pm: ParentsMap, tape: seq<Id>, outputs: seq<Id>, passes: nat,
                        equiv: (Primitive, Primitive) -> bool): Simplified
    requires Allocated(h, tape)
  {
    var st := ScalarsFrom(Simplified(h, pm, []), tape, 0, ScalarTable(h, tape, |tape|));
    Passes(st, passes, OrderTable(st.tape), (set o | o in outputs), equiv)
  }

  /** The result is what the functions compute.  Every array left on the tape still stands for its term, and
      reads only laid out arrays that come before it; an output is on the tape exactly when it is not a
      duplicate of an earlier scalar constant; the graph invariant holds exactly when no array on the tape
      has, or reads an array that has, a read the consumer map does not list; and that is the case whenever
      of three arrays with one term at most one is no output. */
  ghost predicate Simplifies(h: Heap, pm: ParentsMap, tape: seq<Id>, outputs: seq<Id>, passes: nat,
                             equiv: (Primitive, Primitive) -> bool, v: View,
                             h2: Heap, pm2: ParentsMap, tape2: seq<Id>, v2: View)
    requires Allocated(h, tape)
  {
    && OnlyInputsChanged(h, h2)
    && Simplified(h2, pm2, tape2) == SimplifiedBy(h, pm, tape, outputs, passes, equiv)
    && v2.ord == v.ord && v2.den == v.den && (forall t :: t in v2.live <==> t in tape2)
    && Increasing(v2, tape2) && KeptOk(h2, v2, tape, tape2)
    && (forall j :: 0 <= j < |tape| && tape[j] in outputs ==> (tape[j] in tape2 <==> !DuplicateScalar(h, tape, j)))
    && (Good(h2, pm2, v2) <==> Settled(h2, Unlisted(h2, pm2, tape), tape2))
    && (Sparse(v, (set o | o in outputs)) ==> Settled(h2, Unlisted(h2, pm2, tape), tape2))
  }

  /** `compile_simplify`. */
  method CompileSimplify(h: Heap, pm: ParentsMap, tape: seq<Id>, outputs: seq<Id>, passes: nat,
                         equiv: (Primitive, Primitive) -> bool, ghost v: View)
    returns (h2: Heap, pm2: ParentsMap, tape2: seq<Id>, ghost v2: View)
    requires SoundEquivalence(equiv)
    requires Merging(h, pm, v) && v.stale == {} && HasEntries(pm, v, set o | o in outputs)
    requires Allocated(h, tape) && Increasing(v, tape) && forall p :: p in v.live <==> p in tape
    ensures Simplifies(h, pm, tape, outputs, passes, equiv, v, h2, pm2, tape2, v2)
  {
    var outputSet := set o | o in outputs;
    var h1, pm1, tape1;
    ghost var v1, w;
    h1, pm1, tape1, v1 := MergeScalars(h, pm, tape, outputSet, v);
    var order := TapeOrder(tape1, v1);
    h2, pm2, tape2, w := SimplifyPasses(h1, pm1, tape1, order, outputSet, passes, equiv, v1);
    OnlyInputsTransitive(h, h1, h2);
    v2 := TapeView(w, tape2);
    ScalarsAreLeaves(h, pm, v, tape);
    SimplifiesHolds(h, v, tape, outputs, outputSet, v1, tape1, order, h2, pm2, w, tape2);
  }

  lemma ScalarsAreLeaves(h: Heap, pm: ParentsMap, v: View, tape: seq<Id>)
    requires Merging(h, pm, v) && forall p :: p in v.live <==> p in tape
    ensures forall p {:trigger h[p]} :: p in h && p in tape && IsScalar(h[p]) ==> h[p].inputs == []
  {
    forall p {:trigger h[p]} | p in h && p in tape && IsScalar(h[p])
      ensures h[p].inputs == []
    {
      assert MergeOk(h, v, p);
    }
  }

  lemma SimplifiesHolds(h: Heap, v: View, tape: seq<Id>, outputs: seq<Id>, outputSet: set<Id>, v1: View,
                        tape1: seq<Id>, order: map<Id, nat>, h2: Heap, pm2: ParentsMap, w: View, tape2: seq<Id>)
    requires Allocated(h, tape) && Increasing(v, tape) && (forall p :: p in v.live <==> p in tape)
    requires forall p {:trigger h[p]} :: p in h && p in tape && IsScalar(h[p]) ==> h[p].inputs == []
    requires ScalarsMerged(h, tape, |tape|, tape1) && OnlyInputsChanged(h, h2) && outputSet == set o | o in outputs
    requires v1.stale == {} && v1.ord == v.ord && v1.den == v.den && (forall p :: p in v1.live <==> p in tape1)
    requires PassesState(h2, pm2, w, v1, outputSet, order, tape1, tape2)
    ensures var v2 := TapeView(w, tape2);
            && v2.ord == v.ord && v2.den == v.den && (forall t :: t in v2.live <==> t in tape2)
            && Increasing(v2, tape2) && KeptOk(h2, v2, tape, tape2)
            && (Good(h2, pm2, v2) <==> Settled(h2, Unlisted(h2, pm2, tape), tape2))
            && (Sparse(v, outputSet) ==> Settled(h2, Unlisted(h2, pm2, tape), tape2))
    ensures forall j :: 0 <= j < |tape| && tape[j] in outputs ==> (tape[j] in tape2 <==> !DuplicateScalar(h, tape, j))
  {
    GraphSame(h, tape, tape1, v1, w, outputSet);
    TapeKept(h2, pm2, v, w, tape1, tape, outputSet, tape2);
    StaleIsUnlisted(h, tape, tape1, v1, h2, pm2, w);
    SettledIffGood(h2, pm2, w, tape2);
    SparseSettles(h2, pm2, v, w, outputSet, tape2);
    OutputsSurvive(h, v, tape, outputs, v1, tape1, w, tape2);
  }

  lemma GraphSame(h: Heap, tape: seq<Id>, tape1: seq<Id>, v1: View, w: View, outputs: set<Id>)
    requires Allocated(h, tape) && ScalarsMerged(h, tape, |tape|, tape1) && SameFrame(v1, w, outputs)
    requires v1.stale == {} && (forall p :: p in v1.live <==> p in tape1)
    ensures GraphIs(w, tape1) && forall t :: t in tape1 ==> t in tape
  {
    assert forall x :: InGraph(w, x) <==> x in w.live + w.stale;
  }

  /** Every kept array stands for its term and reads earlier arrays that were laid out; only arrays with a
      primitive can have been dropped under it. */
  ghost predicate KeptOk(h: Heap, v: View, laidOut: seq<Id>, tape: seq<Id>) {
    forall k {:trigger tape[k]} :: 0 <= k < |tape| ==>
      && tape[k] in h && Consistent(h, v.den, tape[k])
      && forall i {:trigger h[tape[k]].inputs[i]} :: 0 <= i < |h[tape[k]].inputs| ==>
           EarlierThan(v, h[tape[k]].inputs[i], tape[k]) && h[tape[k]].inputs[i] in laidOut
           && KeptOrComputed(h, tape, h[tape[k]].inputs[i])
  }

  ghost predicate KeptOrComputed(h: Heap, tape: seq<Id>, x: Id) {
    x in tape || (x in h && h[x].prim.Some?)
  }

  ghost predicate EarlierThan(v: View, x: Id, y: Id) {
    x in v.ord && y in v.ord && v.ord[x] < v.ord[y]
  }

  /** The arrays of the graph are the laid out arrays without duplicate scalars. */
  ghost predicate GraphIs(w: View, tape1: seq<Id>) {
    forall x :: InGraph(w, x) <==> x in tape1
  }

  lemma TapeKept(h: Heap, pm: ParentsMap, v: View, w: View, tape1: seq<Id>, laidOut: seq<Id>, outputs: set<Id>,
                 tape: seq<Id>)
    requires Consistency(h, pm, w, outputs) && Increasing(w, tape) && GraphIs(w, tape1)
    requires (forall t :: t in tape1 ==> t in laidOut) && (forall p :: p in w.live ==> p in tape)
    ensures KeptOk(h, TapeView(w, tape), laidOut, tape)
  {
    forall k {:trigger tape[k]} | 0 <= k < |tape|
      ensures tape[k] in h && Consistent(h, w.den, tape[k])
      ensures forall i {:trigger h[tape[k]].inputs[i]} :: 0 <= i < |h[tape[k]].inputs| ==>
                EarlierThan(w, h[tape[k]].inputs[i], tape[k]) && h[tape[k]].inputs[i] in laidOut
                && KeptOrComputed(h, tape, h[tape[k]].inputs[i])
    {
      assert MergeOk(h, w, tape[k]);
      forall i {:trigger h[tape[k]].inputs[i]} | 0 <= i < |h[tape[k]].inputs|
        ensures KeptOrComputed(h, tape, h[tape[k]].inputs[i])
      {
        StaleComputed(h, pm, w, outputs, h[tape[k]].inputs[i]);
      }
    }
  }

  lemma StaleComputed(h: Heap, pm: ParentsMap, w: View, outputs: set<Id>, x: Id)
    requires Merging(h, pm, w) && StaleOk(pm, w, outputs) && InGraph(w, x)
    ensures x in w.live || (x in h && h[x].prim.Some?)
  {
    assert MergeOk(h, w, x);
    assert x in w.stale ==> OutOk(pm, w, outputs, x);
  }

  /** The arrays that were merged away are the laid out ones with an unlisted read. */
  lemma StaleIsUnlisted(h0: Heap, tape: seq<Id>, tape1: seq<Id>, v1: View, h: Heap, pm: ParentsMap, w: View)
    requires Allocated(h0, tape) && ScalarsMerged(h0, tape, |tape|, tape1) && OnlyInputsChanged(h0, h)
    requires Merging(h, pm, w) && RetiredUncovered(h, pm, w) && GraphIs(w, tape1)
    requires forall p :: p in tape && p in h0 && IsScalar(h0[p]) ==> h0[p].inputs == []
    ensures w.stale == Unlisted(h, pm, tape)
  {
    forall p | p in w.stale
      ensures p in Unlisted(h, pm, tape)
    {
      assert InGraph(w, p) && Uncovered(h, pm, p);
    }
    forall p | p in Unlisted(h, pm, tape)
      ensures p in w.stale
    {
      assert SameButInputs(h0[p], h[p]);
      var j :| 0 <= j < |tape| && tape[j] == p;
      assert !DuplicateScalar(h0, tape, j);
      assert p !in w.live by {
        assert Covered(h, pm, w);
      }
    }
  }

  lemma SparseSettles(h: Heap, pm: ParentsMap, v: View, w: View, outputs: set<Id>, tape: seq<Id>)
    requires Consistency(h, pm, w, outputs) && NoStaleKept(w, tape, outputs) && Increasing(w, tape)
    requires w.den == v.den && forall x :: InGraph(w, x) ==> InGraph(v, x)
    ensures Sparse(v, outputs) ==> Settled(h, w.stale, tape)
  {
    SparseSame(v, w, outputs);
    if Sparse(v, outputs) {
      forall t | t in tape
        ensures t !in w.stale && ReadsNone(h, w.stale, t)
      {
        assert MergeOk(h, w, t);
        forall i {:trigger h[t].inputs[i]} | 0 <= i < |h[t].inputs|
          ensures h[t].inputs[i] !in w.stale
        {
          assert Listed(pm, h[t].inputs[i], Edge(t, i));
          assert h[t].inputs[i] in w.stale ==> OutOk(pm, w, outputs, h[t].inputs[i]);
        }
      }
    }
  }

  lemma FrameStep(v1: View, before: View, w: View, outputs: set<Id>, order: map<Id, nat>, tape: seq<Id>)
    requires SameFrame(v1, before, outputs) && SameFrame(before, w, outputs)
    requires OrderAgrees(order, before) && Increasing(before, tape)
    ensures SameFrame(v1, w, outputs) && OrderAgrees(order, w) && Increasing(w, tape)
  {
    assert forall x :: InGraph(before, x) <==> x in before.live + before.stale;
    assert forall x :: InGraph(w, x) <==> x in w.live + w.stale;
    assert forall x :: InGraph(w, x) <==> InGraph(before, x);
  }

  lemma OutputsSurvive(h: Heap, v: View, tape: seq<Id>, outputs: seq<Id>, v1: View, tape1: seq<Id>, w: View,
                       tape2: seq<Id>)
    requires Allocated(h, tape) && Increasing(v, tape) && ScalarsMerged(h, tape, |tape|, tape1)
    requires (forall p :: p in v1.live <==> p in tape1)
    requires SameFrame(v1, w, set o | o in outputs) && (forall p :: p in w.live ==> p in tape2)
             && (forall t :: t in tape2 ==> t in tape1)
    ensures forall j :: 0 <= j < |tape| && tape[j] in outputs ==> (tape[j] in tape2 <==> !DuplicateScalar(h, tape, j))
  {
    forall j | 0 <= j < |tape| && tape[j] in outputs
      ensures tape[j] in tape2 <==> !DuplicateScalar(h, tape, j)
    {
      if tape[j] in tape2 {
        assert tape[j] in tape1;
        var i :| 0 <= i < |tape| && tape[i] == tape[j] && !DuplicateScalar(h, tape, i);
        assert i == j;
      }
      assert tape[j] in v1.live ==> tape[j] in v1.live * (set o | o in outputs);
    }
  }
}
