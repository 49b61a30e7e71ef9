/**
 Simplification of the graph of module Revived, step by step, and the two calls that fail after it.
 */
module RevivedRun {
  import opened Wrappers
  import opened ArrayGraph
  import opened Dfs
  import opened LiveGraph
  import opened Region
  import opened Replay
  import opened Driver
  import opened Simplify
  import opened SimplifyDriver
  import opened Revived

  /** The descriptors when array p reads `rs[p]`. */
  function HeapOf(rs: seq<seq<Id>>): Heap {
    map p: Id | 0 <= p < |rs| :: Array(p, rs[p])
  }

  ghost predicate RunSetting(order: map<Id, nat>, outs: set<Id>) {
    (forall k :: 0 <= k < 14 ==> OrderOf(order, k) == k) && outs == {0, 2, 4, 8, 10, 13}
  }

  // ---------------------------------------------------------------- one merge

  /** `rs` with slot `e.slot` of array `e.user` reading `dst`. */
  function Put(rs: seq<seq<Id>>, e: Edge, dst: Id): (r: seq<seq<Id>>)
    requires e.user < |rs| && e.slot < |rs[e.user]|
    ensures |r| == |rs|
  {
    var inputs: seq<Id> := rs[e.user][e.slot := dst];
    rs[e.user := inputs]
  }

  function Redirect(rs: seq<seq<Id>>, edges: seq<Edge>, dst: Id): (r: seq<seq<Id>>)
    ensures |r| == |rs|
  {
    if edges == [] then rs
    else
      var e, r := edges[|edges| - 1], Redirect(rs, edges[..|edges| - 1], dst);
      if e.user < |r| && e.slot < |r[e.user]| then Put(r, e, dst) else r
  }

  lemma {:induction false} RedirectHeap(rs: seq<seq<Id>>, edges: seq<Edge>, dst: Id)
    ensures Repoint(HeapOf(rs), edges, dst) == HeapOf(Redirect(rs, edges, dst))
  {
    if edges != [] {
      RedirectHeap(rs, edges[..|edges| - 1], dst);
      var e, r := edges[|edges| - 1], Redirect(rs, edges[..|edges| - 1], dst);
      if e.user < |r| && e.slot < |r[e.user]| {
        assert HeapOf(Put(r, e, dst)) == HeapOf(r)[e.user := Array(e.user, Put(r, e, dst)[e.user])];
      }
    }
  }

  lemma RedirectOne(rs: seq<seq<Id>>, e: Edge, dst: Id)
    requires e.user < |rs| && e.slot < |rs[e.user]|
    ensures Redirect(rs, [e], dst) == Put(rs, e, dst)
  {
    assert [e][..0] == [] && Redirect(rs, [], dst) == rs;
  }

  lemma RedirectTwo(rs: seq<seq<Id>>, e: Edge, f: Edge, dst: Id)
    requires e.user < |rs| && e.slot < |rs[e.user]| && f.user < |rs| && f.slot < |rs[f.user]|
    requires e.user != f.user
    ensures Redirect(rs, [e, f], dst) == Put(Put(rs, e, dst), f, dst)
  {
    RedirectOne(rs, e, dst);
    assert [e, f][..1] == [e];
  }

  lemma RedirectFour(rs: seq<seq<Id>>, e: Edge, f: Edge, g: Edge, k: Edge, dst: Id)
    requires e.user < |rs| && e.slot < |rs[e.user]| && f.user < |rs| && f.slot < |rs[f.user]|
    requires g.user < |rs| && g.slot < |rs[g.user]| && k.user < |rs| && k.slot < |rs[k.user]|
    requires NoDuplicates([e.user, f.user, g.user, k.user])
    ensures Redirect(rs, [e, f, g, k], dst) == Put(Put(Put(Put(rs, e, dst), f, dst), g, dst), k, dst)
  {
    var users := [e.user, f.user, g.user, k.user];
    assert users[0] == e.user && users[1] == f.user && users[2] == g.user && users[3] == k.user;
    RedirectTwo(rs, e, f, dst);
    assert [e, f, g][..2] == [e, f] && [e, f, g, k][..3] == [e, f, g];
    assert Redirect(rs, [e, f, g], dst) == Put(Redirect(rs, [e, f], dst), g, dst);
  }

  function Moves(pm: ParentsMap, dst: Id, src: Id, users: seq<Edge>): ParentsMap {
    (pm - {src})[dst := users]
  }

  lemma MovesUsers(pm: ParentsMap, dst: Id, src: Id, users: seq<Edge>)
    requires src in pm && dst != src && users == UsersOf(pm, dst) + pm[src]
    ensures MoveUsers(pm, dst, src) == Moves(pm, dst, src, users)
  {
  }

  // ---------------------------------------------------------------- one comparison

  predicate Same(rs: seq<seq<Id>>, p: Id, q: Id) {
    2 <= p < |rs| && 2 <= q < |rs| && p != q && Kind(p) == Kind(q) && rs[p] == rs[q]
  }

  lemma SameIsEquivalent(rs: seq<seq<Id>>, p: Id, q: Id)
    ensures ArrayEquivalent(HeapOf(rs), SameAttributes, p, q) <==> Same(rs, p, q)
  {
    if p in HeapOf(rs) && q in HeapOf(rs) && p >= 2 && q >= 2 {
      assert HeapOf(rs)[p] == Array(p, rs[p]) && HeapOf(rs)[q] == Array(q, rs[q]);
    }
  }

  /** What the inner loop does at `j`. */
  function Tried(st: Scan, edges: seq<Edge>, i: nat, j: nat, order: map<Id, nat>, outs: set<Id>): (r: Scan)
    requires |st.mask| == |edges| && i < |edges| && j < |edges|
    ensures |r.mask| == |edges|
  {
    if st.mask[j] then st else CompareStep(st, edges, i, j, order, outs, SameAttributes)
  }

  lemma TriedInVain(rs: seq<seq<Id>>, pm: ParentsMap, mask: seq<bool>, edges: seq<Edge>, i: nat, j: nat,
                    order: map<Id, nat>, outs: set<Id>)
    requires |mask| == |edges| && i < |edges| && j < |edges|
    requires mask[j] || (!Same(rs, edges[i].user, edges[j].user) && !Same(rs, edges[j].user, edges[i].user))
    ensures Tried(Scan(HeapOf(rs), pm, mask), edges, i, j, order, outs) == Scan(HeapOf(rs), pm, mask)
  {
    SameIsEquivalent(rs, edges[i].user, edges[j].user);
    SameIsEquivalent(rs, edges[j].user, edges[i].user);
  }

  /** The user with the larger number, at `s`, is merged into the other, at `d`. */
  lemma TriedMerge(rs: seq<seq<Id>>, pm: ParentsMap, mask: seq<bool>, edges: seq<Edge>, i: nat, j: nat,
                   s: nat, d: nat, order: map<Id, nat>, outs: set<Id>)
    requires |mask| == |edges| && i < |edges| && j < |edges| && !mask[j] && RunSetting(order, outs)
    requires (s == i && d == j) || (s == j && d == i)
    requires edges[d].user < edges[s].user < 14 && edges[s].user !in outs
    requires Same(rs, edges[s].user, edges[d].user)
    ensures Tried(Scan(HeapOf(rs), pm, mask), edges, i, j, order, outs)
            == Scan(HeapOf(Redirect(rs, UsersOf(pm, edges[s].user), edges[d].user)),
                    MoveUsers(pm, edges[d].user, edges[s].user), mask[s := true])
  {
    SameIsEquivalent(rs, edges[s].user, edges[d].user);
    RedirectHeap(rs, UsersOf(pm, edges[s].user), edges[d].user);
  }

  // ---------------------------------------------------------------- the loops over three and four users

  lemma ScanThree(st: Scan, edges: seq<Edge>, order: map<Id, nat>, outs: set<Id>, s1: Scan, s2: Scan)
    requires |edges| == 3 && |st.mask| == 3 && !st.mask[0] && |s1.mask| == 3 && |s2.mask| == 3
    requires s1 == Tried(st, edges, 0, 1, order, outs) && s2 == Tried(s1, edges, 0, 2, order, outs)
    ensures OuterLoop(st, edges, 0, order, outs, SameAttributes)
            == if s2.mask[1] then s2 else Tried(s2, edges, 1, 2, order, outs)
  {
    var end := if s2.mask[1] then s2 else Tried(s2, edges, 1, 2, order, outs);
    InnerEnd(s2, edges, 0, order, outs);
    assert InnerLoop(s1, edges, 0, 2, order, outs, SameAttributes) == s2;
    assert InnerLoop(st, edges, 0, 1, order, outs, SameAttributes) == s2;
    InnerEnd(end, edges, 1, order, outs);
    assert !s2.mask[1] ==> InnerLoop(s2, edges, 1, 2, order, outs, SameAttributes) == end;
    OuterLast(end, edges, order, outs);
    assert OuterLoop(s2, edges, 1, order, outs, SameAttributes) == end;
  }

  lemma InnerEnd(st: Scan, edges: seq<Edge>, i: nat, order: map<Id, nat>, outs: set<Id>)
    requires |st.mask| == |edges| && i < |edges|
    ensures InnerLoop(st, edges, i, |edges|, order, outs, SameAttributes) == st
  {
  }

  /** The last user is compared with nobody. */
  lemma OuterLast(st: Scan, edges: seq<Edge>, order: map<Id, nat>, outs: set<Id>)
    requires |st.mask| == |edges| > 0
    ensures OuterLoop(st, edges, |edges| - 1, order, outs, SameAttributes) == st
  {
    assert OuterLoop(st, edges, |edges|, order, outs, SameAttributes) == st;
  }

  lemma InnerThree(st: Scan, edges: seq<Edge>, order: map<Id, nat>, outs: set<Id>, s1: Scan, s2: Scan, s3: Scan)
    requires |edges| == 4 && |st.mask| == |s1.mask| == |s2.mask| == |s3.mask| == 4
    requires s1 == Tried(st, edges, 0, 1, order, outs) && s2 == Tried(s1, edges, 0, 2, order, outs)
    requires s3 == Tried(s2, edges, 0, 3, order, outs)
    ensures InnerLoop(st, edges, 0, 1, order, outs, SameAttributes) == s3
  {
    InnerEnd(s3, edges, 0, order, outs);
    assert InnerLoop(s2, edges, 0, 3, order, outs, SameAttributes) == s3;
    assert InnerLoop(s1, edges, 0, 2, order, outs, SameAttributes) == s3;
  }

  lemma InnerTwo(st: Scan, edges: seq<Edge>, order: map<Id, nat>, outs: set<Id>, s1: Scan, s2: Scan)
    requires |edges| == 4 && |st.mask| == |s1.mask| == |s2.mask| == 4
    requires s1 == Tried(st, edges, 1, 2, order, outs) && s2 == Tried(s1, edges, 1, 3, order, outs)
    ensures InnerLoop(st, edges, 1, 2, order, outs, SameAttributes) == s2
  {
    InnerEnd(s2, edges, 1, order, outs);
    assert InnerLoop(s1, edges, 1, 3, order, outs, SameAttributes) == s2;
  }

  lemma ScanFour(st: Scan, edges: seq<Edge>, order: map<Id, nat>, outs: set<Id>, s1: Scan, s2: Scan, s3: Scan,
                 t2: Scan, t3: Scan)
    requires |edges| == 4 && |st.mask| == 4 && !st.mask[0] && |s1.mask| == |s2.mask| == |s3.mask| == 4
    requires s1 == Tried(st, edges, 0, 1, order, outs) && s2 == Tried(s1, edges, 0, 2, order, outs)
    requires s3 == Tried(s2, edges, 0, 3, order, outs) && |t2.mask| == |t3.mask| == 4
    requires t2 == if s3.mask[1] then s3 else Tried(s3, edges, 1, 2, order, outs)
    requires t3 == if s3.mask[1] then s3 else Tried(t2, edges, 1, 3, order, outs)
    ensures OuterLoop(st, edges, 0, order, outs, SameAttributes)
            == if t3.mask[2] then t3 else Tried(t3, edges, 2, 3, order, outs)
  {
    InnerThree(st, edges, order, outs, s1, s2, s3);
    if !s3.mask[1] {
      InnerTwo(s3, edges, order, outs, t2, t3);
    }
    var end := if t3.mask[2] then t3 else Tried(t3, edges, 2, 3, order, outs);
    OuterRest(t3, edges, order, outs, end);
    assert OuterLoop(s3, edges, 1, order, outs, SameAttributes) == end;
  }

  lemma OuterRest(t: Scan, edges: seq<Edge>, order: map<Id, nat>, outs: set<Id>, end: Scan)
    requires |edges| == 4 && |t.mask| == |end.mask| == 4
    requires end == if t.mask[2] then t else Tried(t, edges, 2, 3, order, outs)
    ensures OuterLoop(t, edges, 2, order, outs, SameAttributes) == end
  {
    InnerEnd(end, edges, 2, order, outs);
    assert !t.mask[2] ==> InnerLoop(t, edges, 2, 3, order, outs, SameAttributes) == end;
    OuterLast(end, edges, order, outs);
  }

  // ---------------------------------------------------------------- arrays without users to merge

  ghost predicate NoTwoSame(rs: seq<seq<Id>>, edges: seq<Edge>) {
    forall i, j {:trigger Same(rs, edges[i].user, edges[j].user)} ::
      0 <= i < |edges| && 0 <= j < |edges| ==> !Same(rs, edges[i].user, edges[j].user)
  }

  lemma {:induction false} QuietInner(rs: seq<seq<Id>>, pm: ParentsMap, mask: seq<bool>, edges: seq<Edge>,
                                      i: nat, j: nat, order: map<Id, nat>, outs: set<Id>)
    requires |mask| == |edges| && i < |edges| && j <= |edges| && NoTwoSame(rs, edges)
    ensures InnerLoop(Scan(HeapOf(rs), pm, mask), edges, i, j, order, outs, SameAttributes)
            == Scan(HeapOf(rs), pm, mask)
    decreases |edges| - j
  {
    if j < |edges| {
      var st := Scan(HeapOf(rs), pm, mask);
      assert !Same(rs, edges[i].user, edges[j].user) && !Same(rs, edges[j].user, edges[i].user);
      TriedInVain(rs, pm, mask, edges, i, j, order, outs);
      assert InnerLoop(st, edges, i, j, order, outs, SameAttributes)
          == InnerLoop(Tried(st, edges, i, j, order, outs), edges, i, j + 1, order, outs, SameAttributes);
      QuietInner(rs, pm, mask, edges, i, j + 1, order, outs);
    }
  }

  lemma {:induction false} QuietOuter(rs: seq<seq<Id>>, pm: ParentsMap, mask: seq<bool>, edges: seq<Edge>,
                                      i: nat, order: map<Id, nat>, outs: set<Id>)
    requires |mask| == |edges| && i <= |edges| && NoTwoSame(rs, edges)
    ensures OuterLoop(Scan(HeapOf(rs), pm, mask), edges, i, order, outs, SameAttributes)
            == Scan(HeapOf(rs), pm, mask)
    decreases |edges| - i
  {
    if i < |edges| {
      QuietInner(rs, pm, mask, edges, i, i + 1, order, outs);
      QuietOuter(rs, pm, mask, edges, i + 1, order, outs);
    }
  }

  lemma {:induction false} NobodyErased(edges: seq<Edge>, mask: seq<bool>)
    requires |mask| == |edges| && forall k :: 0 <= k < |mask| ==> !mask[k]
    ensures Unmasked(edges, mask) == edges
  {
    if edges != [] {
      NobodyErased(edges[1..], mask[1..]);
    }
  }

  ghost predicate Merged(rs: seq<seq<Id>>, pm: ParentsMap, a: Id, order: map<Id, nat>, outs: set<Id>,
                         rs2: seq<seq<Id>>, pm2: ParentsMap) {
    MergedParents(HeapOf(rs), pm, a, order, outs, SameAttributes) == (HeapOf(rs2), pm2)
  }

  /** An array without an entry, or no two of whose users are the same, is passed over. */
  lemma Quiet(rs: seq<seq<Id>>, pm: ParentsMap, a: Id, order: map<Id, nat>, outs: set<Id>)
    requires a in pm ==> NoTwoSame(rs, pm[a])
    ensures Merged(rs, pm, a, order, outs, rs, pm)
  {
    if a in pm {
      var mask := NoMask(|pm[a]|);
      QuietOuter(rs, pm, mask, pm[a], 0, order, outs);
      NobodyErased(pm[a], mask);
      assert pm[a := pm[a]] == pm;
    }
  }

  // ---------------------------------------------------------------- the states of the run

  /** What the arrays read after `n` of the five entries that merge users. */
  function RsAt(n: nat): seq<seq<Id>> {
    if n == 0 then [[], [], [1], [1], [0, 3], [0, 2], [1], [0, 6], [5, 7], [0, 6], [9], [7], [9], [11, 12]]
    else if n == 1 then [[], [], [1], [1], [0, 3], [0, 2], [1], [0, 6], [5, 7], [0, 6], [7], [7], [7], [11, 12]]
    else if n == 2 then [[], [], [1], [1], [0, 2], [0, 2], [1], [0, 2], [5, 7], [0, 2], [7], [7], [7], [11, 12]]
    else if n == 3 then [[], [], [1], [1], [0, 2], [0, 2], [1], [0, 2], [4, 5], [0, 2], [5], [5], [5], [11, 12]]
    else if n == 4 then [[], [], [1], [1], [0, 2], [0, 2], [1], [0, 2], [4, 5], [0, 2], [5], [5], [5], [10, 11]]
    else [[], [], [1], [1], [0, 2], [0, 2], [1], [0, 2], [4, 4], [0, 2], [4], [5], [5], [10, 11]]
  }

  function UsersAt(n: nat): ParentsMap {
    if n == 0 then
      map[0 := [Edge(4, 0), Edge(5, 0), Edge(7, 0), Edge(9, 0)],
          1 := [Edge(2, 0), Edge(3, 0), Edge(6, 0)], 2 := [Edge(5, 1)], 3 := [Edge(4, 1)],
          5 := [Edge(8, 0)], 6 := [Edge(7, 1), Edge(9, 1)], 7 := [Edge(8, 1), Edge(11, 0)],
          9 := [Edge(10, 0), Edge(12, 0)], 11 := [Edge(13, 0)], 12 := [Edge(13, 1)]]
    else if n == 1 then
      map[0 := [Edge(4, 0), Edge(5, 0), Edge(7, 0)], 1 := [Edge(2, 0), Edge(3, 0), Edge(6, 0)],
          2 := [Edge(5, 1)], 3 := [Edge(4, 1)], 5 := [Edge(8, 0)], 6 := [Edge(7, 1), Edge(9, 1)],
          7 := [Edge(8, 1), Edge(11, 0), Edge(10, 0), Edge(12, 0)], 11 := [Edge(13, 0)],
          12 := [Edge(13, 1)]]
    else if n == 2 then
      map[0 := [Edge(4, 0), Edge(5, 0), Edge(7, 0)], 1 := [Edge(2, 0)],
          2 := [Edge(5, 1), Edge(4, 1), Edge(7, 1), Edge(9, 1)], 5 := [Edge(8, 0)],
          7 := [Edge(8, 1), Edge(11, 0), Edge(10, 0), Edge(12, 0)], 11 := [Edge(13, 0)],
          12 := [Edge(13, 1)]]
    else if n == 3 then
      map[0 := [Edge(4, 0), Edge(5, 0), Edge(7, 0)], 1 := [Edge(2, 0)], 2 := [Edge(4, 1)],
          4 := [Edge(8, 0)], 5 := [Edge(8, 1), Edge(11, 0), Edge(10, 0), Edge(12, 0)],
          11 := [Edge(13, 0)], 12 := [Edge(13, 1)]]
    else if n == 4 then
      map[0 := [Edge(4, 0), Edge(5, 0), Edge(7, 0)], 1 := [Edge(2, 0)], 2 := [Edge(4, 1)],
          4 := [Edge(8, 0)], 5 := [Edge(8, 1), Edge(10, 0)], 10 := [Edge(13, 0)],
          11 := [Edge(13, 1)]]
    else
      map[0 := [Edge(4, 0)], 1 := [Edge(2, 0)], 2 := [Edge(4, 1)],
          4 := [Edge(8, 0), Edge(8, 1), Edge(10, 0)], 10 := [Edge(13, 0)], 11 := [Edge(13, 1)]]
  }

  lemma StartOfRun()
    ensures HeapOf(RsAt(0)) == TRACED && UsersAt(0) == Users()
  {
    assert forall p :: 0 <= p < 14 ==> RsAt(0)[p] == Reads(p);
  }

  /** Merging and erasing, put together. */
  lemma MergedIs(rs: seq<seq<Id>>, pm: ParentsMap, a: Id, order: map<Id, nat>, outs: set<Id>,
                 rs1: seq<seq<Id>>, pm1: ParentsMap, mask: seq<bool>, kept: seq<Edge>, pm2: ParentsMap)
    requires a in pm && |mask| == |pm[a]|
    requires OuterLoop(Scan(HeapOf(rs), pm, NoMask(|pm[a]|)), pm[a], 0, order, outs, SameAttributes)
             == Scan(HeapOf(rs1), pm1, mask)
    requires Unmasked(pm[a], mask) == kept && pm2 == pm1[a := kept]
    ensures Merged(rs, pm, a, order, outs, rs1, pm2)
  {
  }

  lemma RsSame(rs: seq<seq<Id>>, rs2: seq<seq<Id>>)
    requires |rs| == |rs2| && forall p :: 0 <= p < |rs| ==> rs[p] == rs2[p]
    ensures rs == rs2
  {
  }

  lemma MapsSame(pm: ParentsMap, pm2: ParentsMap)
    requires pm.Keys == pm2.Keys && forall x :: x in pm ==> pm[x] == pm2[x]
    ensures pm == pm2
  {
  }

  // ---------------------------------------------------------------- the users of 0

  lemma Scan0(rs: seq<seq<Id>>, pm: ParentsMap, edges: seq<Edge>, order: map<Id, nat>, outs: set<Id>)
    requires RunSetting(order, outs) && |rs| == 14
    requires rs[4] == [0, 3] && rs[5] == [0, 2] && rs[7] == [0, 6] && rs[9] == [0, 6]
    requires edges == [Edge(4, 0), Edge(5, 0), Edge(7, 0), Edge(9, 0)]
    ensures OuterLoop(Scan(HeapOf(rs), pm, NoMask(4)), edges, 0, order, outs, SameAttributes)
            == Scan(HeapOf(Redirect(rs, UsersOf(pm, 9), 7)), MoveUsers(pm, 7, 9), NoMask(4)[3 := true])
  {
    var mask := NoMask(4);
    var st := Scan(HeapOf(rs), pm, mask);
    TriedInVain(rs, pm, mask, edges, 0, 1, order, outs);
    TriedInVain(rs, pm, mask, edges, 0, 2, order, outs);
    TriedInVain(rs, pm, mask, edges, 0, 3, order, outs);
    TriedInVain(rs, pm, mask, edges, 1, 2, order, outs);
    TriedInVain(rs, pm, mask, edges, 1, 3, order, outs);
    TriedMerge(rs, pm, mask, edges, 2, 3, 3, 2, order, outs);
    ScanFour(st, edges, order, outs, st, st, st, st, st);
  }

  lemma Rs1(rs: seq<seq<Id>>)
    requires rs == RsAt(0)
    ensures Redirect(rs, [Edge(10, 0), Edge(12, 0)], 7) == RsAt(1)
  {
    RedirectTwo(rs, Edge(10, 0), Edge(12, 0), 7);
    RsSame(Put(Put(rs, Edge(10, 0), 7), Edge(12, 0), 7), RsAt(1));
  }

  lemma Users1(pm: ParentsMap)
    requires pm == UsersAt(0)
    ensures MoveUsers(pm, 7, 9)[0 := [Edge(4, 0), Edge(5, 0), Edge(7, 0)]] == UsersAt(1)
  {
    MovesUsers(pm, 7, 9, [Edge(8, 1), Edge(11, 0), Edge(10, 0), Edge(12, 0)]);
    var got := MoveUsers(pm, 7, 9)[0 := [Edge(4, 0), Edge(5, 0), Edge(7, 0)]];
    MapsSame(got, UsersAt(1));
  }

  lemma EraseFour(e: seq<Edge>, m: seq<bool>)
    requires |e| == |m| == 4
    ensures Unmasked(e, m) == (if m[0] then [] else [e[0]]) + (if m[1] then [] else [e[1]])
                            + (if m[2] then [] else [e[2]]) + (if m[3] then [] else [e[3]])
  {
    EraseThree(e[1..], m[1..]);
  }

  lemma EraseThree(e: seq<Edge>, m: seq<bool>)
    requires |e| == |m| == 3
    ensures Unmasked(e, m) == (if m[0] then [] else [e[0]]) + (if m[1] then [] else [e[1]])
                            + (if m[2] then [] else [e[2]])
  {
    assert Unmasked(e[1..][1..][1..], m[1..][1..][1..]) == [];
    assert Unmasked(e[1..][1..], m[1..][1..]) == if m[2] then [] else [e[2]];
    assert Unmasked(e[1..], m[1..]) == (if m[1] then [] else [e[1]]) + (if m[2] then [] else [e[2]]);
  }

  /** Among the users of 0, 9 is merged into 7. */
  lemma Entry0(rs: seq<seq<Id>>, pm: ParentsMap, order: map<Id, nat>, outs: set<Id>)
    requires RunSetting(order, outs) && rs == RsAt(0) && pm == UsersAt(0)
    ensures 0 in pm
    ensures Merged(rs, pm, 0, order, outs, RsAt(1), UsersAt(1))
  {
    var edges := [Edge(4, 0), Edge(5, 0), Edge(7, 0), Edge(9, 0)];
    var mask := NoMask(4)[3 := true];
    Scan0(rs, pm, edges, order, outs);
    Rs1(rs);
    Users1(pm);
    EraseFour(edges, mask);
    MergedIs(rs, pm, 0, order, outs, RsAt(1), MoveUsers(pm, 7, 9), mask, [Edge(4, 0), Edge(5, 0), Edge(7, 0)],
             UsersAt(1));
  }

  // ---------------------------------------------------------------- the users of 1

  lemma Scan1(rs: seq<seq<Id>>, pm: ParentsMap, edges: seq<Edge>, order: map<Id, nat>, outs: set<Id>,
              rs1: seq<seq<Id>>, pm1: ParentsMap)
    requires RunSetting(order, outs) && |rs| == |rs1| == 14 && rs[2] == rs[3] && rs1[2] == rs1[6]
    requires edges == [Edge(2, 0), Edge(3, 0), Edge(6, 0)]
    requires rs1 == Redirect(rs, UsersOf(pm, 3), 2) && pm1 == MoveUsers(pm, 2, 3)
    ensures OuterLoop(Scan(HeapOf(rs), pm, NoMask(3)), edges, 0, order, outs, SameAttributes)
            == Scan(HeapOf(Redirect(rs1, UsersOf(pm1, 6), 2)), MoveUsers(pm1, 2, 6), NoMask(3)[1 := true][2 := true])
  {
    var mask := NoMask(3);
    TriedMerge(rs, pm, mask, edges, 0, 1, 1, 0, order, outs);
    TriedMerge(rs1, pm1, mask[1 := true], edges, 0, 2, 2, 0, order, outs);
    ScanThree(Scan(HeapOf(rs), pm, mask), edges, order, outs, Scan(HeapOf(rs1), pm1, mask[1 := true]),
              Scan(HeapOf(Redirect(rs1, UsersOf(pm1, 6), 2)), MoveUsers(pm1, 2, 6), mask[1 := true][2 := true]));
  }

  lemma Rs2(rs: seq<seq<Id>>)
    requires rs == RsAt(1)
    ensures var rs1 := Redirect(rs, [Edge(4, 1)], 2);
            && |rs| == |rs1| == 14 && rs[2] == rs[3] && rs1[2] == rs1[6]
            && Redirect(rs1, [Edge(7, 1), Edge(9, 1)], 2) == RsAt(2)
  {
    RedirectOne(rs, Edge(4, 1), 2);
    RedirectTwo(Put(rs, Edge(4, 1), 2), Edge(7, 1), Edge(9, 1), 2);
    RsSame(Put(Put(Put(rs, Edge(4, 1), 2), Edge(7, 1), 2), Edge(9, 1), 2), RsAt(2));
  }

  lemma Users2(pm: ParentsMap)
    requires pm == UsersAt(1)
    ensures 1 in pm && pm[1] == [Edge(2, 0), Edge(3, 0), Edge(6, 0)] && UsersOf(pm, 3) == [Edge(4, 1)]
    ensures UsersOf(MoveUsers(pm, 2, 3), 6) == [Edge(7, 1), Edge(9, 1)]
    ensures MoveUsers(MoveUsers(pm, 2, 3), 2, 6)[1 := [Edge(2, 0)]] == UsersAt(2)
  {
    MovesUsers(pm, 2, 3, [Edge(5, 1), Edge(4, 1)]);
    var pm1 := MoveUsers(pm, 2, 3);
    MovesUsers(pm1, 2, 6, [Edge(5, 1), Edge(4, 1), Edge(7, 1), Edge(9, 1)]);
    var got := MoveUsers(pm1, 2, 6)[1 := [Edge(2, 0)]];
    MapsSame(got, UsersAt(2));
  }

  lemma Replaced1(rs: seq<seq<Id>>, pm: ParentsMap, order: map<Id, nat>, outs: set<Id>, rs1: seq<seq<Id>>,
                  pm1: ParentsMap, rs2: seq<seq<Id>>)
    requires RunSetting(order, outs) && |rs| == |rs1| == 14 && rs[2] == rs[3] && rs1[2] == rs1[6]
    requires 1 in pm && pm[1] == [Edge(2, 0), Edge(3, 0), Edge(6, 0)]
    requires rs1 == Redirect(rs, UsersOf(pm, 3), 2) && pm1 == MoveUsers(pm, 2, 3)
    requires rs2 == Redirect(rs1, UsersOf(pm1, 6), 2)
    ensures Merged(rs, pm, 1, order, outs, rs2, MoveUsers(pm1, 2, 6)[1 := [Edge(2, 0)]])
  {
    var mask := NoMask(3)[1 := true][2 := true];
    Scan1(rs, pm, pm[1], order, outs, rs1, pm1);
    EraseThree(pm[1], mask);
    MergedIs(rs, pm, 1, order, outs, rs2, MoveUsers(pm1, 2, 6), mask, [Edge(2, 0)],
             MoveUsers(pm1, 2, 6)[1 := [Edge(2, 0)]]);
  }

  /** Among the users of 1, 3 and 6 are merged into 2. */
  lemma Entry1(rs: seq<seq<Id>>, pm: ParentsMap, order: map<Id, nat>, outs: set<Id>, rs2: seq<seq<Id>>)
    requires RunSetting(order, outs) && rs == RsAt(1) && pm == UsersAt(1) && rs2 == RsAt(2)
    ensures 1 in pm && Merged(rs, pm, 1, order, outs, rs2, UsersAt(2))
  {
    Rs2(rs);
    Users2(pm);
    Replaced1(rs, pm, order, outs, Redirect(rs, [Edge(4, 1)], 2), MoveUsers(pm, 2, 3), rs2);
  }

  // ---------------------------------------------------------------- the users of 2

  lemma Scan2(rs: seq<seq<Id>>, pm: ParentsMap, edges: seq<Edge>, order: map<Id, nat>, outs: set<Id>,
              rs1: seq<seq<Id>>, pm1: ParentsMap, rs2: seq<seq<Id>>, pm2: ParentsMap)
    requires RunSetting(order, outs) && |rs| == |rs1| == |rs2| == 14
    requires rs[4] == rs[5] && rs1[5] == rs1[7] && rs2[5] == rs2[9]
    requires edges == [Edge(5, 1), Edge(4, 1), Edge(7, 1), Edge(9, 1)]
    requires rs1 == Redirect(rs, UsersOf(pm, 5), 4) && pm1 == MoveUsers(pm, 4, 5)
    requires rs2 == Redirect(rs1, UsersOf(pm1, 7), 5) && pm2 == MoveUsers(pm1, 5, 7) && 9 !in pm2
    ensures OuterLoop(Scan(HeapOf(rs), pm, NoMask(4)), edges, 0, order, outs, SameAttributes)
            == Scan(HeapOf(rs2), pm2, NoMask(4)[0 := true][2 := true][3 := true])
  {
    var m0 := NoMask(4);
    var m1 := m0[0 := true];
    var m2 := m1[2 := true];
    var m3 := m2[3 := true];
    TriedMerge(rs, pm, m0, edges, 0, 1, 0, 1, order, outs);
    TriedMerge(rs1, pm1, m1, edges, 0, 2, 2, 0, order, outs);
    TriedMerge(rs2, pm2, m2, edges, 0, 3, 3, 0, order, outs);
    var end := Scan(HeapOf(rs2), pm2, m3);
    assert Redirect(rs2, [], 5) == rs2;
    ScanFour(Scan(HeapOf(rs), pm, m0), edges, order, outs, Scan(HeapOf(rs1), pm1, m1), Scan(HeapOf(rs2), pm2, m2),
             end, end, end);
  }

  lemma Rs3(rs: seq<seq<Id>>)
    requires rs == RsAt(2)
    ensures var rs1 := Redirect(rs, [Edge(8, 0)], 4);
            && |rs| == |rs1| == 14 && rs[4] == rs[5] && rs1[5] == rs1[7] && RsAt(3)[5] == RsAt(3)[9]
            && Redirect(rs1, [Edge(8, 1), Edge(11, 0), Edge(10, 0), Edge(12, 0)], 5) == RsAt(3)
  {
    RedirectOne(rs, Edge(8, 0), 4);
    var rs1 := Put(rs, Edge(8, 0), 4);
    RedirectFour(rs1, Edge(8, 1), Edge(11, 0), Edge(10, 0), Edge(12, 0), 5);
    RsSame(Put(Put(Put(Put(rs1, Edge(8, 1), 5), Edge(11, 0), 5), Edge(10, 0), 5), Edge(12, 0), 5), RsAt(3));
  }

  lemma Users3(pm: ParentsMap)
    requires pm == UsersAt(2)
    ensures 2 in pm && pm[2] == [Edge(5, 1), Edge(4, 1), Edge(7, 1), Edge(9, 1)] && UsersOf(pm, 5) == [Edge(8, 0)]
    ensures UsersOf(MoveUsers(pm, 4, 5), 7) == [Edge(8, 1), Edge(11, 0), Edge(10, 0), Edge(12, 0)]
    ensures 9 !in MoveUsers(MoveUsers(pm, 4, 5), 5, 7)
    ensures MoveUsers(MoveUsers(pm, 4, 5), 5, 7)[2 := [Edge(4, 1)]] == UsersAt(3)
  {
    MovesUsers(pm, 4, 5, [Edge(8, 0)]);
    var pm1 := MoveUsers(pm, 4, 5);
    MovesUsers(pm1, 5, 7, [Edge(8, 1), Edge(11, 0), Edge(10, 0), Edge(12, 0)]);
    var got := MoveUsers(pm1, 5, 7)[2 := [Edge(4, 1)]];
    MapsSame(got, UsersAt(3));
  }

  lemma Erased2(edges: seq<Edge>, mask: seq<bool>)
    requires |edges| == |mask| == 4 && mask == NoMask(4)[0 := true][2 := true][3 := true]
    ensures Unmasked(edges, mask) == [edges[1]]
  {
    assert |mask| == 4;
    EraseFour(edges, mask);
  }

  lemma Replaced2(rs: seq<seq<Id>>, pm: ParentsMap, order: map<Id, nat>, outs: set<Id>, edges: seq<Edge>,
                  rs1: seq<seq<Id>>, pm1: ParentsMap, rs2: seq<seq<Id>>, pm2: ParentsMap)
    requires RunSetting(order, outs) && |rs| == |rs1| == |rs2| == 14 && 2 in pm && edges == pm[2]
    requires rs[4] == rs[5] && rs1[5] == rs1[7] && rs2[5] == rs2[9]
    requires edges == [Edge(5, 1), Edge(4, 1), Edge(7, 1), Edge(9, 1)]
    requires rs1 == Redirect(rs, UsersOf(pm, 5), 4) && pm1 == MoveUsers(pm, 4, 5)
    requires rs2 == Redirect(rs1, UsersOf(pm1, 7), 5) && pm2 == MoveUsers(pm1, 5, 7) && 9 !in pm2
    ensures Merged(rs, pm, 2, order, outs, rs2, pm2[2 := [Edge(4, 1)]])
  {
    var mask := NoMask(4)[0 := true][2 := true][3 := true];
    Scan2(rs, pm, edges, order, outs, rs1, pm1, rs2, pm2);
    Erased2(edges, mask);
    MergedIs(rs, pm, 2, order, outs, rs2, pm2, mask, [Edge(4, 1)], pm2[2 := [Edge(4, 1)]]);
  }

  /** Among the users of 2, 5 is merged into 4; then 7 and 9 are merged into 5, which gets users again. */
  lemma Entry2(rs: seq<seq<Id>>, pm: ParentsMap, order: map<Id, nat>, outs: set<Id>, rs3: seq<seq<Id>>)
    requires RunSetting(order, outs) && rs == RsAt(2) && pm == UsersAt(2) && rs3 == RsAt(3)
    ensures 2 in pm
    ensures Merged(rs, pm, 2, order, outs, rs3, UsersAt(3))
  {
    var rs1, pm1 := Redirect(rs, [Edge(8, 0)], 4), MoveUsers(pm, 4, 5);
    Rs3(rs);
    Users3(pm);
    Replaced2(rs, pm, order, outs, pm[2], rs1, pm1, rs3, MoveUsers(pm1, 5, 7));
  }

  // ---------------------------------------------------------------- the users of 5

  lemma Scan5(rs: seq<seq<Id>>, pm: ParentsMap, edges: seq<Edge>, order: map<Id, nat>, outs: set<Id>,
              rs1: seq<seq<Id>>, pm1: ParentsMap)
    requires RunSetting(order, outs) && |rs| == |rs1| == 14 && rs[10] == rs[11] && rs1[11] == rs1[12]
    requires edges == [Edge(8, 1), Edge(11, 0), Edge(10, 0), Edge(12, 0)]
    requires rs1 == Redirect(rs, UsersOf(pm, 11), 10) && pm1 == MoveUsers(pm, 10, 11)
    ensures OuterLoop(Scan(HeapOf(rs), pm, NoMask(4)), edges, 0, order, outs, SameAttributes)
            == Scan(HeapOf(Redirect(rs1, UsersOf(pm1, 12), 11)), MoveUsers(pm1, 11, 12),
                    NoMask(4)[1 := true][3 := true])
  {
    var m0 := NoMask(4);
    var m1 := m0[1 := true];
    var m2 := m1[3 := true];
    var st, st1 := Scan(HeapOf(rs), pm, m0), Scan(HeapOf(rs1), pm1, m1);
    var end := Scan(HeapOf(Redirect(rs1, UsersOf(pm1, 12), 11)), MoveUsers(pm1, 11, 12), m2);
    TriedInVain(rs, pm, m0, edges, 0, 1, order, outs);
    TriedInVain(rs, pm, m0, edges, 0, 2, order, outs);
    TriedInVain(rs, pm, m0, edges, 0, 3, order, outs);
    TriedMerge(rs, pm, m0, edges, 1, 2, 1, 2, order, outs);
    TriedMerge(rs1, pm1, m1, edges, 1, 3, 3, 1, order, outs);
    ScanFour(st, edges, order, outs, st, st, st, st1, end);
  }

  lemma Rs4(rs: seq<seq<Id>>)
    requires rs == RsAt(3)
    ensures var rs1 := Redirect(rs, [Edge(13, 0)], 10);
            |rs1| == 14 && rs1[11] == rs1[12] && Redirect(rs1, [Edge(13, 1)], 11) == RsAt(4)
  {
    RedirectOne(rs, Edge(13, 0), 10);
    RedirectOne(Put(rs, Edge(13, 0), 10), Edge(13, 1), 11);
    RsSame(Put(Put(rs, Edge(13, 0), 10), Edge(13, 1), 11), RsAt(4));
  }

  lemma Users4(pm: ParentsMap)
    requires pm == UsersAt(3)
    ensures UsersOf(MoveUsers(pm, 10, 11), 12) == [Edge(13, 1)]
    ensures MoveUsers(MoveUsers(pm, 10, 11), 11, 12)[5 := [Edge(8, 1), Edge(10, 0)]] == UsersAt(4)
  {
    MovesUsers(pm, 10, 11, [Edge(13, 0)]);
    var pm1 := MoveUsers(pm, 10, 11);
    MovesUsers(pm1, 11, 12, [Edge(13, 1)]);
    var got := MoveUsers(pm1, 11, 12)[5 := [Edge(8, 1), Edge(10, 0)]];
    MapsSame(got, UsersAt(4));
  }

  /** Among the users of 5, 11 is merged into 10; then 12 is merged into 11. */
  lemma Entry5(rs: seq<seq<Id>>, pm: ParentsMap, order: map<Id, nat>, outs: set<Id>)
    requires RunSetting(order, outs) && rs == RsAt(3) && pm == UsersAt(3)
    ensures 5 in pm
    ensures Merged(rs, pm, 5, order, outs, RsAt(4), UsersAt(4))
  {
    var edges := [Edge(8, 1), Edge(11, 0), Edge(10, 0), Edge(12, 0)];
    var mask := NoMask(4)[1 := true][3 := true];
    var rs1, pm1 := Redirect(rs, [Edge(13, 0)], 10), MoveUsers(pm, 10, 11);
    Rs4(rs);
    Users4(pm);
    Scan5(rs, pm, edges, order, outs, rs1, pm1);
    EraseFour(edges, mask);
    MergedIs(rs, pm, 5, order, outs, RsAt(4), MoveUsers(pm1, 11, 12), mask, [Edge(8, 1), Edge(10, 0)], UsersAt(4));
  }

  // ---------------------------------------------------------------- the users of 0 in the second pass

  lemma ScanAgain(rs: seq<seq<Id>>, pm: ParentsMap, edges: seq<Edge>, order: map<Id, nat>, outs: set<Id>,
                  rs1: seq<seq<Id>>, pm1: ParentsMap)
    requires RunSetting(order, outs) && |rs| == |rs1| == 14 && rs[4] == rs[5] && rs1[4] == rs1[7]
    requires edges == [Edge(4, 0), Edge(5, 0), Edge(7, 0)]
    requires rs1 == Redirect(rs, UsersOf(pm, 5), 4) && pm1 == MoveUsers(pm, 4, 5) && 7 !in pm1
    ensures OuterLoop(Scan(HeapOf(rs), pm, NoMask(3)), edges, 0, order, outs, SameAttributes)
            == Scan(HeapOf(rs1), pm1, NoMask(3)[1 := true][2 := true])
  {
    var mask := NoMask(3);
    TriedMerge(rs, pm, mask, edges, 0, 1, 1, 0, order, outs);
    TriedMerge(rs1, pm1, mask[1 := true], edges, 0, 2, 2, 0, order, outs);
    assert Redirect(rs1, [], 4) == rs1;
    ScanThree(Scan(HeapOf(rs), pm, mask), edges, order, outs, Scan(HeapOf(rs1), pm1, mask[1 := true]),
              Scan(HeapOf(rs1), pm1, mask[1 := true][2 := true]));
  }

  lemma Rs5(rs: seq<seq<Id>>)
    requires rs == RsAt(4)
    ensures Redirect(rs, [Edge(8, 1), Edge(10, 0)], 4) == RsAt(5)
  {
    RedirectTwo(rs, Edge(8, 1), Edge(10, 0), 4);
    RsSame(Put(Put(rs, Edge(8, 1), 4), Edge(10, 0), 4), RsAt(5));
  }

  lemma Users5(pm: ParentsMap)
    requires pm == UsersAt(4)
    ensures 7 !in MoveUsers(pm, 4, 5) && MoveUsers(pm, 4, 5)[0 := [Edge(4, 0)]] == UsersAt(5)
  {
    MovesUsers(pm, 4, 5, [Edge(8, 0), Edge(8, 1), Edge(10, 0)]);
    var got := MoveUsers(pm, 4, 5)[0 := [Edge(4, 0)]];
    MapsSame(got, UsersAt(5));
  }

  /** In the second pass 5 and 7 are merged into 4; 11 goes on reading 5. */
  lemma EntryAgain(rs: seq<seq<Id>>, pm: ParentsMap, order: map<Id, nat>, outs: set<Id>)
    requires RunSetting(order, outs) && rs == RsAt(4) && pm == UsersAt(4)
    ensures Merged(rs, pm, 0, order, outs, RsAt(5), UsersAt(5))
  {
    var edges := [Edge(4, 0), Edge(5, 0), Edge(7, 0)];
    var mask := NoMask(3)[1 := true][2 := true];
    Rs5(rs);
    Users5(pm);
    ScanAgain(rs, pm, edges, order, outs, RsAt(5), MoveUsers(pm, 4, 5));
    EraseThree(edges, mask);
    MergedIs(rs, pm, 0, order, outs, RsAt(5), MoveUsers(pm, 4, 5), mask, [Edge(4, 0)], UsersAt(5));
  }

  // ---------------------------------------------------------------- the passes

  ghost predicate QuietAt(rs: seq<seq<Id>>, pm: ParentsMap, a: Id) {
    a in pm ==> NoTwoSame(rs, pm[a])
  }

  /** The entries that have users or are outputs. */
  function Kept(tape: seq<Id>, pm: ParentsMap, outs: set<Id>): seq<Id> {
    if tape == [] then []
    else (if tape[0] in pm || tape[0] in outs then [tape[0]] else []) + Kept(tape[1..], pm, outs)
  }

  ghost function PassOn(rs: seq<seq<Id>>, pm: ParentsMap, done: seq<Id>, tape: seq<Id>, k: nat,
                        order: map<Id, nat>, outs: set<Id>): Simplified
    requires k <= |tape|
  {
    PassFrom(Simplified(HeapOf(rs), pm, done), tape, k, order, outs, SameAttributes)
  }

  lemma PassEntry(rs: seq<seq<Id>>, pm: ParentsMap, done: seq<Id>, tape: seq<Id>, k: nat, order: map<Id, nat>,
                  outs: set<Id>, rs2: seq<seq<Id>>, pm2: ParentsMap)
    requires k < |tape| && Merged(rs, pm, tape[k], order, outs, rs2, pm2)
    ensures PassOn(rs, pm, done, tape, k, order, outs)
            == PassOn(rs2, pm2, done + Kept([tape[k]], pm, outs), tape, k + 1, order, outs)
  {
    assert Kept([], pm, outs) == [];
    assert Kept([tape[k]], pm, outs) == if tape[k] in pm || tape[k] in outs then [tape[k]] else [];
    assert done + [] == done;
  }

  /** Entries that merge nothing are kept or dropped. */
  lemma {:induction false} QuietRun(rs: seq<seq<Id>>, pm: ParentsMap, done: seq<Id>, tape: seq<Id>, k: nat, m: nat,
                                    order: map<Id, nat>, outs: set<Id>)
    requires k <= m <= |tape| && forall j :: k <= j < m ==> QuietAt(rs, pm, tape[j])
    ensures PassOn(rs, pm, done, tape, k, order, outs)
            == PassOn(rs, pm, done + Kept(tape[k..m], pm, outs), tape, m, order, outs)
    decreases m - k
  {
    if k == m {
      assert done + Kept(tape[k..m], pm, outs) == done;
    } else {
      Quiet(rs, pm, tape[k], order, outs);
      PassEntry(rs, pm, done, tape, k, order, outs, rs, pm);
      var one := Kept([tape[k]], pm, outs);
      QuietRun(rs, pm, done + one, tape, k + 1, m, order, outs);
      assert tape[k..m] == [tape[k]] + tape[k + 1..m];
      assert [tape[k]][1..] == [] && tape[k..m][1..] == tape[k + 1..m];
      assert Kept([], pm, outs) == [];
      assert Kept(tape[k..m], pm, outs) == one + Kept(tape[k + 1..m], pm, outs);
      assert done + one + Kept(tape[k + 1..m], pm, outs) == done + Kept(tape[k..m], pm, outs);
    }
  }

  lemma PassEnds(rs: seq<seq<Id>>, pm: ParentsMap, done: seq<Id>, tape: seq<Id>, order: map<Id, nat>, outs: set<Id>)
    ensures PassOn(rs, pm, done, tape, |tape|, order, outs) == Simplified(HeapOf(rs), pm, done)
  {
  }

  /** Arrays with one user are quiet. */
  lemma SingleQuiet(rs: seq<seq<Id>>, pm: ParentsMap, a: Id)
    requires a in pm ==> |pm[a]| == 1
    ensures QuietAt(rs, pm, a)
  {
  }

  /** Everything in `s` is kept, or nothing. */
  lemma {:induction false} KeptAll(pm: ParentsMap, outs: set<Id>, s: seq<Id>)
    ensures (forall x :: x in s ==> x in pm || x in outs) ==> Kept(s, pm, outs) == s
    ensures (forall x :: x in s ==> x !in pm && x !in outs) ==> Kept(s, pm, outs) == []
  {
    if s != [] {
      assert s == [s[0]] + s[1..];
      KeptAll(pm, outs, s[1..]);
    }
  }

  /** An entry that is kept. */
  lemma PassKept(rs: seq<seq<Id>>, pm: ParentsMap, done: seq<Id>, tape: seq<Id>, k: nat, order: map<Id, nat>,
                 outs: set<Id>, a: Id, rs2: seq<seq<Id>>, pm2: ParentsMap, done2: seq<Id>, end: Simplified)
    requires k < |tape| && tape[k] == a && Merged(rs, pm, a, order, outs, rs2, pm2) && a in pm
    requires done2 == done + [a] && PassOn(rs2, pm2, done2, tape, k + 1, order, outs) == end
    ensures PassOn(rs, pm, done, tape, k, order, outs) == end
  {
    KeptAll(pm, outs, [a]);
    PassEntry(rs, pm, done, tape, k, order, outs, rs2, pm2);
  }

  /** The rest of a pass, when nothing is merged any more. */
  lemma PassRest(rs: seq<seq<Id>>, pm: ParentsMap, done: seq<Id>, tape: seq<Id>, k: nat, order: map<Id, nat>,
                 outs: set<Id>, tape2: seq<Id>)
    requires k <= |tape| && (forall j :: k <= j < |tape| ==> QuietAt(rs, pm, tape[j]))
    requires tape2 == done + Kept(tape[k..], pm, outs)
    ensures PassOn(rs, pm, done, tape, k, order, outs) == Simplified(HeapOf(rs), pm, tape2)
  {
    QuietRun(rs, pm, done, tape, k, |tape|, order, outs);
    assert tape[k..|tape|] == tape[k..];
    PassEnds(rs, pm, tape2, tape, order, outs);
  }

  // ---------------------------------------------------------------- the first pass

  predicate InOrder14(tape: seq<Id>) {
    |tape| == 14 && forall k :: 0 <= k < 14 ==> tape[k] == k
  }

  function Tape1(): seq<Id> {
    [0, 1, 2, 4, 5, 8, 10, 11, 13]
  }

  /** What is kept from entry `k` on, given what is kept from the next one on. */
  lemma KeptOn(pm: ParentsMap, outs: set<Id>, tape: seq<Id>, k: nat, kept: seq<Id>, kept2: seq<Id>)
    requires k < |tape| && Kept(tape[k + 1..], pm, outs) == kept
    requires kept2 == if tape[k] in pm || tape[k] in outs then [tape[k]] + kept else kept
    ensures Kept(tape[k..], pm, outs) == kept2
  {
    assert tape[k..][1..] == tape[k + 1..] && [] + kept == kept;
  }

  function If(b: bool, x: Id): seq<Id> {
    if b then [x] else []
  }

  predicate Stays(pm: ParentsMap, outs: set<Id>, x: Id) {
    x in pm || x in outs
  }

  lemma KeptFour(pm: ParentsMap, outs: set<Id>, tape: seq<Id>, k: nat, rest: seq<Id>, w: Id, x: Id, y: Id, z: Id)
    requires k + 4 <= |tape| && Kept(tape[k + 4..], pm, outs) == rest
    requires tape[k] == w && tape[k + 1] == x && tape[k + 2] == y && tape[k + 3] == z
    ensures Kept(tape[k..], pm, outs) == If(Stays(pm, outs, w), w) + (If(Stays(pm, outs, x), x)
                                         + (If(Stays(pm, outs, y), y) + (If(Stays(pm, outs, z), z) + rest)))
  {
    var r3 := If(Stays(pm, outs, z), z) + rest;
    KeptOn(pm, outs, tape, k + 3, rest, r3);
    var r2 := If(Stays(pm, outs, y), y) + r3;
    KeptOn(pm, outs, tape, k + 2, r3, r2);
    var r1 := If(Stays(pm, outs, x), x) + r2;
    KeptOn(pm, outs, tape, k + 1, r2, r1);
    KeptOn(pm, outs, tape, k, r1, If(Stays(pm, outs, w), w) + r1);
  }

  lemma Kept6(pm: ParentsMap, outs: set<Id>, tape: seq<Id>)
    requires |tape| == 14 && forall k :: 0 <= k < 14 ==> tape[k] == k
    requires outs == {0, 2, 4, 8, 10, 13} && 6 !in pm && 7 !in pm && 9 !in pm && 11 in pm && 12 !in pm
    ensures Kept(tape[6..], pm, outs) == [8, 10, 11, 13]
  {
    assert tape[14..] == [] && Kept([], pm, outs) == [];
    KeptFour(pm, outs, tape, 10, [], 10, 11, 12, 13);
    assert [10] + ([11] + ([] + ([13] + []))) == [10, 11, 13];
    KeptFour(pm, outs, tape, 6, [10, 11, 13], 6, 7, 8, 9);
    assert [] + ([] + ([8] + ([] + [10, 11, 13]))) == [8, 10, 11, 13];
  }
  // What the passes need to know of the consumer map after 2, after 5, and at the end.

  predicate Ready3(pm: ParentsMap) {
    3 !in pm && 4 in pm && |pm[4]| == 1 && 5 in pm
  }

  predicate Ready4(pm: ParentsMap) {
    && 6 !in pm && 7 !in pm && 8 !in pm && 9 !in pm && 12 !in pm && 13 !in pm
    && 0 in pm && 10 in pm && 11 in pm && |pm[10]| == 1 && |pm[11]| == 1
  }

  /** Array 11 is kept and reads 5, which is dropped and has no entry in the consumer map. */
  predicate Ready5(rs: seq<seq<Id>>, pm: ParentsMap) {
    && |rs| == 14 && rs[13] == [10, 11] && rs[10] == [4] && rs[11] == [5] && (forall p :: 0 <= p < 2 ==> rs[p] == [])
    && pm.Keys == {0, 1, 2, 4, 10, 11} && pm[4] == [Edge(8, 0), Edge(8, 1), Edge(10, 0)]
    && pm[10] == [Edge(13, 0)] && pm[11] == [Edge(13, 1)] && |pm[0]| == |pm[1]| == |pm[2]| == 1
  }

  lemma Pass6(rs: seq<seq<Id>>, pm: ParentsMap, tape: seq<Id>, order: map<Id, nat>, outs: set<Id>)
    requires RunSetting(order, outs) && InOrder14(tape) && Ready4(pm)
    ensures PassOn(rs, pm, [0, 1, 2, 4, 5], tape, 6, order, outs) == Simplified(HeapOf(rs), pm, Tape1())
  {
    Kept6(pm, outs, tape);
    forall j | 6 <= j < |tape|
      ensures QuietAt(rs, pm, tape[j])
    {
      SingleQuiet(rs, pm, tape[j]);
    }
    assert [0, 1, 2, 4, 5] + [8, 10, 11, 13] == Tape1();
    PassRest(rs, pm, [0, 1, 2, 4, 5], tape, 6, order, outs, Tape1());
  }

  lemma Skip3(rs: seq<seq<Id>>, pm: ParentsMap, tape: seq<Id>, order: map<Id, nat>, outs: set<Id>)
    requires |tape| == 14 && tape[3] == 3 && tape[4] == 4 && 4 in outs && 3 !in outs
    requires 3 !in pm && (4 in pm ==> |pm[4]| == 1)
    ensures PassOn(rs, pm, [0, 1, 2], tape, 3, order, outs) == PassOn(rs, pm, [0, 1, 2, 4], tape, 5, order, outs)
  {
    SingleQuiet(rs, pm, 3);
    SingleQuiet(rs, pm, 4);
    assert forall j :: 3 <= j < 5 ==> QuietAt(rs, pm, tape[j]);
    QuietRun(rs, pm, [0, 1, 2], tape, 3, 5, order, outs);
    var part := tape[3..5];
    assert part[2..] == [] && Kept([], pm, outs) == [];
    KeptOn(pm, outs, part, 1, [], [4]);
    KeptOn(pm, outs, part, 0, [4], [4]);
    assert part[0..] == part && [0, 1, 2] + [4] == [0, 1, 2, 4];
  }

  lemma FirstPass(tape: seq<Id>, order: map<Id, nat>, outs: set<Id>,
                  r0: seq<seq<Id>>, p0: ParentsMap, r1: seq<seq<Id>>, p1: ParentsMap, r2: seq<seq<Id>>, p2: ParentsMap,
                  r3: seq<seq<Id>>, p3: ParentsMap, r4: seq<seq<Id>>, p4: ParentsMap)
    requires RunSetting(order, outs) && InOrder14(tape) && 0 in p0 && 1 in p1 && 2 in p2 && Ready3(p3) && Ready4(p4)
    requires Merged(r0, p0, 0, order, outs, r1, p1) && Merged(r1, p1, 1, order, outs, r2, p2)
    requires Merged(r2, p2, 2, order, outs, r3, p3) && Merged(r3, p3, 5, order, outs, r4, p4)
    ensures PassOn(r0, p0, [], tape, 0, order, outs) == Simplified(HeapOf(r4), p4, Tape1())
  {
    var end := Simplified(HeapOf(r4), p4, Tape1());
    Pass6(r4, p4, tape, order, outs);
    PassKept(r3, p3, [0, 1, 2, 4], tape, 5, order, outs, 5, r4, p4, [0, 1, 2, 4, 5], end);
    Skip3(r3, p3, tape, order, outs);
    PassKept(r2, p2, [0, 1], tape, 2, order, outs, 2, r3, p3, [0, 1, 2], end);
    PassKept(r1, p1, [0], tape, 1, order, outs, 1, r2, p2, [0, 1], end);
    PassKept(r0, p0, [], tape, 0, order, outs, 0, r1, p1, [0], end);
  }

  // ---------------------------------------------------------------- the other passes

  function Tape2(): seq<Id> {
    [0, 1, 2, 4, 8, 10, 11, 13]
  }

  lemma QuietEnd(rs: seq<seq<Id>>, pm: ParentsMap, a: Id)
    requires Ready5(rs, pm)
    ensures QuietAt(rs, pm, a)
  {
    if a != 4 {
      SingleQuiet(rs, pm, a);
    }
  }

  lemma Kept1(pm: ParentsMap, outs: set<Id>, tape: seq<Id>)
    requires |tape| == 9 && tape[1] == 1 && tape[2] == 2 && tape[3] == 4 && tape[4] == 5
    requires tape[5] == 8 && tape[6] == 10 && tape[7] == 11 && tape[8] == 13
    requires outs == {0, 2, 4, 8, 10, 13} && 1 in pm && 5 !in pm && 11 in pm
    ensures Kept(tape[1..], pm, outs) == [1, 2, 4, 8, 10, 11, 13]
  {
    assert tape[9..] == [] && Kept([], pm, outs) == [];
    KeptFour(pm, outs, tape, 5, [], 8, 10, 11, 13);
    assert [8] + ([10] + ([11] + ([13] + []))) == [8, 10, 11, 13];
    KeptFour(pm, outs, tape, 1, [8, 10, 11, 13], 1, 2, 4, 5);
    assert [1] + ([2] + ([4] + ([] + [8, 10, 11, 13]))) == [1, 2, 4, 8, 10, 11, 13];
  }

  lemma SecondRest(rs: seq<seq<Id>>, pm: ParentsMap, tape: seq<Id>, order: map<Id, nat>, outs: set<Id>)
    requires RunSetting(order, outs) && tape == Tape1() && Ready5(rs, pm)
    ensures PassOn(rs, pm, [0], tape, 1, order, outs) == Simplified(HeapOf(rs), pm, Tape2())
  {
    forall j | 1 <= j < |tape|
      ensures QuietAt(rs, pm, tape[j])
    {
      QuietEnd(rs, pm, tape[j]);
    }
    Kept1(pm, outs, tape);
    assert [0] + [1, 2, 4, 8, 10, 11, 13] == Tape2();
    PassRest(rs, pm, [0], tape, 1, order, outs, Tape2());
  }

  lemma SecondPass(rs: seq<seq<Id>>, pm: ParentsMap, order: map<Id, nat>, outs: set<Id>, rs2: seq<seq<Id>>,
                   pm2: ParentsMap)
    requires RunSetting(order, outs) && 0 in pm && Ready5(rs2, pm2) && Merged(rs, pm, 0, order, outs, rs2, pm2)
    ensures PassOn(rs, pm, [], Tape1(), 0, order, outs) == Simplified(HeapOf(rs2), pm2, Tape2())
  {
    SecondRest(rs2, pm2, Tape1(), order, outs);
    assert [] + [0] == [0];
    PassKept(rs, pm, [], Tape1(), 0, order, outs, 0, rs2, pm2, [0], Simplified(HeapOf(rs2), pm2, Tape2()));
  }

  lemma ThirdPass(rs: seq<seq<Id>>, pm: ParentsMap, tape: seq<Id>, order: map<Id, nat>, outs: set<Id>)
    requires RunSetting(order, outs) && tape == Tape2() && Ready5(rs, pm)
    ensures PassOn(rs, pm, [], tape, 0, order, outs) == Simplified(HeapOf(rs), pm, tape)
  {
    forall j | 0 <= j < |tape|
      ensures QuietAt(rs, pm, tape[j])
    {
      QuietEnd(rs, pm, tape[j]);
    }
    KeptAll(pm, outs, tape);
    assert tape[0..] == tape && [] + tape == tape;
    PassRest(rs, pm, [], tape, 0, order, outs, tape);
  }

  lemma ThreePasses(rs: seq<seq<Id>>, pm: ParentsMap, tape: seq<Id>, order: map<Id, nat>, outs: set<Id>,
                    rs1: seq<seq<Id>>, pm1: ParentsMap, tape1: seq<Id>,
                    rs2: seq<seq<Id>>, pm2: ParentsMap, tape2: seq<Id>)
    requires PassOn(rs, pm, [], tape, 0, order, outs) == Simplified(HeapOf(rs1), pm1, tape1)
    requires PassOn(rs1, pm1, [], tape1, 0, order, outs) == Simplified(HeapOf(rs2), pm2, tape2)
    requires PassOn(rs2, pm2, [], tape2, 0, order, outs) == Simplified(HeapOf(rs2), pm2, tape2)
    ensures Passes(Simplified(HeapOf(rs), pm, tape), 3, order, outs, SameAttributes)
            == Simplified(HeapOf(rs2), pm2, tape2)
  {
    var end := Simplified(HeapOf(rs2), pm2, tape2);
    assert Passes(end, 0, order, outs, SameAttributes) == end;
    assert Passes(end, 1, order, outs, SameAttributes) == end;
    assert Passes(Simplified(HeapOf(rs1), pm1, tape1), 2, order, outs, SameAttributes) == end;
  }

  // ---------------------------------------------------------------- the run from each state on

  lemma Run4(order: map<Id, nat>, outs: set<Id>, r4: seq<seq<Id>>, p4: ParentsMap)
    returns (r5: seq<seq<Id>>, p5: ParentsMap)
    requires RunSetting(order, outs) && r4 == RsAt(4) && p4 == UsersAt(4)
    ensures Ready4(p4) && Merged(r4, p4, 0, order, outs, r5, p5) && Ready5(r5, p5)
  {
    r5, p5 := RsAt(5), UsersAt(5);
    EntryAgain(r4, p4, order, outs);
    Facts4(p4);
    Facts5(r5, p5);
  }

  lemma Run3(order: map<Id, nat>, outs: set<Id>, r3: seq<seq<Id>>, p3: ParentsMap)
    returns (r4: seq<seq<Id>>, p4: ParentsMap, r5: seq<seq<Id>>, p5: ParentsMap)
    requires RunSetting(order, outs) && r3 == RsAt(3) && p3 == UsersAt(3)
    ensures Ready3(p3) && Merged(r3, p3, 5, order, outs, r4, p4)
    ensures Ready4(p4) && Merged(r4, p4, 0, order, outs, r5, p5) && Ready5(r5, p5)
  {
    r4, p4 := RsAt(4), UsersAt(4);
    Entry5(r3, p3, order, outs);
    r5, p5 := Run4(order, outs, r4, p4);
    Facts3(p3);
  }

  lemma Run2(order: map<Id, nat>, outs: set<Id>, r2: seq<seq<Id>>, p2: ParentsMap)
    returns (r3: seq<seq<Id>>, p3: ParentsMap, r4: seq<seq<Id>>, p4: ParentsMap, r5: seq<seq<Id>>, p5: ParentsMap)
    requires RunSetting(order, outs) && r2 == RsAt(2) && p2 == UsersAt(2)
    ensures 2 in p2 && Merged(r2, p2, 2, order, outs, r3, p3)
    ensures Ready3(p3) && Merged(r3, p3, 5, order, outs, r4, p4)
    ensures Ready4(p4) && Merged(r4, p4, 0, order, outs, r5, p5) && Ready5(r5, p5)
  {
    r3, p3 := RsAt(3), UsersAt(3);
    Entry2(r2, p2, order, outs, r3);
    r4, p4, r5, p5 := Run3(order, outs, r3, p3);
  }

  lemma Run1(order: map<Id, nat>, outs: set<Id>, r1: seq<seq<Id>>, p1: ParentsMap)
    returns (r2: seq<seq<Id>>, p2: ParentsMap, r3: seq<seq<Id>>, p3: ParentsMap, r4: seq<seq<Id>>, p4: ParentsMap,
             r5: seq<seq<Id>>, p5: ParentsMap)
    requires RunSetting(order, outs) && r1 == RsAt(1) && p1 == UsersAt(1)
    ensures 1 in p1 && Merged(r1, p1, 1, order, outs, r2, p2)
    ensures 2 in p2 && Merged(r2, p2, 2, order, outs, r3, p3)
    ensures Ready3(p3) && Merged(r3, p3, 5, order, outs, r4, p4)
    ensures Ready4(p4) && Merged(r4, p4, 0, order, outs, r5, p5) && Ready5(r5, p5)
  {
    r2, p2 := RsAt(2), UsersAt(2);
    Entry1(r1, p1, order, outs, r2);
    r3, p3, r4, p4, r5, p5 := Run2(order, outs, r2, p2);
  }

  lemma Run0(order: map<Id, nat>, outs: set<Id>, r0: seq<seq<Id>>, p0: ParentsMap)
    returns (r1: seq<seq<Id>>, p1: ParentsMap, r2: seq<seq<Id>>, p2: ParentsMap, r3: seq<seq<Id>>, p3: ParentsMap,
             r4: seq<seq<Id>>, p4: ParentsMap, r5: seq<seq<Id>>, p5: ParentsMap)
    requires RunSetting(order, outs) && r0 == RsAt(0) && p0 == UsersAt(0)
    ensures 0 in p0 && Merged(r0, p0, 0, order, outs, r1, p1)
    ensures 1 in p1 && Merged(r1, p1, 1, order, outs, r2, p2)
    ensures 2 in p2 && Merged(r2, p2, 2, order, outs, r3, p3)
    ensures Ready3(p3) && Merged(r3, p3, 5, order, outs, r4, p4)
    ensures Ready4(p4) && Merged(r4, p4, 0, order, outs, r5, p5) && Ready5(r5, p5)
  {
    r1, p1 := RsAt(1), UsersAt(1);
    Entry0(r0, p0, order, outs);
    r2, p2, r3, p3, r4, p4, r5, p5 := Run1(order, outs, r1, p1);
  }

  lemma Facts3(pm: ParentsMap)
    requires pm == UsersAt(3)
    ensures Ready3(pm)
  {
  }

  lemma Facts4(pm: ParentsMap)
    requires pm == UsersAt(4)
    ensures Ready4(pm)
  {
  }

  lemma Facts5(rs: seq<seq<Id>>, pm: ParentsMap)
    requires rs == RsAt(5) && pm == UsersAt(5)
    ensures Ready5(rs, pm)
  {
  }

  lemma AllPasses(tape: seq<Id>, order: map<Id, nat>, outs: set<Id>, r0: seq<seq<Id>>, p0: ParentsMap)
    returns (r5: seq<seq<Id>>, p5: ParentsMap)
    requires RunSetting(order, outs) && InOrder14(tape) && r0 == RsAt(0) && p0 == UsersAt(0)
    ensures Passes(Simplified(HeapOf(r0), p0, tape), 3, order, outs, SameAttributes)
            == Simplified(HeapOf(r5), p5, Tape2())
    ensures Ready5(r5, p5)
  {
    var r1, p1, r2, p2, r3, p3, r4, p4;
    r1, p1, r2, p2, r3, p3, r4, p4, r5, p5 := Run0(order, outs, r0, p0);
    FirstPass(tape, order, outs, r0, p0, r1, p1, r2, p2, r3, p3, r4, p4);
    SecondPass(r4, p4, order, outs, r5, p5);
    ThirdPass(r5, p5, Tape2(), order, outs);
    ThreePasses(r0, p0, tape, order, outs, r4, p4, Tape1(), r5, p5, Tape2());
  }

  // ---------------------------------------------------------------- no scalars

  lemma {:induction false} NoScalarTable(h: Heap, tape: seq<Id>, k: nat)
    requires Allocated(h, tape) && k <= |tape| && forall i :: 0 <= i < |tape| ==> !IsScalar(h[tape[i]])
    ensures ScalarTable(h, tape, k) == map[]
  {
    if k > 0 {
      NoScalarTable(h, tape, k - 1);
    }
  }

  lemma {:induction false} NoScalarMerge(h: Heap, pm: ParentsMap, tape: seq<Id>, k: nat, table: map<(nat, nat), Id>)
    requires k <= |tape| && table == map[]
    ensures ScalarsFrom(Simplified(h, pm, tape[..k]), tape, k, table) == Simplified(h, pm, tape)
    decreases |tape| - k
  {
    if k == |tape| {
      assert tape[..k] == tape;
    } else {
      assert tape[..k] + [tape[k]] == tape[..k + 1];
      NoScalarMerge(h, pm, tape, k + 1, table);
    }
  }

  lemma Numbered(tape: seq<Id>)
    requires tape == UpTo(14)
    ensures forall k :: 0 <= k < 14 ==> OrderOf(OrderTable(tape), k) == k
  {
    forall k | 0 <= k < 14
      ensures OrderOf(OrderTable(tape), k) == k
    {
      assert tape[k] == k && tape[IndexOf(tape, k)] == k;
    }
  }

  lemma RunEnds(tape: seq<Id>, pm: ParentsMap) returns (rs: seq<seq<Id>>, pm2: ParentsMap)
    requires tape == UpTo(14) && pm == Users()
    ensures Allocated(TRACED, tape) && Ready5(rs, pm2)
    ensures SimplifiedBy(TRACED, pm, tape, OUTPUTS, PASSES, SameAttributes)
            == Simplified(HeapOf(rs), pm2, Tape2())
  {
    StartOfRun();
    var outs := set o | o in OUTPUTS;
    Numbered(tape);
    assert outs == {0, 2, 4, 8, 10, 13};
    NoScalarTable(TRACED, tape, |tape|);
    assert tape[..0] == [];
    NoScalarMerge(TRACED, pm, tape, 0, map[]);
    rs, pm2 := AllPasses(tape, OrderTable(tape), outs, RsAt(0), UsersAt(0));
  }

  /** The result of laying the graph out and simplifying it. */
  lemma WholeRun() returns (walk: Walked, rs: seq<seq<Id>>, pm: ParentsMap)
    ensures Traced(TRACED, RANK) && Allocated(TRACED, OUTPUTS) && walk == WholeWalk(TRACED, RANK, INPUTS, OUTPUTS)
    ensures Allocated(TRACED, walk.tape) && Ready5(rs, pm)
    ensures SimplifiedBy(TRACED, walk.parents, walk.tape, OUTPUTS, PASSES, SameAttributes)
            == Simplified(HeapOf(rs), pm, Tape2())
  {
    var u: ParentsMap := map[];
    LaidOutGraph(u);
    UsersAre(u, Reads4(Reads2(u)), Reads8(Reads4(Reads2(u))), Reads10(Reads8(Reads4(Reads2(u)))));
    walk := At(14, Users());
    rs, pm := RunEnds(UpTo(14), Users());
  }

  // ---------------------------------------------------------------- the calls fail

  lemma FuserStops(rs: seq<seq<Id>>, pm: ParentsMap, outs: set<Id>)
    requires Ready5(rs, pm)
    ensures Collected(HeapOf(rs), pm, outs, 13, 0, 0, [2], {}) == None
  {
    var h := HeapOf(rs);
    var c := {13, 10};
    assert {} + {13} == {13} && {13} + {10} == c;
    assert pm[4][0] == Edge(8, 0);
    assert Collected(h, pm, outs, 4, 2, 0, [2], c) == Some(c);
    assert CollectedInputs(h, pm, outs, [], 2, 0, [2], c) == Some(c);
    assert CollectedInputs(h, pm, outs, [4], 2, 0, [2], c) == Some(c);
    assert Collected(h, pm, outs, 10, 1, 0, [2], {13}) == Some(c);
    ReaderThrows(h, pm, outs, 11, 1, 0, [2], c, 0);
    assert [10, 11][1..] == [11];
    assert CollectedInputs(h, pm, outs, [11], 1, 0, [2], c) == None;
    assert CollectedInputs(h, pm, outs, [10, 11], 1, 0, [2], {13}) == None;
  }

  /** In the default mode, compiling the graph throws: the fuser starts at the last tape entry, 13, and its
      first recursion looks up the users of 5. */
  lemma DefaultModeFails()
    ensures SourceGraph(TRACED, RANK) && SingleOutput(TRACED) && SoundEquivalence(SameAttributes)
    ensures Allocated(TRACED, OUTPUTS) && TraceInputs(TRACED, INPUTS)
    ensures var walk := WholeWalk(TRACED, RANK, INPUTS, OUTPUTS);
            && Allocated(TRACED, walk.tape)
            && var s := SimplifiedBy(TRACED, walk.parents, walk.tape, OUTPUTS, PASSES, SameAttributes);
               && |s.tape| > 0 && s.tape[|s.tape| - 1] == 13 && 13 in s.h
               && Collected(s.h, s.pm, (set o | o in OUTPUTS), 13, 0, 0, s.h[13].shape, {}) == None
  {
    TracedGraph();
    var walk, rs, pm := WholeRun();
    FuserStops(rs, pm, set o | o in OUTPUTS);
  }

  /** In mode `no_fuse`, every call of the compiled function fails: no replayed array stands for 5. */
  lemma NoFuseFails<V>(inputs: seq<V>, sem: Semantics<V>)
    requires |inputs| == 2
    ensures Traced(TRACED, RANK) && Allocated(TRACED, OUTPUTS)
    ensures var walk := WholeWalk(TRACED, RANK, INPUTS, OUTPUTS);
            && Allocated(TRACED, walk.tape)
            && var s := SimplifiedBy(TRACED, walk.parents, walk.tape, OUTPUTS, PASSES, SameAttributes);
               && Positioned(s.h, s.tape) && !InputsKept(s.h, s.tape)
               && Replayed(s.h, s.tape, INPUTS, OUTPUTS, inputs, sem) == None
  {
    var walk, rs, pm := WholeRun();
    ReplayStops(rs, pm, Tape2(), inputs, sem);
  }

  lemma ReplayStops<V>(rs: seq<seq<Id>>, pm: ParentsMap, tape: seq<Id>, inputs: seq<V>, sem: Semantics<V>)
    requires Ready5(rs, pm) && tape == Tape2() && |inputs| == 2
    ensures Positioned(HeapOf(rs), tape) && !InputsKept(HeapOf(rs), tape)
    ensures Replayed(HeapOf(rs), tape, INPUTS, OUTPUTS, inputs, sem) == None
  {
    var h := HeapOf(rs);
    assert tape[6] == 11 && h[11].inputs == [5] && h[11].inputs[0] == 5 && 5 !in tape;
    assert !ReadsKept(h, tape, tape[6]);
    BoundKeys(INPUTS, inputs, 2);
    FoundOrFailed(h, tape, BoundInputs(INPUTS, inputs, 2), sem, 6, 5);
  }

  /** A replay fails when an entry reads an array that is neither on the tape nor an argument. */
  lemma FoundOrFailed<V>(h: Heap, tape: seq<Id>, start: map<Id, V>, sem: Semantics<V>, m: nat, x: Id)
    requires SingleOutput(h) && Positioned(h, tape) && m < |tape|
    requires forall p {:trigger h[p]} :: p in h && h[p].prim.None? ==> h[p].inputs == []
    requires h[tape[m]].inputs == [x] && x !in start && x !in tape
    ensures ReplayedFrom(h, tape, 0, start, sem) == None
  {
    FoundIf(h, tape, start, sem, m);
    assert h[tape[m]].inputs[0] == x;
  }

  lemma FoundIf<V>(h: Heap, tape: seq<Id>, start: map<Id, V>, sem: Semantics<V>, m: nat)
    requires SingleOutput(h) && Positioned(h, tape) && m < |tape|
    requires forall p {:trigger h[p]} :: p in h && h[p].prim.None? ==> h[p].inputs == []
    ensures var end := ReplayedFrom(h, tape, 0, start, sem);
            end.Some? ==> AllBound(h[tape[m]].inputs, end.value)
                          && forall x :: x in end.value ==> x in start || x in tape
  {
    if ReplayedFrom(h, tape, 0, start, sem).Some? {
      FoundInputs(h, tape, 0, start, sem);
    }
  }

  lemma SameUnary(p: Id)
    requires p in {2, 3, 6}
    ensures Traced(TRACED, RANK) && p in TRACED && Denote(TRACED, RANK, p) == Apply(F, 0, [Leaf(1)], 0)
  {
    TracedGraph();
    assert Denote(TRACED, RANK, 1) == Leaf(1);
    var args := seq(1, i requires 0 <= i < 1 => Denote(TRACED, RANK, TRACED[p].inputs[i]));
    assert args == [Leaf(1)];
  }

  lemma ThreeCrowd(h: Heap, rank: map<Id, nat>, outputs: seq<Id>, d: Id, p: Id, s: Id)
    requires Traced(h, rank) && Allocated(h, outputs)
    requires Needed(h, rank, outputs, d) && Needed(h, rank, outputs, p) && Needed(h, rank, outputs, s)
    requires AllDifferent(d, p, s) && Twins(h, rank, d, p) && Twins(h, rank, p, s) && p !in outputs && s !in outputs
    ensures !Uncrowded(h, rank, outputs)
  {
  }

  lemma NeededHere()
    ensures Traced(TRACED, RANK) && Allocated(TRACED, OUTPUTS)
    ensures forall p :: p in {2, 3, 6} ==> Needed(TRACED, RANK, OUTPUTS, p)
  {
    ReachedHere(2, 1);
    ReachedHere(3, 2);
    ReachedHere(6, 3);
  }

  lemma TwinsHere(p: Id, q: Id)
    requires p in {2, 3, 6} && q in {2, 3, 6}
    ensures Traced(TRACED, RANK) && Twins(TRACED, RANK, p, q)
  {
    SameUnary(p);
    SameUnary(q);
  }

  /** The graph has three arrays that compute the same - 2, 3 and 6 - of which two are no outputs. */
  lemma Crowded()
    ensures Traced(TRACED, RANK) && Allocated(TRACED, OUTPUTS) && !Uncrowded(TRACED, RANK, OUTPUTS)
  {
    NeededHere();
    TwinsHere(2, 3);
    TwinsHere(3, 6);
    ThreeCrowd(TRACED, RANK, OUTPUTS, 2, 3, 6);
  }

  lemma ReachedHere(p: Id, o: nat)
    requires (p == 2 && o == 1) || (p == 3 && o == 2) || (p == 6 && o == 3)
    ensures Traced(TRACED, RANK) && Allocated(TRACED, OUTPUTS) && Needed(TRACED, RANK, OUTPUTS, p)
  {
    TracedGraph();
    assert Reaches(TRACED, RANK, p, p);
    if p == 3 {
      assert TRACED[4].inputs[1] == 3 && Reaches(TRACED, RANK, 4, 3);
    } else if p == 6 {
      assert TRACED[7].inputs[1] == 6 && Reaches(TRACED, RANK, 7, 6);
      assert TRACED[8].inputs[1] == 7 && Reaches(TRACED, RANK, 8, 6);
    }
    assert NeededFor(TRACED, RANK, OUTPUTS[o], p, p);
  }
}
