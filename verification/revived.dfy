/**
 A traced graph on which simplification goes wrong: an array that was merged away gets users again and
 stays on the tape, and an array it reads is dropped.

 The arrays, numbered by their place on the tape, with f, k unary and h, m binary:
   0, 1 placeholders,  2 = f(1),  3 = f(1),  4 = h(0, 3),  5 = h(0, 2),  6 = f(1),  7 = h(0, 6),
   8 = m(5, 7),  9 = h(0, 6),  10 = k(9),  11 = k(7),  12 = k(9),  13 = m(11, 12).
 The outputs are 0, 2, 4, 8, 10 and 13.
 */
module Revived {
  import opened Wrappers
  import opened ArrayGraph
  import opened Dfs
  import opened LiveGraph
  import opened Region
  import opened Replay
  import opened Driver
  import opened Simplify
  import opened SimplifyDriver

  const F := Unary("f")
  const K := Unary("k")
  const H := Binary("h")
  const M := Binary("m")

  function Kind(p: Id): PrimitiveType {
    if p in {2, 3, 6} then F else if p in {10, 11, 12} then K else if p in {8, 13} then M else H
  }

  function Reads(p: Id): (xs: seq<Id>)
    ensures forall i :: 0 <= i < |xs| ==> xs[i] < p
  {
    if p in {2, 3, 6} then [1]
    else if p == 4 then [0, 3]
    else if p == 5 then [0, 2]
    else if p in {7, 9} then [0, 6]
    else if p == 8 then [5, 7]
    else if p in {10, 12} then [9]
    else if p == 11 then [7]
    else if p == 13 then [11, 12]
    else []
  }

  function Array(p: Id, inputs: seq<Id>): Node {
    Node(if p < 2 then None else Some(Base(p, Kind(p), 0, 0)), inputs, [], 0, [2], 0, false, 0)
  }

  const TRACED: Heap := map p: Id | 0 <= p < 14 :: Array(p, Reads(p))

  const RANK: map<Id, nat> := map p: Id | 0 <= p < 14 :: p

  const INPUTS: seq<Id> := [0, 1]

  const OUTPUTS: seq<Id> := [0, 2, 4, 8, 10, 13]

  predicate SameAttributes(p: Primitive, q: Primitive) {
    p.Base? && q.Base? && p.attrs == q.attrs
  }

  lemma TracedGraph()
    ensures SourceGraph(TRACED, RANK) && SingleOutput(TRACED) && SoundEquivalence(SameAttributes)
    ensures Allocated(TRACED, OUTPUTS) && TraceInputs(TRACED, INPUTS)
  {
    forall p | p in TRACED
      ensures SiblingsOk(TRACED, p)
    {
      assert Outputs(TRACED, p) == [p];
    }
  }

  // ---------------------------------------------------------------- walking

  function UpTo(n: nat): (s: seq<Id>)
    ensures |s| == n && forall k :: 0 <= k < n ==> s[k] == k
  {
    seq(n, k => k)
  }

  function Below(n: nat): (s: set<Id>)
    ensures forall k :: k in s <==> 0 <= k < n
  {
    assert forall k {:trigger k in UpTo(n)} :: 0 <= k < n ==> k in UpTo(n) by {
      forall k | 0 <= k < n
        ensures k in UpTo(n)
      {
        assert UpTo(n)[k] == k;
      }
    }
    set k | k in UpTo(n)
  }

  /** The walk has laid out the arrays below `n`. */
  function At(n: nat, users: ParentsMap): Walked {
    Walked(UpTo(n), Below(n), users)
  }

  /** Visiting `a` takes the walk from `w` to `w2`. */
  ghost predicate Visits(h: Heap, rank: map<Id, nat>, inputSet: set<Id>, a: Id, w: Walked, w2: Walked) {
    Traced(h, rank) && a in h && Visited(h, rank, inputSet, a, w) == w2
  }

  lemma VisitDone(h: Heap, rank: map<Id, nat>, inputSet: set<Id>, a: Id, n: nat, users: ParentsMap)
    requires Traced(h, rank) && Alone(h, a) && a < n
    ensures Visits(h, rank, inputSet, a, At(n, users), At(n, users))
  {
  }

  ghost predicate Alone(h: Heap, a: Id) {
    a in h && h[a].siblings == []
  }

  lemma VisitLeaf(h: Heap, rank: map<Id, nat>, inputSet: set<Id>, a: Id, users: ParentsMap)
    requires Traced(h, rank) && Alone(h, a) && h[a].inputs == []
    ensures Visits(h, rank, inputSet, a, At(a, users), At(a + 1, users))
  {
    assert Group(h, a) == {a};
  }

  function Read(users: ParentsMap, x: Id, e: Edge): ParentsMap {
    users[x := UsersOf(users, x) + [e]]
  }

  lemma LogsRead(h: Heap, users: ParentsMap, x: Id, a: Id, i: nat)
    requires Alone(h, a)
    ensures Logged(h, users, x, a, i) == Read(users, x, Edge(a, i))
  {
    assert UsersOf(users, x) + [Edge(a, i)] + SlotOf([], i) == UsersOf(users, x) + [Edge(a, i)];
  }

  /** Visiting `a`, which reads `x` only. */
  lemma VisitUnary(h: Heap, rank: map<Id, nat>, inputSet: set<Id>, a: Id, x: Id, n: nat, users: ParentsMap,
                   users2: ParentsMap)
    requires Traced(h, rank) && Alone(h, a) && a !in inputSet && n <= a && h[a].inputs == [x]
    requires Visits(h, rank, inputSet, x, At(n, Read(users, x, Edge(a, 0))), At(a, users2))
    ensures Visits(h, rank, inputSet, a, At(n, users), At(a + 1, users2))
  {
    LogsRead(h, users, x, a, 0);
    assert VisitedInputs(h, rank, inputSet, a, 1, At(a, users2)) == At(a, users2);
    assert VisitedInputs(h, rank, inputSet, a, 0, At(n, users)) == At(a, users2);
    assert Group(h, a) == {a};
  }

  /** Visiting `a`, which reads `x` and then `y`. */
  lemma VisitBinary(h: Heap, rank: map<Id, nat>, inputSet: set<Id>, a: Id, x: Id, y: Id, n: nat, m: nat,
                    users: ParentsMap, users2: ParentsMap, users4: ParentsMap)
    requires Traced(h, rank) && Alone(h, a) && a !in inputSet && n <= m <= a && h[a].inputs == [x, y]
    requires Visits(h, rank, inputSet, x, At(n, Read(users, x, Edge(a, 0))), At(m, users2))
    requires Visits(h, rank, inputSet, y, At(m, Read(users2, y, Edge(a, 1))), At(a, users4))
    ensures Visits(h, rank, inputSet, a, At(n, users), At(a + 1, users4))
  {
    LogsRead(h, users, x, a, 0);
    LogsRead(h, users2, y, a, 1);
    assert VisitedInputs(h, rank, inputSet, a, 2, At(a, users4)) == At(a, users4);
    assert VisitedInputs(h, rank, inputSet, a, 1, At(m, users2)) == At(a, users4);
    assert VisitedInputs(h, rank, inputSet, a, 0, At(n, users)) == At(a, users4);
    assert Group(h, a) == {a};
  }

  // ---------------------------------------------------------------- laying out

  // What the visits of the outputs 2, 4, 8, 10 and 13, and of the arrays 5 and 7, add to the consumer map.

  function Reads2(u: ParentsMap): ParentsMap {
    Read(u, 1, Edge(2, 0))
  }

  function Reads4(u: ParentsMap): ParentsMap {
    Read(Read(Read(u, 0, Edge(4, 0)), 3, Edge(4, 1)), 1, Edge(3, 0))
  }

  function Reads5(u: ParentsMap): ParentsMap {
    Read(Read(u, 0, Edge(5, 0)), 2, Edge(5, 1))
  }

  function Reads7(u: ParentsMap): ParentsMap {
    Read(Read(Read(u, 0, Edge(7, 0)), 6, Edge(7, 1)), 1, Edge(6, 0))
  }

  function Reads8(u: ParentsMap): ParentsMap {
    Reads7(Read(Reads5(Read(u, 5, Edge(8, 0))), 7, Edge(8, 1)))
  }

  function Reads10(u: ParentsMap): ParentsMap {
    Read(Read(Read(u, 9, Edge(10, 0)), 0, Edge(9, 0)), 6, Edge(9, 1))
  }

  function Reads13(u: ParentsMap): ParentsMap {
    Read(Read(Read(Read(u, 11, Edge(13, 0)), 7, Edge(11, 0)), 12, Edge(13, 1)), 9, Edge(12, 0))
  }

  /** The graph, as far as the walk looks at it. */
  ghost predicate Shaped(h: Heap, rank: map<Id, nat>, leaves: set<Id>) {
    Traced(h, rank) && forall a {:trigger Alone(h, a)} :: 0 <= a < 14 ==>
      Alone(h, a) && h[a].inputs == Reads(a) && (a >= 2 ==> a !in leaves)
  }

  lemma Walk0(h: Heap, rank: map<Id, nat>, leaves: set<Id>, u: ParentsMap)
    requires Shaped(h, rank, leaves)
    ensures Visits(h, rank, leaves, 0, At(0, u), At(1, u))
  {
    VisitLeaf(h, rank, leaves, 0, u);
  }

  lemma Walk2(h: Heap, rank: map<Id, nat>, leaves: set<Id>, u: ParentsMap)
    requires Shaped(h, rank, leaves)
    ensures Visits(h, rank, leaves, 2, At(1, u), At(3, Reads2(u)))
  {
    VisitLeaf(h, rank, leaves, 1, Reads2(u));
    VisitUnary(h, rank, leaves, 2, 1, 1, u, Reads2(u));
  }

  lemma Walk4(h: Heap, rank: map<Id, nat>, leaves: set<Id>, u: ParentsMap)
    requires Shaped(h, rank, leaves)
    ensures Visits(h, rank, leaves, 4, At(3, u), At(5, Reads4(u)))
  {
    var u1 := Read(u, 0, Edge(4, 0));
    VisitDone(h, rank, leaves, 0, 3, u1);
    VisitDone(h, rank, leaves, 1, 3, Reads4(u));
    VisitUnary(h, rank, leaves, 3, 1, 3, Read(u1, 3, Edge(4, 1)), Reads4(u));
    VisitBinary(h, rank, leaves, 4, 0, 3, 3, 3, u, u1, Reads4(u));
  }

  lemma Walk5(h: Heap, rank: map<Id, nat>, leaves: set<Id>, u: ParentsMap)
    requires Shaped(h, rank, leaves)
    ensures Visits(h, rank, leaves, 5, At(5, u), At(6, Reads5(u)))
  {
    VisitDone(h, rank, leaves, 0, 5, Read(u, 0, Edge(5, 0)));
    VisitDone(h, rank, leaves, 2, 5, Reads5(u));
    VisitBinary(h, rank, leaves, 5, 0, 2, 5, 5, u, Read(u, 0, Edge(5, 0)), Reads5(u));
  }

  lemma Walk7(h: Heap, rank: map<Id, nat>, leaves: set<Id>, u: ParentsMap)
    requires Shaped(h, rank, leaves)
    ensures Visits(h, rank, leaves, 7, At(6, u), At(8, Reads7(u)))
  {
    var u1 := Read(u, 0, Edge(7, 0));
    VisitDone(h, rank, leaves, 0, 6, u1);
    VisitDone(h, rank, leaves, 1, 6, Reads7(u));
    VisitUnary(h, rank, leaves, 6, 1, 6, Read(u1, 6, Edge(7, 1)), Reads7(u));
    VisitBinary(h, rank, leaves, 7, 0, 6, 6, 6, u, u1, Reads7(u));
  }

  lemma Walk8Steps(h: Heap, rank: map<Id, nat>, leaves: set<Id>, u: ParentsMap, u5: ParentsMap, u7: ParentsMap)
    requires Shaped(h, rank, leaves)
    requires Visits(h, rank, leaves, 5, At(5, Read(u, 5, Edge(8, 0))), At(6, u5))
    requires Visits(h, rank, leaves, 7, At(6, Read(u5, 7, Edge(8, 1))), At(8, u7))
    ensures Visits(h, rank, leaves, 8, At(5, u), At(9, u7))
  {
    VisitBinary(h, rank, leaves, 8, 5, 7, 5, 6, u, u5, u7);
  }

  lemma Walk8(h: Heap, rank: map<Id, nat>, leaves: set<Id>, u: ParentsMap)
    requires Shaped(h, rank, leaves)
    ensures Visits(h, rank, leaves, 8, At(5, u), At(9, Reads8(u)))
  {
    var u5 := Reads5(Read(u, 5, Edge(8, 0)));
    Walk5(h, rank, leaves, Read(u, 5, Edge(8, 0)));
    Walk7(h, rank, leaves, Read(u5, 7, Edge(8, 1)));
    Walk8Steps(h, rank, leaves, u, u5, Reads8(u));
  }

  lemma Walk10(h: Heap, rank: map<Id, nat>, leaves: set<Id>, u: ParentsMap)
    requires Shaped(h, rank, leaves)
    ensures Visits(h, rank, leaves, 10, At(9, u), At(11, Reads10(u)))
  {
    var u1 := Read(u, 9, Edge(10, 0));
    VisitDone(h, rank, leaves, 0, 9, Read(u1, 0, Edge(9, 0)));
    VisitDone(h, rank, leaves, 6, 9, Reads10(u));
    VisitBinary(h, rank, leaves, 9, 0, 6, 9, 9, u1, Read(u1, 0, Edge(9, 0)), Reads10(u));
    VisitUnary(h, rank, leaves, 10, 9, 9, u, Reads10(u));
  }

  lemma Walk11(h: Heap, rank: map<Id, nat>, leaves: set<Id>, u: ParentsMap)
    requires Shaped(h, rank, leaves)
    ensures Visits(h, rank, leaves, 11, At(11, u), At(12, Read(u, 7, Edge(11, 0))))
  {
    VisitDone(h, rank, leaves, 7, 11, Read(u, 7, Edge(11, 0)));
    VisitUnary(h, rank, leaves, 11, 7, 11, u, Read(u, 7, Edge(11, 0)));
  }

  lemma Walk12(h: Heap, rank: map<Id, nat>, leaves: set<Id>, u: ParentsMap)
    requires Shaped(h, rank, leaves)
    ensures Visits(h, rank, leaves, 12, At(12, u), At(13, Read(u, 9, Edge(12, 0))))
  {
    VisitDone(h, rank, leaves, 9, 12, Read(u, 9, Edge(12, 0)));
    VisitUnary(h, rank, leaves, 12, 9, 12, u, Read(u, 9, Edge(12, 0)));
  }

  lemma Walk13(h: Heap, rank: map<Id, nat>, leaves: set<Id>, u: ParentsMap)
    requires Shaped(h, rank, leaves)
    ensures Visits(h, rank, leaves, 13, At(11, u), At(14, Reads13(u)))
  {
    var u2 := Read(Read(u, 11, Edge(13, 0)), 7, Edge(11, 0));
    Walk11(h, rank, leaves, Read(u, 11, Edge(13, 0)));
    Walk12(h, rank, leaves, Read(u2, 12, Edge(13, 1)));
    VisitBinary(h, rank, leaves, 13, 11, 12, 11, 12, u, u2, Reads13(u));
  }

  lemma WalkOne(h: Heap, rank: map<Id, nat>, leaves: set<Id>, o: seq<Id>, k: nat, w: Walked, w2: Walked, end: Walked)
    requires Traced(h, rank) && Allocated(h, o) && k < |o| && Visits(h, rank, leaves, o[k], w, w2)
    requires WalkedFrom(h, rank, leaves, o[k + 1..], w2) == end
    ensures WalkedFrom(h, rank, leaves, o[k..], w) == end
  {
    assert o[k..][1..] == o[k + 1..];
  }

  // The walk from the outputs on, last first.

  lemma From13(h: Heap, rank: map<Id, nat>, leaves: set<Id>, o: seq<Id>, u: ParentsMap)
    requires Shaped(h, rank, leaves) && o == [0, 2, 4, 8, 10, 13] && Allocated(h, o)
    ensures WalkedFrom(h, rank, leaves, o[5..], At(11, u)) == At(14, Reads13(u))
  {
    Walk13(h, rank, leaves, u);
    assert o[6..] == [];
    WalkOne(h, rank, leaves, o, 5, At(11, u), At(14, Reads13(u)), At(14, Reads13(u)));
  }

  lemma From10(h: Heap, rank: map<Id, nat>, leaves: set<Id>, o: seq<Id>, u: ParentsMap)
    requires Shaped(h, rank, leaves) && o == [0, 2, 4, 8, 10, 13] && Allocated(h, o)
    ensures WalkedFrom(h, rank, leaves, o[4..], At(9, u)) == At(14, Reads13(Reads10(u)))
  {
    Walk10(h, rank, leaves, u);
    From13(h, rank, leaves, o, Reads10(u));
    WalkOne(h, rank, leaves, o, 4, At(9, u), At(11, Reads10(u)), At(14, Reads13(Reads10(u))));
  }

  lemma From8(h: Heap, rank: map<Id, nat>, leaves: set<Id>, o: seq<Id>, u: ParentsMap)
    requires Shaped(h, rank, leaves) && o == [0, 2, 4, 8, 10, 13] && Allocated(h, o)
    ensures WalkedFrom(h, rank, leaves, o[3..], At(5, u)) == At(14, Reads13(Reads10(Reads8(u))))
  {
    Walk8(h, rank, leaves, u);
    From10(h, rank, leaves, o, Reads8(u));
    WalkOne(h, rank, leaves, o, 3, At(5, u), At(9, Reads8(u)), At(14, Reads13(Reads10(Reads8(u)))));
  }

  lemma From4(h: Heap, rank: map<Id, nat>, leaves: set<Id>, o: seq<Id>, u: ParentsMap)
    requires Shaped(h, rank, leaves) && o == [0, 2, 4, 8, 10, 13] && Allocated(h, o)
    ensures WalkedFrom(h, rank, leaves, o[2..], At(3, u)) == At(14, Reads13(Reads10(Reads8(Reads4(u)))))
  {
    Walk4(h, rank, leaves, u);
    From8(h, rank, leaves, o, Reads4(u));
    WalkOne(h, rank, leaves, o, 2, At(3, u), At(5, Reads4(u)), At(14, Reads13(Reads10(Reads8(Reads4(u))))));
  }

  lemma From2(h: Heap, rank: map<Id, nat>, leaves: set<Id>, o: seq<Id>, u: ParentsMap)
    requires Shaped(h, rank, leaves) && o == [0, 2, 4, 8, 10, 13] && Allocated(h, o)
    ensures WalkedFrom(h, rank, leaves, o[1..], At(1, u)) == At(14, Reads13(Reads10(Reads8(Reads4(Reads2(u))))))
  {
    Walk2(h, rank, leaves, u);
    From4(h, rank, leaves, o, Reads2(u));
    WalkOne(h, rank, leaves, o, 1, At(1, u), At(3, Reads2(u)), At(14, Reads13(Reads10(Reads8(Reads4(Reads2(u)))))));
  }

  lemma From0(h: Heap, rank: map<Id, nat>, leaves: set<Id>, o: seq<Id>, u: ParentsMap)
    requires Shaped(h, rank, leaves) && o == [0, 2, 4, 8, 10, 13] && Allocated(h, o)
    ensures WalkedFrom(h, rank, leaves, o[0..], At(0, u)) == At(14, Reads13(Reads10(Reads8(Reads4(Reads2(u))))))
  {
    Walk0(h, rank, leaves, u);
    From2(h, rank, leaves, o, u);
    WalkOne(h, rank, leaves, o, 0, At(0, u), At(1, u), At(14, Reads13(Reads10(Reads8(Reads4(Reads2(u)))))));
  }

  lemma ShapedGraph()
    ensures Shaped(TRACED, RANK, {0, 1}) && Allocated(TRACED, OUTPUTS)
  {
    TracedGraph();
  }

  /** What the depth-first walk makes of the graph. */
  lemma LaidOutGraph(u: ParentsMap)
    requires u == map[]
    ensures Traced(TRACED, RANK) && Allocated(TRACED, OUTPUTS)
    ensures WholeWalk(TRACED, RANK, INPUTS, OUTPUTS) == At(14, Reads13(Reads10(Reads8(Reads4(Reads2(u))))))
  {
    ShapedGraph();
    var leaves := set x | x in INPUTS;
    assert leaves == {0, 1};
    assert At(0, u) == Walked([], {}, map[]) && OUTPUTS[0..] == OUTPUTS;
    From0(TRACED, RANK, leaves, OUTPUTS, u);
  }

  // The consumer map, spelled out.

  lemma FirstRead(u: ParentsMap, x: Id, e: Edge)
    requires x !in u
    ensures Read(u, x, e) == u[x := [e]]
  {
    assert UsersOf(u, x) + [e] == [e];
  }

  lemma NextRead(u: ParentsMap, x: Id, e: Edge, users: seq<Edge>)
    requires x in u && users == u[x] + [e]
    ensures Read(u, x, e) == u[x := users]
  {
  }

  lemma Users4(u: ParentsMap)
    requires u == map[]
    ensures Reads4(Reads2(u)) == map[0 := [Edge(4, 0)], 1 := [Edge(2, 0), Edge(3, 0)], 3 := [Edge(4, 1)]]
  {
    FirstRead(u, 1, Edge(2, 0));
    var u2 := u[1 := [Edge(2, 0)]];
    FirstRead(u2, 0, Edge(4, 0));
    FirstRead(u2[0 := [Edge(4, 0)]], 3, Edge(4, 1));
    NextRead(u2[0 := [Edge(4, 0)]][3 := [Edge(4, 1)]], 1, Edge(3, 0), [Edge(2, 0), Edge(3, 0)]);
  }

  lemma Users5(u: ParentsMap)
    requires u == map[0 := [Edge(4, 0)], 1 := [Edge(2, 0), Edge(3, 0)], 3 := [Edge(4, 1)]]
    ensures Reads5(Read(u, 5, Edge(8, 0)))
            == map[0 := [Edge(4, 0), Edge(5, 0)], 1 := [Edge(2, 0), Edge(3, 0)], 2 := [Edge(5, 1)],
                   3 := [Edge(4, 1)], 5 := [Edge(8, 0)]]
  {
    FirstRead(u, 5, Edge(8, 0));
    NextRead(u[5 := [Edge(8, 0)]], 0, Edge(5, 0), [Edge(4, 0), Edge(5, 0)]);
    FirstRead(u[5 := [Edge(8, 0)]][0 := [Edge(4, 0), Edge(5, 0)]], 2, Edge(5, 1));
  }

  lemma Users7(u: ParentsMap)
    requires u == map[0 := [Edge(4, 0), Edge(5, 0)], 1 := [Edge(2, 0), Edge(3, 0)], 2 := [Edge(5, 1)],
                      3 := [Edge(4, 1)], 5 := [Edge(8, 0)]]
    ensures Reads7(Read(u, 7, Edge(8, 1)))
            == map[0 := [Edge(4, 0), Edge(5, 0), Edge(7, 0)], 1 := [Edge(2, 0), Edge(3, 0), Edge(6, 0)],
                   2 := [Edge(5, 1)], 3 := [Edge(4, 1)], 5 := [Edge(8, 0)], 6 := [Edge(7, 1)], 7 := [Edge(8, 1)]]
  {
    FirstRead(u, 7, Edge(8, 1));
    var u6 := u[7 := [Edge(8, 1)]];
    NextRead(u6, 0, Edge(7, 0), [Edge(4, 0), Edge(5, 0), Edge(7, 0)]);
    var u7 := u6[0 := [Edge(4, 0), Edge(5, 0), Edge(7, 0)]];
    FirstRead(u7, 6, Edge(7, 1));
    NextRead(u7[6 := [Edge(7, 1)]], 1, Edge(6, 0), [Edge(2, 0), Edge(3, 0), Edge(6, 0)]);
  }

  lemma Users8(u: ParentsMap)
    requires u == map[0 := [Edge(4, 0)], 1 := [Edge(2, 0), Edge(3, 0)], 3 := [Edge(4, 1)]]
    ensures Reads8(u) == map[0 := [Edge(4, 0), Edge(5, 0), Edge(7, 0)], 1 := [Edge(2, 0), Edge(3, 0), Edge(6, 0)],
                             2 := [Edge(5, 1)], 3 := [Edge(4, 1)], 5 := [Edge(8, 0)], 6 := [Edge(7, 1)],
                             7 := [Edge(8, 1)]]
  {
    Users5(u);
    Users7(Reads5(Read(u, 5, Edge(8, 0))));
  }

  lemma Users10(u: ParentsMap)
    requires u == map[0 := [Edge(4, 0), Edge(5, 0), Edge(7, 0)], 1 := [Edge(2, 0), Edge(3, 0), Edge(6, 0)],
                      2 := [Edge(5, 1)], 3 := [Edge(4, 1)], 5 := [Edge(8, 0)], 6 := [Edge(7, 1)], 7 := [Edge(8, 1)]]
    ensures Reads10(u) == map[0 := [Edge(4, 0), Edge(5, 0), Edge(7, 0), Edge(9, 0)],
                              1 := [Edge(2, 0), Edge(3, 0), Edge(6, 0)], 2 := [Edge(5, 1)], 3 := [Edge(4, 1)],
                              5 := [Edge(8, 0)], 6 := [Edge(7, 1), Edge(9, 1)], 7 := [Edge(8, 1)],
                              9 := [Edge(10, 0)]]
  {
    FirstRead(u, 9, Edge(10, 0));
    var u1 := u[9 := [Edge(10, 0)]];
    NextRead(u1, 0, Edge(9, 0), [Edge(4, 0), Edge(5, 0), Edge(7, 0), Edge(9, 0)]);
    NextRead(u1[0 := [Edge(4, 0), Edge(5, 0), Edge(7, 0), Edge(9, 0)]], 6, Edge(9, 1), [Edge(7, 1), Edge(9, 1)]);
  }

  lemma Users13(u: ParentsMap)
    requires u == map[0 := [Edge(4, 0), Edge(5, 0), Edge(7, 0), Edge(9, 0)],
                      1 := [Edge(2, 0), Edge(3, 0), Edge(6, 0)], 2 := [Edge(5, 1)], 3 := [Edge(4, 1)],
                      5 := [Edge(8, 0)], 6 := [Edge(7, 1), Edge(9, 1)], 7 := [Edge(8, 1)], 9 := [Edge(10, 0)]]
    ensures Reads13(u) == Users()
  {
    FirstRead(u, 11, Edge(13, 0));
    var u1 := u[11 := [Edge(13, 0)]];
    NextRead(u1, 7, Edge(11, 0), [Edge(8, 1), Edge(11, 0)]);
    var u2 := u1[7 := [Edge(8, 1), Edge(11, 0)]];
    FirstRead(u2, 12, Edge(13, 1));
    NextRead(u2[12 := [Edge(13, 1)]], 9, Edge(12, 0), [Edge(10, 0), Edge(12, 0)]);
  }

  /** The consumer map of the traced graph. */
  function Users(): ParentsMap {
    map[0 := [Edge(4, 0), Edge(5, 0), Edge(7, 0), Edge(9, 0)], 1 := [Edge(2, 0), Edge(3, 0), Edge(6, 0)],
        2 := [Edge(5, 1)], 3 := [Edge(4, 1)], 5 := [Edge(8, 0)], 6 := [Edge(7, 1), Edge(9, 1)],
        7 := [Edge(8, 1), Edge(11, 0)], 9 := [Edge(10, 0), Edge(12, 0)], 11 := [Edge(13, 0)], 12 := [Edge(13, 1)]]
  }

  lemma UsersAre(u: ParentsMap, u4: ParentsMap, u8: ParentsMap, u10: ParentsMap)
    requires u == map[] && u4 == Reads4(Reads2(u)) && u8 == Reads8(u4) && u10 == Reads10(u8)
    ensures Reads13(u10) == Users()
  {
    Users4(u);
    Users8(u4);
    Users10(u8);
    Users13(u10);
  }
}
