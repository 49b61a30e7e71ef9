/**
 A traced graph with the same scalar constant twice, both of them outputs: simplification drops the second
 one, and every call fails to look it up.
 */
module RepeatedScalar {
  import opened Wrappers
  import opened ArrayGraph
  import opened Dfs
  import opened LiveGraph
  import opened Replay
  import opened Driver
  import opened Simplify
  import opened SimplifyDriver

  function Constant(): Node {
    Node(None, [], [], 0, [], 0, true, 7)
  }

  const TRACED: Heap := map[0 := Constant(), 1 := Constant()]

  const RANK: map<Id, nat> := map[0 := 0, 1 := 0]

  const OUTPUTS: seq<Id> := [0, 1]

  lemma TracedGraph()
    ensures SourceGraph(TRACED, RANK) && SingleOutput(TRACED)
    ensures Allocated(TRACED, OUTPUTS) && TraceInputs(TRACED, [])
  {
    forall p | p in TRACED
      ensures SiblingsOk(TRACED, p)
    {
      assert Outputs(TRACED, p) == [p];
    }
  }

  lemma LaidOutGraph()
    ensures Traced(TRACED, RANK) && Allocated(TRACED, OUTPUTS)
    ensures WholeWalk(TRACED, RANK, [], OUTPUTS) == Walked([0, 1], {0, 1}, map[])
  {
    TracedGraph();
    var w, w1, w2 := Walked([], {}, map[]), Walked([0], {0}, map[]), Walked([0, 1], {0, 1}, map[]);
    assert [] + [0] == [0] && [0] + [1] == [0, 1] && {} + {0} == {0} && {0} + {1} == {0, 1};
    assert Group(TRACED, 0) == {0} && Group(TRACED, 1) == {1};
    assert Visited(TRACED, RANK, {}, 0, w) == w1;
    assert Visited(TRACED, RANK, {}, 1, w1) == w2;
    var none: seq<Id> := [];
    assert (set x | x in none) == {};
    assert OUTPUTS[1..] == [1] && OUTPUTS[1..][1..] == [];
    assert WalkedFrom(TRACED, RANK, {}, OUTPUTS[1..][1..], w2) == w2;
    assert WalkedFrom(TRACED, RANK, {}, OUTPUTS[1..], w1) == w2;
  }

  /** A tape of outputs without users is kept by every pass. */
  lemma {:induction false} OutputsStay(h: Heap, tape: seq<Id>, k: nat, order: map<Id, nat>, outs: set<Id>,
                                       equiv: (Primitive, Primitive) -> bool)
    requires k <= |tape| && forall i :: 0 <= i < |tape| ==> tape[i] in outs
    ensures PassFrom(Simplified(h, map[], tape[..k]), tape, k, order, outs, equiv) == Simplified(h, map[], tape)
    decreases |tape| - k
  {
    if k == |tape| {
      assert tape[..k] == tape;
    } else {
      assert tape[..k] + [tape[k]] == tape[..k + 1];
      OutputsStay(h, tape, k + 1, order, outs, equiv);
    }
  }

  lemma {:induction false} PassesStay(h: Heap, tape: seq<Id>, passes: nat, order: map<Id, nat>, outs: set<Id>,
                                      equiv: (Primitive, Primitive) -> bool)
    requires forall i :: 0 <= i < |tape| ==> tape[i] in outs
    ensures Passes(Simplified(h, map[], tape), passes, order, outs, equiv) == Simplified(h, map[], tape)
  {
    if passes > 0 {
      assert tape[..0] == [];
      OutputsStay(h, tape, 0, order, outs, equiv);
      PassesStay(h, tape, passes - 1, order, outs, equiv);
    }
  }

  /** The second constant is merged into the first. */
  lemma SecondDropped()
    ensures ScalarsFrom(Simplified(TRACED, map[], []), [0, 1], 0, map[(7, 0) := 0]) == Simplified(TRACED, map[], [0])
  {
    var tape: seq<Id> := [0, 1];
    var table: map<(nat, nat), Id> := map[(7, 0) := 0];
    var st := Simplified(TRACED, map[], [0]);
    assert [] + [0] == [0];
    assert ScalarsFrom(st, tape, 2, table) == st;
    assert ScalarsFrom(st, tape, 1, table) == st;
  }

  lemma TableOfOne()
    ensures Allocated(TRACED, [0, 1]) && ScalarTable(TRACED, [0, 1], 2) == map[(7, 0) := 0]
  {
    var tape: seq<Id> := [0, 1];
    assert ScalarTable(TRACED, tape, 0) == map[];
    assert ScalarTable(TRACED, tape, 1) == map[(7, 0) := 0];
  }

  /** Array 1 leaves the tape although it is an output, and every call fails. */
  lemma RepeatedOutputFails<V>(sem: Semantics<V>, equiv: (Primitive, Primitive) -> bool)
    ensures SourceGraph(TRACED, RANK) && SingleOutput(TRACED)
    ensures Allocated(TRACED, OUTPUTS) && TraceInputs(TRACED, [])
    ensures var walk := WholeWalk(TRACED, RANK, [], OUTPUTS);
            && Allocated(TRACED, walk.tape) && DropsOutput(TRACED, walk.tape, OUTPUTS)
            && var s := SimplifiedBy(TRACED, walk.parents, walk.tape, OUTPUTS, PASSES, equiv);
               && s.tape == [0] && Positioned(s.h, s.tape)
               && Replayed(s.h, s.tape, [], OUTPUTS, [], sem) == None
  {
    TracedGraph();
    LaidOutGraph();
    TableOfOne();
    SecondDropped();
    var outs := set o | o in OUTPUTS;
    assert OUTPUTS[0] == 0 && OUTPUTS[1] == 1;
    PassesStay(TRACED, [0], PASSES, OrderTable([0]), outs, equiv);
    var tape: seq<Id> := [0, 1];
    assert tape[1] in OUTPUTS && SameScalar(TRACED[tape[0]], TRACED[tape[1]]) && DuplicateScalar(TRACED, tape, 1);
    var start: map<Id, V> := map[];
    var known := Insert(start, 0, LeafValue(TRACED, sem, 0));
    assert ReplayedNode(TRACED, 0, start, sem) == Some(known);
    assert ReplayedFrom(TRACED, [0], 1, known, sem) == Some(known);
    assert ReplayedFrom(TRACED, [0], 0, start, sem) == Some(known);
    assert OUTPUTS[1] !in known;
  }
}
