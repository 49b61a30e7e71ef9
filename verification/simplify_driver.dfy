/**
 `detail::compile` with simplification, on graphs of single-output primitives: lay out and simplify,
 then fuse or not.
 */
module SimplifyDriver {
  import opened Wrappers
  import opened ArrayGraph
  import opened Dfs
  import opened LiveGraph
  import opened Contraction
  import opened Complete
  import opened FusePass
  import opened Replay
  import opened Driver
  import opened Simplify

  const PASSES := 3

  ghost predicate SingleOutput(h: Heap) {
    forall p {:trigger h[p]} :: p in h ==>
        h[p].siblings == [] && h[p].position == 0 && (h[p].available ==> h[p].prim.None?)
  }

  lemma {:induction false} SingleMembers(h: Heap, tape: seq<Id>)
    requires SingleOutput(h) && Allocated(h, tape)
    ensures forall p :: p in Members(h, tape) <==> p in tape
  {
    if tape != [] {
      SingleMembers(h, tape[..|tape| - 1]);
      assert h[tape[|tape| - 1]].siblings == [];
    }
  }

  lemma StartMergeOk(h: Heap, rank: map<Id, nat>, tape: seq<Id>, p: Id)
    requires SourceGraph(h, rank) && SingleOutput(h) && Allocated(h, tape) && TapeOk(h, tape) && p in Members(h, tape)
    ensures MergeOk(h, StartView(h, rank, tape), p)
  {
    StartNodeGood(h, rank, tape, p);
    assert SourceNode(h[p]);
  }

  lemma StartIncreasing(h: Heap, rank: map<Id, nat>, tape: seq<Id>)
    requires SourceGraph(h, rank) && SingleOutput(h) && Allocated(h, tape) && TapeOk(h, tape)
    ensures Increasing(StartView(h, rank, tape), tape)
    ensures forall p :: p in StartView(h, rank, tape).live <==> p in tape
  {
    SingleMembers(h, tape);
    forall k {:trigger tape[k]} | 0 <= k < |tape|
      ensures tape[k] in Positions(h, tape) && Positions(h, tape)[tape[k]] == k
    {
      PositionAt(h, rank, tape, k);
    }
  }

  lemma StartMerging(h: Heap, rank: map<Id, nat>, tape: seq<Id>, pm: ParentsMap)
    requires SourceGraph(h, rank) && SingleOutput(h) && Allocated(h, tape) && TapeOk(h, tape)
    requires ExactUses(h, pm, Members(h, tape))
    ensures Merging(h, pm, StartView(h, rank, tape))
  {
    var v := StartView(h, rank, tape);
    forall p | InGraph(v, p)
      ensures MergeOk(h, v, p)
    {
      StartMergeOk(h, rank, tape, p);
    }
    forall x, e | Listed(pm, x, e)
      ensures InGraph(v, x)
    {
      assert ReadsAt(h, e, x) && MergeOk(h, v, e.user);
      assert InGraph(v, h[e.user].inputs[e.slot]);
    }
    forall p, i | p in v.live && p in h && 0 <= i < |h[p].inputs|
      ensures Listed(pm, h[p].inputs[i], Edge(p, i))
    {
      assert ReadsAt(h, Edge(p, i), h[p].inputs[i]);
    }
  }

  /** An output is laid out, and survives simplification unless it duplicates an earlier scalar constant. */
  ghost predicate OutputFate(h: Heap, laidOut: seq<Id>, tape: seq<Id>, o: Id)
    requires Allocated(h, laidOut)
  {
    exists j {:trigger laidOut[j]} :: 0 <= j < |laidOut| && laidOut[j] == o
        && (o in tape <==> !DuplicateScalar(h, laidOut, j))
  }

  lemma OutputFates(h: Heap, laidOut: seq<Id>, tape: seq<Id>, outputs: seq<Id>)
    requires SingleOutput(h) && Allocated(h, laidOut)
    requires AllMembers(h, laidOut, outputs)
    requires forall j :: 0 <= j < |laidOut| && laidOut[j] in outputs ==>
             (laidOut[j] in tape <==> !DuplicateScalar(h, laidOut, j))
    ensures forall k :: 0 <= k < |outputs| ==> OutputFate(h, laidOut, tape, outputs[k])
  {
    SingleMembers(h, laidOut);
    forall k | 0 <= k < |outputs|
      ensures OutputFate(h, laidOut, tape, outputs[k])
    {
      assert outputs[k] in Members(h, laidOut) && outputs[k] in laidOut;
      var j :| 0 <= j < |laidOut| && laidOut[j] == outputs[k];
      assert laidOut[j] in outputs;
    }
  }

  // ---------------------------------------------------------------- three arrays with one term

  ghost predicate Twins(h: Heap, rank: map<Id, nat>, p: Id, q: Id)
    requires Traced(h, rank)
  {
    p in h && q in h && Denote(h, rank, p) == Denote(h, rank, q) && Denote(h, rank, p).Apply?
  }

  /** Of three arrays the outputs depend on that compute the same, at most one is no output. */
  ghost predicate Uncrowded(h: Heap, rank: map<Id, nat>, outputs: seq<Id>)
    requires Traced(h, rank) && Allocated(h, outputs)
  {
    forall d, p, s {:trigger Twins(h, rank, d, p), Twins(h, rank, p, s)} ::
      Needed(h, rank, outputs, d) && Needed(h, rank, outputs, p) && Needed(h, rank, outputs, s)
      && AllDifferent(d, p, s) && Twins(h, rank, d, p) && Twins(h, rank, p, s) ==>
        p in outputs || s in outputs
  }

  lemma UncrowdedIsSparse(h: Heap, rank: map<Id, nat>, tape: seq<Id>, outputs: seq<Id>, outputSet: set<Id>)
    requires Traced(h, rank) && Allocated(h, outputs) && Allocated(h, tape)
    requires forall x :: x in Members(h, tape) <==> Needed(h, rank, outputs, x)
    requires forall o :: o in outputSet <==> o in outputs
    ensures Uncrowded(h, rank, outputs) ==> Sparse(StartView(h, rank, tape), outputSet)
  {
    var v := StartView(h, rank, tape);
    forall p, q | SameTerm(v, p, q)
      ensures Twins(h, rank, p, q)
    {
    }
    assert forall x :: InGraph(v, x) <==> x in Members(h, tape);
  }

  // ---------------------------------------------------------------- laying out and simplifying

  /** What simplification leaves of the traced graph. */
  ghost predicate SimplifiedOk(h: Heap, rank: map<Id, nat>, laidOut: seq<Id>, h2: Heap, tape2: seq<Id>,
                               outputs: seq<Id>, v: View)
    requires Traced(h, rank)
  {
    && OnlyInputsChanged(h, h2) && v.den == Denotations(h, rank) && (forall t :: t in v.live <==> t in tape2)
    && Increasing(v, tape2) && KeptOk(h2, v, laidOut, tape2)
    && Allocated(h, laidOut) && NoDuplicates(laidOut)
    && forall k {:trigger outputs[k]} :: 0 <= k < |outputs| ==> OutputFate(h, laidOut, tape2, outputs[k])
  }

  /** The result is what the functions compute, keeps what it should, and meets the graph invariant exactly
      when no kept array has or reads an array with an unlisted read - as when the graph is uncrowded. */
  ghost predicate Outcome(h: Heap, rank: map<Id, nat>, walk: Walked, h2: Heap, pm2: ParentsMap, tape2: seq<Id>,
                          outputs: seq<Id>, equiv: (Primitive, Primitive) -> bool, v: View)
    requires Traced(h, rank) && Allocated(h, outputs)
  {
    && SimplifiedOk(h, rank, walk.tape, h2, tape2, outputs, v)
    && Simplified(h2, pm2, tape2) == SimplifiedBy(h, walk.parents, walk.tape, outputs, 3, equiv)
    && (Good(h2, pm2, v) <==> Settled(h2, Unlisted(h2, pm2, walk.tape), tape2))
    && (Uncrowded(h, rank, outputs) ==> Settled(h2, Unlisted(h2, pm2, walk.tape), tape2))
  }

  /** A freshly laid out graph meets the invariant of simplification. */
  lemma StartReady(h: Heap, rank: map<Id, nat>, traceInputs: seq<Id>, outputs: seq<Id>, tape: seq<Id>,
                   pm: ParentsMap, outputSet: set<Id>)
    requires SourceGraph(h, rank) && SingleOutput(h) && Allocated(h, outputs)
    requires LaysOut(h, rank, traceInputs, outputs, tape, pm) && forall o :: o in outputSet <==> o in outputs
    ensures Merging(h, pm, StartView(h, rank, tape)) && HasEntries(pm, StartView(h, rank, tape), outputSet)
    ensures Increasing(StartView(h, rank, tape), tape) && NoDuplicates(tape)
    ensures forall p :: p in StartView(h, rank, tape).live <==> p in tape
  {
    StartMerging(h, rank, tape, pm);
    StartIncreasing(h, rank, tape);
  }

  lemma OutcomeHolds(h: Heap, rank: map<Id, nat>, traceInputs: seq<Id>, tape: seq<Id>, pm: ParentsMap,
                     outputs: seq<Id>, equiv: (Primitive, Primitive) -> bool,
                     h2: Heap, pm2: ParentsMap, tape2: seq<Id>, v: View)
    requires SourceGraph(h, rank) && SingleOutput(h) && Allocated(h, outputs)
    requires LaysOut(h, rank, traceInputs, outputs, tape, pm) && NoDuplicates(tape)
    requires Simplifies(h, pm, tape, outputs, PASSES, equiv, StartView(h, rank, tape), h2, pm2, tape2, v)
    ensures Outcome(h, rank, WholeWalk(h, rank, traceInputs, outputs), h2, pm2, tape2, outputs, equiv, v)
  {
    OutputFates(h, tape, tape2, outputs);
    UncrowdedIsSparse(h, rank, tape, outputs, set o | o in outputs);
  }

  /** Lays the graph out and simplifies it.  It throws exactly when one of the caller's own arrays is
      reachable; otherwise the result has the properties `CompileSimplify` promises. */
  method LayOutAndSimplify(h: Heap, ghost rank: map<Id, nat>, traceInputs: seq<Id>, outputs: seq<Id>,
                           originalInputs: seq<Id>, equiv: (Primitive, Primitive) -> bool)
    returns (r: Result<(Heap, ParentsMap, seq<Id>), CompileError>, ghost v: View)
    requires SourceGraph(h, rank) && SingleOutput(h) && SoundEquivalence(equiv)
    requires Allocated(h, outputs) && TraceInputs(h, traceInputs) && |traceInputs| == |originalInputs|
    ensures r.Err? <==> Captures(h, rank, outputs, originalInputs)
    ensures r.Ok? ==> Outcome(h, rank, WholeWalk(h, rank, traceInputs, outputs), r.value.0, r.value.1, r.value.2,
                              outputs, equiv, v)
  {
    v := View({}, {}, map[], map[]);
    var traced := CompileDfs(h, rank, traceInputs, outputs, originalInputs);
    if traced.Err? {
      return Err(traced.error), v;
    }
    var (tape, pm) := traced.value;
    StartReady(h, rank, traceInputs, outputs, tape, pm, set o | o in outputs);
    var h2, pm2, tape2;
    h2, pm2, tape2, v := CompileSimplify(h, pm, tape, outputs, PASSES, equiv, StartView(h, rank, tape));
    OutcomeHolds(h, rank, traceInputs, tape, pm, outputs, equiv, h2, pm2, tape2, v);
    r := Ok((h2, pm2, tape2));
  }

  // ---------------------------------------------------------------- after simplification

  /** The view with tape indices for positions. */
  ghost function Reindexed(v: View, tape: seq<Id>): View {
    View(v.live, v.stale, map x | x in tape :: IndexOf(tape, x), v.den)
  }

  lemma IncreasingIndex(v: View, tape: seq<Id>, k: nat)
    requires Increasing(v, tape) && k < |tape|
    ensures IndexOf(tape, tape[k]) == k
  {
  }

  lemma ReindexedNode(h: Heap, pm: ParentsMap, v: View, tape: seq<Id>, p: Id)
    requires Good(h, pm, v) && SingleOutput(h) && Increasing(v, tape) && forall t :: t in v.live <==> t in tape
    requires p in v.live
    ensures NodeGood(h, Reindexed(v, tape), p)
  {
    var w := Reindexed(v, tape);
    assert NodeGood(h, v, p) && OrderGood(h, v, p);
    SingleGroup(h, w, p);
    forall i {:trigger h[p].inputs[i]} | 0 <= i < |h[p].inputs|
      ensures h[p].inputs[i] in w.live && h[p].inputs[i] in w.ord && w.ord[h[p].inputs[i]] < w.ord[p]
    {
      assert tape[IndexOf(tape, p)] == p && tape[IndexOf(tape, h[p].inputs[i])] == h[p].inputs[i];
    }
  }

  lemma ReindexedGood(h: Heap, pm: ParentsMap, v: View, tape: seq<Id>)
    requires Good(h, pm, v) && SingleOutput(h) && Increasing(v, tape) && forall t :: t in v.live <==> t in tape
    ensures Good(h, pm, Reindexed(v, tape)) && Progress(h, Reindexed(v, tape), tape, |tape|, {}, [])
  {
    var w := Reindexed(v, tape);
    forall p | p in v.live
      ensures NodeGood(h, w, p)
    {
      ReindexedNode(h, pm, v, tape, p);
    }
    forall k {:trigger tape[k]} | 0 <= k < |tape|
      ensures tape[k] in w.live && tape[k] in w.ord && w.ord[tape[k]] == k
    {
      IncreasingIndex(v, tape, k);
    }
    forall p | p in w.live
      ensures Placed(h, w, tape, |tape|, {}, [], p)
    {
      assert NodeGood(h, w, p);
      assert tape[w.ord[p]] == p;
    }
  }

  ghost predicate OutputsOnTape(outputs: seq<Id>, tape: seq<Id>) {
    forall k {:trigger outputs[k]} :: 0 <= k < |outputs| ==> outputs[k] in tape
  }

  /** Like `Implements`, but the outputs in `lost` are provided by nobody. */
  ghost predicate Serves(entry: Entry, den: map<Id, Term>, h: Heap, rank: map<Id, nat>, outputs: seq<Id>, lost: set<Id>)
    requires Traced(h, rank) && Allocated(h, outputs)
  {
    && Replayable(entry.heap, den, entry.tape)
    && |entry.outputs| == |outputs|
    && (forall k {:trigger entry.outputs[k]} :: 0 <= k < |outputs| ==>
          if outputs[k] in lost
          then entry.outputs[k] !in Members(entry.heap, entry.tape) && entry.outputs[k] !in entry.inputs
          else && entry.outputs[k] in Members(entry.heap, entry.tape)
               && entry.outputs[k] in den && den[entry.outputs[k]] == Denote(h, rank, outputs[k]))
    && (forall i {:trigger entry.inputs[i]} :: 0 <= i < |entry.inputs| ==>
          entry.inputs[i] in den && den[entry.inputs[i]] == Leaf(entry.inputs[i]))
  }

  /** The scalar constants met before on the laid out tape. */
  ghost function RepeatedScalars(h: Heap, laidOut: seq<Id>): set<Id>
    requires Allocated(h, laidOut)
  {
    set j | 0 <= j < |laidOut| && DuplicateScalar(h, laidOut, j) :: laidOut[j]
  }

  /** An output is off the simplified tape exactly when it is a repeated scalar constant. */
  lemma LostIffRepeated(h: Heap, laidOut: seq<Id>, tape: seq<Id>, o: Id)
    requires Allocated(h, laidOut) && NoDuplicates(laidOut) && OutputFate(h, laidOut, tape, o)
    ensures o in RepeatedScalars(h, laidOut) <==> o !in tape
    ensures o in RepeatedScalars(h, laidOut) ==> o in h && IsScalar(h[o])
  {
    var j :| 0 <= j < |laidOut| && laidOut[j] == o && (o in tape <==> !DuplicateScalar(h, laidOut, j));
    if o in RepeatedScalars(h, laidOut) {
      var i :| 0 <= i < |laidOut| && DuplicateScalar(h, laidOut, i) && laidOut[i] == o;
      assert i == j;
    }
  }

  /** Arrays the map still lists as read by one that is not on the tape. */
  ghost function HeldBack(pm: ParentsMap, tape: seq<Id>): set<Id> {
    set x | x in pm && exists e :: e in pm[x] && e.user !in tape
  }

  /** The arrays that are left apart after fusing a simplified graph are held back by dropped users only. */
  lemma FusedButHeld(h2: Heap, pm2: ParentsMap, w: View, tape2: seq<Id>, h3: Heap, pm3: ParentsMap, v3: View,
                     outputs: set<Id>, inputIds: set<Id>, p: Id)
    requires Good(h3, pm3, v3) && v3.stale == w.stale && Extends(h2, h3) && NoNewStale(h2, pm2, w, pm3)
    requires w.live !! w.stale && (forall t :: t in w.live <==> t in tape2)
    requires p in v3.live && Finished(h3, pm3, outputs, inputIds, p)
    ensures LeftApart(h3, v3.live, outputs, HeldBack(pm2, tape2), p)
  {
    forall x, e | Listed(pm3, x, e) && e.user in v3.stale && x in h3 && h3[x].prim.Some? && h3[x].prim.value.Base?
      ensures x in HeldBack(pm2, tape2)
    {
      assert !IsCompiled(h3, x) ==> x in h2;
      assert Listed(pm2, x, e);
    }
    FinishedIsLeftApart(h3, pm3, v3, outputs, inputIds, HeldBack(pm2, tape2), p);
  }

  /** Fuses a simplified graph that meets the invariant.  The entry serves the outputs that were kept. */
  method FuseSimplified(ghost h: Heap, ghost rank: map<Id, nat>, ghost laidOut: seq<Id>, h2: Heap, pm2: ParentsMap,
                        tape2: seq<Id>, traceInputs: seq<Id>, outputs: seq<Id>, next: nat, ghost v: View)
    returns (entry: Entry, ghost den: map<Id, Term>)
    requires SourceGraph(h, rank) && SingleOutput(h) && Allocated(h, outputs) && TraceInputs(h, traceInputs)
    requires SimplifiedOk(h, rank, laidOut, h2, tape2, outputs, v) && Good(h2, pm2, v)
    requires forall p :: p in h2 ==> p < next
    ensures entry.inputs == traceInputs && RegionsApart(entry) && AllWellBuilt(entry, ToSet(outputs))
    ensures FullyFused(entry, ToSet(outputs), HeldBack(pm2, tape2))
    ensures Serves(entry, den, h, rank, outputs, RepeatedScalars(h, laidOut))
  {
    ghost var lost := RepeatedScalars(h, laidOut);
    SingleAfter(h, h2);
    ReindexedGood(h2, pm2, v, tape2);
    SimplifiedApart(h, rank, h2, Reindexed(v, tape2));
    ReadyToFuse(h, rank, laidOut, h2, tape2, outputs, v);
    var ok, h3, tape3, pm3, outputs3;
    ghost var v3;
    ok, h3, tape3, pm3, outputs3, v3 :=
      CompileFuse(h2, tape2, pm2, traceInputs, outputs, next, Reindexed(v, tape2), lost);
    den := v3.den;
    entry := Entry(h3, tape3, traceInputs, outputs3);
    forall p | p in v3.live
      ensures WellBuilt(h3, ToSet(outputs), ToSet(traceInputs), p)
      ensures LeftApart(h3, v3.live, ToSet(outputs), HeldBack(pm2, tape2), p)
    {
      assert Finished(h3, pm3, ToSet(outputs), ToSet(traceInputs), p);
      FusedButHeld(h2, pm2, Reindexed(v, tape2), tape2, h3, pm3, v3, ToSet(outputs), ToSet(traceInputs), p);
    }
    FusedServes(h, rank, laidOut, tape2, traceInputs, outputs, h3, tape3, outputs3, v3);
  }

  lemma SimplifiedApart(h: Heap, rank: map<Id, nat>, h2: Heap, v: View)
    requires SourceGraph(h, rank) && OnlyInputsChanged(h, h2)
    ensures TapesApart(h2, v) && NoneCompiled(h2)
  {
    forall p {:trigger h2[p]} | p in h2 && h2[p].prim.Some?
      ensures h2[p].prim.value.Base?
    {
      assert SameButInputs(h[p], h2[p]) && SourceNode(h[p]);
    }
    NothingCompiled(h2, v);
  }

  /** Every output is live or has left the graph as a repeated scalar constant. */
  lemma ReadyToFuse(h: Heap, rank: map<Id, nat>, laidOut: seq<Id>, h2: Heap, tape2: seq<Id>, outputs: seq<Id>, v: View)
    requires Traced(h, rank) && Allocated(h, outputs) && SimplifiedOk(h, rank, laidOut, h2, tape2, outputs, v)
    ensures forall k :: 0 <= k < |outputs| ==>
              if outputs[k] in RepeatedScalars(h, laidOut) then LeftGraph(h2, Reindexed(v, tape2), outputs[k])
              else outputs[k] in Reindexed(v, tape2).live
  {
    forall k | 0 <= k < |outputs|
      ensures if outputs[k] in RepeatedScalars(h, laidOut) then LeftGraph(h2, Reindexed(v, tape2), outputs[k])
              else outputs[k] in Reindexed(v, tape2).live
    {
      assert OutputFate(h, laidOut, tape2, outputs[k]);
      LostIffRepeated(h, laidOut, tape2, outputs[k]);
    }
  }

  lemma FusedServes(h: Heap, rank: map<Id, nat>, laidOut: seq<Id>, tape2: seq<Id>, traceInputs: seq<Id>,
                    outputs: seq<Id>, h3: Heap, tape3: seq<Id>, outputs3: seq<Id>, v3: View)
    requires SourceGraph(h, rank) && Allocated(h, outputs) && TraceInputs(h, traceInputs)
    requires Allocated(h, laidOut) && NoDuplicates(laidOut)
    requires forall k {:trigger outputs[k]} :: 0 <= k < |outputs| ==> OutputFate(h, laidOut, tape2, outputs[k])
    requires Replayable(h3, v3.den, tape3) && Members(h3, tape3) == v3.live
    requires |outputs3| == |outputs| && TermsKept(h3, v3, Denotations(h, rank))
    requires forall k {:trigger outputs3[k]} :: 0 <= k < |outputs| ==>
               if outputs[k] in RepeatedScalars(h, laidOut)
               then outputs3[k] == outputs[k] && LeftGraph(h3, v3, outputs[k])
               else Provides(h3, v3, Denotations(h, rank), outputs[k], outputs3[k])
    ensures Serves(Entry(h3, tape3, traceInputs, outputs3), v3.den, h, rank, outputs, RepeatedScalars(h, laidOut))
  {
    forall k {:trigger outputs3[k]} | 0 <= k < |outputs| && outputs[k] in RepeatedScalars(h, laidOut)
      ensures outputs3[k] !in traceInputs
    {
      assert OutputFate(h, laidOut, tape2, outputs[k]);
      LostIffRepeated(h, laidOut, tape2, outputs[k]);
      NotAnInput(h, h, traceInputs, outputs[k]);
    }
    forall i {:trigger traceInputs[i]} | 0 <= i < |traceInputs|
      ensures traceInputs[i] in v3.den && v3.den[traceInputs[i]] == Leaf(traceInputs[i])
    {
      assert SourceNode(h[traceInputs[i]]) && traceInputs[i] in Denotations(h, rank);
    }
  }

  /** Simplification leaves no array on the tape that has, or reads an array that has, an unlisted read. */
  ghost predicate SettledRun(h: Heap, rank: map<Id, nat>, traceInputs: seq<Id>, outputs: seq<Id>,
                             equiv: (Primitive, Primitive) -> bool)
    requires Traced(h, rank) && Allocated(h, outputs)
  {
    var walk := WholeWalk(h, rank, traceInputs, outputs);
    && Allocated(h, walk.tape)
    && var s := SimplifiedBy(h, walk.parents, walk.tape, outputs, 3, equiv);
       Settled(s.h, Unlisted(s.h, s.pm, walk.tape), s.tape)
  }

  /** The arrays simplification leaves listed as read by one it dropped. */
  ghost function HeldAfter(h: Heap, rank: map<Id, nat>, traceInputs: seq<Id>, outputs: seq<Id>,
                           equiv: (Primitive, Primitive) -> bool): set<Id>
    requires Traced(h, rank) && Allocated(h, outputs)
  {
    var walk := WholeWalk(h, rank, traceInputs, outputs);
    if Allocated(h, walk.tape) then
      var s := SimplifiedBy(h, walk.parents, walk.tape, outputs, 3, equiv);
      HeldBack(s.pm, s.tape)
    else {}
  }

  /** What the laid out graph repeats of its scalar constants. */
  ghost function Repeats(h: Heap, rank: map<Id, nat>, traceInputs: seq<Id>, outputs: seq<Id>): set<Id>
    requires Traced(h, rank) && Allocated(h, outputs)
  {
    var tape := WholeWalk(h, rank, traceInputs, outputs).tape;
    if Allocated(h, tape) then RepeatedScalars(h, tape) else {}
  }

  /** Mode `enabled`: lay out, simplify, fuse, where simplification settles.  It throws exactly when one of
      the caller's own arrays is reachable; otherwise the entry serves all outputs but the repeated scalar
      constants. */
  method CompileEnabled(h: Heap, ghost rank: map<Id, nat>, traceInputs: seq<Id>, outputs: seq<Id>,
                        originalInputs: seq<Id>, next: nat, equiv: (Primitive, Primitive) -> bool)
    returns (r: Result<Entry, CompileError>, ghost den: map<Id, Term>)
    requires SourceGraph(h, rank) && SingleOutput(h) && SoundEquivalence(equiv)
    requires Allocated(h, outputs) && TraceInputs(h, traceInputs) && |traceInputs| == |originalInputs|
    requires forall p :: p in h ==> p < next
    requires Captures(h, rank, outputs, originalInputs) || SettledRun(h, rank, traceInputs, outputs, equiv)
    ensures r.Err? <==> Captures(h, rank, outputs, originalInputs)
    ensures r.Ok? ==> r.value.inputs == traceInputs && RegionsApart(r.value)
    ensures r.Ok? ==> AllWellBuilt(r.value, ToSet(outputs))
    ensures r.Ok? ==> FullyFused(r.value, ToSet(outputs), HeldAfter(h, rank, traceInputs, outputs, equiv))
    ensures r.Ok? ==> Serves(r.value, den, h, rank, outputs, Repeats(h, rank, traceInputs, outputs))
  {
    den := map[];
    ghost var v;
    var simplified;
    simplified, v := LayOutAndSimplify(h, rank, traceInputs, outputs, originalInputs, equiv);
    if simplified.Err? {
      return Err(simplified.error), den;
    }
    var (h2, pm2, tape2) := simplified.value;
    var entry;
    entry, den := FuseSimplified(h, rank, WholeWalk(h, rank, traceInputs, outputs).tape, h2, pm2, tape2, traceInputs,
                                 outputs, next, v);
    r := Ok(entry);
  }

  /** The same without looking at what simplification does: it settles if of three arrays that compute the
      same at most one is no output. */
  method CompileUncrowded(h: Heap, ghost rank: map<Id, nat>, traceInputs: seq<Id>, outputs: seq<Id>,
                          originalInputs: seq<Id>, next: nat, equiv: (Primitive, Primitive) -> bool)
    returns (r: Result<Entry, CompileError>, ghost den: map<Id, Term>)
    requires SourceGraph(h, rank) && SingleOutput(h) && SoundEquivalence(equiv)
    requires Allocated(h, outputs) && TraceInputs(h, traceInputs) && |traceInputs| == |originalInputs|
    requires forall p :: p in h ==> p < next
    requires Uncrowded(h, rank, outputs)
    ensures r.Err? <==> Captures(h, rank, outputs, originalInputs)
    ensures r.Ok? ==> SettledRun(h, rank, traceInputs, outputs, equiv) && r.value.inputs == traceInputs
    ensures r.Ok? ==> RegionsApart(r.value) && AllWellBuilt(r.value, ToSet(outputs))
    ensures r.Ok? ==> FullyFused(r.value, ToSet(outputs), HeldAfter(h, rank, traceInputs, outputs, equiv))
    ensures r.Ok? ==> Serves(r.value, den, h, rank, outputs, Repeats(h, rank, traceInputs, outputs))
  {
    den := map[];
    ghost var v;
    var simplified;
    simplified, v := LayOutAndSimplify(h, rank, traceInputs, outputs, originalInputs, equiv);
    if simplified.Err? {
      return Err(simplified.error), den;
    }
    var (h2, pm2, tape2) := simplified.value;
    var entry;
    entry, den := FuseSimplified(h, rank, WholeWalk(h, rank, traceInputs, outputs).tape, h2, pm2, tape2, traceInputs,
                                 outputs, next, v);
    r := Ok(entry);
  }

  /** A call in mode `enabled` succeeds if and only if no output is a repeated scalar constant; then it
      returns what the traced graph computes. */
  method CallEnabled<V>(entry: Entry, inputs: seq<V>, sem: Semantics<V>, ghost den: map<Id, Term>, ghost h: Heap,
                        ghost rank: map<Id, nat>, ghost outputs: seq<Id>, ghost lost: set<Id>)
    returns (r: Option<seq<V>>)
    requires Traced(h, rank) && Allocated(h, outputs) && Serves(entry, den, h, rank, outputs, lost)
    requires |inputs| == |entry.inputs| && forall i :: 0 <= i < |inputs| ==> inputs[i] == sem.leaf(entry.inputs[i])
    ensures r.Some? <==> forall k :: 0 <= k < |outputs| ==> outputs[k] !in lost
    ensures r.Some? ==> |r.value| == |outputs|
    ensures r.Some? ==> forall k :: 0 <= k < |outputs| ==> r.value[k] == Eval(sem, Denote(h, rank, outputs[k]))
  {
    ReplayablePositioned(entry.heap, den, entry.tape);
    ghost var kept := forall k :: 0 <= k < |outputs| ==> outputs[k] !in lost;
    if !kept {
      ghost var k :| 0 <= k < |outputs| && outputs[k] in lost;
      assert entry.outputs[k] !in entry.inputs;
      MissingOutputFails(entry.heap, entry.tape, entry.inputs, entry.outputs, inputs, sem, k);
    }
    r := CompileReplace(entry.heap, entry.tape, entry.inputs, entry.outputs, inputs, sem, den);
  }

  // ---------------------------------------------------------------- mode no_fuse

  ghost predicate ReadsKept(h: Heap, tape: seq<Id>, t: Id) {
    t in h && forall i {:trigger h[t].inputs[i]} :: 0 <= i < |h[t].inputs| ==> h[t].inputs[i] in tape
  }

  /** Every input of a kept array is kept. */
  ghost predicate InputsKept(h: Heap, tape: seq<Id>) {
    forall k {:trigger tape[k]} :: 0 <= k < |tape| ==> ReadsKept(h, tape, tape[k])
  }

  lemma SingleAfter(h: Heap, h2: Heap)
    requires SingleOutput(h) && OnlyInputsChanged(h, h2)
    ensures SingleOutput(h2)
  {
    forall p {:trigger h2[p]} | p in h2
      ensures h2[p].siblings == [] && h2[p].position == 0 && (h2[p].available ==> h2[p].prim.None?)
    {
      assert SameButInputs(h[p], h2[p]);
    }
  }

  /** The simplified tape can be replayed exactly when every input of a kept array is kept. */
  lemma ReplayableIffKept(h: Heap, v: View, laidOut: seq<Id>, tape: seq<Id>)
    requires SingleOutput(h) && Increasing(v, tape) && KeptOk(h, v, laidOut, tape)
    requires forall p {:trigger h[p]} :: p in h && h[p].prim.None? ==> h[p].inputs == []
    ensures Allocated(h, tape)
    ensures Replayable(h, v.den, tape) <==> InputsKept(h, tape)
  {
    SingleMembers(h, tape);
    if InputsKept(h, tape) {
      KeptIsTapeOk(h, v, laidOut, tape, |tape|);
      assert tape[..|tape|] == tape;
      forall k {:trigger tape[k]} | 0 <= k < |tape|
        ensures SiblingsOk(h, tape[k])
      {
        assert Outputs(h, tape[k]) == [tape[k]];
      }
    }
    if Replayable(h, v.den, tape) {
      forall k {:trigger tape[k]} | 0 <= k < |tape|
        ensures ReadsKept(h, tape, tape[k])
      {
        TapeOkAt(h, tape, k);
        TapeOkPrefix(h, tape, k);
      }
    }
  }

  lemma {:induction false} KeptIsTapeOk(h: Heap, v: View, laidOut: seq<Id>, tape: seq<Id>, n: nat)
    requires SingleOutput(h) && Increasing(v, tape) && KeptOk(h, v, laidOut, tape) && InputsKept(h, tape)
    requires n <= |tape| && Allocated(h, tape)
    ensures TapeOk(h, tape[..n])
  {
    if n > 0 {
      KeptIsTapeOk(h, v, laidOut, tape, n - 1);
      assert tape[..n][..n - 1] == tape[..n - 1];
      SingleMembers(h, tape[..n - 1]);
      var t := tape[n - 1];
      forall i {:trigger h[t].inputs[i]} | 0 <= i < |h[t].inputs|
        ensures h[t].inputs[i] in tape[..n - 1]
      {
        KeptInPrefix(h, v, laidOut, tape, n - 1, i);
      }
      assert t !in tape[..n - 1];
    }
  }

  lemma KeptInPrefix(h: Heap, v: View, laidOut: seq<Id>, tape: seq<Id>, k: nat, i: nat)
    requires Increasing(v, tape) && KeptOk(h, v, laidOut, tape) && InputsKept(h, tape)
    requires k < |tape| && tape[k] in h && i < |h[tape[k]].inputs|
    ensures h[tape[k]].inputs[i] in tape[..k]
  {
    assert ReadsKept(h, tape, tape[k]) && EarlierThan(v, h[tape[k]].inputs[i], tape[k]);
    var j :| 0 <= j < |tape| && tape[j] == h[tape[k]].inputs[i];
    assert j < k;
  }

  lemma FoundNode<V>(h: Heap, a: Id, known: map<Id, V>, sem: Semantics<V>)
    requires a in h && h[a].siblings == [] && h[a].position == 0 && ReplayedNode(h, a, known, sem).Some?
    ensures ReplayedNode(h, a, known, sem).value.Keys == known.Keys + {a}
    ensures h[a].prim.Some? ==> AllBound(h[a].inputs, known)
  {
    assert Outputs(h, a) == [a];
    if h[a].prim.Some? {
      var args := Lookup(h[a].inputs, known);
      var value := PrimitiveValue(h, sem, h[a].prim.value, args, 0);
      assert ReplayedNode(h, a, known, sem) == ReplayedOutputs(h, a, args, 1, Insert(known, a, value.value), sem);
    }
  }

  /** A replay that succeeds has found every input of every entry among the entries and the arguments. */
  lemma {:induction false} FoundInputs<V>(h: Heap, tape: seq<Id>, k: nat, known: map<Id, V>, sem: Semantics<V>)
    requires SingleOutput(h) && Positioned(h, tape) && k <= |tape|
    requires forall p {:trigger h[p]} :: p in h && h[p].prim.None? ==> h[p].inputs == []
    requires ReplayedFrom(h, tape, k, known, sem).Some?
    ensures var end := ReplayedFrom(h, tape, k, known, sem).value;
            && (forall x :: x in known ==> x in end) && (forall x :: x in end ==> x in known || x in tape)
            && forall m {:trigger tape[m]} :: k <= m < |tape| ==> AllBound(h[tape[m]].inputs, end)
    decreases |tape| - k
  {
    if k < |tape| {
      FoundNode(h, tape[k], known, sem);
      FoundInputs(h, tape, k + 1, ReplayedNode(h, tape[k], known, sem).value, sem);
    }
  }

  /** Mode `no_fuse`: a call succeeds if and only if every input of a kept array is kept and no output is a
      later duplicate of a scalar constant; then every output has the value the traced graph gives it. */
  lemma NoFuseCall<V>(h: Heap, rank: map<Id, nat>, laidOut: seq<Id>, entry: Entry, v: View, inputs: seq<V>,
                      sem: Semantics<V>)
    requires SourceGraph(h, rank) && SingleOutput(h) && TraceInputs(h, entry.inputs) && Allocated(h, entry.outputs)
    requires SimplifiedOk(h, rank, laidOut, entry.heap, entry.tape, entry.outputs, v)
    requires |inputs| == |entry.inputs| && forall i :: 0 <= i < |inputs| ==> inputs[i] == sem.leaf(entry.inputs[i])
    ensures Positioned(entry.heap, entry.tape)
    ensures var r := Replayed(entry.heap, entry.tape, entry.inputs, entry.outputs, inputs, sem);
            && (r.Some? <==> InputsKept(entry.heap, entry.tape) && !DropsOutput(h, laidOut, entry.outputs))
            && (r.Some? ==> RightResult(r, entry.outputs, sem, v.den))
  {
    var h2, tape := entry.heap, entry.tape;
    SingleAfter(h, h2);
    forall p {:trigger h2[p]} | p in h2 && h2[p].prim.None?
      ensures h2[p].inputs == []
    {
      assert SameButInputs(h[p], h2[p]) && SourceNode(h[p]);
    }
    ReplayableIffKept(h2, v, laidOut, tape);
    OutputsKeptIff(h, laidOut, tape, entry.outputs);
    PlaceholderTerms(h, rank, entry.inputs, inputs, sem);
    if InputsKept(h2, tape) && OutputsOnTape(entry.outputs, tape) {
      SingleMembers(h2, tape);
      ReplayRight(h2, tape, entry.inputs, entry.outputs, inputs, sem, v.den);
    }
    if Replayed(h2, tape, entry.inputs, entry.outputs, inputs, sem).Some? {
      NoFuseFound(h, rank, laidOut, entry, v, inputs, sem);
    }
  }

  lemma NoFuseFound<V>(h: Heap, rank: map<Id, nat>, laidOut: seq<Id>, entry: Entry, v: View, inputs: seq<V>,
                       sem: Semantics<V>)
    requires SourceGraph(h, rank) && SingleOutput(h) && TraceInputs(h, entry.inputs) && Allocated(h, entry.outputs)
    requires SimplifiedOk(h, rank, laidOut, entry.heap, entry.tape, entry.outputs, v)
    requires SingleOutput(entry.heap) && Positioned(entry.heap, entry.tape) && |inputs| == |entry.inputs|
    requires forall p {:trigger entry.heap[p]} :: p in entry.heap && entry.heap[p].prim.None? ==>
               entry.heap[p].inputs == []
    requires Replayed(entry.heap, entry.tape, entry.inputs, entry.outputs, inputs, sem).Some?
    ensures InputsKept(entry.heap, entry.tape) && OutputsOnTape(entry.outputs, entry.tape)
  {
    var h2, tape := entry.heap, entry.tape;
    var start := BoundInputs(entry.inputs, inputs, |inputs|);
    BoundKeys(entry.inputs, inputs, |inputs|);
    FoundInputs(h2, tape, 0, start, sem);
    forall k {:trigger tape[k]} | 0 <= k < |tape|
      ensures ReadsKept(h2, tape, tape[k])
    {
      forall i {:trigger h2[tape[k]].inputs[i]} | 0 <= i < |h2[tape[k]].inputs|
        ensures h2[tape[k]].inputs[i] in tape
      {
        NotAnInput(h, h2, entry.inputs, h2[tape[k]].inputs[i]);
      }
    }
    OutputsFound(h, rank, laidOut, entry, v);
  }

  lemma OutputsFound(h: Heap, rank: map<Id, nat>, laidOut: seq<Id>, entry: Entry, v: View)
    requires SourceGraph(h, rank) && TraceInputs(h, entry.inputs) && Allocated(h, entry.outputs)
    requires SimplifiedOk(h, rank, laidOut, entry.heap, entry.tape, entry.outputs, v)
    requires forall k :: 0 <= k < |entry.outputs| ==> entry.outputs[k] in entry.inputs || entry.outputs[k] in entry.tape
    ensures OutputsOnTape(entry.outputs, entry.tape)
  {
    forall k {:trigger entry.outputs[k]} | 0 <= k < |entry.outputs|
      ensures entry.outputs[k] in entry.tape
    {
      assert OutputFate(h, laidOut, entry.tape, entry.outputs[k]);
      NotAnInput(h, entry.heap, entry.inputs, entry.outputs[k]);
    }
  }

  /** Neither an array with a primitive nor a scalar constant is a placeholder. */
  lemma NotAnInput(h: Heap, h2: Heap, traceInputs: seq<Id>, x: Id)
    requires TraceInputs(h, traceInputs) && OnlyInputsChanged(h, h2) && x in h
    ensures h2[x].prim.Some? || IsScalar(h[x]) ==> x !in traceInputs
  {
    assert SameButInputs(h[x], h2[x]);
  }

  /** Some output is a later duplicate of a scalar constant. */
  ghost predicate DropsOutput(h: Heap, laidOut: seq<Id>, outputs: seq<Id>)
    requires Allocated(h, laidOut)
  {
    exists j {:trigger laidOut[j]} :: 0 <= j < |laidOut| && laidOut[j] in outputs && DuplicateScalar(h, laidOut, j)
  }

  lemma OutputsKeptIff(h: Heap, laidOut: seq<Id>, tape: seq<Id>, outputs: seq<Id>)
    requires Allocated(h, laidOut) && NoDuplicates(laidOut)
    requires forall k {:trigger outputs[k]} :: 0 <= k < |outputs| ==> OutputFate(h, laidOut, tape, outputs[k])
    ensures OutputsOnTape(outputs, tape) <==> !DropsOutput(h, laidOut, outputs)
  {
    if j :| 0 <= j < |laidOut| && laidOut[j] in outputs && DuplicateScalar(h, laidOut, j) {
      var k :| 0 <= k < |outputs| && outputs[k] == laidOut[j];
      assert OutputFate(h, laidOut, tape, outputs[k]);
    }
  }

  /** Mode `no_fuse`: lay out and simplify. */
  method CompileNoFuse(h: Heap, ghost rank: map<Id, nat>, traceInputs: seq<Id>, outputs: seq<Id>,
                       originalInputs: seq<Id>, equiv: (Primitive, Primitive) -> bool)
    returns (r: Result<Entry, CompileError>, ghost v: View)
    requires SourceGraph(h, rank) && SingleOutput(h) && SoundEquivalence(equiv)
    requires Allocated(h, outputs) && TraceInputs(h, traceInputs) && |traceInputs| == |originalInputs|
    ensures r.Err? <==> Captures(h, rank, outputs, originalInputs)
    ensures r.Ok? ==>
              var walk := WholeWalk(h, rank, traceInputs, outputs);
              && r.value.inputs == traceInputs && r.value.outputs == outputs
              && SimplifiedOk(h, rank, walk.tape, r.value.heap, r.value.tape, outputs, v)
              && r.value.tape == SimplifiedBy(h, walk.parents, walk.tape, outputs, 3, equiv).tape
              && r.value.heap == SimplifiedBy(h, walk.parents, walk.tape, outputs, 3, equiv).h
              && (Uncrowded(h, rank, outputs) ==> InputsKept(r.value.heap, r.value.tape))
  {
    var simplified;
    simplified, v := LayOutAndSimplify(h, rank, traceInputs, outputs, originalInputs, equiv);
    if simplified.Err? {
      return Err(simplified.error), v;
    }
    var (h2, pm2, tape2) := simplified.value;
    if Uncrowded(h, rank, outputs) {
      GoodKeepsInputs(h2, pm2, v, tape2);
    }
    r := Ok(Entry(h2, tape2, traceInputs, outputs));
  }

  lemma GoodKeepsInputs(h: Heap, pm: ParentsMap, v: View, tape: seq<Id>)
    requires Good(h, pm, v) && forall t :: t in v.live <==> t in tape
    ensures InputsKept(h, tape)
  {
    forall k {:trigger tape[k]} | 0 <= k < |tape|
      ensures ReadsKept(h, tape, tape[k])
    {
      assert NodeGood(h, v, tape[k]);
    }
  }

  /** A call in mode `no_fuse`. */
  method CallNoFuse<V>(entry: Entry, inputs: seq<V>, sem: Semantics<V>, ghost v: View,
                       ghost h: Heap, ghost rank: map<Id, nat>, ghost laidOut: seq<Id>)
    returns (r: Option<seq<V>>)
    requires SourceGraph(h, rank) && SingleOutput(h) && TraceInputs(h, entry.inputs) && Allocated(h, entry.outputs)
    requires SimplifiedOk(h, rank, laidOut, entry.heap, entry.tape, entry.outputs, v)
    requires |inputs| == |entry.inputs| && forall i :: 0 <= i < |inputs| ==> inputs[i] == sem.leaf(entry.inputs[i])
    ensures r.Some? <==> InputsKept(entry.heap, entry.tape) && !DropsOutput(h, laidOut, entry.outputs)
    ensures r.Some? ==> |r.value| == |entry.outputs|
    ensures r.Some? ==> forall k :: 0 <= k < |r.value| ==> r.value[k] == Eval(sem, Denote(h, rank, entry.outputs[k]))
  {
    NoFuseCall(h, rank, laidOut, entry, v, inputs, sem);
    PlaceholderTerms(h, rank, entry.inputs, inputs, sem);
    r := CompileReplace(entry.heap, entry.tape, entry.inputs, entry.outputs, inputs, sem, v.den);
  }

  lemma PlaceholderTerms<V>(h: Heap, rank: map<Id, nat>, traceInputs: seq<Id>, inputs: seq<V>, sem: Semantics<V>)
    requires SourceGraph(h, rank) && TraceInputs(h, traceInputs) && |inputs| == |traceInputs|
    requires forall i :: 0 <= i < |inputs| ==> inputs[i] == sem.leaf(traceInputs[i])
    ensures forall i :: 0 <= i < |inputs| ==>
              traceInputs[i] in Denotations(h, rank) && inputs[i] == Eval(sem, Denotations(h, rank)[traceInputs[i]])
  {
    forall i | 0 <= i < |inputs|
      ensures inputs[i] == Eval(sem, Denotations(h, rank)[traceInputs[i]])
    {
      assert SourceNode(h[traceInputs[i]]);
    }
  }
}
