/**
 `detail::compile` without simplification: trace, lay out, fuse once; then replay the entry on the
 arrays of every call.
 */
module Driver {
  import opened Wrappers
  import opened ArrayGraph
  import opened Dfs
  import opened LiveGraph
  import opened Contraction
  import opened Complete
  import opened FusePass
  import opened Replay

  /** A filled cache entry.  The tape reads the descriptors in `heap`. */
  datatype Entry = Entry(heap: Heap, tape: seq<Id>, inputs: seq<Id>, outputs: seq<Id>)

  /** A graph as tracing builds it: no primitive of the compiler's own making yet; leaves and fusable
      primitives have a single output. */
  ghost predicate SourceGraph(h: Heap, rank: map<Id, nat>) {
    Traced(h, rank) && forall p {:trigger h[p]} :: p in h ==> SourceNode(h[p])
  }

  ghost predicate SourceNode(n: Node) {
    match n.prim
    case None => n.siblings == [] && n.inputs == []
    case Some(Base(_, kind, _, _)) => IsFusable(kind) ==> n.siblings == []
    case Some(Compiled(_, _, _, _, _)) => false
  }

  /** The placeholders the tracer passes to the function. */
  ghost predicate TraceInputs(h: Heap, inputs: seq<Id>) {
    forall i {:trigger inputs[i]} :: 0 <= i < |inputs| ==>
      inputs[i] in h && h[inputs[i]].prim.None? && !h[inputs[i]].available && h[inputs[i]].inputs == []
  }

  /** `entry` computes the outputs of the traced graph: it can be replayed, and its outputs stand for the
      terms the graph gives the outputs of the traced function. */
  ghost predicate Implements(entry: Entry, den: map<Id, Term>, h: Heap, rank: map<Id, nat>, outputs: seq<Id>)
    requires Traced(h, rank) && Allocated(h, outputs)
  {
    && Replayable(entry.heap, den, entry.tape)
    && |entry.outputs| == |outputs|
    && (forall k {:trigger entry.outputs[k]} :: 0 <= k < |outputs| ==>
          entry.outputs[k] in Members(entry.heap, entry.tape)
          && entry.outputs[k] in den && den[entry.outputs[k]] == Denote(h, rank, outputs[k]))
    && (forall i {:trigger entry.inputs[i]} :: 0 <= i < |entry.inputs| ==>
          entry.inputs[i] in den && den[entry.inputs[i]] == Leaf(entry.inputs[i]))
  }

  /** No array was fused into two primitives of the entry. */
  ghost predicate RegionsApart(entry: Entry) {
    Allocated(entry.heap, entry.tape) &&
    forall p, q {:trigger BuiltApart(entry.heap, p, q)} ::
      p in Members(entry.heap, entry.tape) && q in Members(entry.heap, entry.tape) ==> BuiltApart(entry.heap, p, q)
  }

  /** Every `Compiled` array of the entry was built as it should be. */
  ghost predicate AllWellBuilt(entry: Entry, outputs: set<Id>) {
    Allocated(entry.heap, entry.tape) &&
    forall p {:trigger WellBuilt(entry.heap, outputs, ToSet(entry.inputs), p)} ::
      p in Members(entry.heap, entry.tape) ==> WellBuilt(entry.heap, outputs, ToSet(entry.inputs), p)
  }

  /** An array reads one it could be fused with only where that is read elsewhere too, is held back, or where
      its own region reached the depth limit. */
  ghost predicate LeftApart(h: Heap, members: set<Id>, outputs: set<Id>, held: set<Id>, p: Id) {
    p in h &&
    match h[p].prim
    case None => true
    case Some(Base(_, kind, _, stream)) => !kind.Other? ==> AllReadElsewhere(h, members, outputs, held, p, stream)
    case Some(Compiled(stream, _, _, tape, _)) => |tape| < 11 ==> AllReadElsewhere(h, members, outputs, held, p, stream)
  }

  ghost predicate AllReadElsewhere(h: Heap, members: set<Id>, outputs: set<Id>, held: set<Id>, p: Id, stream: nat)
    requires p in h
  {
    forall i {:trigger h[p].inputs[i]} :: 0 <= i < |h[p].inputs| ==>
      MayJoin(h, outputs, h[p].inputs[i], stream, h[p].shape) ==>
        h[p].inputs[i] in held || ReadElsewhere(h, members, p, h[p].inputs[i])
  }

  ghost predicate ReadElsewhere(h: Heap, members: set<Id>, p: Id, x: Id)
    requires p in h
  {
    exists e: Edge :: e.user in members && e.user !in Group(h, p) && ReadsAt(h, e, x)
  }

  /** Nothing more can be fused, but the arrays held back. */
  ghost predicate FullyFused(entry: Entry, outputs: set<Id>, held: set<Id>) {
    Allocated(entry.heap, entry.tape) &&
    forall p {:trigger LeftApart(entry.heap, Members(entry.heap, entry.tape), outputs, held, p)} ::
      p in Members(entry.heap, entry.tape) ==>
        LeftApart(entry.heap, Members(entry.heap, entry.tape), outputs, held, p)
  }

  ghost function Denotations(h: Heap, rank: map<Id, nat>): map<Id, Term>
    requires Traced(h, rank)
  {
    map p | p in h :: Denote(h, rank, p)
  }

  /** The view of a freshly laid out graph: positions are tape indices. */
  ghost function StartView(h: Heap, rank: map<Id, nat>, tape: seq<Id>): View
    requires Traced(h, rank) && Allocated(h, tape)
  {
    View(Members(h, tape), {}, Positions(h, tape), Denotations(h, rank))
  }

  ghost function Positions(h: Heap, tape: seq<Id>): map<Id, nat>
    requires Allocated(h, tape)
  {
    if tape == [] then map[]
    else
      var k := |tape| - 1;
      map p | p in Positions(h, tape[..k]).Keys + Group(h, tape[k]) ::
        if p in Group(h, tape[k]) then k else Positions(h, tape[..k])[p]
  }

  lemma {:induction false} PositionsKeys(h: Heap, tape: seq<Id>)
    requires Allocated(h, tape)
    ensures Positions(h, tape).Keys == Members(h, tape)
    ensures forall p :: p in Positions(h, tape) ==>
            Positions(h, tape)[p] < |tape| && p in Group(h, tape[Positions(h, tape)[p]])
  {
    if tape != [] {
      PositionsKeys(h, tape[..|tape| - 1]);
    }
  }

  /** In a sorted tape an array gets the position of its group, and what it reads an earlier one. */
  lemma {:induction false} PositionsOk(h: Heap, rank: map<Id, nat>, tape: seq<Id>, p: Id)
    requires Traced(h, rank) && Allocated(h, tape) && TapeOk(h, tape) && p in Members(h, tape)
    ensures p in h && p in Positions(h, tape)
    ensures forall q :: q in Group(h, p) ==> q in Positions(h, tape) && Positions(h, tape)[q] == Positions(h, tape)[p]
    ensures forall i {:trigger h[p].inputs[i]} :: 0 <= i < |h[p].inputs| ==>
              h[p].inputs[i] in Positions(h, tape) && Positions(h, tape)[h[p].inputs[i]] < Positions(h, tape)[p]
  {
    var k := |tape| - 1;
    var pre := tape[..k];
    PositionsKeys(h, pre);
    PositionsKeys(h, tape);
    if p in Group(h, tape[k]) {
      LastGroup(h, rank, tape, p);
    } else {
      PositionsOk(h, rank, pre, p);
      EarlierGroup(h, rank, tape, p);
    }
  }

  lemma LastGroup(h: Heap, rank: map<Id, nat>, tape: seq<Id>, p: Id)
    requires Traced(h, rank) && Allocated(h, tape) && |tape| > 0 && TapeOk(h, tape)
    requires p in Group(h, tape[|tape| - 1])
    ensures p in h && Group(h, p) == Group(h, tape[|tape| - 1])
    ensures forall i {:trigger h[p].inputs[i]} :: 0 <= i < |h[p].inputs| ==>
              h[p].inputs[i] in Members(h, tape[..|tape| - 1]) && h[p].inputs[i] !in Group(h, tape[|tape| - 1])
  {
    var t := tape[|tape| - 1];
    assert SiblingsOk(h, t);
    GroupIsOutputs(h, t, p);
    forall i {:trigger h[p].inputs[i]} | 0 <= i < |h[p].inputs|
      ensures h[p].inputs[i] !in Group(h, t)
    {
      assert TracedAt(h, rank, t) && h[t].inputs[i] in h;
      if h[t].inputs[i] in Group(h, t) {
        GroupRank(h, rank, t, h[t].inputs[i]);
        assert false;
      }
    }
  }

  /** The outputs of the last entry are all new. */
  lemma LastApart(h: Heap, rank: map<Id, nat>, tape: seq<Id>)
    requires Traced(h, rank) && Allocated(h, tape) && |tape| > 0 && TapeOk(h, tape)
    ensures Group(h, tape[|tape| - 1]) !! Members(h, tape[..|tape| - 1])
  {
    var t, pre := tape[|tape| - 1], tape[..|tape| - 1];
    assert SiblingsOk(h, t);
    if q :| q in Group(h, t) && q in Members(h, pre) {
      var m := MembersWitness(h, pre, q);
      assert SiblingsOk(h, pre[m]);
      GroupIsOutputs(h, t, q);
      GroupIsOutputs(h, pre[m], q);
      MembersContain(h, pre, m);
      assert false;
    }
  }

  lemma EarlierGroup(h: Heap, rank: map<Id, nat>, tape: seq<Id>, p: Id)
    requires Traced(h, rank) && Allocated(h, tape) && |tape| > 0 && TapeOk(h, tape)
    requires p in Members(h, tape[..|tape| - 1]) && p in h
    ensures Group(h, tape[|tape| - 1]) !! Members(h, tape[..|tape| - 1])
    ensures forall q :: q in Group(h, p) ==> q !in Group(h, tape[|tape| - 1])
  {
    LastApart(h, rank, tape);
    var t := tape[|tape| - 1];
    assert SiblingsOk(h, t) && SiblingsOk(h, p);
    if q :| q in Group(h, p) && q in Group(h, t) {
      GroupIsOutputs(h, t, q);
      GroupIsOutputs(h, p, q);
      assert false;
    }
  }

  lemma StartNodeGood(h: Heap, rank: map<Id, nat>, tape: seq<Id>, p: Id)
    requires SourceGraph(h, rank) && Allocated(h, tape) && TapeOk(h, tape) && p in Members(h, tape)
    ensures NodeGood(h, StartView(h, rank, tape), p)
  {
    var v := StartView(h, rank, tape);
    PositionsKeys(h, tape);
    PositionsOk(h, rank, tape, p);
    assert SiblingsOk(h, p) && TracedAt(h, rank, p);
    var args := seq(|h[p].inputs|, i requires 0 <= i < |h[p].inputs| => Denote(h, rank, h[p].inputs[i]));
    assert AllBound(h[p].inputs, v.den);
    assert Lookup(h[p].inputs, v.den) == args;
    assert SourceNode(h[p]);
  }

  lemma StartGood(h: Heap, rank: map<Id, nat>, tape: seq<Id>, pm: ParentsMap)
    requires SourceGraph(h, rank) && Allocated(h, tape) && TapeOk(h, tape)
    requires ExactUses(h, pm, Members(h, tape))
    ensures Good(h, pm, StartView(h, rank, tape))
    ensures Progress(h, StartView(h, rank, tape), tape, |tape|, {}, [])
  {
    var v := StartView(h, rank, tape);
    PositionsKeys(h, tape);
    forall p | p in v.live
      ensures NodeGood(h, v, p)
    {
      StartNodeGood(h, rank, tape, p);
    }
    forall p, i | p in v.live && p in h && 0 <= i < |h[p].inputs|
      ensures Listed(pm, h[p].inputs[i], Edge(p, i))
    {
      assert ReadsAt(h, Edge(p, i), h[p].inputs[i]);
    }
    forall x, e | Listed(pm, x, e)
      ensures x in h
    {
      assert ReadsAt(h, e, x) && TracedAt(h, rank, e.user);
    }
    StartProgress(h, rank, tape);
  }

  lemma StartProgress(h: Heap, rank: map<Id, nat>, tape: seq<Id>)
    requires SourceGraph(h, rank) && Allocated(h, tape) && TapeOk(h, tape)
    ensures Progress(h, StartView(h, rank, tape), tape, |tape|, {}, [])
  {
    var v := StartView(h, rank, tape);
    PositionsKeys(h, tape);
    forall k {:trigger tape[k]} | 0 <= k < |tape|
      ensures tape[k] in v.live && tape[k] in v.ord && v.ord[tape[k]] == k
    {
      PositionAt(h, rank, tape, k);
    }
  }

  lemma {:induction false} PositionAt(h: Heap, rank: map<Id, nat>, tape: seq<Id>, k: nat)
    requires Traced(h, rank) && Allocated(h, tape) && TapeOk(h, tape) && k < |tape|
    ensures tape[k] in Positions(h, tape) && Positions(h, tape)[tape[k]] == k
  {
    var n := |tape| - 1;
    if k < n {
      var pre := tape[..n];
      PositionAt(h, rank, pre, k);
      LastApart(h, rank, tape);
      MembersContain(h, pre, k);
      assert pre[k] == tape[k];
    }
  }

  lemma StartLaidOut(h: Heap, rank: map<Id, nat>, traceInputs: seq<Id>, outputs: seq<Id>, tape: seq<Id>,
                     pm: ParentsMap)
    requires SourceGraph(h, rank) && Allocated(h, outputs) && LaysOut(h, rank, traceInputs, outputs, tape, pm)
    ensures Good(h, pm, StartView(h, rank, tape))
    ensures Progress(h, StartView(h, rank, tape), tape, |tape|, {}, [])
    ensures forall k :: 0 <= k < |outputs| ==> outputs[k] in StartView(h, rank, tape).live
  {
    StartGood(h, rank, tape, pm);
  }

  lemma SourceApart(h: Heap, rank: map<Id, nat>, v: View)
    requires SourceGraph(h, rank)
    ensures TapesApart(h, v) && NoneCompiled(h)
  {
    forall p {:trigger h[p]} | p in h && h[p].prim.Some?
      ensures h[p].prim.value.Base?
    {
      assert SourceNode(h[p]);
    }
    NothingCompiled(h, v);
  }

  /** A fused tape that kept the outputs' terms implements the traced graph. */
  lemma FusedImplements(h: Heap, rank: map<Id, nat>, traceInputs: seq<Id>, outputs: seq<Id>,
                        h2: Heap, tape2: seq<Id>, outputs2: seq<Id>, v2: View)
    requires SourceGraph(h, rank) && Allocated(h, outputs) && TraceInputs(h, traceInputs)
    requires Replayable(h2, v2.den, tape2) && Members(h2, tape2) == v2.live && |outputs2| == |outputs|
    requires forall k {:trigger outputs2[k]} :: 0 <= k < |outputs| ==>
               Provides(h2, v2, Denotations(h, rank), outputs[k], outputs2[k])
    requires TermsKept(h2, v2, Denotations(h, rank))
    ensures Implements(Entry(h2, tape2, traceInputs, outputs2), v2.den, h, rank, outputs)
  {
    forall i {:trigger traceInputs[i]} | 0 <= i < |traceInputs|
      ensures traceInputs[i] in v2.den && v2.den[traceInputs[i]] == Leaf(traceInputs[i])
    {
      assert SourceNode(h[traceInputs[i]]) && traceInputs[i] in Denotations(h, rank);
    }
  }

  /** The listed users that keep arrays apart are arrays of the graph, or stale. */
  lemma FinishedIsLeftApart(h: Heap, pm: ParentsMap, v: View, outputs: set<Id>, inputIds: set<Id>, held: set<Id>,
                            p: Id)
    requires Good(h, pm, v) && p in v.live && Finished(h, pm, outputs, inputIds, p)
    requires forall x, e {:trigger Listed(pm, x, e)} ::
               Listed(pm, x, e) && e.user in v.stale && x in h && h[x].prim.Some? && h[x].prim.value.Base? ==>
                 x in held
    ensures LeftApart(h, v.live, outputs, held, p)
  {
    if h[p].prim.Some? && AllBarred(h, pm, outputs, p, h[p].prim.value.stream) {
      var stream := h[p].prim.value.stream;
      forall i {:trigger h[p].inputs[i]}
        | 0 <= i < |h[p].inputs| && MayJoin(h, outputs, h[p].inputs[i], stream, h[p].shape)
        ensures h[p].inputs[i] in held || ReadElsewhere(h, v.live, p, h[p].inputs[i])
      {
        assert Barred(h, pm, outputs, p, stream, h[p].inputs[i]);
        var e :| Listed(pm, h[p].inputs[i], e) && e.user !in Group(h, p);
      }
    }
  }

  /** Tracing done, lays the graph out and fuses it.  It throws exactly when one of the caller's own
      arrays is reachable from the outputs; otherwise the entry implements the traced graph, no array was
      fused twice, and nothing that could be fused is left. */
  method CompileNoSimplify(h: Heap, ghost rank: map<Id, nat>, traceInputs: seq<Id>, outputs: seq<Id>,
                           originalInputs: seq<Id>, next: nat)
    returns (r: Result<Entry, CompileError>, ghost den: map<Id, Term>)
    requires SourceGraph(h, rank) && Allocated(h, outputs) && TraceInputs(h, traceInputs)
    requires |traceInputs| == |originalInputs|
    requires forall p :: p in h ==> p < next
    ensures r.Err? <==> Captures(h, rank, outputs, originalInputs)
    ensures r.Ok? ==> r.value.inputs == traceInputs && Implements(r.value, den, h, rank, outputs)
    ensures r.Ok? ==> RegionsApart(r.value) && AllWellBuilt(r.value, ToSet(outputs))
    ensures r.Ok? ==> FullyFused(r.value, ToSet(outputs), {})
  {
    den := map[];
    var laidOut := CompileDfs(h, rank, traceInputs, outputs, originalInputs);
    if laidOut.Err? {
      return Err(laidOut.error), den;
    }
    var (tape, pm) := laidOut.value;
    ghost var v := StartView(h, rank, tape);
    StartLaidOut(h, rank, traceInputs, outputs, tape, pm);
    SourceApart(h, rank, v);
    var ok, h2, tape2, pm2, outputs2;
    ghost var v2;
    ok, h2, tape2, pm2, outputs2, v2 := CompileFuse(h, tape, pm, traceInputs, outputs, next, v, {});
    den := v2.den;
    FusedImplements(h, rank, traceInputs, outputs, h2, tape2, outputs2, v2);
    forall p | p in v2.live
      ensures LeftApart(h2, v2.live, ToSet(outputs), {}, p) && WellBuilt(h2, ToSet(outputs), ToSet(traceInputs), p)
    {
      assert Finished(h2, pm2, ToSet(outputs), ToSet(traceInputs), p);
      FinishedIsLeftApart(h2, pm2, v2, ToSet(outputs), ToSet(traceInputs), {}, p);
    }
    return Ok(Entry(h2, tape2, traceInputs, outputs2)), den;
  }

  lemma ReplayablePositioned(h: Heap, den: map<Id, Term>, tape: seq<Id>)
    requires Replayable(h, den, tape)
    ensures Positioned(h, tape)
  {
    forall k | 0 <= k < |tape|
      ensures HasPosition(h, tape[k])
    {
      assert SiblingsOk(h, tape[k]);
    }
  }

  /** A call of the compiled function: the entry, replayed on the caller's arrays, returns what the traced
      graph computes on them, under every interpretation of the primitives. */
  method Call<V>(entry: Entry, inputs: seq<V>, sem: Semantics<V>,
                 ghost den: map<Id, Term>, ghost h: Heap, ghost rank: map<Id, nat>, ghost outputs: seq<Id>)
    returns (r: Option<seq<V>>)
    requires Traced(h, rank) && Allocated(h, outputs) && Implements(entry, den, h, rank, outputs)
    requires |inputs| == |entry.inputs|
    requires forall i :: 0 <= i < |inputs| ==> inputs[i] == sem.leaf(entry.inputs[i])
    ensures r.Some? && |r.value| == |outputs|
    ensures forall k :: 0 <= k < |outputs| ==> r.value[k] == Eval(sem, Denote(h, rank, outputs[k]))
  {
    ReplayablePositioned(entry.heap, den, entry.tape);
    r := CompileReplace(entry.heap, entry.tape, entry.inputs, entry.outputs, inputs, sem, den);
  }
}
