/**
 `compile_replace`: replays a tape on the caller's arrays.  A lazily built array is represented by the
 value its primitive computes from the values of its inputs.
 */
module Replay {
  import opened Wrappers
  import opened ArrayGraph
  import opened Dfs

  /** A tape that can be replayed: sorted, every array it accounts for built as its term says, and every
      group the outputs of one primitive. */
  ghost predicate Replayable(h: Heap, den: map<Id, Term>, tape: seq<Id>) {
    && Allocated(h, tape)
    && TapeOk(h, tape)
    && (forall x {:trigger Consistent(h, den, x)} :: x in Members(h, tape) ==> Consistent(h, den, x))
    && (forall k {:trigger tape[k]} :: 0 <= k < |tape| ==>
          SiblingsOk(h, tape[k]) && (h[tape[k]].prim.None? ==> h[tape[k]].siblings == []))
  }

  ghost predicate Right<V>(env: map<Id, V>, den: map<Id, Term>, sem: Semantics<V>) {
    forall x :: x in env ==> x in den && env[x] == Eval(sem, den[x])
  }

  /** `unordered_map::insert`: keeps an entry that is already there. */
  function Insert<V>(m: map<Id, V>, k: Id, v: V): map<Id, V> {
    if k in m then m else m[k := v]
  }

  ghost predicate GroupConsistent(h: Heap, den: map<Id, Term>, a: Id)
    requires a in h
  {
    forall q {:trigger Consistent(h, den, q)} :: q in Group(h, a) ==> Consistent(h, den, q)
  }

  /** The `k`-th result of the primitive of `a` evaluates the term of the `k`-th output. */
  lemma OutputValue<V>(h: Heap, sem: Semantics<V>, den: map<Id, Term>, a: Id, args: seq<V>, k: nat)
    requires SiblingsOk(h, a) && h[a].prim.Some? && AllBound(h[a].inputs, den) && k < |Outputs(h, a)|
    requires GroupConsistent(h, den, a)
    requires args == EvalAll(sem, Lookup(h[a].inputs, den))
    ensures Outputs(h, a)[k] in den
    ensures PrimitiveValue(h, sem, h[a].prim.value, args, k) == Some(Eval(sem, den[Outputs(h, a)[k]]))
  {
    var q := Outputs(h, a)[k];
    assert q in Group(h, a);
    assert Consistent(h, den, q);
    NodeValueEval(h, sem, q, Lookup(h[q].inputs, den));
  }

  // ---------------------------------------------------------------- the replay as a function

  function ReplayedOutputs<V>(h: Heap, a: Id, args: seq<V>, j: nat, known: map<Id, V>, sem: Semantics<V>):
      Option<map<Id, V>>
    requires HasPosition(h, a) && h[a].prim.Some? && j <= |Outputs(h, a)|
    decreases |Outputs(h, a)| - j
  {
    if j == |Outputs(h, a)| then Some(known)
    else
      match PrimitiveValue(h, sem, h[a].prim.value, args, j)
      case None => None
      case Some(v) => ReplayedOutputs(h, a, args, j + 1, Insert(known, Outputs(h, a)[j], v), sem)
  }

  /** The replayed arrays after one entry; None when an input has not been replayed. */
  function ReplayedNode<V>(h: Heap, a: Id, known: map<Id, V>, sem: Semantics<V>): Option<map<Id, V>>
    requires HasPosition(h, a)
  {
    if h[a].prim.None? then Some(Insert(known, a, LeafValue(h, sem, a)))
    else if !AllBound(h[a].inputs, known) then None
    else ReplayedOutputs(h, a, Lookup(h[a].inputs, known), 0, known, sem)
  }

  predicate Positioned(h: Heap, tape: seq<Id>) {
    forall k :: 0 <= k < |tape| ==> HasPosition(h, tape[k])
  }

  /** The replayed arrays after the entries from `k` on. */
  function ReplayedFrom<V>(h: Heap, tape: seq<Id>, k: nat, known: map<Id, V>, sem: Semantics<V>): Option<map<Id, V>>
    requires Positioned(h, tape) && k <= |tape|
    decreases |tape| - k
  {
    if k == |tape| then Some(known)
    else
      match ReplayedNode(h, tape[k], known, sem)
      case None => None
      case Some(more) => ReplayedFrom(h, tape, k + 1, more, sem)
  }

  function BoundInputs<V>(traceInputs: seq<Id>, inputs: seq<V>, n: nat): map<Id, V>
    requires n <= |inputs| == |traceInputs|
  {
    if n == 0 then map[] else Insert(BoundInputs(traceInputs, inputs, n - 1), traceInputs[n - 1], inputs[n - 1])
  }

  /** What a call returns; None when a lookup in the map of replayed arrays fails. */
  function Replayed<V>(h: Heap, tape: seq<Id>, traceInputs: seq<Id>, traceOutputs: seq<Id>, inputs: seq<V>,
                       sem: Semantics<V>): Option<seq<V>>
    requires Positioned(h, tape) && |traceInputs| == |inputs|
  {
    match ReplayedFrom(h, tape, 0, BoundInputs(traceInputs, inputs, |inputs|), sem)
    case None => None
    case Some(known) => if AllBound(traceOutputs, known) then Some(Lookup(traceOutputs, known)) else None
  }

  lemma {:induction false} OutputsRight<V>(h: Heap, a: Id, args: seq<V>, j: nat, known: map<Id, V>,
                                           sem: Semantics<V>, den: map<Id, Term>)
    requires SiblingsOk(h, a) && GroupConsistent(h, den, a) && h[a].prim.Some? && j <= |Outputs(h, a)|
    requires AllBound(h[a].inputs, den) && args == EvalAll(sem, Lookup(h[a].inputs, den))
    requires Right(known, den, sem) && forall i :: 0 <= i < j ==> Outputs(h, a)[i] in known
    ensures ReplayedOutputs(h, a, args, j, known, sem).Some?
    ensures var more := ReplayedOutputs(h, a, args, j, known, sem).value;
            Right(more, den, sem) && known.Keys <= more.Keys && Group(h, a) <= more.Keys
    decreases |Outputs(h, a)| - j
  {
    if j < |Outputs(h, a)| {
      OutputValue(h, sem, den, a, args, j);
      var value := PrimitiveValue(h, sem, h[a].prim.value, args, j).value;
      OutputsRight(h, a, args, j + 1, Insert(known, Outputs(h, a)[j], value), sem, den);
    } else {
      forall q | q in Group(h, a)
        ensures q in known
      {
        GroupIsOutputs(h, a, q);
      }
    }
  }

  /** An entry whose inputs are replayed binds its array and its siblings to the values of their terms. */
  lemma NodeRight<V>(h: Heap, a: Id, known: map<Id, V>, sem: Semantics<V>, den: map<Id, Term>)
    requires SiblingsOk(h, a) && GroupConsistent(h, den, a)
    requires h[a].prim.None? ==> h[a].siblings == []
    requires Right(known, den, sem) && AllBound(h[a].inputs, known)
    ensures ReplayedNode(h, a, known, sem).Some?
    ensures var more := ReplayedNode(h, a, known, sem).value;
            Right(more, den, sem) && known.Keys <= more.Keys && Group(h, a) <= more.Keys
  {
    assert Consistent(h, den, a);
    if h[a].prim.Some? {
      assert Lookup(h[a].inputs, known) == EvalAll(sem, Lookup(h[a].inputs, den));
      OutputsRight(h, a, Lookup(h[a].inputs, known), 0, known, sem, den);
    }
  }

  /** Replays one entry of the tape. */
  method ReplayNode<V>(h: Heap, a: Id, known: map<Id, V>, sem: Semantics<V>) returns (r: Option<map<Id, V>>)
    requires HasPosition(h, a)
    ensures r == ReplayedNode(h, a, known, sem)
  {
    if h[a].prim.None? {
      return Some(Insert(known, a, LeafValue(h, sem, a)));
    }
    if !AllBound(h[a].inputs, known) {
      return None;
    }
    var realInputs := Lookup(h[a].inputs, known);
    var traceOut := Outputs(h, a);
    var traceToReal := known;
    for j := 0 to |traceOut|
      invariant ReplayedOutputs(h, a, realInputs, j, traceToReal, sem) == ReplayedNode(h, a, known, sem)
    {
      var result := PrimitiveValue(h, sem, h[a].prim.value, realInputs, j);
      if result.None? {
        return None;
      }
      traceToReal := Insert(traceToReal, traceOut[j], result.value);
    }
    return Some(traceToReal);
  }

  lemma EntryReady(h: Heap, den: map<Id, Term>, tape: seq<Id>, k: nat)
    requires Replayable(h, den, tape) && k < |tape|
    ensures SiblingsOk(h, tape[k]) && GroupConsistent(h, den, tape[k])
    ensures h[tape[k]].prim.None? ==> h[tape[k]].siblings == []
    ensures forall i :: 0 <= i < |h[tape[k]].inputs| ==> h[tape[k]].inputs[i] in Members(h, tape[..k])
    ensures Members(h, tape[..k + 1]) == Members(h, tape[..k]) + Group(h, tape[k])
  {
    TapeOkAt(h, tape, k);
    MembersContain(h, tape, k);
  }

  lemma {:induction false} FromRight<V>(h: Heap, tape: seq<Id>, k: nat, known: map<Id, V>, sem: Semantics<V>,
                                        den: map<Id, Term>)
    requires Replayable(h, den, tape) && Positioned(h, tape) && k <= |tape|
    requires Right(known, den, sem) && Members(h, tape[..k]) <= known.Keys
    ensures ReplayedFrom(h, tape, k, known, sem).Some?
    ensures var end := ReplayedFrom(h, tape, k, known, sem).value;
            Right(end, den, sem) && Members(h, tape) <= end.Keys
    decreases |tape| - k
  {
    if k == |tape| {
      assert tape[..k] == tape;
    } else {
      EntryReady(h, den, tape, k);
      NodeRight(h, tape[k], known, sem, den);
      FromRight(h, tape, k + 1, ReplayedNode(h, tape[k], known, sem).value, sem, den);
    }
  }

  lemma {:induction false} InputsRight<V>(traceInputs: seq<Id>, inputs: seq<V>, n: nat, sem: Semantics<V>,
                                          den: map<Id, Term>)
    requires n <= |inputs| == |traceInputs|
    requires forall i :: 0 <= i < |inputs| ==>
               traceInputs[i] in den && inputs[i] == Eval(sem, den[traceInputs[i]])
    ensures Right(BoundInputs(traceInputs, inputs, n), den, sem)
    ensures forall x :: x in BoundInputs(traceInputs, inputs, n) <==> x in traceInputs[..n]
  {
    if n > 0 {
      InputsRight(traceInputs, inputs, n - 1, sem, den);
      assert traceInputs[..n] == traceInputs[..n - 1] + [traceInputs[n - 1]];
    }
  }

  /** The call succeeds, and every output has the value of its term. */
  ghost predicate RightResult<V>(r: Option<seq<V>>, traceOutputs: seq<Id>, sem: Semantics<V>, den: map<Id, Term>) {
    && r.Some? && |r.value| == |traceOutputs|
    && forall i {:trigger traceOutputs[i]} :: 0 <= i < |traceOutputs| ==>
         traceOutputs[i] in den && r.value[i] == Eval(sem, den[traceOutputs[i]])
  }

  /** Replaying a sorted tape never fails, and every output gets the value of its term. */
  lemma ReplayRight<V>(h: Heap, tape: seq<Id>, traceInputs: seq<Id>, traceOutputs: seq<Id>, inputs: seq<V>,
                       sem: Semantics<V>, den: map<Id, Term>)
    requires Replayable(h, den, tape) && |traceInputs| == |inputs|
    requires forall i :: 0 <= i < |inputs| ==>
               traceInputs[i] in den && inputs[i] == Eval(sem, den[traceInputs[i]])
    requires AllMembers(h, tape, traceOutputs)
    ensures Positioned(h, tape)
    ensures RightResult(Replayed(h, tape, traceInputs, traceOutputs, inputs, sem), traceOutputs, sem, den)
  {
    InputsRight(traceInputs, inputs, |inputs|, sem, den);
    FromRight(h, tape, 0, BoundInputs(traceInputs, inputs, |inputs|), sem, den);
  }

  lemma {:induction false} OutputKeys<V>(h: Heap, a: Id, args: seq<V>, j: nat, known: map<Id, V>, sem: Semantics<V>)
    requires HasPosition(h, a) && h[a].prim.Some? && j <= |Outputs(h, a)|
    requires ReplayedOutputs(h, a, args, j, known, sem).Some?
    ensures ReplayedOutputs(h, a, args, j, known, sem).value.Keys <= known.Keys + Group(h, a)
    decreases |Outputs(h, a)| - j
  {
    if j < |Outputs(h, a)| {
      var value := PrimitiveValue(h, sem, h[a].prim.value, args, j).value;
      OutputKeys(h, a, args, j + 1, Insert(known, Outputs(h, a)[j], value), sem);
      assert Outputs(h, a)[j] in Group(h, a);
    }
  }

  /** A replay only binds the arguments and what the tape accounts for. */
  lemma {:induction false} ReplayKeys<V>(h: Heap, tape: seq<Id>, k: nat, known: map<Id, V>, sem: Semantics<V>)
    requires Positioned(h, tape) && Allocated(h, tape) && k <= |tape|
    requires ReplayedFrom(h, tape, k, known, sem).Some?
    ensures ReplayedFrom(h, tape, k, known, sem).value.Keys <= known.Keys + Members(h, tape)
    decreases |tape| - k
  {
    if k < |tape| {
      var a := tape[k];
      if h[a].prim.Some? {
        OutputKeys(h, a, Lookup(h[a].inputs, known), 0, known, sem);
      }
      MembersContain(h, tape, k);
      ReplayKeys(h, tape, k + 1, ReplayedNode(h, a, known, sem).value, sem);
    }
  }

  lemma {:induction false} BoundKeys<V>(traceInputs: seq<Id>, inputs: seq<V>, n: nat)
    requires n <= |inputs| == |traceInputs|
    ensures forall x :: x in BoundInputs(traceInputs, inputs, n) ==> x in traceInputs
  {
    if n > 0 {
      BoundKeys(traceInputs, inputs, n - 1);
    }
  }

  /** A call fails when an output is neither an argument nor accounted for by the tape. */
  lemma MissingOutputFails<V>(h: Heap, tape: seq<Id>, traceInputs: seq<Id>, traceOutputs: seq<Id>, inputs: seq<V>,
                              sem: Semantics<V>, k: nat)
    requires Positioned(h, tape) && Allocated(h, tape) && |traceInputs| == |inputs| && k < |traceOutputs|
    requires traceOutputs[k] !in traceInputs && traceOutputs[k] !in Members(h, tape)
    ensures Replayed(h, tape, traceInputs, traceOutputs, inputs, sem) == None
  {
    BoundKeys(traceInputs, inputs, |inputs|);
    var start := BoundInputs(traceInputs, inputs, |inputs|);
    if ReplayedFrom(h, tape, 0, start, sem).Some? {
      ReplayKeys(h, tape, 0, start, sem);
    }
  }

  /** Replays the tape on the caller's arrays; None when a lookup fails.  On a sorted tape that accounts for
      the outputs it does not fail, and every output gets the value of its term under the given
      interpretation. */
  method CompileReplace<V>(h: Heap, tape: seq<Id>, traceInputs: seq<Id>, traceOutputs: seq<Id>, inputs: seq<V>,
                           sem: Semantics<V>, ghost den: map<Id, Term>)
    returns (r: Option<seq<V>>)
    requires Positioned(h, tape) && |traceInputs| == |inputs|
    requires forall i :: 0 <= i < |inputs| ==>
               traceInputs[i] in den && inputs[i] == Eval(sem, den[traceInputs[i]])
    ensures r == Replayed(h, tape, traceInputs, traceOutputs, inputs, sem)
    ensures Replayable(h, den, tape) && AllMembers(h, tape, traceOutputs) ==> RightResult(r, traceOutputs, sem, den)
  {
    if Replayable(h, den, tape) && AllMembers(h, tape, traceOutputs) {
      ReplayRight(h, tape, traceInputs, traceOutputs, inputs, sem, den);
    }
    var traceToReal: map<Id, V> := map[];
    for i := 0 to |inputs|
      invariant traceToReal == BoundInputs(traceInputs, inputs, i)
    {
      traceToReal := Insert(traceToReal, traceInputs[i], inputs[i]);
    }
    ghost var start := traceToReal;
    for k := 0 to |tape|
      invariant ReplayedFrom(h, tape, k, traceToReal, sem) == ReplayedFrom(h, tape, 0, start, sem)
    {
      var next := ReplayNode(h, tape[k], traceToReal, sem);
      if next.None? {
        r := None;
        return;
      }
      traceToReal := next.value;
    }
    if !AllBound(traceOutputs, traceToReal) {
      return None;
    }
    return Some(Lookup(traceOutputs, traceToReal));
  }
}
