/**
 The array graph of the compiler: arrays are ids into a heap of descriptors, a descriptor names its
 primitive, its inputs and its siblings, and the consumer map lists for every array the places
 (user, input slot) where it is read.

 What an array means is a `Term`: the tree of primitives that computes it.  An interpretation of the
 primitives over any set of values (`Semantics`) evaluates a term, so two arrays with the same term
 have the same value under every interpretation.
 */
module ArrayGraph {
  import opened Wrappers

  type Id = nat

  // The types of primitive the fuser distinguishes.
  datatype PrimitiveType =
    | Unary(name: string)
    | Binary(name: string)
    | Ternary(name: string)
    | Broadcast(name: string)
    | Noop(name: string)
    | Other(name: string)

  predicate IsFusable(kind: PrimitiveType) {
    !kind.Other?
  }

  /** A primitive object.  `Base` stands for every primitive the compiler did not make itself:
      `attrs` is what `is_equivalent` compares besides the type.  `Compiled` holds the arrays it was
      built from by reference, so what it computes depends on the descriptors of its inner tape. */
  datatype Primitive =
    | Base(uid: nat, kind: PrimitiveType, attrs: nat, stream: nat)
    | Compiled(stream: nat, inputs: seq<Id>, outputs: seq<Id>, tape: seq<Id>, constants: set<Id>)

  datatype Node = Node(
    prim: Option<Primitive>,
    inputs: seq<Id>,
    siblings: seq<Id>,
    position: nat,
    shape: seq<nat>,
    dtype: nat,
    available: bool,
    bits: nat)

  type Heap = map<Id, Node>

  datatype Edge = Edge(user: Id, slot: nat)

  type ParentsMap = map<Id, seq<Edge>>

  /** Safe to read as a scalar: available and without dimensions. */
  predicate IsScalar(n: Node) {
    n.available && n.shape == []
  }

  // ---------------------------------------------------------------- siblings

  predicate HasPosition(h: Heap, p: Id) {
    p in h && h[p].position <= |h[p].siblings|
  }

  /** All outputs of the primitive of `p`, in the order the primitive returns them. */
  function Outputs(h: Heap, p: Id): seq<Id>
    requires HasPosition(h, p)
  {
    h[p].siblings[..h[p].position] + [p] + h[p].siblings[h[p].position..]
  }

  /** `p` and its siblings are the outputs of one primitive on one list of inputs. */
  ghost predicate SiblingsOk(h: Heap, p: Id) {
    HasPosition(h, p) &&
    forall k {:trigger Outputs(h, p)[k]} :: 0 <= k < |Outputs(h, p)| ==>
      var q := Outputs(h, p)[k];
      && HasPosition(h, q)
      && h[q].position == k
      && Outputs(h, q) == Outputs(h, p)
      && h[q].inputs == h[p].inputs
      && h[q].prim == h[p].prim
  }

  function Group(h: Heap, p: Id): set<Id>
    requires p in h
  {
    {p} + set s | s in h[p].siblings
  }

  lemma GroupIsOutputs(h: Heap, p: Id, q: Id)
    requires SiblingsOk(h, p) && q in Group(h, p)
    ensures q in Outputs(h, p)
    ensures HasPosition(h, q) && Outputs(h, q) == Outputs(h, p)
    ensures h[q].inputs == h[p].inputs && h[q].prim == h[p].prim
    ensures Group(h, q) == Group(h, p)
  {
    var os := Outputs(h, p);
    assert forall x :: x in os <==> x in Group(h, p);
    var k :| 0 <= k < |os| && os[k] == q;
    assert Outputs(h, q) == os;
    assert forall x :: x in Outputs(h, q) <==> x in Group(h, q);
  }

  /** The tape only names allocated arrays. */
  predicate Allocated(h: Heap, tape: seq<Id>) {
    forall i :: 0 <= i < |tape| ==> tape[i] in h
  }

  /** The arrays a tape accounts for: its entries and their siblings. */
  function Members(h: Heap, tape: seq<Id>): set<Id>
    requires Allocated(h, tape)
  {
    if tape == [] then {} else Members(h, tape[..|tape| - 1]) + Group(h, tape[|tape| - 1])
  }

  lemma {:induction false} MembersWitness(h: Heap, tape: seq<Id>, x: Id) returns (k: nat)
    requires Allocated(h, tape) && x in Members(h, tape)
    ensures k < |tape| && x in Group(h, tape[k])
  {
    if x in Group(h, tape[|tape| - 1]) {
      k := |tape| - 1;
    } else {
      k := MembersWitness(h, tape[..|tape| - 1], x);
    }
  }

  lemma {:induction false} MembersContain(h: Heap, tape: seq<Id>, k: nat)
    requires Allocated(h, tape) && k < |tape|
    ensures Group(h, tape[k]) <= Members(h, tape)
  {
    if k < |tape| - 1 {
      MembersContain(h, tape[..|tape| - 1], k);
    }
  }

  // ---------------------------------------------------------------- the consumer map

  predicate Listed(pm: ParentsMap, x: Id, e: Edge) {
    x in pm && e in pm[x]
  }

  function UsersOf(pm: ParentsMap, x: Id): seq<Edge> {
    if x in pm then pm[x] else []
  }

  predicate ReadsAt(h: Heap, e: Edge, x: Id) {
    e.user in h && e.slot < |h[e.user].inputs| && h[e.user].inputs[e.slot] == x
  }

  // ---------------------------------------------------------------- meaning

  datatype Term =
    | Leaf(id: Id)
    | Literal(bits: nat, dtype: nat)
    | Apply(kind: PrimitiveType, attrs: nat, args: seq<Term>, index: nat)

  /** An interpretation: the value of every leaf array and scalar literal, and the `index`-th result
      of every primitive on argument values. */
  datatype Semantics<!V> = Semantics(
    leaf: Id -> V,
    literal: (nat, nat) -> V,
    op: (PrimitiveType, nat, seq<V>, nat) -> V)

  ghost function Eval<V>(sem: Semantics<V>, t: Term): V {
    match t
    case Leaf(id) => sem.leaf(id)
    case Literal(bits, dtype) => sem.literal(bits, dtype)
    case Apply(kind, attrs, args, index) => sem.op(kind, attrs, EvalAll(sem, args), index)
  }

  ghost function EvalAll<V>(sem: Semantics<V>, ts: seq<Term>): (vs: seq<V>)
    ensures |vs| == |ts|
    ensures forall i :: 0 <= i < |ts| ==> vs[i] == Eval(sem, ts[i])
  {
    seq(|ts|, i requires 0 <= i < |ts| => Eval(sem, ts[i]))
  }

  /** The interpretation that builds terms. */
  function Symbolic(): Semantics<Term> {
    Semantics(id => Leaf(id), (bits, dtype) => Literal(bits, dtype),
              (kind, attrs, args, index) => Apply(kind, attrs, args, index))
  }

  function LeafValue<V>(h: Heap, sem: Semantics<V>, x: Id): V
    requires x in h
  {
    if IsScalar(h[x]) then sem.literal(h[x].bits, h[x].dtype) else sem.leaf(x)
  }

  predicate AllBound<V>(xs: seq<Id>, env: map<Id, V>) {
    forall i :: 0 <= i < |xs| ==> xs[i] in env
  }

  function Lookup<V>(xs: seq<Id>, env: map<Id, V>): (vs: seq<V>)
    requires AllBound(xs, env)
    ensures |vs| == |xs|
    ensures forall i :: 0 <= i < |xs| ==> vs[i] == env[xs[i]]
  {
    seq(|xs|, i requires 0 <= i < |xs| => env[xs[i]])
  }

  function IndexOf(xs: seq<Id>, x: Id): (k: nat)
    requires x in xs
    ensures k < |xs| && xs[k] == x
    ensures forall j :: 0 <= j < k ==> xs[j] != x
  {
    if xs[0] == x then 0 else 1 + IndexOf(xs[1..], x)
  }

  /** What a compiled kernel starts from: the scalar constants printed into it when it was built, and
      for every other recorded input the argument in the same position. */
  function Bind<V>(h: Heap, sem: Semantics<V>, c: Primitive, args: seq<V>): map<Id, V>
    requires c.Compiled? && |args| == |c.inputs| && (forall x :: x in c.inputs ==> x in h)
  {
    map x | x in c.inputs ::
      if x in c.constants then LeafValue(h, sem, x) else args[IndexOf(c.inputs, x)]
  }

  /** Runs an inner tape of single-output base primitives, reading the inputs from the descriptors;
      None when an array is read that has no value yet. */
  function RunTape<V>(h: Heap, sem: Semantics<V>, tape: seq<Id>, env: map<Id, V>): Option<map<Id, V>>
    decreases |tape|
  {
    if tape == [] then Some(env)
    else
      var t := tape[|tape| - 1];
      match RunTape(h, sem, tape[..|tape| - 1], env)
      case None => None
      case Some(e) =>
        if t in h && h[t].prim.Some? && h[t].prim.value.Base? && AllBound(h[t].inputs, e)
        then Some(e[t := sem.op(h[t].prim.value.kind, h[t].prim.value.attrs, Lookup(h[t].inputs, e), h[t].position)])
        else None
  }

  /** The `k`-th result of a primitive on argument values. */
  function PrimitiveValue<V>(h: Heap, sem: Semantics<V>, prim: Primitive, args: seq<V>, k: nat): Option<V> {
    match prim
    case Base(_, kind, attrs, _) => Some(sem.op(kind, attrs, args, k))
    case c =>
      if |args| != |c.inputs| || (exists x :: x in c.inputs && x !in h) then None
      else
        match RunTape(h, sem, c.tape, Bind(h, sem, c, args))
        case None => None
        case Some(e) => if k < |c.outputs| && c.outputs[k] in e then Some(e[c.outputs[k]]) else None
  }

  /** The value of array `p` when its inputs have the values `args`. */
  function NodeValue<V>(h: Heap, sem: Semantics<V>, p: Id, args: seq<V>): Option<V>
    requires p in h
  {
    match h[p].prim
    case None => Some(LeafValue(h, sem, p))
    case Some(prim) => PrimitiveValue(h, sem, prim, args, h[p].position)
  }

  /** `den` gives `p` the term its primitive builds from the terms of its inputs. */
  ghost predicate Consistent(h: Heap, den: map<Id, Term>, p: Id) {
    && p in h && p in den && AllBound(h[p].inputs, den)
    && NodeValue(h, Symbolic(), p, Lookup(h[p].inputs, den)) == Some(den[p])
  }

  // ---------------------------------------------------------------- evaluation commutes with terms

  ghost function EvalMap<V>(sem: Semantics<V>, env: map<Id, Term>): map<Id, V> {
    map x | x in env :: Eval(sem, env[x])
  }

  lemma {:induction false} RunTapeEval<V>(h: Heap, sem: Semantics<V>, tape: seq<Id>, env: map<Id, Term>)
    requires RunTape(h, Symbolic(), tape, env).Some?
    ensures RunTape(h, sem, tape, EvalMap(sem, env))
            == Some(EvalMap(sem, RunTape(h, Symbolic(), tape, env).value))
    decreases |tape|
  {
    if tape != [] {
      var t := tape[|tape| - 1];
      RunTapeEval(h, sem, tape[..|tape| - 1], env);
      var e := RunTape(h, Symbolic(), tape[..|tape| - 1], env).value;
      assert AllBound(h[t].inputs, EvalMap(sem, e));
      assert Lookup(h[t].inputs, EvalMap(sem, e)) == EvalAll(sem, Lookup(h[t].inputs, e));
      var term := Apply(h[t].prim.value.kind, h[t].prim.value.attrs, Lookup(h[t].inputs, e), h[t].position);
      assert EvalMap(sem, e[t := term]) == EvalMap(sem, e)[t := Eval(sem, term)];
    }
  }

  /** Under every interpretation the value of an array is the evaluation of its term. */
  lemma NodeValueEval<V>(h: Heap, sem: Semantics<V>, p: Id, args: seq<Term>)
    requires p in h && NodeValue(h, Symbolic(), p, args).Some?
    ensures NodeValue(h, sem, p, EvalAll(sem, args)) == Some(Eval(sem, NodeValue(h, Symbolic(), p, args).value))
  {
    if h[p].prim.Some? && h[p].prim.value.Compiled? {
      var c := h[p].prim.value;
      RunTapeEval(h, sem, c.tape, Bind(h, Symbolic(), c, args));
      assert EvalMap(sem, Bind(h, Symbolic(), c, args)) == Bind(h, sem, c, EvalAll(sem, args));
    }
  }

  /** An inner tape only depends on the descriptors of its own arrays. */
  lemma {:induction false} RunTapeFrame<V>(h: Heap, h': Heap, sem: Semantics<V>, tape: seq<Id>, env: map<Id, V>)
    requires forall t :: t in tape ==> t in h && t in h' && h[t] == h'[t]
    ensures RunTape(h, sem, tape, env) == RunTape(h', sem, tape, env)
    decreases |tape|
  {
    if tape != [] {
      RunTapeFrame(h, h', sem, tape[..|tape| - 1], env);
    }
  }
}
