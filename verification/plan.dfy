/**
 Contraction paths: which operands every node contracts, and when a path computes the whole sum.
 */
module Plan {
  import opened Sums
  import opened Tensors
  import opened Labels
  import opened Subscripts
  import opened Products

  datatype PathNode = PathNode(inputs: seq<Subscript>, output: Subscript, positions: seq<nat>)

  ghost predicate Increasing(positions: seq<nat>, n: nat) {
    && (forall i :: 0 <= i < |positions| ==> positions[i] < n)
    && forall i, j :: 0 <= i < j < |positions| ==> positions[i] < positions[j]
  }

  /** The elements at some positions. */
  function Select<T>(s: seq<T>, positions: seq<nat>): (r: seq<T>)
    requires forall i :: 0 <= i < |positions| ==> positions[i] < |s|
    ensures |r| == |positions| && forall i {:trigger r[i]} :: 0 <= i < |r| ==> r[i] == s[positions[i]]
  {
    seq(|positions|, i requires 0 <= i < |positions| => s[positions[i]])
  }

  /** Erases increasing positions, last first. */
  function DropAt<T>(s: seq<T>, positions: seq<nat>): (r: seq<T>)
    requires Increasing(positions, |s|)
    ensures |r| == |s| - |positions|
    decreases |positions|
  {
    if |positions| == 0 then s
    else
      var n := |positions| - 1;
      DropAt(Without(s, positions[n]), positions[..n])
  }

  // ---------------------------------------------------------------- valid paths

  /** A node contracts operands of the list, and keeps exactly the letters needed later. */
  ghost predicate NodeOk(node: PathNode, subs: seq<Subscript>, out: set<char>) {
    && |node.positions| > 0 && Increasing(node.positions, |subs|)
    && node.inputs == Select(subs, node.positions)
    && DistinctSub(node.output)
    && node.output.letters == LettersOf(node.inputs) * (LettersOf(DropAt(subs, node.positions)) + out)
  }

  /** The operand list after a node: the contracted operands are gone, the result is last. */
  ghost function After(node: PathNode, subs: seq<Subscript>): seq<Subscript>
    requires Increasing(node.positions, |subs|)
  {
    DropAt(subs, node.positions) + [node.output]
  }

  /** The nodes are valid one after the other and lead from one operand list to another. */
  ghost predicate Leads(path: seq<PathNode>, subs0: seq<Subscript>, subs: seq<Subscript>, out: set<char>)
    decreases |path|
  {
    if |path| == 0 then subs == subs0
    else exists before {:trigger Leads(path[..|path| - 1], subs0, before, out)} ::
           Leads(path[..|path| - 1], subs0, before, out) && NodeOk(path[|path| - 1], before, out)
               && subs == After(path[|path| - 1], before)
  }

  /** The path ends with one operand, labelled by the requested output. */
  ghost predicate PlanOk(path: seq<PathNode>, subs: seq<Subscript>, output: Subscript) {
    Leads(path, subs, [output], output.letters)
  }

  lemma LeadsNext(path: seq<PathNode>, subs0: seq<Subscript>, subs: seq<Subscript>, node: PathNode, out: set<char>)
    requires Leads(path, subs0, subs, out) && NodeOk(node, subs, out)
    ensures Leads(path + [node], subs0, After(node, subs), out)
  {
    assert (path + [node])[..|path + [node]| - 1] == path;
  }

  ghost predicate StepAt(path: seq<PathNode>, lists: seq<seq<Subscript>>, out: set<char>, i: nat)
    requires i < |path| && |lists| == |path| + 1
  {
    NodeOk(path[i], lists[i], out) && lists[i + 1] == After(path[i], lists[i])
  }

  /** The operand lists along a path. */
  lemma {:induction false} Lists(path: seq<PathNode>, subs0: seq<Subscript>, subs: seq<Subscript>, out: set<char>)
    returns (lists: seq<seq<Subscript>>)
    requires Leads(path, subs0, subs, out)
    ensures |lists| == |path| + 1 && lists[0] == subs0 && lists[|path|] == subs
    ensures forall i: nat {:trigger StepAt(path, lists, out, i)} :: i < |path| ==> StepAt(path, lists, out, i)
    decreases |path|
  {
    if |path| == 0 {
      lists := [subs];
    } else {
      var n := |path| - 1;
      var before :| Leads(path[..n], subs0, before, out) && NodeOk(path[n], before, out)
          && subs == After(path[n], before);
      var lists0 := Lists(path[..n], subs0, before, out);
      lists := lists0 + [subs];
      forall i: nat {:trigger StepAt(path, lists, out, i)} | i < |path|
        ensures StepAt(path, lists, out, i)
      {
        assert i < n ==> StepAt(path[..n], lists0, out, i);
      }
    }
  }

  // ---------------------------------------------------------------- dropping and selecting

  lemma WithoutAt<T>(s: seq<T>, p: nat, i: nat)
    requires p < |s| && i < |s| - 1
    ensures Without(s, p)[i] == if i < p then s[i] else s[i + 1]
  {
  }

  lemma SelectFront<T>(s: seq<T>, positions: seq<nat>)
    requires |positions| > 0 && Increasing(positions, |s|)
    ensures var n := |positions| - 1;
            positions[n] < |s| && Increasing(positions[..n], |s| - 1)
                && Select(Without(s, positions[n]), positions[..n]) == Select(s, positions)[..n]
  {
    var n := |positions| - 1;
    forall i: nat | i < n
      ensures Without(s, positions[n])[positions[i]] == s[positions[i]]
    {
      WithoutAt(s, positions[n], positions[i]);
    }
  }

  /** The product of all operands is that of the selected ones times that of the others. */
  lemma {:induction false} SelectSplit(ts: seq<Tensor>, subs: seq<Subscript>, positions: seq<nat>, env: Assignment)
    requires |ts| == |subs| && Increasing(positions, |ts|)
    ensures Product(ts, subs, env)
            == Product(DropAt(ts, positions), DropAt(subs, positions), env) * Product(Select(ts, positions),
                Select(subs, positions), env)
    decreases |positions|
  {
    if |positions| > 0 {
      var n := |positions| - 1;
      var p := positions[n];
      SelectFront(ts, positions);
      SelectFront(subs, positions);
      ProductSplit(ts, subs, p, env);
      SelectSplit(Without(ts, p), Without(subs, p), positions[..n], env);
      var a, b := Product(DropAt(ts, positions), DropAt(subs, positions), env),
          Product(Select(ts, positions)[..n], Select(subs, positions)[..n], env);
      MulAssoc(a, b, Val(ts[p], subs[p].str, env));
    }
  }

  lemma {:induction false} SelectLetters(subs: seq<Subscript>, positions: seq<nat>)
    requires Increasing(positions, |subs|)
    ensures LettersOf(subs) == LettersOf(DropAt(subs, positions)) + LettersOf(Select(subs, positions))
    decreases |positions|
  {
    if |positions| > 0 {
      var n := |positions| - 1;
      SelectFront(subs, positions);
      LettersSplit(subs, positions[n]);
      SelectLetters(Without(subs, positions[n]), positions[..n]);
    }
  }

  /** What is dropped does not matter to what is left. */
  lemma {:induction false} DropSame<T>(s: seq<T>, t: seq<T>, positions: seq<nat>)
    requires |s| == |t| && Increasing(positions, |s|)
    requires forall p: nat :: p < |s| && Where<nat>(positions, p) == |positions| ==> s[p] == t[p]
    ensures DropAt(s, positions) == DropAt(t, positions)
    decreases |positions|
  {
    if |positions| > 0 {
      var n := |positions| - 1;
      var p, front := positions[n], positions[..n];
      forall q: nat | q < |s| - 1 && Where<nat>(front, q) == n
        ensures Without(s, p)[q] == Without(t, p)[q]
      {
        WithoutAt(s, p, q);
        WithoutAt(t, p, q);
        var q0 := if q < p then q else q + 1;
        WhereConcat<nat>(front, [p], q0);
        assert front + [p] == positions;
        if q >= p {
          WhereIs<nat>(front, q0, n);
        }
        WhereIs<nat>([p], q0, 1);
      }
      DropSame(Without(s, p), Without(t, p), front);
    } else {
      forall p: nat | p < |s|
        ensures s[p] == t[p]
      {
        assert Where<nat>(positions, p) == 0;
      }
    }
  }

  lemma {:induction false} DropLast<T>(s: seq<T>, x: T, positions: seq<nat>)
    requires Increasing(positions, |s|)
    ensures DropAt(s + [x], positions) == DropAt(s, positions) + [x]
    decreases |positions|
  {
    if |positions| > 0 {
      var n := |positions| - 1;
      assert Without(s + [x], positions[n]) == Without(s, positions[n]) + [x];
      SelectFront(s, positions);
      DropLast(Without(s, positions[n]), x, positions[..n]);
    }
  }

  lemma {:induction false} DropOk(ts: seq<Tensor>, subs: seq<Subscript>, positions: seq<nat>, dims: Dims)
    requires OperandsOk(ts, subs, dims) && Increasing(positions, |subs|)
    ensures OperandsOk(DropAt(ts, positions), DropAt(subs, positions), dims)
    decreases |positions|
  {
    if |positions| > 0 {
      var n := |positions| - 1;
      var p := positions[n];
      SelectFront(subs, positions);
      var ts1, subs1 := Without(ts, p), Without(subs, p);
      forall i {:trigger subs1[i]} | 0 <= i < |ts1|
        ensures OperandOk(ts1[i], subs1[i], dims)
      {
        WithoutAt(ts, p, i);
        WithoutAt(subs, p, i);
        var j := if i < p then i else i + 1;
        assert OperandOk(ts[j], subs[j], dims);
      }
      DropOk(ts1, subs1, positions[..n], dims);
    }
  }

  /** The law behind every node: the contracted operands can be replaced by the node's result. */
  lemma NodeKeepsTotal(ts: seq<Tensor>, subs: seq<Subscript>, node: PathNode, t: Tensor, out: set<char>, dims: Dims,
                       env: Assignment)
    requires OperandsOk(ts, subs, dims) && NodeOk(node, subs, out) && InRange(env, out, dims)
    requires PartialSum(Values(t, node.output.str), node.output.letters,
                        ProductFn(Select(ts, node.positions), node.inputs), LettersOf(node.inputs), dims)
    ensures Total(DropAt(ts, node.positions) + [t], After(node, subs), out, dims, env)
            == Total(ts, subs, out, dims, env)
  {
    var rest, others := DropAt(ts, node.positions), DropAt(subs, node.positions);
    var r, p, q := LettersOf(others), LettersOf(node.inputs), node.output.letters;
    var whole, part := ProductFn(Select(ts, node.positions), node.inputs), Values(t, node.output.str);
    DropOk(ts, subs, node.positions, dims);
    SubsOk(rest, others, dims);
    ProductsDepend(rest, others);
    ContractFactor(ProductFn(rest, others), r, whole, p, part, q, out, dims, env);
    SelectLetters(subs, node.positions);
    NodeBefore(ts, subs, node, out, dims, env);
    NodeAfter(rest, others, t, node.output, out, dims, env);
  }

  lemma NodeBefore(ts: seq<Tensor>, subs: seq<Subscript>, node: PathNode, out: set<char>, dims: Dims, env: Assignment)
    requires |ts| == |subs| && NodeOk(node, subs, out)
    ensures var rest, others := DropAt(ts, node.positions), DropAt(subs, node.positions);
            Total(ts, subs, out, dims, env)
            == SumLetters((LettersOf(others) + LettersOf(node.inputs)) - out, dims, env,
                          e => ProductFn(rest, others)(e) * ProductFn(Select(ts, node.positions), node.inputs)(e))
  {
    var rest, others := DropAt(ts, node.positions), DropAt(subs, node.positions);
    var f := (e: Assignment) => ProductFn(rest, others)(e) * ProductFn(Select(ts, node.positions), node.inputs)(e);
    SelectLetters(subs, node.positions);
    forall e {:trigger ProductFn(ts, subs)(e)}
      ensures ProductFn(ts, subs)(e) == f(e)
    {
      SelectSplit(ts, subs, node.positions, e);
      assert ProductFn(rest, others)(e) == Product(rest, others, e);
      assert ProductFn(Select(ts, node.positions), node.inputs)(e)
             == Product(Select(ts, node.positions), node.inputs, e);
      assert f(e) == Product(rest, others, e) * Product(Select(ts, node.positions), node.inputs, e);
    }
    SumLettersSame(LettersOf(subs) - out, dims, env, ProductFn(ts, subs), f);
  }

  lemma NodeAfter(rest: seq<Tensor>, others: seq<Subscript>, t: Tensor, s: Subscript, out: set<char>, dims: Dims,
                  env: Assignment)
    requires |rest| == |others|
    ensures Total(rest + [t], others + [s], out, dims, env)
            == SumLetters((LettersOf(others) + s.letters) - out, dims, env,
                e => ProductFn(rest, others)(e) * Values(t, s.str)(e))
  {
    var f := (e: Assignment) => ProductFn(rest, others)(e) * Values(t, s.str)(e);
    LettersOfConcat(others, [s]);
    LettersOne(s);
    forall e {:trigger ProductFn(rest + [t], others + [s])(e)}
      ensures ProductFn(rest + [t], others + [s])(e) == f(e)
    {
      ProductConcat(rest, others, [t], [s], e);
      ProductOne(t, s, e);
      assert ProductFn(rest, others)(e) == Product(rest, others, e);
      assert Values(t, s.str)(e) == Val(t, s.str, e);
      assert f(e) == Product(rest, others, e) * Val(t, s.str, e);
    }
    SumLettersSame(LettersOf(others + [s]) - out, dims, env, ProductFn(rest + [t], others + [s]), f);
  }
}
