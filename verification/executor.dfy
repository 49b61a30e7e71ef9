/**
 Executing a contraction path: every node is preprocessed and contracted, and its result takes the
 place of its operands.
 */
module Executor {
  import opened Sums
  import opened Tensors
  import opened Labels
  import opened Subscripts
  import opened Dot
  import opened Tensordot
  import opened Products
  import opened Preprocess
  import opened Naive
  import opened Plan

  /** Whether a batched matrix product can run the node. */
  predicate CanDot(inputs: seq<Subscript>, output: Subscript) {
    |inputs| == 2 && exists c :: c in inputs[0].letters && c !in output.letters
  }

  lemma PairTotal(a: Tensor, b: Tensor, sa: Subscript, sb: Subscript, out: set<char>, dims: Dims, env: Assignment)
    ensures LettersOf([sa, sb]) == sa.letters + sb.letters
    ensures Total([a, b], [sa, sb], out, dims, env)
            == SumLetters((sa.letters + sb.letters) - out, dims, env, ProductOf(a, sa.str, b, sb.str))
  {
    PairLetters(sa, sb);
    forall e {:trigger ProductFn([a, b], [sa, sb])(e)}
      ensures ProductFn([a, b], [sa, sb])(e) == ProductOf(a, sa.str, b, sb.str)(e)
    {
      assert [a, b] == [a] + [b] && [sa, sb] == [sa] + [sb];
      ProductConcat([a], [sa], [b], [sb], e);
      ProductOne(a, sa, e);
      ProductOne(b, sb, e);
    }
    SumLettersSame((sa.letters + sb.letters) - out, dims, env, ProductFn([a, b], [sa, sb]),
        ProductOf(a, sa.str, b, sb.str));
  }

  lemma PairLetters(sa: Subscript, sb: Subscript)
    ensures LettersOf([sa, sb]) == sa.letters + sb.letters
  {
    assert [sa, sb] == [sa] + [sb];
    LettersOfConcat([sa], [sb]);
    LettersOne(sa);
    LettersOne(sb);
  }

  /** With nothing private, every letter of two operands is in two of the operands and the output. */
  lemma PairIsDot(inputs: seq<Subscript>, out: set<char>)
    requires |inputs| == 2 && NothingPrivate(inputs, out) && out <= LettersOf(inputs)
    ensures DotLetters(inputs[0].letters, inputs[1].letters, out)
  {
    assert inputs == [inputs[0], inputs[1]];
    PairLetters(inputs[0], inputs[1]);
    assert Without(inputs, 0) == [inputs[1]] && Without(inputs, 1) == [inputs[0]];
    LettersOne(inputs[0]);
    LettersOne(inputs[1]);
  }

  /** The result holds, at every assignment of the output letters, what the operands stand for. */
  ghost predicate Computes(r: Tensor, output: Subscript, ts: seq<Tensor>, inputs: seq<Subscript>, dims: Dims)
    requires |ts| == |inputs|
  {
    && Labelled(r, output.str, dims)
    && forall env :: InRange(env, output.letters, dims) ==>
        Val(r, output.str, env) == Total(ts, inputs, output.letters, dims, env)
  }

  /** Runs a preprocessed node. */
  method Contract(inputs: seq<Subscript>, output: Subscript, positions: seq<nat>, operands: seq<Tensor>,
                  ghost ts: seq<Tensor>, ghost dims: Dims)
    returns (r: Tensor)
    requires Selected(positions, operands, ts) && OperandsOk(ts, inputs, dims) && |ts| > 0
    requires AllDistinct(inputs) && NothingPrivate(inputs, output.letters) && DistinctSub(output)
             && output.letters <= LettersOf(inputs)
    ensures Computes(r, output, ts, inputs, dims)
  {
    if CanDot(inputs, output) {
      PairIsDot(inputs, output.letters);
      assert SelectedAt(positions, operands, ts, 0) && SelectedAt(positions, operands, ts, 1);
      assert OperandOk(ts[0], inputs[0], dims) && OperandOk(ts[1], inputs[1], dims);
      r := DotNode(operands[positions[0]], operands[positions[1]], inputs[0], inputs[1], output, dims);
      forall env | InRange(env, output.letters, dims)
        ensures Val(r, output.str, env) == Total(ts, inputs, output.letters, dims, env)
      {
        assert inputs == [inputs[0], inputs[1]] && ts == [ts[0], ts[1]];
        PairTotal(ts[0], ts[1], inputs[0], inputs[1], output.letters, dims, env);
      }
    } else {
      r := EinsumNaive(inputs, output, positions, operands, ts, dims);
    }
  }

  lemma SelectSelected(positions: seq<nat>, operands: seq<Tensor>)
    requires Increasing(positions, |operands|)
    ensures Selected(positions, operands, Select(operands, positions))
  {
    var ts := Select(operands, positions);
    forall i: nat {:trigger SelectedAt(positions, operands, ts, i)} | i < |ts|
      ensures SelectedAt(positions, operands, ts, i)
    {
    }
  }

  lemma SelectOk(ts: seq<Tensor>, subs: seq<Subscript>, positions: seq<nat>, dims: Dims)
    requires OperandsOk(ts, subs, dims) && Increasing(positions, |subs|)
    ensures OperandsOk(Select(ts, positions), Select(subs, positions), dims)
  {
    var ts1, subs1 := Select(ts, positions), Select(subs, positions);
    forall i {:trigger subs1[i]} | 0 <= i < |ts1|
      ensures OperandOk(ts1[i], subs1[i], dims)
    {
      assert OperandOk(ts[positions[i]], subs[positions[i]], dims);
    }
  }

  /** Erases positions, which are sorted increasing, from the back. */
  method EraseAt(operands: seq<Tensor>, positions: seq<nat>) returns (r: seq<Tensor>)
    requires Increasing(positions, |operands|)
    ensures r == DropAt(operands, positions)
  {
    r := operands;
    var k := |positions|;
    assert positions[..k] == positions;
    while k > 0
      invariant 0 <= k <= |positions| && Increasing(positions[..k], |r|)
                && DropAt(r, positions[..k]) == DropAt(operands, positions)
    {
      assert positions[..k][..k - 1] == positions[..k - 1];
      SelectFront(r, positions[..k]);
      r := Without(r, positions[k - 1]);
      k := k - 1;
    }
  }

  /** Runs one node of a valid path: the operands keep standing for the same sums. */
  method RunNode(node: PathNode, operands: seq<Tensor>, ghost subs: seq<Subscript>, ghost out: set<char>,
                 ghost dims: Dims)
    returns (operands1: seq<Tensor>)
    requires OperandsOk(operands, subs, dims) && NodeOk(node, subs, out)
    ensures OperandsOk(operands1, After(node, subs), dims)
    ensures SameTotals(operands, subs, operands1, After(node, subs), out, dims)
  {
    ghost var ts := Select(operands, node.positions);
    SelectSelected(node.positions, operands);
    SelectOk(operands, subs, node.positions, dims);
    var inputs, prepared, ts1 := PreprocessInputs(node.inputs, node.output, node.positions, operands, ts, dims);
    OutputLetters(inputs, node.inputs, node.output.letters);
    var r := Contract(inputs, node.output, node.positions, prepared, ts1, dims);
    DropSame(operands, prepared, node.positions);
    DropLast(prepared, r, node.positions);
    operands1 := EraseAt(prepared + [r], node.positions);
    NodeDone(operands, subs, node, r, ts1, inputs, operands1, out, dims);
  }

  lemma OutputLetters(inputs: seq<Subscript>, inputs0: seq<Subscript>, out: set<char>)
    requires LettersOf(inputs) * out == LettersOf(inputs0) * out && out <= LettersOf(inputs0)
    ensures out <= LettersOf(inputs)
  {
    forall c | c in out
      ensures c in LettersOf(inputs)
    {
      assert c in LettersOf(inputs0) * out;
    }
  }

  lemma NodeDone(operands: seq<Tensor>, subs: seq<Subscript>, node: PathNode, r: Tensor, ts1: seq<Tensor>,
                 inputs: seq<Subscript>,
                 operands1: seq<Tensor>, out: set<char>, dims: Dims)
    requires OperandsOk(operands, subs, dims) && NodeOk(node, subs, out) && |ts1| == |inputs|
    requires SameTotals(Select(operands, node.positions), node.inputs, ts1, inputs, node.output.letters, dims)
    requires Computes(r, node.output, ts1, inputs, dims)
    requires operands1 == DropAt(operands, node.positions) + [r]
    ensures OperandsOk(operands1, After(node, subs), dims)
    ensures SameTotals(operands, subs, operands1, After(node, subs), out, dims)
  {
    DropOk(operands, subs, node.positions, dims);
    var rest, others, subs1 := DropAt(operands, node.positions), DropAt(subs, node.positions), After(node, subs);
    forall i {:trigger subs1[i]} | 0 <= i < |operands1|
      ensures OperandOk(operands1[i], subs1[i], dims)
    {
      assert i < |rest| ==> OperandOk(rest[i], others[i], dims);
    }
    var part, whole := Values(r, node.output.str), ProductFn(Select(operands, node.positions), node.inputs);
    forall e | InRange(e, node.output.letters, dims)
      ensures part(e) == SumLetters(LettersOf(node.inputs) - node.output.letters, dims, e, whole)
    {
      assert part(e) == Val(r, node.output.str, e);
      assert Total(ts1, inputs, node.output.letters, dims, e)
             == Total(Select(operands, node.positions), node.inputs, node.output.letters, dims, e);
    }
    forall env {:trigger Total(operands1, subs1, out, dims, env)} | InRange(env, out, dims)
      ensures Total(operands1, subs1, out, dims, env) == Total(operands, subs, out, dims, env)
    {
      NodeKeepsTotal(operands, subs, node, r, out, dims, env);
    }
  }

  /** Runs a whole path: one operand is left, and it holds the direct sum of products of all operands. */
  method RunPath(path: seq<PathNode>, operands: seq<Tensor>, ghost subs: seq<Subscript>, ghost output: Subscript,
                 ghost dims: Dims)
    returns (r: Tensor)
    requires OperandsOk(operands, subs, dims) && PlanOk(path, subs, output) && SubOk(output)
    ensures Computes(r, output, operands, subs, dims)
  {
    var inputs := operands;
    ghost var lists := Lists(path, subs, [output], output.letters);
    for i := 0 to |path|
      invariant OperandsOk(inputs, lists[i], dims)
      invariant SameTotals(operands, subs, inputs, lists[i], output.letters, dims)
    {
      assert StepAt(path, lists, output.letters, i);
      ghost var before := inputs;
      inputs := RunNode(path[i], inputs, lists[i], output.letters, dims);
      SameTotalsTrans(operands, subs, before, lists[i], inputs, lists[i + 1], output.letters, dims);
    }
    r := inputs[0];
    assert OperandOk(inputs[0], lists[|path|][0], dims);
    forall env | InRange(env, output.letters, dims)
      ensures Val(r, output.str, env) == Total(operands, subs, output.letters, dims, env)
    {
      assert inputs == [r];
      TotalOne(r, output, dims, env);
    }
  }

  lemma TotalOne(t: Tensor, s: Subscript, dims: Dims, env: Assignment)
    requires SubOk(s)
    ensures Total([t], [s], s.letters, dims, env) == Val(t, s.str, env)
  {
    LettersOne(s);
    assert LettersOf([s]) - s.letters == {};
    ProductOne(t, s, env);
  }
}
