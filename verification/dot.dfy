/**
 The contraction of two labelled operands by one batched matrix product: every operand is transposed
 and flattened to (batch, free, contracted) axes.
 */
module Dot {
  import opened Sums
  import opened Tensors
  import opened Labels

  // ---------------------------------------------------------------- assigning the contracted letters

  lemma {:induction false} AssignOther(env: Assignment, str: string, idx: seq<int>, s: set<char>)
    requires |idx| == |str| && s !! Letters(str)
    ensures AgreeOn(Assign(env, str, idx), env, s)
    decreases |str|
  {
    if str != "" {
      AssignOther(env[str[0] := idx[0]], str[1..], idx[1..], s);
    }
  }

  lemma {:induction false} AssignIndex(env: Assignment, str: string, idx: seq<int>)
    requires |idx| == |str| && Distinct(str)
    ensures Index(str, Assign(env, str, idx)) == idx
    decreases |str|
  {
    if str != "" {
      var env1 := env[str[0] := idx[0]];
      DistinctTail(str);
      AssignIndex(env1, str[1..], idx[1..]);
      AssignOther(env1, str[1..], idx[1..], {str[0]});
      IndexConcat([str[0]], str[1..], Assign(env, str, idx));
      assert [str[0]] + str[1..] == str && [idx[0]] + idx[1..] == idx;
    }
  }

  // ---------------------------------------------------------------- the matrix product by letters

  /** The strings of the batch, free and contracted axes have different letters. */
  ghost predicate PartsApart(bt: string, ca: string, cb: string, k: string) {
    && Distinct(k)
    && Letters(k) !! Letters(bt) && Letters(k) !! Letters(ca) && Letters(k) !! Letters(cb)
  }

  /** Flattening the last two of three runs of axes keeps every element. */
  lemma FlatAt(t: Tensor, x: string, y: string, z: string, dims: Dims, e: Assignment)
    requires Labelled(t, x + y + z, dims) && InRange(e, Letters(x) + Letters(y) + Letters(z), dims)
    ensures Flat(t, ShapeOf(x, dims), ShapeOf(y, dims), ShapeOf(z, dims)).at(FlatIndex(x, y, z, dims, e))
            == Val(t, x + y + z, e)
  {
    var p, q, r := ShapeOf(x, dims), ShapeOf(y, dims), ShapeOf(z, dims);
    IndexConcat(x, y, e);
    IndexConcat(x + y, z, e);
    LettersConcat(x, y);
    LettersConcat(x + y, z);
    ValidAt(x + y + z, dims, e);
    RavelJoin(p, q, r, Index(x, e), Index(y, e), Index(z, e));
    ShapeConcat(x, y, dims);
    ShapeConcat(x + y, z, dims);
    ReshapeAt(t, p + [Size(q), Size(r)], FlatIndex(x, y, z, dims, e), Index(x + y + z, e));
  }

  function Flat(t: Tensor, p: seq<nat>, q: seq<nat>, r: seq<nat>): Tensor {
    Reshape(t, p + [Size(q), Size(r)])
  }

  function FlatIndex(x: string, y: string, z: string, dims: Dims, e: Assignment): (r: seq<int>)
    ensures |r| == |x| + 2
  {
    Index(x, e) + [Ravel(ShapeOf(y, dims), Index(y, e)), Ravel(ShapeOf(z, dims), Index(z, e))]
  }

  /** The assignment at a contracted position. */
  lemma AtPosition(k: string, dims: Dims, env: Assignment, l: int, s: set<char>)
    requires Distinct(k) && s !! Letters(k) && InRange(env, s, dims) && 0 <= l < Size(ShapeOf(k, dims))
    ensures var e := At(env, k, dims, l);
            Ravel(ShapeOf(k, dims), Index(k, e)) == l && InRange(e, s + Letters(k), dims) && AgreeOn(e, env, s)
  {
    var shape, e := ShapeOf(k, dims), At(env, k, dims, l);
    UnravelRavel(shape, l);
    AssignIndex(env, k, Unravel(shape, l));
    AssignOther(env, k, Unravel(shape, l), s);
    AssignHas(env, k, Unravel(shape, l));
    forall c | c in Letters(k)
      ensures c in e && 0 <= e[c] < dims(c)
    {
      InLetters(k, c);
      var i := Where(k, c);
      assert Index(k, e)[i] == Unravel(shape, l)[i];
    }
  }

  lemma {:induction false} AssignHas(env: Assignment, str: string, idx: seq<int>)
    requires |idx| == |str|
    ensures Assign(env, str, idx).Keys == env.Keys + Letters(str)
    decreases |str|
  {
    if str != "" {
      AssignHas(env[str[0] := idx[0]], str[1..], idx[1..]);
    }
  }

  ghost function ProductOf(a: Tensor, sa: string, b: Tensor, sb: string): Assignment -> int {
    e => Val(a, sa, e) * Val(b, sb, e)
  }

  /** The batched matrix product of the flattened operands. */
  function Batched(a: Tensor, b: Tensor, p: seq<nat>, q: seq<nat>, n: seq<nat>, r: seq<nat>): (t: Tensor)
    ensures t.shape == p + [Size(q), Size(r)]
  {
    MatMul(Flat(a, p, q, n), Flat(b, p, n, r))
  }

  /** One term of the product. */
  lemma BatchedTerm(a: Tensor, b: Tensor, bt: string, ca: string, cb: string, k: string, dims: Dims, env: Assignment,
                    l: int)
    requires Labelled(a, bt + ca + k, dims) && Labelled(b, bt + k + cb, dims) && PartsApart(bt, ca, cb, k)
    requires InRange(env, Letters(bt) + Letters(ca) + Letters(cb), dims) && 0 <= l < Size(ShapeOf(k, dims))
    ensures var p, q, n, r := ShapeOf(bt, dims), ShapeOf(ca, dims), ShapeOf(k, dims), ShapeOf(cb, dims);
            Flat(a, p, q, n).at(Index(bt, env) + [Ravel(q, Index(ca, env)), l])
              * Flat(b, p, n, r).at(Index(bt, env) + [l, Ravel(r, Index(cb, env))])
            == ProductOf(a, bt + ca + k, b, bt + k + cb)(At(env, k, dims, l))
  {
    var e := At(env, k, dims, l);
    AtPosition(k, dims, env, l, Letters(bt) + Letters(ca) + Letters(cb));
    IndexAgree(bt, e, env);
    IndexAgree(ca, e, env);
    IndexAgree(cb, e, env);
    FlatAt(a, bt, ca, k, dims, e);
    FlatAt(b, bt, k, cb, dims, e);
  }

  lemma BatchedAt(a: Tensor, b: Tensor, bt: string, ca: string, cb: string, k: string, dims: Dims, env: Assignment)
    requires Labelled(a, bt + ca + k, dims) && Labelled(b, bt + k + cb, dims) && PartsApart(bt, ca, cb, k)
    requires InRange(env, Letters(bt) + Letters(ca) + Letters(cb), dims)
    ensures Batched(a, b, ShapeOf(bt, dims), ShapeOf(ca, dims), ShapeOf(k, dims),
            ShapeOf(cb, dims)).at(FlatIndex(bt, ca, cb, dims, env))
            == SumLetters(Letters(k), dims, env, ProductOf(a, bt + ca + k, b, bt + k + cb))
  {
    var p, q, n, r := ShapeOf(bt, dims), ShapeOf(ca, dims), ShapeOf(k, dims), ShapeOf(cb, dims);
    var f := ProductOf(a, bt + ca + k, b, bt + k + cb);
    var y, z := Ravel(q, Index(ca, env)), Ravel(r, Index(cb, env));
    MatMulAt(Flat(a, p, q, n), Flat(b, p, n, r), Index(bt, env), y, z);
    forall l {:trigger At(env, k, dims, l)} | 0 <= l < Size(n)
      ensures Flat(a, p, q, n).at(Index(bt, env) + [y, l]) * Flat(b, p, n, r).at(Index(bt, env) + [l, z])
              == f(At(env, k, dims, l))
    {
      BatchedTerm(a, b, bt, ca, cb, k, dims, env, l);
    }
    SumSame(Size(n), l => Flat(a, p, q, n).at(Index(bt, env) + [y, l]) * Flat(b, p, n, r).at(Index(bt, env) + [l, z]),
            l => f(At(env, k, dims, l)));
    FlatSum(k, dims, env, f);
  }

  lemma MatMulAt(a: Tensor, b: Tensor, x: seq<int>, y: int, z: int)
    requires |a.shape| == |b.shape| == |x| + 2
    ensures MatMul(a, b).at(x + [y, z]) == Sum(a.shape[|x| + 1], l => a.at(x + [y, l]) * b.at(x + [l, z]))
  {
    var m, idx := |x| + 2, x + [y, z];
    forall l {:trigger x + [y, l]} | 0 <= l < a.shape[m - 1]
      ensures a.at(idx[..m - 1] + [l]) * b.at(idx[..m - 2] + [l] + [idx[m - 1]]) == a.at(x + [y, l]) * b.at(x + [l, z])
    {
      assert idx[..m - 1] + [l] == x + [y, l];
      assert idx[..m - 2] + [l] + [idx[m - 1]] == x + [l, z];
    }
    SumSame(a.shape[m - 1], l => a.at(idx[..m - 1] + [l]) * b.at(idx[..m - 2] + [l] + [idx[m - 1]]),
        l => a.at(x + [y, l]) * b.at(x + [l, z]));
  }

  /** The flattened matrix product, unflattened, is the sum over the contracted letters. */
  lemma ContractedVal(a: Tensor, b: Tensor, bt: string, ca: string, cb: string, k: string, dims: Dims, env: Assignment)
    requires Labelled(a, bt + ca + k, dims) && Labelled(b, bt + k + cb, dims) && PartsApart(bt, ca, cb, k)
    requires InRange(env, Letters(bt) + Letters(ca) + Letters(cb), dims)
    ensures Val(Contracted(a, b, ShapeOf(bt, dims), ShapeOf(ca, dims), ShapeOf(k, dims), ShapeOf(cb, dims)),
            bt + ca + cb, env)
            == SumLetters(Letters(k), dims, env, ProductOf(a, bt + ca + k, b, bt + k + cb))
  {
    var p, q, n, r := ShapeOf(bt, dims), ShapeOf(ca, dims), ShapeOf(k, dims), ShapeOf(cb, dims);
    BatchedAt(a, b, bt, ca, cb, k, dims, env);
    UnflatAt(Batched(a, b, p, q, n, r), bt, ca, cb, dims, env);
  }

  function Contracted(a: Tensor, b: Tensor, p: seq<nat>, q: seq<nat>, n: seq<nat>, r: seq<nat>): Tensor {
    Reshape(Batched(a, b, p, q, n, r), p + q + r)
  }

  /** Unflattening puts every element back. */
  lemma UnflatAt(t: Tensor, x: string, y: string, z: string, dims: Dims, e: Assignment)
    requires t.shape == ShapeOf(x, dims) + [Size(ShapeOf(y, dims)), Size(ShapeOf(z, dims))]
    requires InRange(e, Letters(x) + Letters(y) + Letters(z), dims)
    ensures Val(Reshape(t, ShapeOf(x, dims) + ShapeOf(y, dims) + ShapeOf(z, dims)), x + y + z, e)
            == t.at(FlatIndex(x, y, z, dims, e))
  {
    var p, q, r := ShapeOf(x, dims), ShapeOf(y, dims), ShapeOf(z, dims);
    ValidAt(x, dims, e);
    ValidAt(y, dims, e);
    ValidAt(z, dims, e);
    RavelUnravel(q, Index(y, e));
    RavelUnravel(r, Index(z, e));
    IndexConcat(x, y, e);
    IndexConcat(x + y, z, e);
    RavelJoin(p, q, r, Index(x, e), Index(y, e), Index(z, e));
    ReshapeAt(t, p + q + r, Index(x + y + z, e), FlatIndex(x, y, z, dims, e));
  }
}
