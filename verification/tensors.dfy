/**
 Row-major tensors and the array operations einsum uses.  A tensor is its shape and its elements by
 multi-index; only indices within the shape matter.
 */
module Tensors {
  import opened Sums

  datatype Tensor = Tensor(shape: seq<nat>, at: seq<int> -> int)

  function Size(shape: seq<nat>): nat {
    if shape == [] then 1 else shape[0] * Size(shape[1..])
  }

  ghost predicate ValidIndex(idx: seq<int>, shape: seq<nat>) {
    |idx| == |shape| && forall k :: 0 <= k < |idx| ==> 0 <= idx[k] < shape[k]
  }

  // ---------------------------------------------------------------- row-major positions

  /** The position of an index in the row-major order. */
  function Ravel(shape: seq<nat>, idx: seq<int>): int
    requires |idx| == |shape|
  {
    if shape == [] then 0 else idx[0] * Size(shape[1..]) + Ravel(shape[1..], idx[1..])
  }

  function Unravel(shape: seq<nat>, k: int): seq<int> {
    if shape == [] then []
    else
      var n := Size(shape[1..]);
      if n == 0 then [0] + Unravel(shape[1..], 0) else [k / n] + Unravel(shape[1..], k % n)
  }

  lemma {:induction false} UnravelLength(shape: seq<nat>, k: int)
    ensures |Unravel(shape, k)| == |shape|
  {
    if shape != [] {
      var n := Size(shape[1..]);
      UnravelLength(shape[1..], if n == 0 then 0 else k % n);
    }
  }

  lemma MulBound(a: int, d: int, n: int, r: int)
    requires 0 <= a < d && 0 <= r < n
    ensures 0 <= a * n + r < d * n
  {
    assert a * n + n <= d * n by { assert (a + 1) * n <= d * n; }
  }

  lemma DivBound(k: int, d: int, n: int)
    requires n > 0 && 0 <= k < d * n
    ensures 0 <= k / n < d
  {
    var q := k / n;
    assert q >= d ==> q * n >= d * n;
  }

  lemma DivOf(a: int, n: int, r: int)
    requires n > 0 && 0 <= r < n
    ensures (a * n + r) / n == a && (a * n + r) % n == r
  {
    var k := a * n + r;
    assert k == (k / n) * n + k % n;
    var d := k / n - a;
    assert d * n == r - k % n;
    assert d >= 1 ==> d * n >= n;
    assert d <= -1 ==> d * n <= -n;
  }

  /** Row-major positions are in range, and the position of an index gives the index back. */
  lemma {:induction false} RavelUnravel(shape: seq<nat>, idx: seq<int>)
    requires ValidIndex(idx, shape)
    ensures 0 <= Ravel(shape, idx) < Size(shape)
    ensures Unravel(shape, Ravel(shape, idx)) == idx
  {
    if shape != [] {
      var n, r := Size(shape[1..]), Ravel(shape[1..], idx[1..]);
      RavelUnravel(shape[1..], idx[1..]);
      MulBound(idx[0], shape[0], n, r);
      DivOf(idx[0], n, r);
      assert [idx[0]] + idx[1..] == idx;
    }
  }

  /** Every position is the position of a valid index. */
  lemma {:induction false} UnravelRavel(shape: seq<nat>, k: int)
    requires 0 <= k < Size(shape)
    ensures ValidIndex(Unravel(shape, k), shape)
    ensures Ravel(shape, Unravel(shape, k)) == k
  {
    if shape != [] {
      var n := Size(shape[1..]);
      assert Size(shape) == shape[0] * n && n > 0;
      DivBound(k, shape[0], n);
      UnravelRavel(shape[1..], k % n);
      var u := Unravel(shape, k);
      assert u[1..] == Unravel(shape[1..], k % n);
    }
  }

  lemma {:induction false} SizeConcat(s: seq<nat>, t: seq<nat>)
    ensures Size(s + t) == Size(s) * Size(t)
  {
    if s == [] {
      assert s + t == t;
    } else {
      SizeConcat(s[1..], t);
      assert (s + t)[1..] == s[1..] + t;
      MulAssoc(s[0], Size(s[1..]), Size(t));
    }
  }

  lemma MulCommutes(a: int, b: int)
    ensures a * b == b * a
  {
  }

  lemma MulAssoc(a: int, b: int, c: int)
    ensures a * (b * c) == (a * b) * c
  {
  }

  lemma {:induction false} RavelConcat(s: seq<nat>, t: seq<nat>, x: seq<int>, y: seq<int>)
    requires |x| == |s| && |y| == |t|
    ensures Ravel(s + t, x + y) == Ravel(s, x) * Size(t) + Ravel(t, y)
  {
    if s == [] {
      assert s + t == t && x + y == y;
    } else {
      RavelConcat(s[1..], t, x[1..], y);
      SizeConcat(s[1..], t);
      assert (s + t)[1..] == s[1..] + t && (x + y)[1..] == x[1..] + y;
      MulAssoc(x[0], Size(s[1..]), Size(t));
      Distribute(x[0] * Size(s[1..]), Ravel(s[1..], x[1..]), Size(t));
    }
  }

  lemma Distribute(a: int, b: int, c: int)
    ensures (a + b) * c == a * c + b * c
  {
  }

  /** Merging two runs of axes keeps every row-major position. */
  lemma RavelJoin(p: seq<nat>, q: seq<nat>, r: seq<nat>, x: seq<int>, y: seq<int>, z: seq<int>)
    requires |x| == |p| && |y| == |q| && |z| == |r|
    ensures Ravel(p + [Size(q), Size(r)], x + [Ravel(q, y), Ravel(r, z)]) == Ravel(p + q + r, x + y + z)
    ensures Size(p + [Size(q), Size(r)]) == Size(p + q + r)
  {
    var pair, at := [Size(q), Size(r)], [Ravel(q, y), Ravel(r, z)];
    RavelConcat(p, pair, x, at);
    RavelPair(Size(q), Size(r), Ravel(q, y), Ravel(r, z));
    RavelConcat(q, r, y, z);
    RavelConcat(p, q + r, x, y + z);
    SizeConcat(q, r);
    SizeConcat(p, pair);
    SizeConcat(p, q + r);
    assert p + q + r == p + (q + r) && x + y + z == x + (y + z);
  }

  lemma RavelPair(a: nat, b: nat, y: int, z: int)
    ensures Size([a, b]) == a * b && Ravel([a, b], [y, z]) == y * b + z
  {
    assert [a, b][1..] == [b] && [y, z][1..] == [z];
    assert Size([b]) == b && Ravel([b], [z]) == z;
  }

  // ---------------------------------------------------------------- the operations

  function Reshape(t: Tensor, shape: seq<nat>): Tensor {
    Tensor(shape, idx => if |idx| == |shape| then t.at(Unravel(t.shape, Ravel(shape, idx))) else 0)
  }

  /** A reshaped tensor has the element at the same row-major position. */
  lemma ReshapeAt(t: Tensor, shape: seq<nat>, idx: seq<int>, idx0: seq<int>)
    requires |idx| == |shape| && ValidIndex(idx0, t.shape) && Ravel(shape, idx) == Ravel(t.shape, idx0)
    ensures Reshape(t, shape).at(idx) == t.at(idx0)
  {
    RavelUnravel(t.shape, idx0);
  }

  lemma {:induction false} RavelOnes(shape: seq<nat>, idx: seq<int>, n: nat)
    requires |idx| == |shape|
    ensures Ravel(shape + Ones(n), idx + Zeros(n)) == Ravel(shape, idx)
  {
    RavelConcat(shape, Ones(n), idx, Zeros(n));
    OnesSize(n);
  }

  function Ones(n: nat): (r: seq<nat>)
    ensures |r| == n
  {
    if n == 0 then [] else [1] + Ones(n - 1)
  }

  function Zeros(n: nat): (r: seq<int>)
    ensures |r| == n
  {
    if n == 0 then [] else [0] + Zeros(n - 1)
  }

  lemma {:induction false} OnesSize(n: nat)
    ensures Size(Ones(n)) == 1 && Ravel(Ones(n), Zeros(n)) == 0
    ensures forall k :: 0 <= k < n ==> Ones(n)[k] == 1 && Zeros(n)[k] == 0
  {
    if n > 0 {
      OnesSize(n - 1);
      assert Ones(n)[1..] == Ones(n - 1) && Zeros(n)[1..] == Zeros(n - 1);
    }
  }

  /** Repeats size-1 axes up to a shape. */
  function BroadcastTo(t: Tensor, shape: seq<nat>): Tensor
    requires |shape| == |t.shape|
  {
    if shape == t.shape then t
    else Tensor(shape, idx => if |idx| == |shape| then t.at(Clip(idx, t.shape)) else 0)
  }

  /** The sizes of a list of axes. */
  function Sizes(shape: seq<nat>, axes: seq<nat>): (r: seq<nat>)
    requires forall k :: 0 <= k < |axes| ==> axes[k] < |shape|
    ensures |r| == |axes| && forall k {:trigger r[k]} :: 0 <= k < |axes| ==> r[k] == shape[axes[k]]
  {
    seq(|axes|, k requires 0 <= k < |axes| => shape[axes[k]])
  }

  /** The first place of `x` in `s`, or |s|. */
  function Where<T(==)>(s: seq<T>, x: T): (k: nat)
    ensures k <= |s| && (k < |s| ==> s[k] == x)
  {
    WhereFrom(s, x, 0)
  }

  function WhereFrom<T(==)>(s: seq<T>, x: T, i: nat): (k: nat)
    requires i <= |s|
    ensures i <= k <= |s| && (k < |s| ==> s[k] == x)
    decreases |s| - i
  {
    if i == |s| || s[i] == x then i else WhereFrom(s, x, i + 1)
  }

  lemma {:induction false} WhereFromFirst<T>(s: seq<T>, x: T, i: nat, j: nat)
    requires i <= j < |s| && s[j] == x
    ensures WhereFrom(s, x, i) <= j
    decreases |s| - i
  {
    if s[i] != x {
      WhereFromFirst(s, x, i + 1, j);
    }
  }

  lemma WhereFirst<T>(s: seq<T>, j: nat)
    requires j < |s|
    ensures Where(s, s[j]) <= j
  {
    WhereFromFirst(s, s[j], 0, j);
  }

  lemma WhereIs<T>(s: seq<T>, x: T, k: nat)
    requires k <= |s| && (k < |s| ==> s[k] == x)
    requires forall j :: 0 <= j < k ==> s[j] != x
    ensures Where(s, x) == k
  {
    if k < |s| {
      WhereFirst(s, k);
    }
  }

  lemma WhereNot<T>(s: seq<T>, x: T)
    ensures forall j :: 0 <= j < Where(s, x) ==> s[j] != x
  {
    forall j | 0 <= j < Where(s, x)
      ensures s[j] != x
    {
      WhereFirst(s, j);
    }
  }

  lemma WhereConcat<T>(s: seq<T>, t: seq<T>, x: T)
    ensures Where(s + t, x) == if Where(s, x) < |s| then Where(s, x) else |s| + Where(t, x)
  {
    WhereNot(s, x);
    WhereNot(t, x);
    WhereIs(s + t, x, if Where(s, x) < |s| then Where(s, x) else |s| + Where(t, x));
  }

  /** Place `i` holds what no earlier place holds. */
  ghost predicate FreshAt<T>(s: seq<T>, i: nat)
    requires i < |s|
  {
    Where(s, s[i]) == i
  }

  ghost predicate Distinct<T>(s: seq<T>) {
    forall i: nat {:trigger FreshAt(s, i)} :: i < |s| ==> FreshAt(s, i)
  }

  ghost predicate Listed(perm: seq<nat>, a: nat) {
    Where<nat>(perm, a) < |perm|
  }

  /** `perm` lists the numbers below n once each. */
  ghost predicate IsPermutation(perm: seq<nat>, n: nat) {
    && |perm| == n
    && Distinct<nat>(perm)
    && (forall k: nat :: k < n ==> perm[k] < n)
    && (forall a: nat {:trigger Listed(perm, a)} :: a < n ==> Listed(perm, a))
  }

  /** Axis `k` of the result is axis `perm[k]` of the argument. */
  function Transpose(t: Tensor, perm: seq<nat>): Tensor
    requires forall k :: 0 <= k < |perm| ==> perm[k] < |t.shape|
  {
    Tensor(Sizes(t.shape, perm), idx => t.at(Untranspose(perm, idx, |t.shape|)))
  }

  function Untranspose(perm: seq<nat>, idx: seq<int>, n: nat): (r: seq<int>)
    ensures |r| == n
    ensures forall a: nat {:trigger r[a]} :: a < n && Where<nat>(perm, a) < |idx| ==> r[a] == idx[Where<nat>(perm, a)]
  {
    seq(n, a requires 0 <= a < n => if Where<nat>(perm, a) < |idx| then idx[Where<nat>(perm, a)] else 0)
  }

  /** The axes not in a list of axes. */
  function Kept(shape: seq<nat>, axes: set<nat>, k: nat): (r: seq<nat>)
    requires k <= |shape|
    decreases |shape| - k
  {
    if k == |shape| then []
    else if k in axes then Kept(shape, axes, k + 1) else [shape[k]] + Kept(shape, axes, k + 1)
  }

  /** Sums out a set of axes. */
  function SumAxes(t: Tensor, axes: set<nat>): Tensor {
    Tensor(Kept(t.shape, axes, 0), idx => SumFrom(t, axes, [], idx))
  }

  /** `pre` holds the indices of the first axes, `idx` those of the kept axes after them. */
  function SumFrom(t: Tensor, axes: set<nat>, pre: seq<int>, idx: seq<int>): int
    decreases |t.shape| - |pre|
  {
    if |pre| >= |t.shape| then t.at(pre)
    else if |pre| in axes then Sum(t.shape[|pre|], v => SumFrom(t, axes, pre + [v], idx))
    else if idx == [] then 0
    else SumFrom(t, axes, pre + [idx[0]], idx[1..])
  }

  function Max(a: nat, b: nat): nat {
    if a < b then b else a
  }

  /** Size-1 axes repeat. */
  function BroadcastDim(m: nat, n: nat): nat {
    if m == 1 then n else m
  }

  function Clip(idx: seq<int>, shape: seq<nat>): seq<int>
    requires |idx| == |shape|
  {
    seq(|idx|, k requires 0 <= k < |idx| => if shape[k] == 1 then 0 else idx[k])
  }

  /** The element-wise product of two tensors of one rank, with broadcasting. */
  function Multiply(a: Tensor, b: Tensor): Tensor
    requires |a.shape| == |b.shape|
  {
    Tensor(seq(|a.shape|, k requires 0 <= k < |a.shape| => BroadcastDim(a.shape[k], b.shape[k])),
           idx => if |idx| == |a.shape| then a.at(Clip(idx, a.shape)) * b.at(Clip(idx, b.shape)) else 0)
  }

  /** The product of the last two axes as matrices, batched over the axes before. */
  function MatMul(a: Tensor, b: Tensor): Tensor
    requires |a.shape| == |b.shape| >= 2
  {
    var r := |a.shape|;
    Tensor(a.shape[..r - 1] + [b.shape[r - 1]],
           idx => if |idx| == r
                  then Sum(a.shape[r - 1], l => a.at(idx[..r - 1] + [l]) * b.at(idx[..r - 2] + [l] + [idx[r - 1]]))
                  else 0)
  }

  function Arange(n: nat): Tensor {
    Tensor([n], idx => if |idx| == 1 then idx[0] else 0)
  }

  // ---------------------------------------------------------------- gathering and squeezing

  function MaxRank(ts: seq<Tensor>): nat {
    if |ts| == 0 then 0
    else
      var r, n := MaxRank(ts[..|ts| - 1]), |ts[|ts| - 1].shape|;
      if r < n then n else r
  }

  /** The size of axis `k` of a shape aligned to the right in rank `m`. */
  function AlignedDim(shape: seq<nat>, m: nat, k: nat): nat {
    if k + |shape| < m || k >= m then 1 else if k + |shape| - m < |shape| then shape[k + |shape| - m] else 1
  }

  /** The size of axis `k` of the shape the tensors broadcast to. */
  function JointDim(ts: seq<Tensor>, m: nat, k: nat): nat {
    if |ts| == 0 then 1 else BroadcastDim(JointDim(ts[..|ts| - 1], m, k), AlignedDim(ts[|ts| - 1].shape, m, k))
  }

  /** The element a broadcast tensor has at an index of higher rank. */
  function AlignedAt(t: Tensor, i: seq<int>): int
    requires |t.shape| <= |i|
  {
    t.at(Clip(i[|i| - |t.shape|..], t.shape))
  }

  /** The slices of `t` that start where the index tensors say: `indices[j]` holds the starts along axis `axes[j]`. */
  function Gather(t: Tensor, indices: seq<Tensor>, axes: seq<nat>, slice: seq<nat>): Tensor
    requires |indices| == |axes| && |slice| == |t.shape|
    requires forall j :: 0 <= j < |indices| ==> |indices[j].shape| <= MaxRank(indices)
  {
    var m := MaxRank(indices);
    Tensor(seq(m, k requires 0 <= k < m => JointDim(indices, m, k)) + slice,
           idx => if |idx| == m + |t.shape|
                  then t.at(seq(|t.shape|, a requires 0 <= a < |t.shape| =>
                                  idx[m + a] + if Where<nat>(axes,
                                      a) < |axes| then AlignedAt(indices[Where<nat>(axes, a)], idx[..m]) else 0))
                  else 0)
  }

  /** Index 0 in the squeezed axes. */
  function Unsqueeze(n: nat, axes: set<nat>, k: nat, idx: seq<int>): (r: seq<int>)
    requires k <= n
    ensures |r| == n - k
    decreases n - k
  {
    if k == n then []
    else if k in axes then [0] + Unsqueeze(n, axes, k + 1, idx)
    else if idx == [] then [0] + Unsqueeze(n, axes, k + 1, idx)
    else [idx[0]] + Unsqueeze(n, axes, k + 1, idx[1..])
  }

  /** Drops axes of size 1. */
  function Squeeze(t: Tensor, axes: set<nat>): Tensor {
    Tensor(Kept(t.shape, axes, 0), idx => t.at(Unsqueeze(|t.shape|, axes, 0, idx)))
  }
}
