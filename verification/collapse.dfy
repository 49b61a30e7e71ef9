/**
 Repeated letters within one subscript: the operand is gathered along its diagonals so that every
 letter has one axis.
 */
module Collapse {
  import opened Sums
  import opened Tensors
  import opened Labels
  import opened Subscripts

  // ---------------------------------------------------------------- occurrences

  function Occurs(str: string, c: char): nat {
    LettersBefore(str, {c}, |str|)
  }

  lemma {:induction false} BeforeHas(str: string, c: char, k: nat)
    requires k <= |str|
    ensures LettersBefore(str, {c}, k) > 0 <==> c in Letters(str[..k])
  {
    if k > 0 {
      BeforeHas(str, c, k - 1);
      PrefixLetters(str, k - 1);
    }
  }

  lemma {:induction false} BeforeGrows(str: string, c: char, j: nat, k: nat)
    requires j <= k <= |str|
    ensures LettersBefore(str, {c}, j) <= LettersBefore(str, {c}, k)
  {
    if j < k {
      BeforeGrows(str, c, j, k - 1);
    }
  }

  lemma OccursHas(str: string, c: char)
    ensures Occurs(str, c) > 0 <==> c in Letters(str)
  {
    BeforeHas(str, c, |str|);
    assert str[..|str|] == str;
  }

  /** Letters that occur once make a distinct string. */
  lemma {:induction false} OnceDistinct(str: string, keep: set<char>, k: nat)
    requires k <= |str| && forall c :: c in keep ==> Occurs(str, c) <= 1
    ensures Distinct(Filter(str[..k], keep))
  {
    if k > 0 {
      var c, before := str[k - 1], Filter(str[..k - 1], keep);
      OnceDistinct(str, keep, k - 1);
      FilterNext(str, k - 1, keep);
      if c in keep {
        BeforeGrows(str, c, k, |str|);
        BeforeHas(str, c, k - 1);
        FilterLetters(str[..k - 1], keep);
        SingleDistinct(c);
        DistinctConcat(before, [c]);
      } else {
        assert before + "" == before;
      }
    }
  }

  /** As many letters as places: no letter repeats. */
  lemma {:induction false} SizeDistinct(str: string)
    ensures |Letters(str)| <= |str| && (|Letters(str)| == |str| ==> Distinct(str))
  {
    if str != "" {
      SizeDistinct(str[1..]);
      var c, tail := str[0], str[1..];
      if c in Letters(tail) {
        assert Letters(str) == Letters(tail);
      } else {
        assert Letters(str) - {c} == Letters(tail);
        SingleDistinct(c);
        if |Letters(str)| == |str| {
          DistinctConcat([c], tail);
        }
        assert [c] + tail == str;
      }
    }
  }

  ghost predicate CountOf(m: map<char, nat>, str: string, k: nat, c: char)
    requires k <= |str|
  {
    c in m && m[c] == LettersBefore(str, {c}, k)
  }

  /** How often every letter occurs. */
  method CountChars(str: string) returns (m: map<char, nat>)
    ensures m.Keys == Letters(str)
    ensures forall c {:trigger CountOf(m, str, |str|, c)} :: c in m ==> CountOf(m, str, |str|, c)
  {
    m := map[];
    for k := 0 to |str|
      invariant m.Keys == Letters(str[..k])
      invariant forall c {:trigger CountOf(m, str, k, c)} :: c in m ==> CountOf(m, str, k, c)
    {
      ghost var before := m;
      PrefixLetters(str, k);
      BeforeHas(str, str[k], k);
      assert str[k] in m ==> CountOf(m, str, k, str[k]);
      m := m[str[k] := (if str[k] in m then m[str[k]] else 0) + 1];
      forall c {:trigger CountOf(m, str, k + 1, c)} | c in m
        ensures CountOf(m, str, k + 1, c)
      {
        assert c in before ==> CountOf(before, str, k, c);
      }
    }
    assert str[..|str|] == str;
  }

  function Repeated(str: string): set<char> {
    set c | c in Letters(str) && Occurs(str, c) > 1
  }

  /** The repeated letters, in any order. */
  method RepeatedChars(str: string, m: map<char, nat>) returns (rs: string)
    requires m.Keys == Letters(str) && forall c {:trigger CountOf(m, str, |str|, c)} :: c in m ==>
             CountOf(m, str, |str|, c)
    ensures Distinct(rs) && Letters(rs) == Repeated(str)
  {
    rs := "";
    var rest := m.Keys;
    while rest != {}
      invariant rest <= m.Keys && Distinct(rs) && Letters(rs) == Repeated(str) - rest
      decreases rest
    {
      var c :| c in rest;
      assert CountOf(m, str, |str|, c);
      if m[c] > 1 {
        SingleDistinct(c);
        DistinctConcat(rs, [c]);
        LettersConcat(rs, [c]);
        rs := rs + [c];
      }
      rest := rest - {c};
    }
  }

  /** The letters that occur once, in order. */
  method SingleChars(str: string, m: map<char, nat>) returns (ns: string)
    requires m.Keys == Letters(str) && forall c {:trigger CountOf(m, str, |str|, c)} :: c in m ==>
             CountOf(m, str, |str|, c)
    ensures ns == Filter(str, Letters(str) - Repeated(str))
  {
    ns := "";
    for k := 0 to |str|
      invariant ns == Filter(str[..k], Letters(str) - Repeated(str))
    {
      HasLetter(str, k);
      assert CountOf(m, str, |str|, str[k]);
      OccursHas(str, str[k]);
      FilterNext(str, k, Letters(str) - Repeated(str));
      if m[str[k]] == 1 {
        ns := ns + [str[k]];
      }
    }
    assert str[..|str|] == str;
  }

  // ---------------------------------------------------------------- the gather's index arrays

  /** The index array of the r-th repeated letter: it varies along axis r of the gathered shape. */
  function IndexFor(rs: string, r: nat, dims: Dims): (t: Tensor)
    requires r < |rs|
    ensures |t.shape| == |rs| - r
  {
    Reshape(Arange(dims(rs[r])), [dims(rs[r])] + Ones(|rs| - r - 1))
  }

  /** The places before k that hold a letter, in order. */
  function PlacesOf(str: string, c: char, k: nat): seq<nat>
    requires k <= |str|
  {
    if k == 0 then [] else PlacesOf(str, c, k - 1) + if str[k - 1] == c then [k - 1] else []
  }

  lemma {:induction false} PlacesOfOk(str: string, c: char, k: nat)
    requires k <= |str|
    ensures |PlacesOf(str, c, k)| == LettersBefore(str, {c}, k)
    ensures forall i :: 0 <= i < |PlacesOf(str, c, k)| ==>
            PlacesOf(str, c, k)[i] < k && str[PlacesOf(str, c, k)[i]] == c
  {
    if k > 0 {
      PlacesOfOk(str, c, k - 1);
    }
  }

  lemma {:induction false} PlacesOfHas(str: string, c: char, k: nat, a: nat)
    requires a < k <= |str| && str[a] == c
    ensures Where<nat>(PlacesOf(str, c, k), a) < |PlacesOf(str, c, k)|
  {
    if a == k - 1 {
      WhereFirst<nat>(PlacesOf(str, c, k), |PlacesOf(str, c, k)| - 1);
    } else {
      PlacesOfHas(str, c, k - 1, a);
      WhereConcat<nat>(PlacesOf(str, c, k - 1), if str[k - 1] == c then [k - 1] else [], a);
    }
  }

  ghost predicate IndexOk(axes: seq<nat>, indices: seq<Tensor>, str: string, rs: string, r: nat, dims: Dims, i: nat)
    requires i < |axes| == |indices| && r <= |rs|
  {
    axes[i] < |str| && Where(rs, str[axes[i]]) < r && indices[i] == IndexFor(rs, Where(rs, str[axes[i]]), dims)
  }

  ghost predicate AxisOk(axes: seq<nat>, str: string, rs: string, r: nat, a: nat)
    requires a < |str|
  {
    Where(rs, str[a]) < r ==> Where<nat>(axes, a) < |axes|
  }

  /** The first r repeated letters have their axes and index arrays. */
  ghost predicate Indexed(axes: seq<nat>, indices: seq<Tensor>, str: string, rs: string, r: nat, dims: Dims)
    requires r <= |rs|
  {
    && |axes| == |indices|
    && (forall i: nat {:trigger IndexOk(axes, indices, str, rs, r, dims, i)} :: i < |axes| ==>
        IndexOk(axes, indices, str, rs, r, dims, i))
    && (forall a: nat {:trigger AxisOk(axes, str, rs, r, a)} :: a < |str| ==> AxisOk(axes, str, rs, r, a))
    && (r > 0 ==> |axes| > 0 && axes[0] < |str| && str[axes[0]] == rs[0])
  }

  function SliceSizes(str: string, rs: string, r: nat, dims: Dims): (s: seq<nat>)
    ensures |s| == |str| && forall a {:trigger s[a]} :: 0 <= a < |str| ==>
            s[a] == if Where(rs, str[a]) < r then 1 else dims(str[a])
  {
    seq(|str|, a requires 0 <= a < |str| => if Where(rs, str[a]) < r then 1 else dims(str[a]))
  }

  lemma IndexedNext(axes: seq<nat>, indices: seq<Tensor>, str: string, rs: string, r: nat, dims: Dims, more: seq<nat>,
                    copies: seq<Tensor>)
    requires Distinct(rs) && r < |rs| && rs[r] in Letters(str) && Indexed(axes, indices, str, rs, r, dims)
    requires more == PlacesOf(str, rs[r], |str|) && |copies| == |more|
    requires forall i :: 0 <= i < |copies| ==> copies[i] == IndexFor(rs, r, dims)
    ensures Indexed(axes + more, indices + copies, str, rs, r + 1, dims)
  {
    var axes1, indices1 := axes + more, indices + copies;
    PlacesOfOk(str, rs[r], |str|);
    OccursHas(str, rs[r]);
    assert FreshAt(rs, r);
    forall i: nat {:trigger IndexOk(axes1, indices1, str, rs, r + 1, dims, i)} | i < |axes1|
      ensures IndexOk(axes1, indices1, str, rs, r + 1, dims, i)
    {
      if i < |axes| {
        assert IndexOk(axes, indices, str, rs, r, dims, i);
      } else {
        assert more[i - |axes|] < |str| && str[more[i - |axes|]] == rs[r];
      }
    }
    forall a: nat {:trigger AxisOk(axes1, str, rs, r + 1, a)} | a < |str|
      ensures AxisOk(axes1, str, rs, r + 1, a)
    {
      WhereConcat<nat>(axes, more, a);
      assert AxisOk(axes, str, rs, r, a);
      if Where(rs, str[a]) == r {
        PlacesOfHas(str, rs[r], |str|, a);
      }
    }
    assert r > 0 || |axes| == 0 by {
      assert |axes| > 0 ==> IndexOk(axes, indices, str, rs, r, dims, 0);
    }
  }

  /** Builds the axes, index arrays and slice sizes of the gather. */
  method GatherArguments(t: Tensor, str: string, rs: string, counts: map<char, nat>, ghost dims: Dims)
    returns (axes: seq<nat>, indices: seq<Tensor>, slice: seq<nat>)
    requires Labelled(t, str, dims) && Distinct(rs) && Letters(rs) <= Letters(str) == counts.Keys
    requires forall c {:trigger CountOf(counts, str, |str|, c)} :: c in counts ==> CountOf(counts, str, |str|, c)
    ensures Indexed(axes, indices, str, rs, |rs|, dims) && slice == SliceSizes(str, rs, |rs|, dims)
  {
    slice, axes, indices := t.shape, [], [];
    var nExpand := |rs|;
    for r := 0 to |rs|
      invariant Indexed(axes, indices, str, rs, r, dims) && slice == SliceSizes(str, rs, r, dims) && nExpand == |rs| - r
    {
      HasLetter(rs, r);
      var more, slice1 := AxesOfRepeat(slice, str, rs, r, dims);
      slice := slice1;
      PlacesOfOk(str, rs[r], |str|);
      OccursHas(str, rs[r]);
      var n := t.shape[more[|more| - 1]];
      var idxShape := Ones(nExpand);
      nExpand := nExpand - 1;
      idxShape := idxShape[0 := n];
      assert idxShape == [n] + Ones(nExpand);
      var idx := Reshape(Arange(n), idxShape);
      assert CountOf(counts, str, |str|, rs[r]);
      var copies: seq<Tensor> := [];
      for i := 0 to counts[rs[r]]
        invariant |copies| == i && forall j :: 0 <= j < i ==> copies[j] == idx
      {
        copies := copies + [idx];
      }
      IndexedNext(axes, indices, str, rs, r, dims, more, copies);
      axes, indices := axes + more, indices + copies;
    }
  }

  /** The axes of one repeated letter, whose slices get size 1. */
  method AxesOfRepeat(slice: seq<nat>, str: string, rs: string, r: nat, ghost dims: Dims)
    returns (more: seq<nat>, slice1: seq<nat>)
    requires Distinct(rs) && r < |rs| && slice == SliceSizes(str, rs, r, dims)
    ensures more == PlacesOf(str, rs[r], |str|) && slice1 == SliceSizes(str, rs, r + 1, dims)
  {
    more, slice1 := [], slice;
    assert FreshAt(rs, r);
    for i := 0 to |str|
      invariant more == PlacesOf(str, rs[r], i) && |slice1| == |str|
      invariant forall a {:trigger slice1[a]} :: 0 <= a < |str| ==>
                slice1[a] == if Where(rs, str[a]) < r || (a < i && str[a] == rs[r]) then 1 else dims(str[a])
    {
      if str[i] == rs[r] {
        slice1 := slice1[i := 1];
        more := more + [i];
      }
    }
    forall a | 0 <= a < |str|
      ensures slice1[a] == SliceSizes(str, rs, r + 1, dims)[a]
    {
      assert Where(rs, str[a]) == r <==> str[a] == rs[r];
    }
    assert slice1 == SliceSizes(str, rs, r + 1, dims);
  }

  // ---------------------------------------------------------------- the gathered shape

  lemma {:induction false} MaxRankIs(ts: seq<Tensor>, m: nat)
    requires forall j :: 0 <= j < |ts| ==> |ts[j].shape| <= m
    ensures MaxRank(ts) <= m
    ensures forall j :: 0 <= j < |ts| ==> |ts[j].shape| <= MaxRank(ts)
  {
    if |ts| > 0 {
      MaxRankIs(ts[..|ts| - 1], m);
      assert forall j :: 0 <= j < |ts| - 1 ==> ts[..|ts| - 1][j] == ts[j];
    }
  }

  lemma {:induction false} JointDimIs(ts: seq<Tensor>, m: nat, k: nat, d: nat)
    requires forall j :: 0 <= j < |ts| ==> AlignedDim(ts[j].shape, m, k) == 1 || AlignedDim(ts[j].shape, m, k) == d
    ensures JointDim(ts, m, k) == 1 || JointDim(ts, m, k) == d
    ensures (exists j :: 0 <= j < |ts| && AlignedDim(ts[j].shape, m, k) == d) ==> JointDim(ts, m, k) == d
  {
    if |ts| > 0 {
      var front := ts[..|ts| - 1];
      assert forall j :: 0 <= j < |front| ==> front[j] == ts[j];
      JointDimIs(front, m, k, d);
    }
  }

  lemma AlignedIndexDim(rs: string, r: nat, k: nat, dims: Dims)
    requires r < |rs| && k < |rs|
    ensures AlignedDim(IndexFor(rs, r, dims).shape, |rs|, k) == if k == r then dims(rs[r]) else 1
  {
    OnesSize(|rs| - r - 1);
  }

  /** The place of one of a letter's axes. */
  lemma AxisOfLetter(axes: seq<nat>, indices: seq<Tensor>, str: string, rs: string, r: nat, dims: Dims) returns (j: nat)
    requires Distinct(rs) && r < |rs| && Letters(rs) <= Letters(str) && Indexed(axes, indices, str, rs, |rs|, dims)
    ensures j < |axes| == |indices| && indices[j] == IndexFor(rs, r, dims)
  {
    HasLetter(rs, r);
    InLetters(str, rs[r]);
    var a := Where(str, rs[r]);
    assert FreshAt(rs, r);
    assert AxisOk(axes, str, rs, |rs|, a);
    j := Where<nat>(axes, a);
    assert IndexOk(axes, indices, str, rs, |rs|, dims, j);
  }

  /** The index arrays broadcast to one axis per repeated letter. */
  lemma IndicesBroadcast(axes: seq<nat>, indices: seq<Tensor>, str: string, rs: string, dims: Dims)
    requires Distinct(rs) && rs != "" && Letters(rs) <= Letters(str) && Indexed(axes, indices, str, rs, |rs|, dims)
    ensures MaxRank(indices) == |rs| && |indices[0].shape| == |rs|
    ensures forall j :: 0 <= j < |indices| ==> |indices[j].shape| <= |rs|
    ensures forall k :: 0 <= k < |rs| ==> JointDim(indices, |rs|, k) == dims(rs[k])
  {
    forall j: nat | j < |indices|
      ensures |indices[j].shape| <= |rs|
    {
      assert IndexOk(axes, indices, str, rs, |rs|, dims, j);
    }
    MaxRankIs(indices, |rs|);
    assert IndexOk(axes, indices, str, rs, |rs|, dims, 0);
    assert FreshAt(rs, 0);
    forall k: nat | k < |rs|
      ensures JointDim(indices, |rs|, k) == dims(rs[k])
    {
      JointLetter(axes, indices, str, rs, dims, k);
    }
  }

  lemma JointLetter(axes: seq<nat>, indices: seq<Tensor>, str: string, rs: string, dims: Dims, k: nat)
    requires Distinct(rs) && k < |rs| && Letters(rs) <= Letters(str) && Indexed(axes, indices, str, rs, |rs|, dims)
    ensures JointDim(indices, |rs|, k) == dims(rs[k])
  {
    forall j: nat | j < |indices|
      ensures AlignedDim(indices[j].shape, |rs|, k) == 1 || AlignedDim(indices[j].shape, |rs|, k) == dims(rs[k])
    {
      assert IndexOk(axes, indices, str, rs, |rs|, dims, j);
      AlignedIndexDim(rs, Where(rs, str[axes[j]]), k, dims);
    }
    var j := AxisOfLetter(axes, indices, str, rs, k, dims);
    AlignedIndexDim(rs, k, k, dims);
    JointDimIs(indices, |rs|, k, dims(rs[k]));
  }

  // ---------------------------------------------------------------- the gathered elements

  lemma ClipOnes(d: nat, cut: seq<int>, n: nat)
    requires |cut| == n + 1 && 0 <= cut[0] < d
    ensures Clip(cut, [d] + Ones(n)) == [cut[0]] + Zeros(n)
  {
    OnesSize(n);
  }

  /** An arange reshaped to a leading axis holds the leading index. */
  lemma LeadingAxisAt(d: nat, v: int, n: nat)
    requires 0 <= v < d
    ensures Reshape(Arange(d), [d] + Ones(n)).at([v] + Zeros(n)) == v
  {
    RavelOnes([d], [v], n);
    ReshapeAt(Arange(d), [d] + Ones(n), [v] + Zeros(n), [v]);
  }

  /** What a tensor with one leading axis and size-1 axes holds at a longer index. */
  lemma AlignedLeading(t: Tensor, i: seq<int>, d: nat, n: nat)
    requires t.shape == [d] + Ones(n) && |i| > n && 0 <= i[|i| - n - 1] < d
    ensures AlignedAt(t, i) == t.at([i[|i| - n - 1]] + Zeros(n))
  {
    var cut := i[|i| - n - 1..];
    ClipOnes(d, cut, n);
  }

  /** An index array holds the value of its letter. */
  lemma IndexForAt(rs: string, r: nat, dims: Dims, env: Assignment)
    requires r < |rs| && InRange(env, Letters(rs), dims)
    ensures AlignedAt(IndexFor(rs, r, dims), Index(rs, env)) == Get(env, rs[r])
  {
    HasLetter(rs, r);
    var n := |rs| - r - 1;
    AlignedLeading(IndexFor(rs, r, dims), Index(rs, env), dims(rs[r]), n);
    LeadingAxisAt(dims(rs[r]), Get(env, rs[r]), n);
  }

  /** An assignment with the repeated letters at 0. */
  function Zeroed(env: Assignment, s: set<char>): Assignment {
    map c | c in env :: if c in s then 0 else env[c]
  }

  lemma GatherAt(t: Tensor, axes: seq<nat>, indices: seq<Tensor>, str: string, rs: string, dims: Dims, env: Assignment)
    requires Labelled(t, str, dims) && Distinct(rs) && rs != "" && Letters(rs) <= Letters(str)
             && Indexed(axes, indices, str, rs, |rs|, dims)
    requires InRange(env, Letters(str), dims)
    ensures forall j :: 0 <= j < |indices| ==> |indices[j].shape| <= MaxRank(indices)
    ensures Gather(t, indices, axes,
            SliceSizes(str, rs, |rs|, dims)).at(Index(rs, env) + Index(str, Zeroed(env, Letters(rs))))
                == Val(t, str, env)
  {
    IndicesBroadcast(axes, indices, str, rs, dims);
    var m, idx := |rs|, Index(rs, env) + Index(str, Zeroed(env, Letters(rs)));
    assert idx[..m] == Index(rs, env);
    var full := seq(|t.shape|, a requires 0 <= a < |t.shape| =>
                                 idx[m + a] + if Where<nat>(axes,
                                     a) < |axes| then AlignedAt(indices[Where<nat>(axes, a)], idx[..m]) else 0);
    forall a: nat | a < |str|
      ensures full[a] == Get(env, str[a])
    {
      GatherEntry(axes, indices, str, rs, dims, env, a);
    }
    assert full == Index(str, env);
  }

  lemma GatherEntry(axes: seq<nat>, indices: seq<Tensor>, str: string, rs: string, dims: Dims, env: Assignment, a: nat)
    requires Distinct(rs) && Letters(rs) <= Letters(str) && Indexed(axes, indices, str, rs, |rs|, dims) && a < |str|
    requires InRange(env, Letters(str), dims) && forall j :: 0 <= j < |indices| ==> |indices[j].shape| <= |rs|
    ensures Get(Zeroed(env, Letters(rs)), str[a])
            + (if Where<nat>(axes, a) < |axes| then AlignedAt(indices[Where<nat>(axes, a)], Index(rs, env)) else 0)
                == Get(env, str[a])
  {
    HasLetter(str, a);
    InLetters(rs, str[a]);
    assert AxisOk(axes, str, rs, |rs|, a);
    var j := Where<nat>(axes, a);
    if j < |axes| {
      assert IndexOk(axes, indices, str, rs, |rs|, dims, j);
      IndexForAt(rs, Where(rs, str[a]), dims, env);
    }
  }

  // ---------------------------------------------------------------- squeezing

  ghost predicate ShiftedAxes(axes: set<nat>, str: string, rs: string) {
    forall k: nat {:trigger k in axes} :: k in axes <==> |rs| <= k < |rs| + |str| && str[k - |rs|] in Letters(rs)
  }

  lemma {:induction false} KeptTail(p: seq<nat>, str: string, rs: string, dims: Dims, axes: set<nat>, a: nat)
    requires |p| == |rs| && ShiftedAxes(axes, str, rs) && a <= |str|
    ensures Kept(p + SliceSizes(str, rs, |rs|, dims), axes, |rs| + a)
            == ShapeOf(Filter(str[a..], Letters(str) - Letters(rs)), dims)
    decreases |str| - a
  {
    if a < |str| {
      KeptTail(p, str, rs, dims, axes, a + 1);
      HasLetter(str, a);
      InLetters(rs, str[a]);
      assert str[a..][1..] == str[a + 1..] && str[a..][0] == str[a];
      assert |rs| + a + 1 == |rs| + (a + 1);
    }
  }

  lemma {:induction false} KeptHead(shape: seq<nat>, axes: set<nat>, k: nat, m: nat)
    requires k <= m <= |shape| && forall a: nat :: k <= a < m ==> a !in axes
    ensures Kept(shape, axes, k) == shape[k..m] + Kept(shape, axes, m)
    decreases m - k
  {
    if k < m {
      KeptHead(shape, axes, k + 1, m);
      PrependSlice(shape, k, m, Kept(shape, axes, m));
    } else {
      assert shape[k..m] + Kept(shape, axes, m) == Kept(shape, axes, m);
    }
  }

  lemma PrependSlice<T>(s: seq<T>, k: nat, m: nat, rest: seq<T>)
    requires k < m <= |s|
    ensures s[k..m] + rest == [s[k]] + (s[k + 1..m] + rest)
  {
  }

  lemma {:induction false} UnsqueezeTail(str: string, rs: string, env: Assignment, axes: set<nat>, a: nat)
    requires ShiftedAxes(axes, str, rs) && a <= |str|
    ensures Unsqueeze(|rs| + |str|, axes, |rs| + a, Index(Filter(str[a..], Letters(str) - Letters(rs)), env))
            == Index(str[a..], Zeroed(env, Letters(rs)))
    decreases |str| - a
  {
    if a < |str| {
      UnsqueezeTail(str, rs, env, axes, a + 1);
      HasLetter(str, a);
      var c, rest := str[a], Filter(str[a + 1..], Letters(str) - Letters(rs));
      assert str[a..][1..] == str[a + 1..] && str[a..][0] == c;
      assert |rs| + a + 1 == |rs| + (a + 1);
      assert str[a..] == [c] + str[a + 1..];
      IndexConcat([c], str[a + 1..], Zeroed(env, Letters(rs)));
      IndexConcat([c], rest, env);
      assert Index([c], env) == [Get(env, c)]
             && Index([c], Zeroed(env, Letters(rs))) == [Get(Zeroed(env, Letters(rs)), c)];
      assert |rs| + a in axes <==> c in Letters(rs);
      if c !in Letters(rs) {
        assert Filter(str[a..], Letters(str) - Letters(rs)) == [c] + rest;
        assert ([Get(env, c)] + Index(rest, env))[1..] == Index(rest, env);
      } else {
        assert Filter(str[a..], Letters(str) - Letters(rs)) == rest;
      }
    } else {
      assert str[a..] == "";
    }
  }

  lemma {:induction false} UnsqueezeHead(n: nat, axes: set<nat>, k: nat, head: seq<int>, rest: seq<int>)
    requires k + |head| <= n && forall a: nat :: k <= a < k + |head| ==> a !in axes
    ensures Unsqueeze(n, axes, k, head + rest) == head + Unsqueeze(n, axes, k + |head|, rest)
    decreases |head|
  {
    if head == [] {
      assert head + rest == rest;
    } else {
      UnsqueezeHead(n, axes, k + 1, head[1..], rest);
      assert (head + rest)[1..] == head[1..] + rest;
      assert [head[0]] + head[1..] == head;
    }
  }

  /** Squeezing the gathered tensor leaves the repeated letters, then the others. */
  lemma SqueezeShape(g: Tensor, axes: set<nat>, str: string, rs: string, dims: Dims)
    requires g.shape == ShapeOf(rs, dims) + SliceSizes(str, rs, |rs|, dims) && ShiftedAxes(axes, str, rs)
    ensures Labelled(Squeeze(g, axes), rs + Filter(str, Letters(str) - Letters(rs)), dims)
  {
    assert str[0..] == str;
    KeptTail(ShapeOf(rs, dims), str, rs, dims, axes, 0);
    KeptHead(g.shape, axes, 0, |rs|);
    ShapeConcat(rs, Filter(str, Letters(str) - Letters(rs)), dims);
    assert g.shape[0..|rs|] == ShapeOf(rs, dims);
  }

  lemma SqueezeVal(g: Tensor, axes: set<nat>, str: string, rs: string, env: Assignment)
    requires |g.shape| == |rs| + |str| && ShiftedAxes(axes, str, rs)
    ensures Val(Squeeze(g, axes), rs + Filter(str, Letters(str) - Letters(rs)), env)
            == g.at(Index(rs, env) + Index(str, Zeroed(env, Letters(rs))))
  {
    var ns := Filter(str, Letters(str) - Letters(rs));
    assert str[0..] == str;
    UnsqueezeTail(str, rs, env, axes, 0);
    UnsqueezeHead(|rs| + |str|, axes, 0, Index(rs, env), Index(ns, env));
    IndexConcat(rs, ns, env);
  }

  // ---------------------------------------------------------------- collapse_repeats

  /** Shifts axes past the gathered index axes. */
  method ShiftAll(axes: seq<nat>, shift: nat) returns (r: set<nat>)
    ensures r == (set i | 0 <= i < |axes| :: axes[i] + shift)
  {
    r := {};
    for k := 0 to |axes|
      invariant r == (set i | 0 <= i < k :: axes[i] + shift)
    {
      r := r + {axes[k] + shift};
    }
  }

  /** One axis per letter, and the same value at every assignment. */
  method CollapseRepeats(t: Tensor, sub: Subscript, ghost dims: Dims) returns (r: Tensor, sub1: Subscript)
    requires SubOk(sub) && Labelled(t, sub.str, dims) && |sub.letters| < |sub.str|
    ensures DistinctSub(sub1) && sub1.letters == sub.letters && Labelled(r, sub1.str, dims)
    ensures forall env :: InRange(env, sub.letters, dims) ==> Val(r, sub1.str, env) == Val(t, sub.str, env)
  {
    var str := sub.str;
    var counts := CountChars(str);
    var rs := RepeatedChars(str, counts);
    var ns := SingleChars(str, counts);
    CollapsedLetters(str, rs, ns);
    var axes, indices, slice := GatherArguments(t, str, rs, counts, dims);
    IndicesBroadcast(axes, indices, str, rs, dims);
    var g := Gather(t, indices, axes, slice);
    var squeezed := ShiftAll(axes, |indices[0].shape|);
    AllShifted(axes, indices, str, rs, dims, squeezed);
    r := Squeeze(g, squeezed);
    sub1 := Subscript(rs + ns, sub.letters);
    assert g.shape == ShapeOf(rs, dims) + slice;
    SqueezeShape(g, squeezed, str, rs, dims);
    forall env | InRange(env, sub.letters, dims)
      ensures Val(r, sub1.str, env) == Val(t, sub.str, env)
    {
      SqueezeVal(g, squeezed, str, rs, env);
      GatherAt(t, axes, indices, str, rs, dims, env);
    }
  }

  lemma CollapsedLetters(str: string, rs: string, ns: string)
    requires |Letters(str)| < |str| && Distinct(rs) && Letters(rs) == Repeated(str)
             && ns == Filter(str, Letters(str) - Repeated(str))
    ensures rs != "" && Distinct(rs + ns) && Letters(rs + ns) == Letters(str)
  {
    forall c | c in Letters(str) - Repeated(str)
      ensures Occurs(str, c) <= 1
    {
    }
    OnceDistinct(str, Letters(str) - Repeated(str), |str|);
    assert str[..|str|] == str;
    FilterLetters(str, Letters(str) - Repeated(str));
    DistinctConcat(rs, ns);
    LettersConcat(rs, ns);
    if rs == "" {
      FilterAll(str, Letters(str) - Repeated(str));
      DistinctSize(str);
    }
  }

  lemma AllShifted(axes: seq<nat>, indices: seq<Tensor>, str: string, rs: string, dims: Dims, squeezed: set<nat>)
    requires Indexed(axes, indices, str, rs, |rs|, dims)
    requires squeezed == (set i | 0 <= i < |axes| :: axes[i] + |rs|)
    ensures ShiftedAxes(squeezed, str, rs)
  {
    forall k: nat
      ensures k in squeezed <==> |rs| <= k < |rs| + |str| && str[k - |rs|] in Letters(rs)
    {
      if k in squeezed {
        var i: nat :| i < |axes| && axes[i] + |rs| == k;
        assert IndexOk(axes, indices, str, rs, |rs|, dims, i);
        InLetters(rs, str[k - |rs|]);
      }
      if |rs| <= k < |rs| + |str| && str[k - |rs|] in Letters(rs) {
        InLetters(rs, str[k - |rs|]);
        assert AxisOk(axes, str, rs, |rs|, k - |rs|);
        assert axes[Where<nat>(axes, k - |rs|)] + |rs| == k;
      }
    }
  }
}
