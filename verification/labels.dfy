/**
 Tensors whose axes carry letters, and what the array operations do to the value at an assignment.
 */
module Labels {
  import opened Sums
  import opened Tensors

  function Get(env: Assignment, c: char): int {
    if c in env then env[c] else 0
  }

  function Index(str: string, env: Assignment): (r: seq<int>)
    ensures |r| == |str| && forall i {:trigger r[i]} :: 0 <= i < |str| ==> r[i] == Get(env, str[i])
  {
    seq(|str|, i requires 0 <= i < |str| => Get(env, str[i]))
  }

  /** The element of a labelled tensor at an assignment. */
  function Val(t: Tensor, str: string, env: Assignment): int {
    t.at(Index(str, env))
  }

  ghost function Values(t: Tensor, str: string): Assignment -> int {
    e => Val(t, str, e)
  }

  function Letters(str: string): set<char> {
    if str == "" then {} else {str[0]} + Letters(str[1..])
  }

  lemma {:induction false} InLetters(str: string, c: char)
    ensures c in Letters(str) <==> Where(str, c) < |str|
  {
    if str != "" {
      InLetters(str[1..], c);
      WhereConcat([str[0]], str[1..], c);
      assert [str[0]] + str[1..] == str;
    }
  }

  lemma HasLetter(str: string, i: nat)
    requires i < |str|
    ensures str[i] in Letters(str)
  {
    WhereFirst(str, i);
    InLetters(str, str[i]);
  }

  function ShapeOf(str: string, dims: Dims): (r: seq<nat>)
    ensures |r| == |str| && forall i {:trigger r[i]} :: 0 <= i < |str| ==> r[i] == dims(str[i])
  {
    seq(|str|, i requires 0 <= i < |str| => dims(str[i]))
  }

  /** Every axis has the size of its letter. */
  ghost predicate Labelled(t: Tensor, str: string, dims: Dims) {
    t.shape == ShapeOf(str, dims)
  }

  lemma IndexAgree(str: string, e1: Assignment, e2: Assignment)
    requires AgreeOn(e1, e2, Letters(str))
    ensures Index(str, e1) == Index(str, e2)
  {
    forall i | 0 <= i < |str|
      ensures Index(str, e1)[i] == Index(str, e2)[i]
    {
      HasLetter(str, i);
    }
  }

  lemma ValidAt(str: string, dims: Dims, env: Assignment)
    requires InRange(env, Letters(str), dims)
    ensures ValidIndex(Index(str, env), ShapeOf(str, dims))
  {
    forall i | 0 <= i < |str|
      ensures 0 <= Index(str, env)[i] < ShapeOf(str, dims)[i]
    {
      HasLetter(str, i);
    }
  }

  // ---------------------------------------------------------------- strings of letters

  lemma IndexConcat(s: string, t: string, env: Assignment)
    ensures Index(s + t, env) == Index(s, env) + Index(t, env)
  {
  }

  lemma ShapeConcat(s: string, t: string, dims: Dims)
    ensures ShapeOf(s + t, dims) == ShapeOf(s, dims) + ShapeOf(t, dims)
  {
  }

  lemma {:induction false} LettersConcat(s: string, t: string)
    ensures Letters(s + t) == Letters(s) + Letters(t)
  {
    if s == "" {
      assert s + t == t;
    } else {
      LettersConcat(s[1..], t);
      assert (s + t)[1..] == s[1..] + t;
    }
  }

  lemma DistinctConcat(s: string, t: string)
    requires Distinct(s) && Distinct(t) && Letters(s) !! Letters(t)
    ensures Distinct(s + t)
  {
    forall i: nat {:trigger FreshAt(s + t, i)} | i < |s + t|
      ensures FreshAt(s + t, i)
    {
      WhereConcat(s, t, (s + t)[i]);
      if i < |s| {
        assert FreshAt(s, i);
      } else {
        assert FreshAt(t, i - |s|);
        HasLetter(t, i - |s|);
        InLetters(s, t[i - |s|]);
      }
    }
  }

  lemma DistinctTail(s: string)
    requires s != "" && Distinct(s)
    ensures Distinct(s[1..]) && s[0] !in Letters(s[1..])
    ensures Letters(s) - {s[0]} == Letters(s[1..])
  {
    forall i: nat {:trigger FreshAt(s[1..], i)} | i < |s| - 1
      ensures FreshAt(s[1..], i)
    {
      assert FreshAt(s, i + 1);
      WhereConcat([s[0]], s[1..], s[i + 1]);
      assert [s[0]] + s[1..] == s;
    }
    InLetters(s[1..], s[0]);
    var k := Where(s[1..], s[0]);
    assert k < |s| - 1 ==> FreshAt(s, k + 1);
  }

  lemma PrefixLetters(str: string, k: nat)
    requires k < |str|
    ensures Letters(str[..k + 1]) == Letters(str[..k]) + {str[k]}
  {
    assert str[..k + 1] == str[..k] + [str[k]];
    LettersConcat(str[..k], [str[k]]);
    SingleDistinct(str[k]);
  }

  /** A distinct string has one place per letter. */
  lemma {:induction false} DistinctSize(s: string)
    requires Distinct(s)
    ensures |Letters(s)| == |s|
  {
    if s != "" {
      DistinctTail(s);
      DistinctSize(s[1..]);
      assert Letters(s) == {s[0]} + Letters(s[1..]);
    }
  }

  // ---------------------------------------------------------------- choosing letters

  function Filter(str: string, keep: set<char>): string {
    if str == "" then "" else (if str[0] in keep then [str[0]] else "") + Filter(str[1..], keep)
  }

  lemma {:induction false} FilterLetters(str: string, keep: set<char>)
    ensures Letters(Filter(str, keep)) == Letters(str) * keep
  {
    if str != "" {
      FilterLetters(str[1..], keep);
      LettersConcat(if str[0] in keep then [str[0]] else "", Filter(str[1..], keep));
      SingleDistinct(str[0]);
    }
  }

  lemma {:induction false} FilterDistinct(str: string, keep: set<char>)
    requires Distinct(str)
    ensures Distinct(Filter(str, keep))
  {
    if str != "" {
      DistinctTail(str);
      FilterDistinct(str[1..], keep);
      FilterLetters(str[1..], keep);
      SingleDistinct(str[0]);
      DistinctConcat(if str[0] in keep then [str[0]] else "", Filter(str[1..], keep));
    }
  }

  lemma {:induction false} FilterAll(str: string, keep: set<char>)
    requires Letters(str) <= keep
    ensures Filter(str, keep) == str
  {
    if str != "" {
      FilterAll(str[1..], keep);
    }
  }

  lemma SingleDistinct(c: char)
    ensures Distinct([c]) && Distinct("") && Letters([c]) == {c}
  {
    assert FreshAt([c], 0);
  }

  // ---------------------------------------------------------------- transpose

  /** The places in `str` of the letters of `order`. */
  function Places(str: string, order: string): (r: seq<nat>)
    ensures |r| == |order| && forall k {:trigger r[k]} :: 0 <= k < |order| ==> r[k] == Where(str, order[k])
  {
    seq(|order|, k requires 0 <= k < |order| => Where(str, order[k]))
  }

  lemma PlaceBack(str: string, order: string, k: nat)
    requires Letters(order) <= Letters(str) && k < |order|
    ensures Where(str, order[k]) < |str|
  {
    HasLetter(order, k);
    InLetters(str, order[k]);
  }

  /** Where the letter at place `a` of `str` went. */
  lemma PlaceForth(str: string, order: string, a: nat)
    requires Distinct(str) && Letters(str) <= Letters(order) && a < |str|
    ensures Where(order, str[a]) < |order| && Places(str, order)[Where(order, str[a])] == a
  {
    HasLetter(str, a);
    InLetters(order, str[a]);
    assert FreshAt(str, a);
  }

  lemma PlacesFresh(str: string, order: string, k: nat)
    requires Distinct(order) && Letters(order) <= Letters(str) && k < |order|
    ensures FreshAt<nat>(Places(str, order), k)
  {
    var perm := Places(str, order);
    WhereFirst<nat>(perm, k);
    var j := Where<nat>(perm, perm[k]);
    PlaceBack(str, order, j);
    PlaceBack(str, order, k);
    assert FreshAt(order, j) && FreshAt(order, k);
  }

  lemma PlacesPermute(str: string, order: string)
    requires Distinct(str) && Distinct(order) && Letters(str) == Letters(order)
    ensures |str| == |order| && IsPermutation(Places(str, order), |str|)
  {
    DistinctSize(str);
    DistinctSize(order);
    var perm := Places(str, order);
    forall k: nat {:trigger FreshAt<nat>(perm, k)} | k < |order|
      ensures FreshAt<nat>(perm, k)
    {
      PlacesFresh(str, order, k);
    }
    forall k: nat | k < |order|
      ensures perm[k] < |str|
    {
      PlaceBack(str, order, k);
    }
    forall a: nat {:trigger Listed(perm, a)} | a < |str|
      ensures Listed(perm, a)
    {
      PlaceForth(str, order, a);
      WhereFirst<nat>(perm, Where(order, str[a]));
    }
  }

  /** Reordering the axes of a tensor reorders its letters: the value at an assignment stays. */
  lemma TransposeVal(t: Tensor, str: string, order: string, dims: Dims)
    requires Labelled(t, str, dims) && Distinct(str) && Distinct(order) && Letters(str) == Letters(order)
    ensures IsPermutation(Places(str, order), |t.shape|)
    ensures Labelled(Transpose(t, Places(str, order)), order, dims)
    ensures forall env :: Val(Transpose(t, Places(str, order)), order, env) == Val(t, str, env)
  {
    PlacesPermute(str, order);
    var perm := Places(str, order);
    forall k | 0 <= k < |order|
      ensures t.shape[perm[k]] == dims(order[k])
    {
      PlaceBack(str, order, k);
    }
    assert Transpose(t, perm).shape == ShapeOf(order, dims);
    forall env {:trigger Index(order, env)}
      ensures Val(Transpose(t, perm), order, env) == Val(t, str, env)
    {
      UntransposeIndex(str, order, env);
    }
  }

  lemma UntransposeIndex(str: string, order: string, env: Assignment)
    requires Distinct(str) && Distinct(order) && Letters(str) == Letters(order)
    ensures Untranspose(Places(str, order), Index(order, env), |str|) == Index(str, env)
  {
    var perm, idx := Places(str, order), Index(order, env);
    forall a: nat | a < |str|
      ensures Untranspose(perm, idx, |str|)[a] == Get(env, str[a])
    {
      PlaceForth(str, order, a);
      WhereFirst<nat>(perm, Where(order, str[a]));
      var k := Where<nat>(perm, a);
      PlaceBack(str, order, k);
    }
    assert Untranspose(perm, idx, |str|) == Index(str, env);
  }

  // ---------------------------------------------------------------- sums over axes

  /** The axes of the letters in `gone`. */
  function AxesOf(str: string, gone: set<char>): (r: set<nat>)
    ensures forall k: nat {:trigger k in r} :: k in r <==> k < |str| && str[k] in gone
  {
    set k: nat | k < |str| && str[k] in gone
  }

  lemma {:induction false} KeptShape(str: string, gone: set<char>, dims: Dims, k: nat)
    requires k <= |str|
    ensures Kept(ShapeOf(str, dims), AxesOf(str, gone), k) == ShapeOf(Filter(str[k..], Letters(str) - gone), dims)
    decreases |str| - k
  {
    if k < |str| {
      KeptShape(str, gone, dims, k + 1);
      HasLetter(str, k);
      assert str[k..][1..] == str[k + 1..] && str[k..][0] == str[k];
    }
  }

  lemma SliceLetters(str: string, k: nat)
    requires Distinct(str) && k < |str|
    ensures str[k] !in Letters(str[..k]) && Letters(str[k..]) - {str[k]} == Letters(str[k + 1..])
    ensures str[k] in Letters(str[k..])
  {
    SliceDistinct(str, k);
    DistinctTail(str[k..]);
    assert str[k..][1..] == str[k + 1..];
    WhereConcat(str[..k], str[k..], str[k]);
    assert str[..k] + str[k..] == str;
    assert FreshAt(str, k);
    InLetters(str[..k], str[k]);
  }

  lemma SliceDistinct(str: string, k: nat)
    requires Distinct(str) && k <= |str|
    ensures Distinct(str[k..])
  {
    forall i: nat {:trigger FreshAt(str[k..], i)} | i < |str| - k
      ensures FreshAt(str[k..], i)
    {
      WhereConcat(str[..k], str[k..], str[k + i]);
      assert str[..k] + str[k..] == str;
      assert FreshAt(str, k + i);
      WhereFirst(str[k..], i);
    }
  }

  lemma {:induction false} SumFromVal(t: Tensor, str: string, gone: set<char>, dims: Dims, env: Assignment, k: nat)
    requires Labelled(t, str, dims) && Distinct(str) && k <= |str|
    ensures SumFrom(t, AxesOf(str, gone), Index(str[..k], env), Index(Filter(str[k..], Letters(str) - gone), env))
            == SumLetters(Letters(str[k..]) * gone, dims, env, Values(t, str))
    decreases |str| - k
  {
    var axes, keep, f := AxesOf(str, gone), Letters(str) - gone, Values(t, str);
    if k == |str| {
      assert str[..k] == str && Letters(str[k..]) * gone == {};
    } else {
      var c := str[k];
      SliceLetters(str, k);
      HasLetter(str, k);
      assert str[k..][1..] == str[k + 1..] && str[k..][0] == c;
      assert str[..k + 1] == str[..k] + [c];
      if c in gone {
        SumStep(t, str, gone, dims, env, k);
      } else {
        SumFromVal(t, str, gone, dims, env, k + 1);
        assert Index(str[..k + 1], env) == Index(str[..k], env) + [Get(env, c)];
        IndexConcat([c], Filter(str[k + 1..], keep), env);
        assert Letters(str[k..]) * gone == Letters(str[k + 1..]) * gone;
      }
    }
  }

  lemma {:induction false} SumStep(t: Tensor, str: string, gone: set<char>, dims: Dims, env: Assignment, k: nat)
    requires Labelled(t, str, dims) && Distinct(str) && k < |str| && str[k] in gone
    ensures SumFrom(t, AxesOf(str, gone), Index(str[..k], env), Index(Filter(str[k..], Letters(str) - gone), env))
            == SumLetters(Letters(str[k..]) * gone, dims, env, Values(t, str))
    decreases |str| - k, 0
  {
    var axes, keep, f, c := AxesOf(str, gone), Letters(str) - gone, Values(t, str), str[k];
    var pre, idx := Index(str[..k], env), Index(Filter(str[k..], keep), env);
    SliceLetters(str, k);
    assert str[k..][1..] == str[k + 1..] && str[k..][0] == c;
    var s := Letters(str[k..]) * gone;
    assert s - {c} == Letters(str[k + 1..]) * gone;
    SumPick(s, c, dims, env, f);
    forall v {:trigger env[c := v]} | 0 <= v < dims(c)
      ensures SumFrom(t, axes, pre + [v], idx) == SumLetters(s - {c}, dims, env[c := v], f)
    {
      SumFromVal(t, str, gone, dims, env[c := v], k + 1);
      SumIndices(str, keep, env, k, v);
    }
    SumSame(dims(c), v => SumFrom(t, axes, pre + [v], idx), v => SumLetters(s - {c}, dims, env[c := v], f));
  }

  lemma SumIndices(str: string, keep: set<char>, env: Assignment, k: nat, v: int)
    requires Distinct(str) && k < |str| && str[k] !in keep
    ensures Index(str[..k + 1], env[str[k] := v]) == Index(str[..k], env) + [v]
    ensures Index(Filter(str[k + 1..], keep), env[str[k] := v]) == Index(Filter(str[k..], keep), env)
  {
    var c := str[k];
    SliceLetters(str, k);
    assert str[k..][1..] == str[k + 1..] && str[k..][0] == c;
    FilterLetters(str[k + 1..], keep);
    IndexAgree(Filter(str[k + 1..], keep), env[c := v], env);
    IndexAgree(str[..k], env[c := v], env);
    assert str[..k + 1] == str[..k] + [c];
    IndexConcat(str[..k], [c], env[c := v]);
  }

  /** Summing out axes is summing over their letters. */
  lemma SumAxesVal(t: Tensor, str: string, gone: set<char>, dims: Dims, env: Assignment)
    requires Labelled(t, str, dims) && Distinct(str)
    ensures Labelled(SumAxes(t, AxesOf(str, gone)), Filter(str, Letters(str) - gone), dims)
    ensures Val(SumAxes(t, AxesOf(str, gone)), Filter(str, Letters(str) - gone), env)
            == SumLetters(Letters(str) * gone, dims, env, Values(t, str))
  {
    KeptShape(str, gone, dims, 0);
    SumFromVal(t, str, gone, dims, env, 0);
    assert str[0..] == str && Index(str[..0], env) == [];
  }

  // ---------------------------------------------------------------- flattened sums

  /** `env` with the letters of a string at the given indices. */
  ghost function Assign(env: Assignment, str: string, idx: seq<int>): Assignment
    requires |str| == |idx|
    decreases |str|
  {
    if str == "" then env else Assign(env[str[0] := idx[0]], str[1..], idx[1..])
  }

  ghost function At(env: Assignment, str: string, dims: Dims, l: int): Assignment {
    UnravelLength(ShapeOf(str, dims), l);
    Assign(env, str, Unravel(ShapeOf(str, dims), l))
  }

  /** The sum over the row-major positions of a string's axes. */
  ghost function FlatTotal(str: string, dims: Dims, env: Assignment, f: Assignment -> int): int {
    Sum(Size(ShapeOf(str, dims)), l => f(At(env, str, dims, l)))
  }

  /** Summing over row-major positions is summing over the letters. */
  lemma {:induction false} FlatSum(str: string, dims: Dims, env: Assignment, f: Assignment -> int)
    requires Distinct(str)
    ensures FlatTotal(str, dims, env, f) == SumLetters(Letters(str), dims, env, f)
    decreases |str|
  {
    if str == "" {
      var g := (l: int) => f(At(env, str, dims, l));
      assert Sum(1, g) == Sum(0, g) + g(0);
      assert At(env, str, dims, 0) == env;
      assert FlatTotal(str, dims, env, f) == Sum(1, g);
    } else {
      var c, rest := str[0], str[1..];
      DistinctTail(str);
      SumPick(Letters(str), c, dims, env, f);
      FlatRows(str, dims, env, f);
      forall v {:trigger env[c := v]} | 0 <= v < dims(c)
        ensures FlatTotal(rest, dims, env[c := v], f) == SumLetters(Letters(str) - {c}, dims, env[c := v], f)
      {
        FlatSum(rest, dims, env[c := v], f);
      }
      SumSame(dims(c), v => FlatTotal(rest, dims, env[c := v], f),
          v => SumLetters(Letters(str) - {c}, dims, env[c := v], f));
      assert FlatTotal(str, dims, env, f) == Sum(dims(c), v => FlatTotal(rest, dims, env[c := v], f));
      assert SumLetters(Letters(str), dims, env, f)
             == Sum(dims(c), v => SumLetters(Letters(str) - {c}, dims, env[c := v], f));
    }
  }

  /** The positions of a shape, row by row. */
  lemma FlatRows(str: string, dims: Dims, env: Assignment, f: Assignment -> int)
    requires str != ""
    ensures FlatTotal(str, dims, env, f) == Sum(dims(str[0]), v => FlatTotal(str[1..], dims, env[str[0] := v], f))
  {
    var c, n := str[0], Size(ShapeOf(str[1..], dims));
    var g := (l: int) => f(At(env, str, dims, l));
    assert ShapeOf(str, dims)[1..] == ShapeOf(str[1..], dims);
    SumRows(dims(c), n, g);
    forall v {:trigger env[c := v]} | 0 <= v < dims(c)
      ensures Sum(n, j => g(v * n + j)) == FlatTotal(str[1..], dims, env[c := v], f)
    {
      FlatRow(str, dims, env, f, v);
      SumSame(n, j => g(v * n + j), j => f(At(env, str, dims, v * n + j)));
    }
    SumSame(dims(c), v => Sum(n, j => g(v * n + j)), v => FlatTotal(str[1..], dims, env[c := v], f));
  }

  lemma FlatRow(str: string, dims: Dims, env: Assignment, f: Assignment -> int, v: int)
    requires str != "" && 0 <= v
    ensures var n := Size(ShapeOf(str[1..], dims));
            Sum(n, j => f(At(env, str, dims, v * n + j))) == FlatTotal(str[1..], dims, env[str[0] := v], f)
  {
    var shape, rest := ShapeOf(str, dims), ShapeOf(str[1..], dims);
    assert shape[1..] == rest;
    var n := Size(rest);
    forall j {:trigger At(env[str[0] := v], str[1..], dims, j)} | 0 <= j < n
      ensures At(env, str, dims, v * n + j) == At(env[str[0] := v], str[1..], dims, j)
    {
      DivOf(v, n, j);
      var u := Unravel(shape, v * n + j);
      UnravelLength(rest, j);
      assert u[0] == v && u[1..] == Unravel(rest, j);
    }
    SumSame(n, j => f(At(env, str, dims, v * n + j)), j => f(At(env[str[0] := v], str[1..], dims, j)));
  }
}
