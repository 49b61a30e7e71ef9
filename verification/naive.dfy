/**
 The executor's naive nodes: every operand is spread over all letters in one canonical order, the
 operands are multiplied with broadcasting, and the letters outside the output are summed out.
 */
module Naive {
  import opened Sums
  import opened Tensors
  import opened Labels
  import opened Subscripts
  import opened Products

  // ---------------------------------------------------------------- numbering every letter

  /** All subscripts, one after the other. */
  function Joined(inputs: seq<Subscript>): string {
    if inputs == [] then "" else Joined(inputs[..|inputs| - 1]) + inputs[|inputs| - 1].str
  }

  /** `order` has the letters of `all` by their first occurrences. */
  ghost predicate ByFirst(order: string, all: string) {
    && Letters(order) == Letters(all)
    && forall i, j {:trigger order[i], order[j]} :: 0 <= i < j < |order| ==>
         Where<char>(all, order[i]) < Where<char>(all, order[j])
  }

  /** Reading one more letter appends it to the order unless it is known. */
  lemma ByFirstNext(order: string, all: string, c: char, order2: string)
    requires ByFirst(order, all) && order2 == if c in Letters(order) then order else order + [c]
    ensures ByFirst(order2, all + [c])
  {
    LettersConcat(all, [c]);
    LettersConcat(order, [c]);
    SingleDistinct(c);
    forall k | 0 <= k < |order|
      ensures Where<char>(all + [c], order[k]) == Where<char>(all, order[k]) < |all|
    {
      HasLetter(order, k);
      InLetters(all, order[k]);
      WhereConcat<char>(all, [c], order[k]);
    }
    if c !in Letters(order) {
      InLetters(all, c);
      WhereConcat<char>(all, [c], c);
      assert forall k :: 0 <= k < |order| ==> order2[k] == order[k];
    }
  }

  /** Gives every letter of the inputs an axis number, in the order of first occurrence. */
  method CharToAx(inputs: seq<Subscript>) returns (m: map<char, nat>, ghost order: string)
    requires forall i :: 0 <= i < |inputs| ==> SubOk(inputs[i])
    ensures Numbers(m, order) && ByFirst(order, Joined(inputs)) && Letters(order) == LettersOf(inputs)
  {
    m, order := map[], "";
    for i := 0 to |inputs|
      invariant Numbers(m, order) && ByFirst(order, Joined(inputs[..i])) && Letters(order) == LettersOf(inputs[..i])
    {
      assert SubOk(inputs[i]);
      m, order := NumberString(inputs[i].str, m, order, Joined(inputs[..i]));
      assert inputs[..i + 1][..i] == inputs[..i];
    }
    assert inputs[..|inputs|] == inputs;
  }

  method NumberString(str: string, m0: map<char, nat>, ghost order0: string, ghost all: string)
    returns (m: map<char, nat>, ghost order: string)
    requires Numbers(m0, order0) && ByFirst(order0, all)
    ensures Numbers(m, order) && ByFirst(order, all + str) && Letters(order) == Letters(order0) + Letters(str)
  {
    m, order := m0, order0;
    assert all + str[..0] == all;
    for k := 0 to |str|
      invariant Numbers(m, order) && ByFirst(order, all + str[..k])
    {
      ghost var before := order;
      m, order := InsertLetter(m, str[k], order);
      ByFirstNext(before, all + str[..k], str[k], order);
      assert all + str[..k] + [str[k]] == all + str[..k + 1];
    }
    assert str[..|str|] == str;
    LettersConcat(all, str);
  }

  // ---------------------------------------------------------------- spreading one operand

  /** The letters of a set that a map numbers, in any order. */
  method MissingLetters(m: map<char, nat>, letters: set<char>) returns (r: string)
    ensures Distinct(r) && Letters(r) == m.Keys - letters
  {
    r := "";
    var rest := m.Keys;
    while rest != {}
      invariant rest <= m.Keys && Distinct(r) && Letters(r) == (m.Keys - rest) - letters
      decreases rest
    {
      var c :| c in rest;
      if c !in letters {
        SingleDistinct(c);
        DistinctConcat(r, [c]);
        LettersConcat(r, [c]);
        r := r + [c];
      }
      rest := rest - {c};
    }
  }

  /** The places of the letters of `chars`, sorted by the letters' numbers. */
  method SortByNumber(chars: string, m: map<char, nat>, ghost order: string) returns (reorder: seq<nat>)
    requires Numbers(m, order) && Distinct(chars) && Letters(chars) == Letters(order)
    ensures reorder == Places(chars, order)
  {
    DistinctSize(chars);
    DistinctSize(order);
    reorder := seq(|chars|, k => 0);
    for j := 0 to |chars|
      invariant |reorder| == |order| == |chars|
      invariant forall k {:trigger reorder[k]} :: 0 <= k < |order| && Where(chars, order[k]) < j ==>
                reorder[k] == Where(chars, order[k])
    {
      HasLetter(chars, j);
      InLetters(order, chars[j]);
      assert NumberOf(m, order, chars[j]);
      assert FreshAt(chars, j);
      reorder := reorder[m[chars[j]] := j];
      forall k: nat {:trigger reorder[k]} | k < |order| && Where(chars, order[k]) < j + 1
        ensures reorder[k] == Where(chars, order[k])
      {
        assert FreshAt(order, k);
      }
    }
    forall k: nat | k < |order|
      ensures reorder[k] == Where(chars, order[k])
    {
      PlaceBack(chars, order, k);
    }
    assert reorder == Places(chars, order);
  }

  method IsAscending(s: seq<nat>) returns (r: bool)
    ensures r <==> forall k :: 0 <= k < |s| - 1 ==> s[k] <= s[k + 1]
  {
    for k := 0 to |s| - if |s| == 0 then 0 else 1
      invariant forall j :: 0 <= j < k ==> s[j] <= s[j + 1]
    {
      if s[k] > s[k + 1] {
        return false;
      }
    }
    r := true;
  }

  ghost predicate StrictlyAscending(s: seq<nat>) {
    forall k :: 0 <= k < |s| - 1 ==> s[k] < s[k + 1]
  }

  lemma PermutationStrict(perm: seq<nat>)
    requires IsPermutation(perm, |perm|) && forall k :: 0 <= k < |perm| - 1 ==> perm[k] <= perm[k + 1]
    ensures StrictlyAscending(perm)
  {
    forall k: nat | k < |perm| - 1
      ensures perm[k] < perm[k + 1]
    {
      assert FreshAt<nat>(perm, k + 1);
      WhereFirst<nat>(perm, k);
    }
  }

  lemma {:induction false} AscendingAbove(s: seq<nat>, k: nat)
    requires StrictlyAscending(s) && k < |s|
    ensures k <= s[k]
  {
    if k > 0 {
      AscendingAbove(s, k - 1);
      assert s[k - 1] < s[k - 1 + 1];
    }
  }

  lemma {:induction false} AscendingBelow(s: seq<nat>, k: nat)
    requires StrictlyAscending(s) && k < |s| && forall j: nat :: j < |s| ==> s[j] < |s|
    ensures s[k] <= k
    decreases |s| - k
  {
    if k + 1 < |s| {
      AscendingBelow(s, k + 1);
    }
  }

  /** An ascending permutation leaves everything in place. */
  lemma AscendingIsIdentity(chars: string, order: string)
    requires Distinct(chars) && Distinct(order) && Letters(chars) == Letters(order)
    requires forall k :: 0 <= k < |order| - 1 ==> Places(chars, order)[k] <= Places(chars, order)[k + 1]
    ensures chars == order
  {
    PlacesPermute(chars, order);
    var perm := Places(chars, order);
    PermutationStrict(perm);
    forall j: nat | j < |order|
      ensures chars[j] == order[j]
    {
      AscendingAbove(perm, j);
      AscendingBelow(perm, j);
      PlaceBack(chars, order, j);
    }
  }

  /** The sizes of an operand spread over all letters: 1 for letters it does not have. */
  function SpreadDims(str: string, dims: Dims): Dims {
    c => if c in Letters(str) then dims(c) else 1
  }

  function Project(str: string, env: Assignment): Assignment {
    map c | c in env :: if c in Letters(str) then env[c] else 0
  }

  /** `t1` is `t` with an axis for every letter of `order`. */
  ghost predicate Spread(t1: Tensor, t: Tensor, str: string, order: string, dims: Dims) {
    && Labelled(t1, order, SpreadDims(str, dims))
    && forall env :: InRange(env, Letters(order), dims) ==> t1.at(Clip(Index(order, env), t1.shape)) == Val(t, str, env)
  }

  /** The letters a spread operand lacks have size 1 and index 0. */
  lemma MissingAxes(str: string, missing: string, dims: Dims, env: Assignment)
    requires Letters(str) !! Letters(missing) && InRange(env, Letters(str) + Letters(missing), dims)
    ensures ShapeOf(str + missing, SpreadDims(str, dims)) == ShapeOf(str, dims) + Ones(|missing|)
    ensures Index(str + missing, Project(str, env)) == Index(str, env) + Zeros(|missing|)
  {
    OnesSize(|missing|);
    ShapeConcat(str, missing, SpreadDims(str, dims));
    IndexConcat(str, missing, Project(str, env));
    forall i | 0 <= i < |str|
      ensures ShapeOf(str, SpreadDims(str, dims))[i] == dims(str[i])
              && Index(str, Project(str, env))[i] == Get(env, str[i])
    {
      HasLetter(str, i);
    }
    forall i | 0 <= i < |missing|
      ensures ShapeOf(missing, SpreadDims(str, dims))[i] == 1 && Index(missing, Project(str, env))[i] == 0
    {
      HasLetter(missing, i);
    }
    assert ShapeOf(str, SpreadDims(str, dims)) == ShapeOf(str, dims)
           && ShapeOf(missing, SpreadDims(str, dims)) == Ones(|missing|);
    assert Index(str, Project(str, env)) == Index(str, env) && Index(missing, Project(str, env)) == Zeros(|missing|);
  }

  /** Clipping to a spread operand's shape is forgetting the letters it lacks. */
  lemma ClipIsProject(str: string, order: string, dims: Dims, env: Assignment)
    requires InRange(env, Letters(order), dims)
    ensures Clip(Index(order, env), ShapeOf(order, SpreadDims(str, dims))) == Index(order, Project(str, env))
  {
    forall i | 0 <= i < |order|
      ensures Clip(Index(order, env), ShapeOf(order, SpreadDims(str, dims)))[i] == Index(order, Project(str, env))[i]
    {
      HasLetter(order, i);
    }
  }

  /** Adds the missing axes at the end. */
  lemma ExpandVal(t: Tensor, t1: Tensor, str: string, missing: string, dims: Dims, env: Assignment)
    requires Labelled(t, str, dims) && Letters(str) !! Letters(missing)
             && InRange(env, Letters(str) + Letters(missing), dims)
    requires t1 == if missing == "" then t else Reshape(t, t.shape + Ones(|missing|))
    ensures Labelled(t1, str + missing, SpreadDims(str, dims))
    ensures Val(t1, str + missing, Project(str, env)) == Val(t, str, env)
  {
    MissingAxes(str, missing, dims, env);
    RavelOnes(t.shape, Index(str, env), |missing|);
    ValidAt(str, dims, env);
    if missing != "" {
      ReshapeAt(t, t.shape + Ones(|missing|), Index(str, env) + Zeros(|missing|), Index(str, env));
    } else {
      assert Index(str, env) + Zeros(0) == Index(str, env) && ShapeOf(str, dims) + Ones(0) == ShapeOf(str, dims);
    }
  }

  lemma SpreadVal(t: Tensor, t1: Tensor, t2: Tensor, str: string, missing: string, order: string, dims: Dims)
    requires Distinct(str) && Distinct(missing) && Distinct(order) && Letters(str) !! Letters(missing)
             && Letters(order) == Letters(str) + Letters(missing)
    requires Labelled(t, str, dims) && t1 == if missing == "" then t else Reshape(t, t.shape + Ones(|missing|))
    requires Labelled(t1, str + missing, SpreadDims(str, dims)) && Labelled(t2, order, SpreadDims(str, dims))
    requires forall env :: Val(t2, order, env) == Val(t1, str + missing, env)
    ensures Spread(t2, t, str, order, dims)
  {
    forall env | InRange(env, Letters(order), dims)
      ensures t2.at(Clip(Index(order, env), t2.shape)) == Val(t, str, env)
    {
      ExpandVal(t, t1, str, missing, dims, env);
      ClipIsProject(str, order, dims, env);
      assert Val(t2, order, Project(str, env)) == Val(t1, str + missing, Project(str, env));
    }
  }

  /** Reshapes and transposes an operand so that it has one axis per letter, in canonical order. */
  method SpreadOperand(op: Tensor, sub: Subscript, m: map<char, nat>, ghost order: string, ghost dims: Dims)
    returns (r: Tensor)
    requires Numbers(m, order) && DistinctSub(sub) && sub.letters <= Letters(order) && Labelled(op, sub.str, dims)
    ensures Spread(r, op, sub.str, order, dims)
  {
    DistinctSize(sub.str);
    DistinctSize(order);
    var missing := MissingLetters(m, sub.letters);
    var chars := sub.str + missing;
    DistinctConcat(sub.str, missing);
    LettersConcat(sub.str, missing);
    DistinctSize(chars);
    r := op;
    if |op.shape| != |m| {
      r := Reshape(op, op.shape + Ones(|m| - |op.shape|));
    }
    ghost var t1 := r;
    ExpandLabels(op, r, sub.str, missing, dims);
    var reorder := SortByNumber(chars, m, order);
    var sorted := IsAscending(reorder);
    if sorted {
      AscendingIsIdentity(chars, order);
    } else {
      TransposeVal(r, chars, order, SpreadDims(sub.str, dims));
      r := Transpose(r, reorder);
    }
    SpreadVal(op, t1, r, sub.str, missing, order, dims);
  }

  lemma ExpandLabels(t: Tensor, t1: Tensor, str: string, missing: string, dims: Dims)
    requires Labelled(t, str, dims) && Letters(str) !! Letters(missing)
    requires t1 == if missing == "" then t else Reshape(t, t.shape + Ones(|missing|))
    ensures Labelled(t1, str + missing, SpreadDims(str, dims))
  {
    OnesSize(|missing|);
    ShapeConcat(str, missing, SpreadDims(str, dims));
    forall i | 0 <= i < |str|
      ensures ShapeOf(str, SpreadDims(str, dims))[i] == dims(str[i])
    {
      HasLetter(str, i);
    }
    forall i | 0 <= i < |missing|
      ensures ShapeOf(missing, SpreadDims(str, dims))[i] == 1
    {
      HasLetter(missing, i);
    }
    assert ShapeOf(str, SpreadDims(str, dims)) == ShapeOf(str, dims)
           && ShapeOf(missing, SpreadDims(str, dims)) == Ones(|missing|);
  }

  // ---------------------------------------------------------------- multiplying the spread operands

  ghost predicate SpreadAt(ops: seq<Tensor>, positions: seq<nat>, ts: seq<Tensor>, subs: seq<Subscript>, order: string,
                           dims: Dims, i: nat)
    requires i < |subs| == |ts| == |positions|
  {
    positions[i] < |ops| && Spread(ops[positions[i]], ts[i], subs[i].str, order, dims)
  }

  /** The product of the first n operands, with an axis of size 1 for every letter none of them has. */
  ghost predicate PartialProduct(out: Tensor, ts: seq<Tensor>, subs: seq<Subscript>, order: string, dims: Dims, n: nat)
    requires n <= |subs| == |ts|
  {
    && |out.shape| == |order|
    && (forall k :: 0 <= k < |order| ==> out.shape[k] == if order[k] in LettersOf(subs[..n]) then dims(order[k]) else 1)
    && forall env :: InRange(env, Letters(order), dims) ==>
        out.at(Clip(Index(order, env), out.shape)) == Product(ts[..n], subs[..n], env)
  }

  lemma FirstProduct(op: Tensor, ts: seq<Tensor>, subs: seq<Subscript>, order: string, dims: Dims)
    requires |ts| == |subs| > 0 && SubOk(subs[0]) && Spread(op, ts[0], subs[0].str, order, dims)
    ensures PartialProduct(op, ts, subs, order, dims, 1)
  {
    assert ts[..1] == [ts[0]] && subs[..1] == [subs[0]];
    LettersOne(subs[0]);
    forall env | InRange(env, Letters(order), dims)
      ensures op.at(Clip(Index(order, env), op.shape)) == Product(ts[..1], subs[..1], env)
    {
      ProductOne(ts[0], subs[0], env);
    }
  }

  /** Clipping to a product's shape first does not change what an operand sees. */
  lemma ClipTwice(a: seq<nat>, b: seq<nat>, both: seq<nat>, idx: seq<int>)
    requires |a| == |b| == |idx| == |both|
    requires forall k :: 0 <= k < |a| ==>
             (a[k] == b[k] || a[k] == 1 || b[k] == 1) && both[k] == BroadcastDim(a[k], b[k])
    ensures Clip(Clip(idx, both), a) == Clip(idx, a) && Clip(Clip(idx, both), b) == Clip(idx, b)
  {
  }

  lemma NextProduct(out: Tensor, op: Tensor, ts: seq<Tensor>, subs: seq<Subscript>, order: string, dims: Dims, n: nat)
    requires n < |ts| == |subs| && SubOk(subs[n]) && PartialProduct(out, ts, subs, order, dims, n)
             && Spread(op, ts[n], subs[n].str, order, dims)
    ensures PartialProduct(Multiply(out, op), ts, subs, order, dims, n + 1)
  {
    var r := Multiply(out, op);
    assert ts[..n + 1][..n] == ts[..n] && subs[..n + 1][..n] == subs[..n];
    assert LettersOf(subs[..n + 1]) == LettersOf(subs[..n]) + subs[n].letters;
    forall k | 0 <= k < |order|
      ensures r.shape[k] == if order[k] in LettersOf(subs[..n + 1]) then dims(order[k]) else 1
      ensures out.shape[k] == op.shape[k] || out.shape[k] == 1 || op.shape[k] == 1
    {
      assert op.shape[k] == SpreadDims(subs[n].str, dims)(order[k]);
    }
    forall env | InRange(env, Letters(order), dims)
      ensures r.at(Clip(Index(order, env), r.shape)) == Product(ts[..n + 1], subs[..n + 1], env)
    {
      ClipTwice(out.shape, op.shape, r.shape, Index(order, env));
    }
  }

  /** The product of all operands has every letter's axis in full. */
  lemma WholeProduct(out: Tensor, ts: seq<Tensor>, subs: seq<Subscript>, order: string, dims: Dims)
    requires |ts| == |subs| && PartialProduct(out, ts, subs, order, dims, |ts|) && Letters(order) == LettersOf(subs)
    ensures Labelled(out, order, dims)
    ensures forall env :: InRange(env, Letters(order), dims) ==> Val(out, order, env) == Product(ts, subs, env)
  {
    assert ts[..|ts|] == ts && subs[..|ts|] == subs;
    forall k | 0 <= k < |order|
      ensures out.shape[k] == dims(order[k])
    {
      HasLetter(order, k);
    }
    forall env | InRange(env, Letters(order), dims)
      ensures Val(out, order, env) == Product(ts, subs, env)
    {
      ClipInRange(order, dims, env);
    }
  }

  lemma ClipInRange(order: string, dims: Dims, env: Assignment)
    requires InRange(env, Letters(order), dims)
    ensures Clip(Index(order, env), ShapeOf(order, dims)) == Index(order, env)
  {
    ValidAt(order, dims, env);
  }

  // ---------------------------------------------------------------- axes before and after summing

  function CountBelow(axes: seq<nat>, r: nat): nat {
    if |axes| == 0 then 0 else CountBelow(axes[..|axes| - 1], r) + if axes[|axes| - 1] < r then 1 else 0
  }

  lemma {:induction false} BeforePlusKept(order: string, keep: set<char>, r: nat)
    requires r <= |order|
    ensures LettersBefore(order, Letters(order) - keep, r) + |Filter(order[..r], keep)| == r
  {
    if r > 0 {
      BeforePlusKept(order, keep, r - 1);
      FilterNext(order, r - 1, keep);
      HasLetter(order, r - 1);
    }
  }

  /** After summing, a letter's axis has moved down by the summed axes before it. */
  lemma AxisAfterSum(order: string, keep: set<char>, c: char)
    requires c in Letters(order) && c in keep
    ensures Where(order, c) - LettersBefore(order, Letters(order) - keep, Where(order, c))
            == Where(Filter(order, keep), c)
  {
    InLetters(order, c);
    var r := Where(order, c);
    BeforePlusKept(order, keep, r);
    WhereNot(order, c);
    var first, rest := Filter(order[..r], keep), Filter(order[r..], keep);
    assert order[..r] + order[r..] == order && order[r..][0] == c;
    FilterConcat(order[..r], order[r..], keep);
    FilterLetters(order[..r], keep);
    WhereIs(order[..r], c, r);
    InLetters(order[..r], c);
    InLetters(first, c);
    WhereConcat(first, rest, c);
    WhereIs(rest, c, 0);
  }

  /** `axes` lists the axes of the letters of `s`. */
  ghost predicate AxesListed(axes: seq<nat>, order: string, s: set<char>) {
    && (forall a: nat :: a in axes <==> a < |order| && order[a] in s)
    && forall r: nat :: r <= |order| ==> CountBelow(axes, r) == LettersBefore(order, s, r)
  }

  lemma NoAxes(order: string)
    ensures AxesListed([], order, {})
  {
    forall r: nat | r <= |order|
      ensures LettersBefore(order, {}, r) == 0
    {
      LettersBeforeNone(order, r);
    }
  }

  lemma OneMoreAxis(axes: seq<nat>, order: string, s: set<char>, c: char)
    requires AxesListed(axes, order, s) && Distinct(order) && c in Letters(order) && c !in s
    ensures AxesListed(axes + [Where(order, c)], order, s + {c})
  {
    var more := axes + [Where(order, c)];
    InLetters(order, c);
    forall r: nat | r <= |order|
      ensures CountBelow(more, r) == LettersBefore(order, s + {c}, r)
    {
      LettersBeforeNext(order, s, c, r);
      assert more[..|axes|] == axes;
    }
    forall a: nat | a < |order| && order[a] == c
      ensures a == Where(order, c)
    {
      assert FreshAt(order, a);
    }
  }

  /** The axes of the letters that are not in the output, in any order. */
  method AxesToSum(m: map<char, nat>, out: Subscript, ghost order: string) returns (axes: seq<nat>)
    requires Numbers(m, order)
    ensures AxesListed(axes, order, Letters(order) - out.letters)
  {
    axes := [];
    var rest := m.Keys;
    ghost var done: set<char> := {};
    NoAxes(order);
    while rest != {}
      invariant rest <= m.Keys && done == (m.Keys - rest) - out.letters && AxesListed(axes, order, done)
      decreases rest
    {
      var c :| c in rest;
      rest := rest - {c};
      if c !in out.letters {
        assert NumberOf(m, order, c);
        OneMoreAxis(axes, order, done, c);
        axes := axes + [m[c]];
        done := done + {c};
      }
    }
    assert done == Letters(order) - out.letters;
  }

  /** The axes of the output letters once some axes are summed out. */
  method ShiftAxes(axes: seq<nat>, sumAxes: seq<nat>) returns (r: seq<nat>)
    requires forall k :: 0 <= k < |axes| ==> CountBelow(sumAxes, axes[k]) <= axes[k]
    ensures |r| == |axes| && forall k :: 0 <= k < |axes| ==> r[k] == axes[k] - CountBelow(sumAxes, axes[k])
  {
    r := [];
    for k := 0 to |axes|
      invariant |r| == k && forall j :: 0 <= j < k ==> r[j] == axes[j] - CountBelow(sumAxes, axes[j])
    {
      var offset := 0;
      for j := 0 to |sumAxes|
        invariant offset == CountBelow(sumAxes[..j], axes[k])
      {
        assert sumAxes[..j + 1][..j] == sumAxes[..j];
        if axes[k] > sumAxes[j] {
          offset := offset + 1;
        }
      }
      assert sumAxes[..|sumAxes|] == sumAxes;
      r := r + [axes[k] - offset];
    }
  }

  // ---------------------------------------------------------------- a naive node

  /** Whether or not there is something to sum. */
  lemma SummedVal(t: Tensor, r: Tensor, order: string, out: set<char>, dims: Dims)
    requires Labelled(t, order, dims) && Distinct(order)
    requires r == if Letters(order) <= out then t else SumAxes(t, AxesOf(order, Letters(order) - out))
    ensures Labelled(r, Filter(order, out), dims)
    ensures forall env ::
              Val(r, Filter(order, out), env) == SumLetters(Letters(order) - out, dims, env, Values(t, order))
  {
    FilterSame(order, Letters(order) - (Letters(order) - out), out);
    forall env
      ensures Val(r, Filter(order, out), env) == SumLetters(Letters(order) - out, dims, env, Values(t, order))
    {
      if Letters(order) <= out {
        FilterAll(order, out);
        assert Letters(order) - out == {};
      } else {
        SumAxesVal(t, order, Letters(order) - out, dims, env);
        assert Letters(order) * (Letters(order) - out) == Letters(order) - out;
      }
    }
    if Letters(order) <= out {
      FilterAll(order, out);
    } else {
      SumAxesVal(t, order, Letters(order) - out, dims, map[]);
    }
  }

  lemma {:induction false} FilterSame(str: string, a: set<char>, b: set<char>)
    requires forall c :: c in Letters(str) ==> (c in a <==> c in b)
    ensures Filter(str, a) == Filter(str, b)
  {
    if str != "" {
      assert str[0] in Letters(str);
      FilterSame(str[1..], a, b);
    }
  }

  /** Expands and transposes the selected operands. */
  method SpreadAll(inputs: seq<Subscript>, positions: seq<nat>, operands: seq<Tensor>, m: map<char, nat>,
                   ghost order: string, ghost ts: seq<Tensor>, ghost dims: Dims)
    returns (ops: seq<Tensor>)
    requires Selected(positions, operands, ts) && OperandsOk(ts, inputs, dims) && Numbers(m, order)
             && Letters(order) == LettersOf(inputs)
    requires forall i :: 0 <= i < |inputs| ==> DistinctSub(inputs[i])
    ensures |ops| == |operands| && forall j: nat {:trigger SpreadAt(ops, positions, ts, inputs, order, dims,
            j)} :: j < |positions| ==>
              SpreadAt(ops, positions, ts, inputs, order, dims, j)
  {
    ops := operands;
    for i := 0 to |positions|
      invariant |ops| == |operands|
      invariant forall j: nat {:trigger SpreadAt(ops, positions, ts, inputs, order, dims, j)} :: j < i ==>
                  SpreadAt(ops, positions, ts, inputs, order, dims, j)
      invariant forall j: nat {:trigger SelectedAt(positions, ops, ts, j)} :: i <= j < |positions| ==>
                SelectedAt(positions, ops, ts, j)
    {
      assert SelectedAt(positions, ops, ts, i) && OperandOk(ts[i], inputs[i], dims);
      HasLetters(inputs, i);
      var op := SpreadOperand(ops[positions[i]], inputs[i], m, order, dims);
      ghost var before := ops;
      ops := ops[positions[i] := op];
      forall j: nat {:trigger SpreadAt(ops, positions, ts, inputs, order, dims, j)} | j < i + 1
        ensures SpreadAt(ops, positions, ts, inputs, order, dims, j)
      {
        assert j < i ==> SpreadAt(before, positions, ts, inputs, order, dims, j);
      }
      forall j: nat {:trigger SelectedAt(positions, ops, ts, j)} | i + 1 <= j < |positions|
        ensures SelectedAt(positions, ops, ts, j)
      {
        assert SelectedAt(positions, before, ts, j);
      }
    }
  }

  /** The result of a naive node holds, at every assignment, the direct sum of products. */
  method EinsumNaive(inputs: seq<Subscript>, output: Subscript, positions: seq<nat>, operands: seq<Tensor>,
                     ghost ts: seq<Tensor>, ghost dims: Dims)
    returns (r: Tensor)
    requires Selected(positions, operands, ts) && |ts| > 0 && OperandsOk(ts, inputs, dims)
    requires DistinctSub(output) && output.letters <= LettersOf(inputs)
    requires forall i :: 0 <= i < |inputs| ==> DistinctSub(inputs[i])
    ensures Labelled(r, output.str, dims)
    ensures forall env :: InRange(env, output.letters, dims) ==>
            Val(r, output.str, env) == Total(ts, inputs, output.letters, dims, env)
  {
    var charToAx, order := CharToAx(inputs);
    var ops := SpreadAll(inputs, positions, operands, charToAx, order, ts, dims);
    assert SpreadAt(ops, positions, ts, inputs, order, dims, 0);
    var out := ops[positions[0]];
    FirstProduct(out, ts, inputs, order, dims);
    for i := 1 to |positions|
      invariant PartialProduct(out, ts, inputs, order, dims, i)
    {
      assert SpreadAt(ops, positions, ts, inputs, order, dims, i);
      NextProduct(out, ops[positions[i]], ts, inputs, order, dims, i);
      out := Multiply(out, ops[positions[i]]);
    }
    WholeProduct(out, ts, inputs, order, dims);
    r := SumAndOrder(out, output, charToAx, order, dims);
    NaiveTotal(out, ts, inputs, output.letters, order, dims);
  }

  lemma NaiveTotal(t: Tensor, ts: seq<Tensor>, inputs: seq<Subscript>, out: set<char>, order: string, dims: Dims)
    requires |ts| == |inputs| && Letters(order) == LettersOf(inputs)
    requires forall env :: InRange(env, Letters(order), dims) ==> Val(t, order, env) == Product(ts, inputs, env)
    ensures forall env :: InRange(env, out, dims) ==>
              SumLetters(Letters(order) - out, dims, env, Values(t, order)) == Total(ts, inputs, out, dims, env)
  {
    forall env | InRange(env, out, dims)
      ensures SumLetters(Letters(order) - out, dims, env, Values(t, order)) == Total(ts, inputs, out, dims, env)
    {
      forall e | Varies(e, env, Letters(order) - out, dims)
        ensures Values(t, order)(e) == ProductFn(ts, inputs)(e)
      {
        assert InRange(e, Letters(order), dims);
      }
      SumLettersSame(Letters(order) - out, dims, env, Values(t, order), ProductFn(ts, inputs));
    }
  }

  /** Sums the letters outside the output and puts the rest in the output's order. */
  method SumAndOrder(t: Tensor, output: Subscript, m: map<char, nat>, ghost order: string, ghost dims: Dims)
    returns (r: Tensor)
    requires Numbers(m, order) && DistinctSub(output) && output.letters <= Letters(order) && Labelled(t, order, dims)
    ensures Labelled(r, output.str, dims)
    ensures forall env ::
              Val(r, output.str, env) == SumLetters(Letters(order) - output.letters, dims, env, Values(t, order))
  {
    var sumAxes := AxesToSum(m, output, order);
    r := t;
    NothingToSum(order, output.letters, sumAxes);
    if sumAxes != [] {
      var axes := set a: nat | a in sumAxes;
      assert axes == AxesOf(order, Letters(order) - output.letters);
      r := SumAxes(t, axes);
    }
    SummedVal(t, r, order, output.letters, dims);
    var reorder := LookUp(m, output.str, order);
    ghost var kept := Filter(order, output.letters);
    ShiftedPlaces(order, output.str, output.letters, sumAxes, reorder);
    reorder := ShiftAxes(reorder, sumAxes);
    assert reorder == Places(kept, output.str);
    FilterDistinct(order, output.letters);
    FilterLetters(order, output.letters);
    TransposeVal(r, kept, output.str, dims);
    r := Transpose(r, reorder);
  }

  lemma NothingToSum(order: string, out: set<char>, axes: seq<nat>)
    requires AxesListed(axes, order, Letters(order) - out)
    ensures axes == [] <==> Letters(order) <= out
  {
    if axes != [] {
      assert axes[0] in axes;
      HasLetter(order, axes[0]);
    } else {
      forall c | c in Letters(order)
        ensures c in out
      {
        InLetters(order, c);
        assert Where<char>(order, c) !in axes;
      }
    }
  }

  lemma ShiftedPlaces(order: string, str: string, out: set<char>, sumAxes: seq<nat>, reorder: seq<nat>)
    requires Letters(str) == out <= Letters(order) && reorder == Places(order, str)
    requires AxesListed(sumAxes, order, Letters(order) - out)
    ensures forall k :: 0 <= k < |str| ==> CountBelow(sumAxes, reorder[k]) <= reorder[k]
                                            && reorder[k] - CountBelow(sumAxes, reorder[k])
                                                == Where(Filter(order, out), str[k])
  {
    forall k: nat | k < |str|
      ensures CountBelow(sumAxes, reorder[k]) <= reorder[k]
              && reorder[k] - CountBelow(sumAxes, reorder[k]) == Where(Filter(order, out), str[k])
    {
      HasLetter(str, k);
      AxisAfterSum(order, out, str[k]);
    }
  }
}
