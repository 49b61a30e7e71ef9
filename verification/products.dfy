/**
 The product of labelled operands at an assignment, the quantity every einsum sums.
 */
module Products {
  import opened Sums
  import opened Tensors
  import opened Labels
  import opened Subscripts

  ghost function Product(ts: seq<Tensor>, subs: seq<Subscript>, env: Assignment): int
    requires |ts| == |subs|
    decreases |ts|
  {
    if |ts| == 0 then 1
    else
      var n := |ts| - 1;
      Product(ts[..n], subs[..n], env) * Val(ts[n], subs[n].str, env)
  }

  ghost function ProductFn(ts: seq<Tensor>, subs: seq<Subscript>): Assignment -> int
    requires |ts| == |subs|
  {
    e => Product(ts, subs, e)
  }

  function LettersOf(subs: seq<Subscript>): set<char> {
    if |subs| == 0 then {} else LettersOf(subs[..|subs| - 1]) + subs[|subs| - 1].letters
  }

  ghost predicate OperandOk(t: Tensor, s: Subscript, dims: Dims) {
    SubOk(s) && Labelled(t, s.str, dims)
  }

  /** Every operand has its subscript's axes. */
  ghost predicate OperandsOk(ts: seq<Tensor>, subs: seq<Subscript>, dims: Dims) {
    |ts| == |subs| && forall i {:trigger subs[i]} :: 0 <= i < |ts| ==> OperandOk(ts[i], subs[i], dims)
  }

  lemma SubsOk(ts: seq<Tensor>, subs: seq<Subscript>, dims: Dims)
    requires OperandsOk(ts, subs, dims)
    ensures forall j :: 0 <= j < |subs| ==> SubOk(subs[j])
  {
    forall j | 0 <= j < |subs|
      ensures SubOk(subs[j])
    {
      assert OperandOk(ts[j], subs[j], dims);
    }
  }

  /** The sum the operands stand for, over all letters but those of `out`. */
  ghost function Total(ts: seq<Tensor>, subs: seq<Subscript>, out: set<char>, dims: Dims, env: Assignment): int
    requires |ts| == |subs|
  {
    SumLetters(LettersOf(subs) - out, dims, env, ProductFn(ts, subs))
  }

  lemma {:induction false} HasLetters(subs: seq<Subscript>, i: nat)
    requires i < |subs|
    ensures subs[i].letters <= LettersOf(subs)
    decreases |subs|
  {
    if i < |subs| - 1 {
      HasLetters(subs[..|subs| - 1], i);
    }
  }

  lemma {:induction false} FindLetters(subs: seq<Subscript>, c: char) returns (i: nat)
    requires c in LettersOf(subs)
    ensures i < |subs| && c in subs[i].letters
    decreases |subs|
  {
    if c in subs[|subs| - 1].letters {
      i := |subs| - 1;
    } else {
      i := FindLetters(subs[..|subs| - 1], c);
    }
  }

  lemma {:induction false} LettersOfConcat(s: seq<Subscript>, t: seq<Subscript>)
    ensures LettersOf(s + t) == LettersOf(s) + LettersOf(t)
    decreases |t|
  {
    if |t| == 0 {
      assert s + t == s;
    } else {
      LettersOfConcat(s, t[..|t| - 1]);
      assert (s + t)[..|s + t| - 1] == s + t[..|t| - 1];
    }
  }

  lemma {:induction false} ProductConcat(ts: seq<Tensor>, subs: seq<Subscript>, ts2: seq<Tensor>,
                                         subs2: seq<Subscript>, env: Assignment)
    requires |ts| == |subs| && |ts2| == |subs2|
    ensures Product(ts + ts2, subs + subs2, env) == Product(ts, subs, env) * Product(ts2, subs2, env)
    decreases |ts2|
  {
    if |ts2| == 0 {
      assert ts + ts2 == ts && subs + subs2 == subs;
    } else {
      var n := |ts2| - 1;
      ProductConcat(ts, subs, ts2[..n], subs2[..n], env);
      assert (ts + ts2)[..|ts + ts2| - 1] == ts + ts2[..n] && (subs + subs2)[..|ts + ts2| - 1] == subs + subs2[..n];
      MulAssoc(Product(ts, subs, env), Product(ts2[..n], subs2[..n], env), Val(ts2[n], subs2[n].str, env));
    }
  }

  lemma ProductOne(t: Tensor, s: Subscript, env: Assignment)
    ensures Product([t], [s], env) == Val(t, s.str, env) && LettersOf([s]) == s.letters
  {
    assert Product([t][..0], [s][..0], env) == 1;
    assert LettersOf([s][..0]) == {};
  }

  /** A factor in the middle taken out. */
  lemma ProductAround(t1: seq<Tensor>, s1: seq<Subscript>, t: Tensor, s: Subscript, t2: seq<Tensor>,
                      s2: seq<Subscript>, env: Assignment)
    requires |t1| == |s1| && |t2| == |s2|
    ensures Product(t1 + ([t] + t2), s1 + ([s] + s2), env) == Product(t1 + t2, s1 + s2, env) * Val(t, s.str, env)
  {
    ProductConcat(t1, s1, [t] + t2, [s] + s2, env);
    ProductConcat([t], [s], t2, s2, env);
    ProductConcat(t1, s1, t2, s2, env);
    ProductOne(t, s, env);
    Commute(Product(t1, s1, env), Val(t, s.str, env), Product(t2, s2, env));
  }

  lemma Around<T>(s: seq<T>, i: nat)
    requires i < |s|
    ensures s == s[..i] + ([s[i]] + s[i + 1..])
  {
  }

  /** One factor taken out. */
  lemma ProductSplit(ts: seq<Tensor>, subs: seq<Subscript>, i: nat, env: Assignment)
    requires |ts| == |subs| && i < |ts|
    ensures Product(ts, subs, env) == Product(Without(ts, i), Without(subs, i), env) * Val(ts[i], subs[i].str, env)
  {
    Around(ts, i);
    Around(subs, i);
    ProductAround(ts[..i], subs[..i], ts[i], subs[i], ts[i + 1..], subs[i + 1..], env);
  }

  lemma Commute(a: int, b: int, c: int)
    ensures a * (b * c) == (a * c) * b
  {
  }

  function Without<T>(s: seq<T>, i: nat): (r: seq<T>)
    requires i < |s|
    ensures |r| == |s| - 1
  {
    s[..i] + s[i + 1..]
  }

  lemma LettersAround(s1: seq<Subscript>, s: Subscript, s2: seq<Subscript>)
    ensures LettersOf(s1 + ([s] + s2)) == LettersOf(s1 + s2) + s.letters
  {
    LettersOfConcat(s1, [s] + s2);
    LettersOfConcat([s], s2);
    LettersOfConcat(s1, s2);
    LettersOne(s);
  }

  lemma LettersOne(s: Subscript)
    ensures LettersOf([s]) == s.letters
  {
    assert LettersOf([s][..0]) == {};
  }

  lemma LettersSplit(subs: seq<Subscript>, i: nat)
    requires i < |subs|
    ensures LettersOf(subs) == LettersOf(Without(subs, i)) + subs[i].letters
  {
    Around(subs, i);
    LettersAround(subs[..i], subs[i], subs[i + 1..]);
  }

  lemma {:induction false} ProductAgree(ts: seq<Tensor>, subs: seq<Subscript>, e1: Assignment, e2: Assignment)
    requires |ts| == |subs| && AgreeOn(e1, e2, LettersOf(subs)) && forall i :: 0 <= i < |subs| ==> SubOk(subs[i])
    ensures Product(ts, subs, e1) == Product(ts, subs, e2)
    decreases |ts|
  {
    if |ts| > 0 {
      var n := |ts| - 1;
      ProductAgree(ts[..n], subs[..n], e1, e2);
      IndexAgree(subs[n].str, e1, e2);
    }
  }

  lemma ProductsDepend(ts: seq<Tensor>, subs: seq<Subscript>)
    requires |ts| == |subs| && forall i :: 0 <= i < |subs| ==> SubOk(subs[i])
    ensures DependsOn(ProductFn(ts, subs), LettersOf(subs))
  {
    var f := ProductFn(ts, subs);
    forall e1, e2 {:trigger f(e1), f(e2)} | AgreeOn(e1, e2, LettersOf(subs))
      ensures f(e1) == f(e2)
    {
      ProductAgree(ts, subs, e1, e2);
    }
  }

  /** An operand can be replaced by its sum over letters that occur in no other operand and not in the output. */
  lemma ReplaceOne(ts: seq<Tensor>, subs: seq<Subscript>, i: nat, t: Tensor, s: Subscript, out: set<char>, dims: Dims,
                   env: Assignment)
    requires |ts| == |subs| && i < |ts| && (forall j :: 0 <= j < |subs| ==> SubOk(subs[j])) && SubOk(s)
    requires s.letters <= subs[i].letters && subs[i].letters * (LettersOf(Without(subs, i)) + out) <= s.letters
    requires PartialSum(Values(t, s.str), s.letters, Values(ts[i], subs[i].str), subs[i].letters, dims)
    requires InRange(env, out, dims)
    ensures Total(ts[i := t], subs[i := s], out, dims, env) == Total(ts, subs, out, dims, env)
  {
    var ts0, subs0 := Without(ts, i), Without(subs, i);
    var rest, whole, part := ProductFn(ts0, subs0), Values(ts[i], subs[i].str), Values(t, s.str);
    ProductsDepend(ts0, subs0);
    ContractFactor(rest, LettersOf(subs0), whole, subs[i].letters, part, s.letters, out, dims, env);
    SplitTotal(ts, subs, i, out, dims, env);
    assert Without(ts[i := t], i) == ts0 && Without(subs[i := s], i) == subs0;
    SplitTotal(ts[i := t], subs[i := s], i, out, dims, env);
  }

  lemma SplitTotal(ts: seq<Tensor>, subs: seq<Subscript>, i: nat, out: set<char>, dims: Dims, env: Assignment)
    requires |ts| == |subs| && i < |ts|
    ensures Total(ts, subs, out, dims, env)
            == SumLetters((LettersOf(Without(subs, i)) + subs[i].letters) - out, dims, env,
                          e => ProductFn(Without(ts, i), Without(subs, i))(e) * Values(ts[i], subs[i].str)(e))
  {
    LettersSplit(subs, i);
    var f := (e: Assignment) => ProductFn(Without(ts, i), Without(subs, i))(e) * Values(ts[i], subs[i].str)(e);
    forall e {:trigger ProductFn(ts, subs)(e)}
      ensures ProductFn(ts, subs)(e) == f(e)
    {
      ProductSplit(ts, subs, i, e);
      var ts0, subs0 := Without(ts, i), Without(subs, i);
      assert ProductFn(ts0, subs0)(e) == Product(ts0, subs0, e);
      assert Values(ts[i], subs[i].str)(e) == Val(ts[i], subs[i].str, e);
      assert f(e) == Product(ts0, subs0, e) * Val(ts[i], subs[i].str, e);
    }
    SumLettersSame(LettersOf(subs) - out, dims, env, ProductFn(ts, subs), f);
  }

  // ---------------------------------------------------------------- operands at positions

  ghost predicate SelectedAt(positions: seq<nat>, operands: seq<Tensor>, ts: seq<Tensor>, i: nat)
    requires i < |positions| == |ts|
  {
    positions[i] < |operands| && operands[positions[i]] == ts[i]
  }

  /** `ts` are the operands at increasing positions. */
  ghost predicate Selected(positions: seq<nat>, operands: seq<Tensor>, ts: seq<Tensor>) {
    && |positions| == |ts|
    && (forall i: nat {:trigger SelectedAt(positions, operands, ts, i)} :: i < |ts| ==>
        SelectedAt(positions, operands, ts, i))
    && forall i, j :: 0 <= i < j < |positions| ==> positions[i] < positions[j]
  }

  /** Replaces the i-th selected operand. */
  lemma SelectedUpdate(positions: seq<nat>, operands: seq<Tensor>, ts: seq<Tensor>, i: nat, t: Tensor)
    requires Selected(positions, operands, ts) && i < |ts|
    ensures positions[i] < |operands| && Selected(positions, operands[positions[i] := t], ts[i := t])
  {
    assert SelectedAt(positions, operands, ts, i);
    var operands1, ts1 := operands[positions[i] := t], ts[i := t];
    forall j: nat {:trigger SelectedAt(positions, operands1, ts1, j)} | j < |ts1|
      ensures SelectedAt(positions, operands1, ts1, j)
    {
      assert SelectedAt(positions, operands, ts, j);
    }
  }
}
