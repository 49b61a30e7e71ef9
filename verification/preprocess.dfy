/**
 Before a node runs: repeated letters are collapsed, and letters of a single operand that the output
 does not have are summed out.
 */
module Preprocess {
  import opened Sums
  import opened Tensors
  import opened Labels
  import opened Subscripts
  import opened Products
  import opened Collapse

  ghost predicate AllDistinct(subs: seq<Subscript>) {
    forall i :: 0 <= i < |subs| ==> DistinctSub(subs[i])
  }

  /** Two lists of operands stand for the same sums over the letters outside `out`. */
  ghost predicate SameTotals(ts: seq<Tensor>, subs: seq<Subscript>, ts1: seq<Tensor>, subs1: seq<Subscript>,
                             out: set<char>, dims: Dims)
    requires |ts| == |subs| && |ts1| == |subs1|
  {
    forall env {:trigger Total(ts1, subs1, out, dims, env)} :: InRange(env, out, dims) ==>
        Total(ts1, subs1, out, dims, env) == Total(ts, subs, out, dims, env)
  }

  /** Operands off the selected positions are untouched. */
  ghost predicate OthersSame(positions: seq<nat>, operands: seq<Tensor>, operands1: seq<Tensor>) {
    |operands1| == |operands| && forall p: nat :: p < |operands| && Where(positions, p) == |positions| ==>
        operands1[p] == operands[p]
  }

  lemma ReplaceTotals(ts: seq<Tensor>, subs: seq<Subscript>, i: nat, t: Tensor, s: Subscript, out: set<char>,
                      dims: Dims)
    requires |ts| == |subs| && i < |ts| && (forall j :: 0 <= j < |subs| ==> SubOk(subs[j])) && SubOk(s)
    requires s.letters <= subs[i].letters && subs[i].letters * (LettersOf(Without(subs, i)) + out) <= s.letters
    requires PartialSum(Values(t, s.str), s.letters, Values(ts[i], subs[i].str), subs[i].letters, dims)
    ensures SameTotals(ts, subs, ts[i := t], subs[i := s], out, dims)
  {
    forall env {:trigger Total(ts[i := t], subs[i := s], out, dims, env)} | InRange(env, out, dims)
      ensures Total(ts[i := t], subs[i := s], out, dims, env) == Total(ts, subs, out, dims, env)
    {
      ReplaceOne(ts, subs, i, t, s, out, dims, env);
    }
  }

  lemma OperandsUpdate(ts: seq<Tensor>, subs: seq<Subscript>, i: nat, t: Tensor, s: Subscript, dims: Dims)
    requires OperandsOk(ts, subs, dims) && i < |ts| && OperandOk(t, s, dims)
    ensures OperandsOk(ts[i := t], subs[i := s], dims)
  {
    forall j {:trigger subs[i := s][j]} | 0 <= j < |ts|
      ensures OperandOk(ts[i := t][j], subs[i := s][j], dims)
    {
      assert j != i ==> OperandOk(ts[j], subs[j], dims);
    }
  }

  lemma OthersUpdate(positions: seq<nat>, operands: seq<Tensor>, operands1: seq<Tensor>, i: nat, t: Tensor)
    requires OthersSame(positions, operands, operands1) && i < |positions| && positions[i] < |operands|
    ensures OthersSame(positions, operands, operands1[positions[i] := t])
  {
    WhereFirst<nat>(positions, i);
  }

  // ---------------------------------------------------------------- collapsing every operand

  /** Collapses the repeated letters of every selected operand. */
  method CollapseAll(inputs: seq<Subscript>, positions: seq<nat>, operands: seq<Tensor>, ghost ts: seq<Tensor>,
                     ghost out: set<char>, ghost dims: Dims)
    returns (inputs1: seq<Subscript>, operands1: seq<Tensor>, ghost ts1: seq<Tensor>)
    requires Selected(positions, operands, ts) && OperandsOk(ts, inputs, dims)
    ensures Selected(positions, operands1, ts1) && OperandsOk(ts1, inputs1, dims) && AllDistinct(inputs1)
            && |ts1| == |ts|
    ensures OthersSame(positions, operands, operands1) && LettersOf(inputs1) == LettersOf(inputs)
    ensures SameTotals(ts, inputs, ts1, inputs1, out, dims)
  {
    inputs1, operands1, ts1 := inputs, operands, ts;
    for i := 0 to |inputs|
      invariant Selected(positions, operands1, ts1) && OperandsOk(ts1, inputs1, dims) && |ts1| == |ts|
      invariant forall j :: 0 <= j < i ==> DistinctSub(inputs1[j])
      invariant OthersSame(positions, operands, operands1) && LettersOf(inputs1) == LettersOf(inputs)
      invariant SameTotals(ts, inputs, ts1, inputs1, out, dims)
    {
      assert OperandOk(ts1[i], inputs1[i], dims);
      assert SelectedAt(positions, operands1, ts1, i);
      if |inputs1[i].letters| < |inputs1[i].str| {
        var t, s := CollapseRepeats(operands1[positions[i]], inputs1[i], dims);
        CollapsedOne(ts1, inputs1, i, t, s, out, dims);
        SelectedUpdate(positions, operands1, ts1, i, t);
        OthersUpdate(positions, operands, operands1, i, t);
        SameTotalsTrans(ts, inputs, ts1, inputs1, ts1[i := t], inputs1[i := s], out, dims);
        operands1, inputs1, ts1 := operands1[positions[i] := t], inputs1[i := s], ts1[i := t];
      } else {
        SizeDistinct(inputs1[i].str);
      }
    }
  }

  lemma SameTotalsTrans(ts: seq<Tensor>, subs: seq<Subscript>, ts1: seq<Tensor>, subs1: seq<Subscript>,
                        ts2: seq<Tensor>, subs2: seq<Subscript>, out: set<char>, dims: Dims)
    requires |ts| == |subs| && |ts1| == |subs1| && |ts2| == |subs2|
    requires SameTotals(ts, subs, ts1, subs1, out, dims) && SameTotals(ts1, subs1, ts2, subs2, out, dims)
    ensures SameTotals(ts, subs, ts2, subs2, out, dims)
  {
    forall env {:trigger Total(ts2, subs2, out, dims, env)} | InRange(env, out, dims)
      ensures Total(ts2, subs2, out, dims, env) == Total(ts, subs, out, dims, env)
    {
      assert Total(ts1, subs1, out, dims, env) == Total(ts, subs, out, dims, env);
    }
  }

  lemma CollapsedOne(ts: seq<Tensor>, subs: seq<Subscript>, i: nat, t: Tensor, s: Subscript, out: set<char>, dims: Dims)
    requires OperandsOk(ts, subs, dims) && i < |ts| && OperandOk(t, s, dims) && s.letters == subs[i].letters
    requires forall env :: InRange(env, s.letters, dims) ==> Val(t, s.str, env) == Val(ts[i], subs[i].str, env)
    ensures OperandsOk(ts[i := t], subs[i := s], dims) && LettersOf(subs[i := s]) == LettersOf(subs)
    ensures SameTotals(ts, subs, ts[i := t], subs[i := s], out, dims)
  {
    SubsOk(ts, subs, dims);
    var part, whole, p := Values(t, s.str), Values(ts[i], subs[i].str), subs[i].letters;
    forall e | InRange(e, s.letters, dims)
      ensures part(e) == SumLetters(p - s.letters, dims, e, whole)
    {
      assert p - s.letters == {};
    }
    ReplaceTotals(ts, subs, i, t, s, out, dims);
    OperandsUpdate(ts, subs, i, t, s, dims);
    LettersReplaced(subs, i, s);
  }

  lemma LettersReplaced(subs: seq<Subscript>, i: nat, s: Subscript)
    requires i < |subs|
    ensures LettersOf(subs) == LettersOf(Without(subs, i)) + subs[i].letters
    ensures LettersOf(subs[i := s]) == LettersOf(Without(subs, i)) + s.letters
  {
    LettersSplit(subs, i);
    LettersSplit(subs[i := s], i);
    assert Without(subs[i := s], i) == Without(subs, i);
  }

  // ---------------------------------------------------------------- letters of a single operand

  /** The number of operands with a letter. */
  ghost function InputsWith(subs: seq<Subscript>, c: char): nat {
    if |subs| == 0 then 0 else InputsWith(subs[..|subs| - 1], c) + if c in subs[|subs| - 1].letters then 1 else 0
  }

  lemma {:induction false} InputsWithHas(subs: seq<Subscript>, c: char)
    ensures InputsWith(subs, c) > 0 <==> c in LettersOf(subs)
  {
    if |subs| > 0 {
      InputsWithHas(subs[..|subs| - 1], c);
    }
  }

  lemma {:induction false} InputsWithConcat(s: seq<Subscript>, t: seq<Subscript>, c: char)
    ensures InputsWith(s + t, c) == InputsWith(s, c) + InputsWith(t, c)
    decreases |t|
  {
    if |t| == 0 {
      assert s + t == s;
    } else {
      InputsWithConcat(s, t[..|t| - 1], c);
      assert (s + t)[..|s + t| - 1] == s + t[..|t| - 1];
    }
  }

  lemma InputsWithout(subs: seq<Subscript>, i: nat, c: char)
    requires i < |subs|
    ensures InputsWith(subs, c) == InputsWith(Without(subs, i), c) + if c in subs[i].letters then 1 else 0
  {
    Around(subs, i);
    InputsWithConcat(subs[..i], [subs[i]] + subs[i + 1..], c);
    InputsWithConcat([subs[i]], subs[i + 1..], c);
    InputsWithConcat(subs[..i], subs[i + 1..], c);
    assert InputsWith([subs[i]][..0], c) == 0;
  }

  ghost function Uses(subs: seq<Subscript>, out: set<char>, c: char): nat {
    InputsWith(subs, c) + if c in out then 1 else 0
  }

  ghost predicate UsesOf(m: map<char, nat>, subs: seq<Subscript>, out: set<char>, c: char) {
    c in m && m[c] == Uses(subs, out, c)
  }

  ghost predicate UsesCounted(m: map<char, nat>, subs: seq<Subscript>, out: set<char>) {
    && m.Keys == LettersOf(subs) + out
    && forall c {:trigger UsesOf(m, subs, out, c)} :: c in m ==> UsesOf(m, subs, out, c)
  }

  /** Adds one to the count of every letter of a set. */
  method CountLetters(m: map<char, nat>, letters: set<char>) returns (m1: map<char, nat>)
    ensures m1.Keys == m.Keys + letters
    ensures forall c :: c in m1 ==> m1[c] == (if c in m then m[c] else 0) + if c in letters then 1 else 0
  {
    m1 := m;
    var rest := letters;
    while rest != {}
      invariant rest <= letters && m1.Keys == m.Keys + (letters - rest)
      invariant forall c :: c in m1 ==> m1[c] == (if c in m then m[c] else 0) + if c in letters - rest then 1 else 0
      decreases rest
    {
      var c :| c in rest;
      m1 := m1[c := (if c in m1 then m1[c] else 0) + 1];
      rest := rest - {c};
    }
  }

  /** In how many inputs and outputs every letter is. */
  method CountUses(inputs: seq<Subscript>, output: Subscript) returns (m: map<char, nat>)
    ensures UsesCounted(m, inputs, output.letters)
  {
    m := map[];
    for i := 0 to |inputs|
      invariant UsesCounted(m, inputs[..i], {})
    {
      var m1 := CountLetters(m, inputs[i].letters);
      assert inputs[..i + 1][..i] == inputs[..i];
      CountedNext(m, m1, inputs[..i], inputs[..i + 1], inputs[i].letters);
      m := m1;
    }
    assert inputs[..|inputs|] == inputs;
    var m1 := CountLetters(m, output.letters);
    forall c {:trigger UsesOf(m1, inputs, output.letters, c)} | c in m1
      ensures UsesOf(m1, inputs, output.letters, c)
    {
      assert c in m ==> UsesOf(m, inputs, {}, c);
      InputsWithHas(inputs, c);
    }
    m := m1;
  }

  lemma CountedNext(m: map<char, nat>, m1: map<char, nat>, subs: seq<Subscript>, subs1: seq<Subscript>,
                    letters: set<char>)
    requires UsesCounted(m, subs, {}) && |subs1| > 0 && subs1[..|subs1| - 1] == subs
             && subs1[|subs1| - 1].letters == letters
    requires m1.Keys == m.Keys + letters
    requires forall c :: c in m1 ==> m1[c] == (if c in m then m[c] else 0) + if c in letters then 1 else 0
    ensures UsesCounted(m1, subs1, {})
  {
    forall c {:trigger UsesOf(m1, subs1, {}, c)} | c in m1
      ensures UsesOf(m1, subs1, {}, c)
    {
      assert c in m ==> UsesOf(m, subs, {}, c);
      InputsWithHas(subs, c);
    }
  }

  /** The letters of exactly one operand and not of the output. */
  ghost function Single(subs: seq<Subscript>, out: set<char>): set<char> {
    set c | c in LettersOf(subs) && Uses(subs, out, c) == 1
  }

  lemma SingleAlone(subs: seq<Subscript>, out: set<char>, i: nat)
    requires i < |subs|
    ensures subs[i].letters * Single(subs, out) !! LettersOf(Without(subs, i)) + out
    ensures subs[i].letters - Single(subs, out) <= LettersOf(Without(subs, i)) + out
  {
    forall c | c in subs[i].letters
      ensures c in Single(subs, out) <==> c !in LettersOf(Without(subs, i)) + out
    {
      InputsWithout(subs, i, c);
      InputsWithHas(Without(subs, i), c);
      HasLetters(subs, i);
    }
  }

  // ---------------------------------------------------------------- summing them out

  ghost predicate CountsIn(counts: map<char, nat>, letters: set<char>, single: set<char>) {
    letters <= counts.Keys && forall c :: c in letters ==> (counts[c] == 1 <==> c in single)
  }

  /** The axes of the letters with count 1, in order. */
  method SingleAxes(str: string, counts: map<char, nat>, ghost single: set<char>) returns (axes: seq<nat>)
    requires CountsIn(counts, Letters(str), single)
    ensures AxesAscend(axes, |str|) && forall a: nat :: a < |str| ==> (a in axes <==> str[a] in single)
  {
    axes := [];
    for k := 0 to |str|
      invariant AxesAscend(axes, k) && forall a: nat :: a < |str| ==> (a in axes <==> a < k && str[a] in single)
    {
      HasLetter(str, k);
      if counts[str[k]] == 1 {
        axes := axes + [k];
      }
    }
  }

  ghost predicate AxesAscend(axes: seq<nat>, n: nat) {
    (forall i :: 0 <= i < |axes| ==> axes[i] < n) && (forall i, j :: 0 <= i < j < |axes| ==> axes[i] < axes[j])
  }

  /** The letters from place p on have been filtered. */
  ghost predicate ErasedFrom(str0: string, str: string, letters: set<char>, p: nat, keep: set<char>,
                             single: set<char>) {
    p <= |str0| && str == str0[..p] + Filter(str0[p..], keep)
        && letters == Letters(str0) - (Letters(str0[p..]) * single)
  }

  lemma ErasedNone(str: string, keep: set<char>, single: set<char>)
    ensures ErasedFrom(str, str, Letters(str), |str|, keep, single)
  {
    assert str[..|str|] == str && str[|str|..] == "";
  }

  lemma EraseStep(str0: string, str: string, letters: set<char>, p: nat, q: nat, keep: set<char>, single: set<char>)
    requires ErasedFrom(str0, str, letters, p, keep, single) && keep == Letters(str0) - single
    requires q < p && str0[q] in single && forall a: nat :: q < a < p ==> str0[a] !in single
    ensures q < |str| && str[q] == str0[q]
    ensures ErasedFrom(str0, str[..q] + str[q + 1..], letters - {str[q]}, q, keep, single)
  {
    EraseOne(str0, p, q, keep, single);
    EraseOneLetter(str0, p, q, single);
  }

  /** Erases the letters at ascending axes, last first. */
  method EraseLetters(sub: Subscript, axes: seq<nat>, ghost single: set<char>) returns (sub1: Subscript)
    requires DistinctSub(sub) && AxesAscend(axes, |sub.str|) && forall a: nat :: a < |sub.str| ==>
             (a in axes <==> sub.str[a] in single)
    ensures sub1 == Subscript(Filter(sub.str, sub.letters - single), sub.letters - single)
  {
    var str, letters := sub.str, sub.letters;
    ghost var p, keep := |str|, sub.letters - single;
    var j := |axes|;
    ErasedNone(str, keep, single);
    while j > 0
      invariant 0 <= j <= |axes| && (if j == |axes| then p == |sub.str| else p == axes[j])
      invariant ErasedFrom(sub.str, str, letters, p, keep, single)
    {
      j := j - 1;
      var q := axes[j];
      AxesBetween(sub.str, axes, j, p, single);
      EraseStep(sub.str, str, letters, p, q, keep, single);
      letters := letters - {str[q]};
      str := str[..q] + str[q + 1..];
      p := q;
    }
    NoneBefore(sub.str, axes, p, single);
    EraseNone(sub.str, p, keep, single);
    sub1 := Subscript(str, letters);
  }

  lemma AxesBetween(str: string, axes: seq<nat>, j: nat, p: nat, single: set<char>)
    requires AxesAscend(axes, |str|) && j < |axes| && (if j + 1 == |axes| then p == |str| else p == axes[j + 1])
    requires forall a: nat :: a < |str| ==> (a in axes <==> str[a] in single)
    ensures axes[j] < p <= |str| && str[axes[j]] in single
    ensures forall a: nat :: axes[j] < a < p ==> str[a] !in single
  {
    assert axes[j] in axes;
    forall a: nat | axes[j] < a < p
      ensures str[a] !in single
    {
      assert forall i :: 0 <= i < |axes| ==> axes[i] <= axes[j] || axes[i] >= p;
      assert a !in axes;
    }
  }

  lemma NoneBefore(str: string, axes: seq<nat>, p: nat, single: set<char>)
    requires AxesAscend(axes, |str|) && (if |axes| == 0 then p == |str| else p == axes[0])
    requires forall a: nat :: a < |str| ==> (a in axes <==> str[a] in single)
    ensures forall a: nat :: a < p ==> str[a] !in single
  {
    forall a: nat | a < p
      ensures str[a] !in single
    {
      assert forall i :: 0 <= i < |axes| ==> axes[i] >= p;
      assert a !in axes;
    }
  }

  lemma SubstringLetters(str: string, a: nat, b: nat, single: set<char>)
    requires a <= b <= |str| && forall k: nat :: a <= k < b ==> str[k] !in single
    ensures Letters(str[a..b]) <= Letters(str) - single
  {
    forall c | c in Letters(str[a..b])
      ensures c in Letters(str) - single
    {
      InLetters(str[a..b], c);
      var k := Where(str[a..b], c);
      HasLetter(str, a + k);
      assert str[a + k] == c;
    }
  }

  lemma EraseOne(str: string, p: nat, q: nat, keep: set<char>, single: set<char>)
    requires q < p <= |str| && keep == Letters(str) - single && str[q] in single
    requires forall a: nat :: q < a < p ==> str[a] !in single
    ensures var s := str[..p] + Filter(str[p..], keep);
            s[..q] + s[q + 1..] == str[..q] + Filter(str[q..], keep)
  {
    SubstringLetters(str, q + 1, p, single);
    FilterAll(str[q + 1..p], keep);
    SplitAt(str, p, q);
    FilterDropHead(str[q], str[q + 1..p] + str[p..], keep);
    FilterConcat(str[q + 1..p], str[p..], keep);
    CutAt(str, p, q, Filter(str[p..], keep));
  }

  lemma FilterDropHead(c: char, rest: string, keep: set<char>)
    requires c !in keep
    ensures Filter([c] + rest, keep) == Filter(rest, keep)
  {
    assert ([c] + rest)[1..] == rest;
  }

  lemma EraseOneLetter(str: string, p: nat, q: nat, single: set<char>)
    requires q < p <= |str| && str[q] in single && forall a: nat :: q < a < p ==> str[a] !in single
    ensures Letters(str[q..]) * single == Letters(str[p..]) * single + {str[q]}
  {
    var mid, tail := str[q + 1..p], str[p..];
    SubstringLetters(str, q + 1, p, single);
    SplitAt(str, p, q);
    LettersConcat([str[q]], mid + tail);
    LettersConcat(mid, tail);
    SingleDistinct(str[q]);
  }

  lemma SplitAt(str: string, p: nat, q: nat)
    requires q < p <= |str|
    ensures str[q..] == [str[q]] + (str[q + 1..p] + str[p..])
  {
  }

  lemma CutAt(str: string, p: nat, q: nat, tail: string)
    requires q < p <= |str|
    ensures var s := str[..p] + tail;
            s[..q] + s[q + 1..] == str[..q] + (str[q + 1..p] + tail)
  {
    var s := str[..p] + tail;
    assert s[..q] == str[..q] && s[q + 1..] == str[q + 1..p] + tail;
  }

  lemma EraseNone(str: string, p: nat, keep: set<char>, single: set<char>)
    requires p <= |str| && keep == Letters(str) - single && forall a: nat :: a < p ==> str[a] !in single
    ensures str[..p] + Filter(str[p..], keep) == Filter(str, keep)
    ensures Letters(str[p..]) * single == Letters(str) * single
  {
    assert str[..p] == str[0..p] && str[..p] + str[p..] == str;
    SubstringLetters(str, 0, p, single);
    FilterAll(str[..p], keep);
    FilterConcat(str[..p], str[p..], keep);
    LettersConcat(str[..p], str[p..]);
  }

  /** Sums the single letters out of one operand. */
  method SumSingles(t: Tensor, sub: Subscript, counts: map<char, nat>, ghost single: set<char>, ghost dims: Dims)
    returns (t1: Tensor, sub1: Subscript)
    requires DistinctSub(sub) && Labelled(t, sub.str, dims) && CountsIn(counts, sub.letters, single)
    ensures DistinctSub(sub1) && sub1.letters == sub.letters - single && Labelled(t1, sub1.str, dims)
    ensures PartialSum(Values(t1, sub1.str), sub1.letters, Values(t, sub.str), sub.letters, dims)
  {
    var axes := SingleAxes(sub.str, counts, single);
    t1 := t;
    if axes != [] {
      var gone := set a: nat | a in axes;
      assert gone == AxesOf(sub.str, single);
      t1 := SumAxes(t, gone);
    } else {
      NoSingles(sub.str, axes, single);
    }
    sub1 := EraseLetters(sub, axes, single);
    FilterDistinct(sub.str, sub.letters - single);
    FilterLetters(sub.str, sub.letters - single);
    SumSinglesVal(t, t1, sub, sub1, single, dims);
  }

  lemma NoSingles(str: string, axes: seq<nat>, single: set<char>)
    requires axes == [] && forall a: nat :: a < |str| ==> (a in axes <==> str[a] in single)
    ensures Letters(str) !! single
  {
    SubstringLetters(str, 0, |str|, single);
    assert str[0..|str|] == str;
  }

  lemma SumSinglesVal(t: Tensor, t1: Tensor, sub: Subscript, sub1: Subscript, single: set<char>, dims: Dims)
    requires DistinctSub(sub) && Labelled(t, sub.str, dims)
    requires sub1 == Subscript(Filter(sub.str, sub.letters - single), sub.letters - single)
    requires t1 == SumAxes(t, AxesOf(sub.str, single)) || (t1 == t && sub.letters !! single)
    ensures Labelled(t1, sub1.str, dims)
    ensures PartialSum(Values(t1, sub1.str), sub1.letters, Values(t, sub.str), sub.letters, dims)
  {
    var part, whole := Values(t1, sub1.str), Values(t, sub.str);
    if t1 == t && sub.letters !! single {
      FilterAll(sub.str, sub.letters - single);
      assert sub.letters - sub1.letters == {};
    } else {
      SumAxesVal(t, sub.str, single, dims, map[]);
      forall e | InRange(e, sub1.letters, dims)
        ensures part(e) == SumLetters(sub.letters - sub1.letters, dims, e, whole)
      {
        SumAxesVal(t, sub.str, single, dims, e);
        assert sub.letters - sub1.letters == Letters(sub.str) * single;
      }
    }
  }

  // ---------------------------------------------------------------- preprocess_einsum_inputs

  /** No operand has a letter of its own: every letter is also in another operand or in the output. */
  ghost predicate NothingPrivate(subs: seq<Subscript>, out: set<char>) {
    forall i {:trigger subs[i]} :: 0 <= i < |subs| ==> subs[i].letters <= LettersOf(Without(subs, i)) + out
  }

  /** The first n subscripts have lost their single letters. */
  ghost predicate Stripped(subs: seq<Subscript>, subs0: seq<Subscript>, single: set<char>, n: nat) {
    |subs| == |subs0| && forall i {:trigger subs[i]} :: 0 <= i < |subs| ==>
        subs[i].letters == if i < n then subs0[i].letters - single else subs0[i].letters
  }

  lemma {:induction false} StrippedLetters(subs: seq<Subscript>, subs0: seq<Subscript>, single: set<char>, n: nat)
    requires Stripped(subs, subs0, single, n)
    ensures LettersOf(subs0) - single <= LettersOf(subs) <= LettersOf(subs0)
    ensures n >= |subs| ==> LettersOf(subs) == LettersOf(subs0) - single
    decreases |subs|
  {
    if |subs| > 0 {
      StrippedLetters(subs[..|subs| - 1], subs0[..|subs| - 1], single, n);
    }
  }

  lemma StrippedWithout(subs: seq<Subscript>, subs0: seq<Subscript>, single: set<char>, n: nat, i: nat)
    requires Stripped(subs, subs0, single, n) && i < |subs| && (i >= n || n == |subs|)
    ensures Stripped(Without(subs, i), Without(subs0, i), single, if n == |subs| then n - 1 else n)
  {
  }

  /** The sum step: an operand may lose its single letters. */
  lemma StripOne(ts: seq<Tensor>, subs: seq<Subscript>, subs0: seq<Subscript>, i: nat, t: Tensor, s: Subscript,
                 out: set<char>, dims: Dims)
    requires OperandsOk(ts, subs, dims) && i < |ts| && OperandOk(t, s, dims)
             && Stripped(subs, subs0, Single(subs0, out), i)
    requires s.letters == subs[i].letters - Single(subs0, out)
    requires PartialSum(Values(t, s.str), s.letters, Values(ts[i], subs[i].str), subs[i].letters, dims)
    ensures OperandsOk(ts[i := t], subs[i := s], dims) && Stripped(subs[i := s], subs0, Single(subs0, out), i + 1)
    ensures SameTotals(ts, subs, ts[i := t], subs[i := s], out, dims)
  {
    SubsOk(ts, subs, dims);
    OperandsUpdate(ts, subs, i, t, s, dims);
    SingleAlone(subs0, out, i);
    StrippedWithout(subs, subs0, Single(subs0, out), i, i);
    StrippedLetters(Without(subs, i), Without(subs0, i), Single(subs0, out), i);
    ReplaceTotals(ts, subs, i, t, s, out, dims);
  }

  lemma StrippedAll(subs: seq<Subscript>, subs0: seq<Subscript>, out: set<char>)
    requires Stripped(subs, subs0, Single(subs0, out), |subs|)
    ensures NothingPrivate(subs, out) && LettersOf(subs) * out == LettersOf(subs0) * out
  {
    var single := Single(subs0, out);
    StrippedLetters(subs, subs0, single, |subs|);
    forall i {:trigger subs[i]} | 0 <= i < |subs|
      ensures subs[i].letters <= LettersOf(Without(subs, i)) + out
    {
      SingleAlone(subs0, out, i);
      StrippedWithout(subs, subs0, single, |subs|, i);
      StrippedLetters(Without(subs, i), Without(subs0, i), single, |subs| - 1);
    }
    forall c | c in single
      ensures c !in out
    {
      InputsWithHas(subs0, c);
    }
  }

  /** The sums the operands stand for stay; afterwards every operand has distinct letters, none of its own. */
  method PreprocessInputs(inputs: seq<Subscript>, output: Subscript, positions: seq<nat>, operands: seq<Tensor>,
                          ghost ts: seq<Tensor>, ghost dims: Dims)
    returns (inputs1: seq<Subscript>, operands1: seq<Tensor>, ghost ts1: seq<Tensor>)
    requires Selected(positions, operands, ts) && OperandsOk(ts, inputs, dims)
    ensures Selected(positions, operands1, ts1) && OperandsOk(ts1, inputs1, dims) && |ts1| == |ts|
    ensures AllDistinct(inputs1) && NothingPrivate(inputs1, output.letters)
    ensures LettersOf(inputs1) * output.letters == LettersOf(inputs) * output.letters
    ensures OthersSame(positions, operands, operands1) && SameTotals(ts, inputs, ts1, inputs1, output.letters, dims)
  {
    inputs1, operands1, ts1 := CollapseAll(inputs, positions, operands, ts, output.letters, dims);
    var counts := CountUses(inputs1, output);
    ghost var subs0, single := inputs1, Single(inputs1, output.letters);
    for i := 0 to |inputs1|
      invariant |inputs1| == |subs0| && |ts1| == |ts| && AllDistinct(inputs1)
      invariant Selected(positions, operands1, ts1) && OperandsOk(ts1, inputs1, dims)
                && Stripped(inputs1, subs0, single, i)
      invariant OthersSame(positions, operands, operands1) && SameTotals(ts, inputs, ts1, inputs1, output.letters, dims)
    {
      assert OperandOk(ts1[i], inputs1[i], dims);
      assert SelectedAt(positions, operands1, ts1, i);
      CountsSingles(counts, subs0, output.letters, i);
      var t, s := SumSingles(operands1[positions[i]], inputs1[i], counts, single, dims);
      StripOne(ts1, inputs1, subs0, i, t, s, output.letters, dims);
      SelectedUpdate(positions, operands1, ts1, i, t);
      OthersUpdate(positions, operands, operands1, i, t);
      SameTotalsTrans(ts, inputs, ts1, inputs1, ts1[i := t], inputs1[i := s], output.letters, dims);
      operands1, inputs1, ts1 := operands1[positions[i] := t], inputs1[i := s], ts1[i := t];
    }
    StrippedAll(inputs1, subs0, output.letters);
  }

  lemma CountsSingles(counts: map<char, nat>, subs: seq<Subscript>, out: set<char>, i: nat)
    requires UsesCounted(counts, subs, out) && i < |subs|
    ensures CountsIn(counts, subs[i].letters, Single(subs, out))
  {
    HasLetters(subs, i);
    forall c | c in subs[i].letters
      ensures counts[c] == 1 <==> c in Single(subs, out)
    {
      assert UsesOf(counts, subs, out, c);
    }
  }
}
