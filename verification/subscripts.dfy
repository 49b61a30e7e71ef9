/**
 Subscripts of einsum operands: the letters of an operand's axes, and the maps from letters to axis
 numbers that the executor builds.
 */
module Subscripts {
  import opened Sums
  import opened Tensors
  import opened Labels

  datatype Subscript = Subscript(str: string, letters: set<char>)

  ghost predicate SubOk(s: Subscript) {
    s.letters == Letters(s.str)
  }

  ghost predicate DistinctSub(s: Subscript) {
    SubOk(s) && Distinct(s.str)
  }

  // ---------------------------------------------------------------- numbering letters

  /** The letter's number is its place in `s`. */
  ghost predicate NumberOf(m: map<char, nat>, s: string, c: char) {
    c in m && m[c] == Where(s, c)
  }

  /** The map numbers the letters of `s` in order. */
  ghost predicate Numbers(m: map<char, nat>, s: string) {
    && Distinct(s) && m.Keys == Letters(s) && |m| == |s|
    && forall c {:trigger NumberOf(m, s, c)} :: c in m ==> NumberOf(m, s, c)
  }

  /** Gives a new letter the next number; a known letter keeps its own. */
  method InsertLetter(m: map<char, nat>, c: char, ghost s: string) returns (m1: map<char, nat>, ghost s1: string)
    requires Numbers(m, s)
    ensures Numbers(m1, s1) && Letters(s1) == Letters(s) + {c}
    ensures if c in Letters(s) then m1 == m && s1 == s else s1 == s + [c]
  {
    if c in m {
      return m, s;
    }
    m1, s1 := m[c := |m|], s + [c];
    SingleDistinct(c);
    DistinctConcat(s, [c]);
    LettersConcat(s, [c]);
    forall d {:trigger NumberOf(m1, s1, d)} | d in m1
      ensures NumberOf(m1, s1, d)
    {
      WhereConcat(s, [c], d);
      InLetters(s, d);
      WhereFirst([c], 0);
      assert d != c ==> NumberOf(m, s, d);
    }
  }

  /** Numbers the letters at some axes of an operand. */
  method NumberAxes(str: string, axes: seq<nat>, m: map<char, nat>, ghost s: string, ghost part: string)
    returns (m1: map<char, nat>, ghost s1: string)
    requires Numbers(m, s) && Distinct(part) && Letters(s) !! Letters(part)
    requires |axes| == |part| && forall k :: 0 <= k < |axes| ==> axes[k] < |str| && str[axes[k]] == part[k]
    ensures Numbers(m1, s1) && s1 == s + part
  {
    m1, s1 := m, s;
    for k := 0 to |axes|
      invariant Numbers(m1, s1) && s1 == s + part[..k]
    {
      NextIsNew(s, part, k);
      m1, s1 := InsertLetter(m1, str[axes[k]], s1);
    }
    assert part[..|axes|] == part;
  }

  lemma NextIsNew(s: string, part: string, k: nat)
    requires Distinct(part) && Letters(s) !! Letters(part) && k < |part|
    ensures part[k] !in Letters(s + part[..k]) && s + part[..k] + [part[k]] == s + part[..k + 1]
  {
    SliceLetters(part, k);
    HasLetter(part, k);
    LettersConcat(s, part[..k]);
  }

  /** The numbers of the letters of a string. */
  method LookUp(m: map<char, nat>, str: string, ghost s: string) returns (r: seq<nat>)
    requires Numbers(m, s) && Letters(str) <= Letters(s)
    ensures r == Places(s, str)
  {
    r := [];
    for k := 0 to |str|
      invariant r == Places(s, str[..k])
    {
      HasLetter(str, k);
      assert NumberOf(m, s, str[k]);
      r := r + [m[str[k]]];
    }
    assert str[..|str|] == str;
  }

  // ---------------------------------------------------------------- filtered prefixes

  lemma {:induction false} FilterConcat(s: string, t: string, keep: set<char>)
    ensures Filter(s + t, keep) == Filter(s, keep) + Filter(t, keep)
  {
    if s == "" {
      assert s + t == t;
    } else {
      var head := if s[0] in keep then [s[0]] else "";
      FilterConcat(s[1..], t, keep);
      assert (s + t)[1..] == s[1..] + t;
      ConcatAssoc(head, Filter(s[1..], keep), Filter(t, keep));
    }
  }

  lemma ConcatAssoc(a: string, b: string, c: string)
    ensures a + (b + c) == (a + b) + c
  {
  }

  lemma FilterNext(s: string, k: nat, keep: set<char>)
    requires k < |s|
    ensures Filter(s[..k + 1], keep) == Filter(s[..k], keep) + if s[k] in keep then [s[k]] else ""
  {
    assert s[..k + 1] == s[..k] + [s[k]];
    FilterConcat(s[..k], [s[k]], keep);
    assert Filter([s[k]], keep) == if s[k] in keep then [s[k]] else "";
  }

  lemma PlacesConcat(str: string, s: string, t: string)
    ensures Places(str, s + t) == Places(str, s) + Places(str, t)
  {
  }

  lemma PlacesNext(str: string, s: string, k: nat)
    requires Distinct(str) && k < |str|
    ensures Places(str, s + [str[k]]) == Places(str, s) + [k]
  {
    assert FreshAt(str, k);
    PlacesConcat(str, s, [str[k]]);
  }

  /** The sizes of the axes of some letters. */
  lemma PlacesSizes(t: Tensor, str: string, part: string, dims: Dims)
    requires Labelled(t, str, dims) && Letters(part) <= Letters(str)
    ensures forall k :: 0 <= k < |part| ==> Places(str, part)[k] < |str|
    ensures Sizes(t.shape, Places(str, part)) == ShapeOf(part, dims)
  {
    forall k: nat | k < |part|
      ensures Places(str, part)[k] < |str|
    {
      PlaceBack(str, part, k);
    }
  }

  // ---------------------------------------------------------------- counting places

  /** The number of places before r that hold a letter of `s`. */
  function LettersBefore(order: string, s: set<char>, r: nat): nat
    requires r <= |order|
  {
    if r == 0 then 0 else LettersBefore(order, s, r - 1) + if order[r - 1] in s then 1 else 0
  }

  lemma {:induction false} LettersBeforeNext(order: string, s: set<char>, c: char, r: nat)
    requires Distinct(order) && r <= |order| && c in Letters(order) && c !in s
    ensures LettersBefore(order, s + {c}, r) == LettersBefore(order, s, r) + if Where(order, c) < r then 1 else 0
  {
    InLetters(order, c);
    if r > 0 {
      LettersBeforeNext(order, s, c, r - 1);
      assert FreshAt(order, r - 1);
    }
  }

  lemma {:induction false} LettersBeforeNone(order: string, r: nat)
    requires r <= |order|
    ensures LettersBefore(order, {}, r) == 0
  {
    if r > 0 {
      LettersBeforeNone(order, r - 1);
    }
  }
}
