/**
 The executor's dot nodes: the axes of two operands are sorted into contracted, batch and free ones,
 and one batched matrix product contracts them.
 */
module Tensordot {
  import opened Sums
  import opened Tensors
  import opened Labels
  import opened Dot
  import opened Subscripts

  method SizeOf(shape: seq<nat>, axes: seq<nat>) returns (size: nat)
    requires forall k :: 0 <= k < |axes| ==> axes[k] < |shape|
    ensures size == Size(Sizes(shape, axes))
  {
    size := 1;
    for k := 0 to |axes|
      invariant size == Size(Sizes(shape, axes)[..k])
    {
      SizeConcat(Sizes(shape, axes)[..k], [shape[axes[k]]]);
      assert Sizes(shape, axes)[..k + 1] == Sizes(shape, axes)[..k] + [shape[axes[k]]];
      SizeOne(shape[axes[k]]);
      size := size * shape[axes[k]];
    }
    assert Sizes(shape, axes)[..|axes|] == Sizes(shape, axes);
  }

  lemma SizeOne(n: nat)
    ensures Size([n]) == n
  {
    assert [n][1..] == [];
  }

  ghost predicate AxesBelow(axes: seq<nat>, n: nat) {
    forall k :: 0 <= k < |axes| ==> axes[k] < n
  }

  /** Moves the axes of `i`, `j` and `k` in order and flattens those of `j` and of `k`. */
  method TransposeReshape(x: Tensor, i: seq<nat>, j: seq<nat>, k: seq<nat>) returns (r: Tensor)
    requires AxesBelow(i, |x.shape|) && AxesBelow(j, |x.shape|) && AxesBelow(k, |x.shape|)
    requires IsPermutation(i + j + k, |x.shape|)
    ensures r == Flat(Transpose(x, i + j + k), Sizes(x.shape, i), Sizes(x.shape, j), Sizes(x.shape, k))
  {
    var reorder := i;
    reorder := reorder + j;
    reorder := reorder + k;
    var size1 := SizeOf(x.shape, j);
    var size2 := SizeOf(x.shape, k);
    var shape: seq<nat> := [];
    for m := 0 to |i|
      invariant shape == Sizes(x.shape, i)[..m]
    {
      shape := shape + [x.shape[i[m]]];
    }
    shape := shape + [size1];
    shape := shape + [size2];
    assert shape == Sizes(x.shape, i) + [size1, size2];
    r := Reshape(Transpose(x, reorder), shape);
  }

  method BatchTensordot(a: Tensor, b: Tensor, aContract: seq<nat>, aBatch: seq<nat>, aConcat: seq<nat>,
                        bContract: seq<nat>, bBatch: seq<nat>, bConcat: seq<nat>) returns (r: Tensor)
    requires AxesBelow(aContract, |a.shape|) && AxesBelow(aBatch, |a.shape|) && AxesBelow(aConcat, |a.shape|)
    requires AxesBelow(bContract, |b.shape|) && AxesBelow(bBatch, |b.shape|) && AxesBelow(bConcat, |b.shape|)
    requires IsPermutation(aBatch + aConcat + aContract, |a.shape|)
             && IsPermutation(bBatch + bContract + bConcat, |b.shape|)
    requires Sizes(a.shape, aContract) == Sizes(b.shape, bContract) && Sizes(a.shape, aBatch) == Sizes(b.shape, bBatch)
    ensures r == Contracted(Transpose(a, aBatch + aConcat + aContract), Transpose(b, bBatch + bContract + bConcat),
                            Sizes(a.shape, aBatch), Sizes(a.shape, aConcat), Sizes(a.shape, aContract),
                                Sizes(b.shape, bConcat))
  {
    // Broadcast contracted dimensions.
    var aShape, bShape := a.shape, b.shape;
    for i := 0 to |aContract|
      invariant aShape == a.shape && bShape == b.shape
    {
      assert Sizes(a.shape, aContract)[i] == Sizes(b.shape, bContract)[i];
      var d := Max(a.shape[aContract[i]], b.shape[bContract[i]]);
      aShape := aShape[aContract[i] := d];
      bShape := bShape[bContract[i] := d];
    }
    var a1, b1 := BroadcastTo(a, aShape), BroadcastTo(b, bShape);
    var outShape := Sizes(a1.shape, aBatch) + Sizes(a1.shape, aConcat) + Sizes(b1.shape, bConcat);
    var a2 := TransposeReshape(a1, aBatch, aConcat, aContract);
    var b2 := TransposeReshape(b1, bBatch, bContract, bConcat);
    r := Reshape(MatMul(a2, b2), outShape);
  }

  // ---------------------------------------------------------------- a dot node

  /** The letters of two operands and of the result: every letter is in two of the three. */
  ghost predicate DotLetters(la: set<char>, lb: set<char>, out: set<char>) {
    la - out <= lb && lb - out <= la && out <= la + lb
  }

  ghost predicate DotStrings(sa: string, sb: string, out: set<char>, bt: string, ca: string, cb: string, k: string) {
    && bt == Filter(sa, out * Letters(sb)) && ca == Filter(sa, out - Letters(sb)) && k == Filter(sa, Letters(sa) - out)
    && cb == Filter(sb, out - Letters(sa))
  }

  lemma DotStringsOk(sa: string, sb: string, out: set<char>, bt: string, ca: string, cb: string, k: string)
    requires Distinct(sa) && Distinct(sb) && DotLetters(Letters(sa), Letters(sb), out)
    requires DotStrings(sa, sb, out, bt, ca, cb, k)
    ensures Distinct(bt) && Distinct(ca) && Distinct(cb) && PartsApart(bt, ca, cb, k)
    ensures Letters(bt) !! Letters(ca) && Letters(bt) + Letters(ca) !! Letters(cb)
    ensures Letters(bt) + Letters(ca) + Letters(k) == Letters(sa)
            && Letters(bt) + Letters(k) + Letters(cb) == Letters(sb)
    ensures Letters(bt) + Letters(ca) + Letters(cb) == out && Letters(k) == (Letters(sa) + Letters(sb)) - out
  {
    FilterDistinct(sa, out * Letters(sb));
    FilterDistinct(sa, out - Letters(sb));
    FilterDistinct(sa, Letters(sa) - out);
    FilterDistinct(sb, out - Letters(sa));
    FilterLetters(sa, out * Letters(sb));
    FilterLetters(sa, out - Letters(sb));
    FilterLetters(sa, Letters(sa) - out);
    FilterLetters(sb, out - Letters(sa));
  }

  lemma Join3(x: string, y: string, z: string)
    requires Distinct(x) && Distinct(y) && Distinct(z) && Letters(x) !! Letters(y)
             && Letters(x) + Letters(y) !! Letters(z)
    ensures Distinct(x + y + z) && Letters(x + y + z) == Letters(x) + Letters(y) + Letters(z)
  {
    LettersConcat(x, y);
    LettersConcat(x + y, z);
    DistinctConcat(x, y);
    DistinctConcat(x + y, z);
  }

  /** An operand split into three runs of axes: the runs are a permutation, and transposing puts the letters
      in order. */
  lemma Split3(t: Tensor, str: string, x: string, y: string, z: string, dims: Dims)
    requires Labelled(t, str, dims) && Distinct(str) && Distinct(x) && Distinct(y) && Distinct(z)
    requires Letters(x) !! Letters(y) && Letters(x) + Letters(y) !! Letters(z)
             && Letters(x) + Letters(y) + Letters(z) == Letters(str)
    ensures var perm := Places(str, x) + Places(str, y) + Places(str, z);
            IsPermutation(perm, |t.shape|) && Labelled(Transpose(t, perm), x + y + z, dims)
            && forall env :: Val(Transpose(t, perm), x + y + z, env) == Val(t, str, env)
    ensures AxesBelow(Places(str, x), |str|) && AxesBelow(Places(str, y), |str|) && AxesBelow(Places(str, z), |str|)
    ensures Sizes(t.shape, Places(str, x)) == ShapeOf(x, dims) && Sizes(t.shape, Places(str, y)) == ShapeOf(y, dims)
            && Sizes(t.shape, Places(str, z)) == ShapeOf(z, dims)
  {
    Join3(x, y, z);
    PlacesConcat(str, x, y);
    PlacesConcat(str, x + y, z);
    TransposeVal(t, str, x + y + z, dims);
    PlacesSizes(t, str, x, dims);
    PlacesSizes(t, str, y, dims);
    PlacesSizes(t, str, z, dims);
  }

  /** The axes of the first operand: contracted ones, those of both operands, and its own. */
  method SortAxes(sa: Subscript, sb: Subscript, out: Subscript)
    returns (contract: seq<nat>, batch: seq<nat>, concat: seq<nat>)
    requires DistinctSub(sa) && SubOk(sb) && SubOk(out)
    ensures contract == Places(sa.str, Filter(sa.str, sa.letters - out.letters))
    ensures batch == Places(sa.str, Filter(sa.str, out.letters * sb.letters))
    ensures concat == Places(sa.str, Filter(sa.str, out.letters - sb.letters))
  {
    contract, batch, concat := [], [], [];
    ghost var str := sa.str;
    for i := 0 to |sa.str|
      invariant contract == Places(str, Filter(str[..i], sa.letters - out.letters))
      invariant batch == Places(str, Filter(str[..i], out.letters * sb.letters))
      invariant concat == Places(str, Filter(str[..i], out.letters - sb.letters))
    {
      var c := sa.str[i];
      HasLetter(str, i);
      FilterNext(str, i, sa.letters - out.letters);
      FilterNext(str, i, out.letters * sb.letters);
      FilterNext(str, i, out.letters - sb.letters);
      if c !in out.letters {
        PlacesNext(str, Filter(str[..i], sa.letters - out.letters), i);
        contract := contract + [i];
      } else if c in sb.letters {
        PlacesNext(str, Filter(str[..i], out.letters * sb.letters), i);
        batch := batch + [i];
      } else {
        PlacesNext(str, Filter(str[..i], out.letters - sb.letters), i);
        concat := concat + [i];
      }
    }
    assert str[..|str|] == str;
  }

  /** The places in the second string of the letters at some axes of the first. */
  method FindAxes(sa: string, axes: seq<nat>, sb: string, ghost part: string) returns (r: seq<nat>)
    requires |axes| == |part| && forall k :: 0 <= k < |axes| ==> axes[k] < |sa| && sa[axes[k]] == part[k]
    ensures r == Places(sb, part)
  {
    r := [];
    for k := 0 to |axes|
      invariant r == Places(sb, part[..k])
    {
      r := r + [Where(sb, sa[axes[k]])];
    }
    assert part[..|part|] == part;
  }

  /** The axes only the second operand keeps. */
  method OwnAxes(sa: Subscript, sb: Subscript, out: Subscript) returns (r: seq<nat>)
    requires SubOk(sa) && DistinctSub(sb)
    ensures r == Places(sb.str, Filter(sb.str, out.letters - sa.letters))
  {
    r := [];
    ghost var str := sb.str;
    for i := 0 to |sb.str|
      invariant r == Places(str, Filter(str[..i], out.letters - sa.letters))
    {
      FilterNext(str, i, out.letters - sa.letters);
      if sb.str[i] in out.letters && sb.str[i] !in sa.letters {
        PlacesNext(str, Filter(str[..i], out.letters - sa.letters), i);
        r := r + [i];
      }
    }
    assert str[..|str|] == str;
  }

  lemma PartAt(str: string, part: string)
    requires Letters(part) <= Letters(str)
    ensures forall k {:trigger Places(str, part)[k]} :: 0 <= k < |part| ==>
            Places(str, part)[k] < |str| && str[Places(str, part)[k]] == part[k]
  {
    forall k: nat {:trigger Places(str, part)[k]} | k < |part|
      ensures Places(str, part)[k] < |str| && str[Places(str, part)[k]] == part[k]
    {
      PlaceBack(str, part, k);
    }
  }

  /** The result of a dot node holds, at every assignment, the sum over the contracted letters. */
  method DotNode(a: Tensor, b: Tensor, sa: Subscript, sb: Subscript, out: Subscript, ghost dims: Dims)
    returns (r: Tensor)
    requires DistinctSub(sa) && DistinctSub(sb) && DistinctSub(out) && DotLetters(sa.letters, sb.letters, out.letters)
    requires Labelled(a, sa.str, dims) && Labelled(b, sb.str, dims)
    ensures Labelled(r, out.str, dims)
    ensures forall env :: InRange(env, out.letters, dims) ==>
              Val(r, out.str, env) == SumLetters((sa.letters + sb.letters) - out.letters, dims, env,
                  ProductOf(a, sa.str, b, sb.str))
  {
    var aContract, aBatch, aConcat := SortAxes(sa, sb, out);
    ghost var k, bt, ca := Filter(sa.str, sa.letters - out.letters), Filter(sa.str, out.letters * sb.letters),
        Filter(sa.str, out.letters - sb.letters);
    ghost var cb := Filter(sb.str, out.letters - sa.letters);
    DotStringsOk(sa.str, sb.str, out.letters, bt, ca, cb, k);
    PartAt(sa.str, k);
    PartAt(sa.str, bt);
    PartAt(sa.str, ca);
    PartAt(sb.str, cb);
    var bContract := FindAxes(sa.str, aContract, sb.str, k);
    var bBatch := FindAxes(sa.str, aBatch, sb.str, bt);
    var bConcat := OwnAxes(sa, sb, out);
    var charMap := CharMap(sa.str, sb.str, aBatch, aConcat, bConcat, bt, ca, cb);
    Split3(a, sa.str, bt, ca, k, dims);
    Split3(b, sb.str, bt, k, cb, dims);
    var t := BatchTensordot(a, b, aContract, aBatch, aConcat, bContract, bBatch, bConcat);
    Join3(bt, ca, cb);
    var reorder := LookUp(charMap, out.str, bt + ca + cb);
    ContractedLabels(a, b, sa.str, sb.str, out.letters, bt, ca, cb, k, dims, t);
    TransposeVal(t, bt + ca + cb, out.str, dims);
    r := Transpose(t, reorder);
  }

  method CharMap(sa: string, sb: string, aBatch: seq<nat>, aConcat: seq<nat>, bConcat: seq<nat>, ghost bt: string,
                 ghost ca: string, ghost cb: string)
    returns (m: map<char, nat>)
    requires Distinct(bt) && Distinct(ca) && Distinct(cb) && Letters(bt) !! Letters(ca)
             && Letters(bt) + Letters(ca) !! Letters(cb)
    requires Letters(bt) <= Letters(sa) && Letters(ca) <= Letters(sa) && Letters(cb) <= Letters(sb)
    requires aBatch == Places(sa, bt) && aConcat == Places(sa, ca) && bConcat == Places(sb, cb)
    ensures Numbers(m, bt + ca + cb)
  {
    PartAt(sa, bt);
    PartAt(sa, ca);
    PartAt(sb, cb);
    LettersConcat(bt, ca);
    ghost var s := "";
    m := map[];
    assert Distinct(s) && Letters(s) == {};
    assert "" + bt == bt;
    m, s := NumberAxes(sa, aBatch, m, s, bt);
    m, s := NumberAxes(sa, aConcat, m, s, ca);
    m, s := NumberAxes(sb, bConcat, m, s, cb);
  }

  lemma ContractedLabels(a: Tensor, b: Tensor, sa: string, sb: string, out: set<char>, bt: string, ca: string,
                         cb: string, k: string, dims: Dims, t: Tensor)
    requires Labelled(a, sa, dims) && Labelled(b, sb, dims) && Distinct(sa) && Distinct(sb)
             && DotLetters(Letters(sa), Letters(sb), out)
    requires DotStrings(sa, sb, out, bt, ca, cb, k)
    requires AxesBelow(Places(sa, bt) + Places(sa, ca) + Places(sa, k), |a.shape|)
             && AxesBelow(Places(sb, bt) + Places(sb, k) + Places(sb, cb), |b.shape|)
    requires t == Contracted(Transpose(a, Places(sa, bt) + Places(sa, ca) + Places(sa, k)),
             Transpose(b, Places(sb, bt) + Places(sb, k) + Places(sb, cb)),
                             ShapeOf(bt, dims), ShapeOf(ca, dims), ShapeOf(k, dims), ShapeOf(cb, dims))
    ensures Labelled(t, bt + ca + cb, dims)
    ensures forall env :: InRange(env, out, dims) ==>
              Val(t, bt + ca + cb, env) == SumLetters((Letters(sa) + Letters(sb)) - out, dims, env,
                  ProductOf(a, sa, b, sb))
  {
    DotStringsOk(sa, sb, out, bt, ca, cb, k);
    Split3(a, sa, bt, ca, k, dims);
    Split3(b, sb, bt, k, cb, dims);
    ShapeConcat(bt, ca, dims);
    ShapeConcat(bt + ca, cb, dims);
    var a1, b1 := Transpose(a, Places(sa, bt) + Places(sa, ca) + Places(sa, k)),
        Transpose(b, Places(sb, bt) + Places(sb, k) + Places(sb, cb));
    forall env | InRange(env, out, dims)
      ensures Val(t, bt + ca + cb, env)
              == SumLetters((Letters(sa) + Letters(sb)) - out, dims, env, ProductOf(a, sa, b, sb))
    {
      ContractedVal(a1, b1, bt, ca, cb, k, dims, env);
      SumLettersSame(Letters(k), dims, env, ProductOf(a1, bt + ca + k, b1, bt + k + cb), ProductOf(a, sa, b, sb));
    }
  }
}
