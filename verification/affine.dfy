/**
 Quantizing and dequantizing one row of weights: groups of weights share a scale and a bias, and the
 codes are packed into 32-bit words.
 */
module Affine {
  import opened Wrappers
  import Tensors
  import opened Packing
  import opened Quantize

  datatype QuantizeError = GroupSize | Bits | NotDivisible | SizeMismatch

  datatype Quantized = Quantized(words: seq<nat>, scales: seq<real>, biases: seq<real>)

  predicate IsPowerOfTwo(n: nat) {
    n == 1 || (n > 0 && n % 2 == 0 && IsPowerOfTwo(n / 2))
  }

  predicate SupportedBits(bits: int) {
    bits == 2 || bits == 3 || bits == 4 || bits == 6 || bits == 8
  }

  function LargestCode(bits: nat): nat {
    var p := Pow(2, bits);
    if p > 0 then p - 1 else 0
  }

  // ---------------------------------------------------------------- packing

  function PackCodes(codes: seq<nat>, bits: nat): seq<nat>
    requires 0 < bits <= 32
  {
    if IsPowerOfTwo(bits) then PackShift(codes, bits, 32 / bits) else PackStream(codes, bits)
  }

  function UnpackCodes(words: seq<nat>, bits: nat): seq<nat>
    requires 0 < bits <= 32
  {
    if IsPowerOfTwo(bits) then
      FillsWord(bits);
      UnpackShift(words, bits, 32 / bits)
    else UnpackStream(words, bits)
  }

  /** A power of two divides every larger power of two. */
  lemma {:induction false} PowersDivide(b: nat, k: nat)
    requires IsPowerOfTwo(b) && b <= Pow(2, k)
    ensures b > 0 && Pow(2, k) % b == 0
    decreases b
  {
    if b > 1 {
      var c, m := b / 2, Pow(2, k - 1);
      PowersDivide(c, k - 1);
      var q := m / c;
      assert m == q * c;
      assert Pow(2, k) == q * b;
      Tensors.DivOf(q, b, 0);
    }
  }

  lemma FillsWord(bits: nat)
    requires 0 < bits <= 32 && IsPowerOfTwo(bits)
    ensures 32 / bits > 0 && 32 / bits * bits == 32
  {
    assert Pow(2, 3) == 8;
    PowAdd(2, 2, 3);
    PowersDivide(bits, 5);
  }

  lemma WidthsOfPowers(bits: int)
    requires SupportedBits(bits)
    ensures IsPowerOfTwo(bits) <==> bits == 2 || bits == 4 || bits == 8
  {
    assert IsPowerOfTwo(2) && IsPowerOfTwo(4) && IsPowerOfTwo(8);
    assert !IsPowerOfTwo(3) && !IsPowerOfTwo(6);
  }

  lemma ShiftCase(codes: seq<nat>, bits: nat, n: nat)
    requires IsPowerOfTwo(bits) && 0 < bits <= 32 && n > 0 && n * bits == 32 && |codes| % n == 0
             && CodesBelow(codes, bits)
    ensures UnpackCodes(PackCodes(codes, bits), bits) == codes
    ensures |PackCodes(codes, bits)| * 32 == |codes| * bits
  {
    Tensors.DivOf(n, bits, 0);
    ShiftRoundTrip(codes, bits, n);
    Tensors.MulAssoc(|codes| / n, n, bits);
  }

  lemma StreamCase(codes: seq<nat>, bits: nat)
    requires !IsPowerOfTwo(bits) && 0 < bits <= 32 && |codes| * bits % 32 == 0 && CodesBelow(codes, bits)
    ensures UnpackCodes(PackCodes(codes, bits), bits) == codes
    ensures |PackCodes(codes, bits)| * 32 == |codes| * bits
  {
    StreamRoundTrip(codes, bits);
  }

  /** Whatever the width, unpacking gives the packed codes back. */
  lemma PackRoundTrip(codes: seq<nat>, bits: int)
    requires SupportedBits(bits) && |codes| % 32 == 0 && CodesBelow(codes, bits)
    ensures UnpackCodes(PackCodes(codes, bits), bits) == codes
    ensures |PackCodes(codes, bits)| * 32 == |codes| * bits
  {
    WidthsOfPowers(bits);
    WholeWords(|codes|);
    if bits == 2 {
      ShiftCase(codes, 2, 16);
    } else if bits == 4 {
      ShiftCase(codes, 4, 8);
    } else if bits == 8 {
      ShiftCase(codes, 8, 4);
    } else if bits == 3 {
      StreamCase(codes, 3);
    } else {
      StreamCase(codes, 6);
    }
  }

  lemma WholeWords(n: nat)
    requires n % 32 == 0
    ensures n % 16 == 0 && n % 8 == 0 && n % 4 == 0 && n * 3 % 32 == 0 && n * 6 % 32 == 0
  {
    var k := n / 32;
    Tensors.DivOf(2 * k, 16, 0);
    Tensors.DivOf(4 * k, 8, 0);
    Tensors.DivOf(8 * k, 4, 0);
    Tensors.DivOf(3 * k, 32, 0);
    Tensors.DivOf(6 * k, 32, 0);
  }

  // ---------------------------------------------------------------- groups

  function MinOf(w: seq<real>): (m: real)
    requires |w| > 0
    ensures forall i :: 0 <= i < |w| ==> m <= w[i]
    ensures exists i :: 0 <= i < |w| && m == w[i]
  {
    if |w| == 1 then w[0]
    else
      var m := MinOf(w[..|w| - 1]);
      if w[|w| - 1] < m then w[|w| - 1] else m
  }

  function MaxOf(w: seq<real>): (m: real)
    requires |w| > 0
    ensures forall i :: 0 <= i < |w| ==> w[i] <= m
    ensures exists i :: 0 <= i < |w| && m == w[i]
  {
    if |w| == 1 then w[0]
    else
      var m := MaxOf(w[..|w| - 1]);
      if w[|w| - 1] > m then w[|w| - 1] else m
  }

  /** The weights of group g. */
  function GroupOf(w: seq<real>, size: nat, g: nat): (r: seq<real>)
    requires size > 0 && (g + 1) * size <= |w|
    ensures |r| == size
  {
    assert g * size <= (g + 1) * size;
    w[g * size..(g + 1) * size]
  }

  lemma GroupFits(n: nat, size: nat, g: nat)
    requires size > 0 && g < n / size
    ensures (g + 1) * size <= n
  {
    assert (g + 1) * size <= n / size * size;
  }

  function GroupParams(w: seq<real>, size: nat, bits: nat, g: nat): (p: Params)
    requires size > 0 && g < |w| / size && LargestCode(bits) > 0
    ensures p.scale != 0.0
  {
    GroupFits(|w|, size, g);
    var group := GroupOf(w, size, g);
    AffineParams(MinOf(group), MaxOf(group), LargestCode(bits))
  }

  lemma GroupIndex(n: nat, size: nat, i: nat)
    requires size > 0 && n % size == 0 && i < n
    ensures i / size < n / size && i / size * size <= i < (i / size + 1) * size
  {
    assert n == n / size * size;
    Tensors.DivBound(i, n / size, size);
  }

  lemma GroupCounted(n: nat, size: nat, i: nat)
    requires size > 0 && n % size == 0 && i < n
    ensures i / size < n / size
  {
    GroupIndex(n, size, i);
  }

  /** The group of weight i. */
  function GroupNo(n: nat, size: nat, i: nat): (g: nat)
    requires size > 0 && n % size == 0 && i < n
    ensures g == i / size && g < n / size
  {
    GroupCounted(n, size, i);
    i / size
  }

  function CodeAtWeight(w: seq<real>, size: nat, bits: nat, i: nat): (c: nat)
    requires size > 0 && |w| % size == 0 && i < |w| && LargestCode(bits) > 0
    ensures c <= LargestCode(bits)
  {
    Code(w[i], GroupParams(w, size, bits, GroupNo(|w|, size, i)), LargestCode(bits))
  }

  function CodesOf(w: seq<real>, size: nat, bits: nat): (r: seq<nat>)
    requires size > 0 && |w| % size == 0 && LargestCode(bits) > 0
    ensures |r| == |w| && forall i {:trigger r[i]} :: 0 <= i < |w| ==> r[i] == CodeAtWeight(w, size, bits, i)
  {
    seq(|w|, i requires 0 <= i < |w| => CodeAtWeight(w, size, bits, i))
  }

  lemma CodesExist(bits: int)
    requires SupportedBits(bits)
    ensures LargestCode(bits) > 0 && LargestCode(bits) == Pow(2, bits) - 1
  {
    PowPositive(2, bits - 1);
  }

  function AffineQuantize(w: seq<real>, size: int, bits: int): Result<Quantized, QuantizeError> {
    if size != 32 && size != 64 && size != 128 then Err(GroupSize)
    else if !SupportedBits(bits) then Err(Bits)
    else if |w| % size != 0 then Err(NotDivisible)
    else
      CodesExist(bits);
      Ok(Quantized(PackCodes(CodesOf(w, size, bits), bits),
                   seq(|w| / size, g requires 0 <= g < |w| / size => GroupParams(w, size, bits, g).scale),
                   seq(|w| / size, g requires 0 <= g < |w| / size => GroupParams(w, size, bits, g).bias)))
  }

  function AffineDequantize(words: seq<nat>, scales: seq<real>, biases: seq<real>, size: int,
                            bits: int): Result<seq<real>, QuantizeError>
    requires bits <= 32
  {
    if bits <= 0 then Err(Bits)
    else if size <= 0 then Err(GroupSize)
    else if |scales| != |biases| then Err(SizeMismatch)
    else if |words| * 32 / bits != |scales| * size then Err(SizeMismatch)
    else
      var codes := UnpackCodes(words, bits);
      if |codes| != |scales| * size then Err(SizeMismatch)
      else Ok(Rebuild(codes, scales, biases, size))
  }

  function Rebuild(codes: seq<nat>, scales: seq<real>, biases: seq<real>, size: nat): (r: seq<real>)
    requires size > 0 && |scales| == |biases| && |codes| == |scales| * size
    ensures |r| == |codes|
    ensures forall i: nat {:trigger r[i]} :: i < |codes| ==>
              i / size < |scales| && r[i] == Restore(codes[i], Params(scales[i / size], biases[i / size]))
  {
    assert forall i: nat :: i < |codes| ==> i / size < |scales| by {
      forall i: nat | i < |codes|
        ensures i / size < |scales|
      {
        GroupBelow(i, |scales|, size);
      }
    }
    seq(|codes|, i requires 0 <= i < |codes| => Restore(codes[i], Params(scales[i / size], biases[i / size])))
  }

  lemma GroupBelow(i: nat, groups: nat, size: nat)
    requires size > 0 && i < groups * size
    ensures i / size < groups
  {
    Tensors.DivBound(i, groups, size);
  }

  /** Position `a` is in the group of position `i`. */
  ghost predicate SameGroup(size: nat, i: nat, a: nat)
    requires size > 0
  {
    i / size * size <= a < (i / size + 1) * size
  }

  /** `x` is within one step of `y`: the step is the range over the number of codes but one, and at least
      the smallest scale. */
  ghost predicate WithinStep(x: real, y: real, range: real, bits: nat)
    requires Pow(2, bits) > 1
  {
    var step := range / (Pow(2, bits) - 1) as real;
    || -step <= x - y <= step
    || -0.0000001 <= x - y <= 0.0000001
  }

  predicate RowFits(w: seq<real>, size: nat, bits: nat, i: nat) {
    size > 0 && |w| % size == 0 && i < |w| && LargestCode(bits) > 0
  }

  /** A weight's code, restored with its group's parameters. */
  function RestoredWeight(w: seq<real>, size: nat, bits: nat, i: nat): real
    requires RowFits(w, size, bits, i)
  {
    Restore(CodeAtWeight(w, size, bits, i), GroupParams(w, size, bits, GroupNo(|w|, size, i)))
  }

  /** The range of a weight's group, and where its ends are. */
  lemma GroupEnds(w: seq<real>, size: nat, bits: nat, i: nat) returns (a: nat, b: nat)
    requires RowFits(w, size, bits, i)
    ensures a < |w| && SameGroup(size, i, a) && b < |w| && SameGroup(size, i, b)
    ensures w[b] <= w[i] <= w[a]
    ensures GroupParams(w, size, bits, GroupNo(|w|, size, i)) == AffineParams(w[b], w[a], LargestCode(bits))
  {
    var g := GroupNo(|w|, size, i);
    GroupIndex(|w|, size, i);
    GroupFits(|w|, size, g);
    var group := GroupOf(w, size, g);
    var m := PlaceOf(size, i, g);
    assert PlaceInGroup(w, size, i, g, m) == i;
    assert MinOf(group) <= group[m] <= MaxOf(group);
    var j: nat :| j < |group| && MaxOf(group) == group[j];
    var k: nat :| k < |group| && MinOf(group) == group[k];
    a, b := PlaceInGroup(w, size, i, g, j), PlaceInGroup(w, size, i, g, k);
  }

  /** The place of position `i` in its group. */
  ghost function PlaceOf(size: nat, i: nat, g: nat): (m: nat)
    requires size > 0 && g * size <= i < (g + 1) * size
    ensures m < size && g * size + m == i
  {
    i - g * size
  }

  /** Where element `j` of the group of position `i` is in the row. */
  ghost function PlaceInGroup(w: seq<real>, size: nat, i: nat, g: nat, j: nat): (a: nat)
    requires size > 0 && g == i / size && (g + 1) * size <= |w| && j < size
    ensures a < |w| && SameGroup(size, i, a) && GroupOf(w, size, g)[j] == w[a] && a == g * size + j
  {
    assert (g + 1) * size == g * size + size;
    g * size + j
  }

  /** A weight comes back within the step that the distance of two weights of its own group allows. */
  lemma WeightInGroup(w: seq<real>, size: nat, bits: nat, i: nat) returns (a: nat, b: nat)
    requires RowFits(w, size, bits, i) && LargestCode(bits) == Pow(2, bits) - 1
    ensures a < |w| && SameGroup(size, i, a) && b < |w| && SameGroup(size, i, b)
    ensures WithinStep(RestoredWeight(w, size, bits, i), w[i], w[a] - w[b], bits)
  {
    a, b := GroupEnds(w, size, bits, i);
    WeightError(w[b], w[a], LargestCode(bits), w[i]);
  }

  /** Zero comes back as zero from a group with weights on both sides of it, itself included. */
  lemma ZeroInGroup(w: seq<real>, size: nat, bits: nat, i: nat)
    requires RowFits(w, size, bits, i) && w[i] == 0.0
    ensures RestoredWeight(w, size, bits, i) == 0.0
  {
    var a, b := GroupEnds(w, size, bits, i);
    ZeroIsExact(w[b], w[a], LargestCode(bits));
  }

  /** No weight of its group is larger in absolute value, none of the same size is positive when it is negative,
      and its double is larger than the group's step. */
  ghost predicate Largest(w: seq<real>, size: nat, bits: nat, i: nat) {
    && i < |w| && size > 0 && Pow(2, bits) > 1 && 2.0 * Abs(w[i]) > 0.0000001
    && (forall a: nat {:trigger SameGroup(size, i, a)} :: a < |w| && SameGroup(size, i, a) ==>
          Abs(w[a]) <= Abs(w[i]) && (w[i] < 0.0 ==> w[a] != -w[i]))
    && forall a: nat, b: nat {:trigger SameGroup(size, i, a), SameGroup(size, i, b)} ::
         a < |w| && SameGroup(size, i, a) && b < |w| && SameGroup(size, i, b) ==>
           2.0 * Abs(w[i]) > (w[a] - w[b]) / (Pow(2, bits) - 1) as real
  }

  /** The largest weight of a group comes back exactly. */
  lemma LargestInGroup(w: seq<real>, size: nat, bits: nat, i: nat)
    requires RowFits(w, size, bits, i) && LargestCode(bits) == Pow(2, bits) - 1 && Largest(w, size, bits, i)
    ensures RestoredWeight(w, size, bits, i) == w[i]
  {
    var a, b := GroupEnds(w, size, bits, i);
    LargestIsEdge(w[b], w[a], w[i]);
    HalfStep(w[i], SignedScale(w[b], w[a], LargestCode(bits)));
    EdgeIsExact(w[b], w[a], LargestCode(bits));
  }

  lemma LargestIsEdge(lo: real, hi: real, x: real)
    requires lo <= x <= hi && Abs(lo) <= Abs(x) && Abs(hi) <= Abs(x) && (x < 0.0 ==> hi != -x)
    ensures Edge(lo, hi) == x
  {
  }

  lemma HalfStep(e: real, s: real)
    requires s != 0.0 && Abs(s) < 2.0 * Abs(e)
    ensures EdgeCode(e, s) != 0
  {
    var q := e / s;
    DivMul(e, s);
    if -0.5 <= q <= 0.5 {
      assert Abs(q * s) <= 0.5 * Abs(s) by {
        SmallTimes(q, s);
      }
    }
  }

  lemma SmallTimes(q: real, s: real)
    requires -0.5 <= q <= 0.5
    ensures Abs(q * s) <= 0.5 * Abs(s)
  {
    var d := if s >= 0.0 then s else -s;
    TimesNonneg(0.5 - q, d);
    TimesNonneg(0.5 + q, d);
    assert (0.5 - q) * d == 0.5 * d - q * d && (0.5 + q) * d == 0.5 * d + q * d;
    assert q * -s == -(q * s);
  }

  lemma TimesNonneg(a: real, b: real)
    requires a >= 0.0 && b >= 0.0
    ensures a * b >= 0.0
  {
  }

  /** What is known of weight i of a restored row: it is near the weight, zero stays zero, and the largest
      weight of a group stays as it is. */
  ghost predicate Returned(w: seq<real>, size: nat, bits: nat, r: seq<real>, i: nat) {
    && Near(w, size, bits, r, i)
    && (w[i] == 0.0 ==> r[i] == 0.0)
    && (Largest(w, size, bits, i) ==> r[i] == w[i])
  }

  /** A row is quantized exactly when its parameters are supported; dequantizing the packed words then gives
      a row of the same length, and for every weight there are two of its own group whose distance bounds how
      far it moved.  Zeros and the largest weight of every group come back exactly. */
  lemma QuantizeRoundTrip(w: seq<real>, size: int, bits: int)
    ensures AffineQuantize(w, size, bits).Ok?
            <==> && (size == 32 || size == 64 || size == 128)
                 && (bits == 2 || bits == 3 || bits == 4 || bits == 6 || bits == 8) && |w| % size == 0
    ensures AffineQuantize(w, size, bits) == Err(GroupSize) <==> size != 32 && size != 64 && size != 128
    ensures AffineQuantize(w, size, bits) == Err(Bits)
            <==> && (size == 32 || size == 64 || size == 128)
                 && bits != 2 && bits != 3 && bits != 4 && bits != 6 && bits != 8
    ensures AffineQuantize(w, size, bits) == Err(NotDivisible)
            <==> && (size == 32 || size == 64 || size == 128)
                 && (bits == 2 || bits == 3 || bits == 4 || bits == 6 || bits == 8) && |w| % size != 0
    ensures AffineQuantize(w, size, bits).Ok? ==>
              var q := AffineQuantize(w, size, bits).value;
              var r := AffineDequantize(q.words, q.scales, q.biases, size, bits);
              r.Ok? && |r.value| == |w|
              && forall i: nat {:trigger Returned(w, size, bits, r.value, i)} :: i < |w| ==>
                   Returned(w, size, bits, r.value, i)
  {
    if AffineQuantize(w, size, bits).Ok? {
      RowRoundTrip(w, size, bits);
    }
  }

  /** The words hold as many codes as their bits allow. */
  lemma CodesHeld(words: seq<nat>, bits: nat)
    requires 0 < bits <= 32
    ensures |UnpackCodes(words, bits)| == |words| * 32 / bits
  {
    if IsPowerOfTwo(bits) {
      FillsWord(bits);
      Tensors.MulAssoc(|words|, 32 / bits, bits);
      Tensors.DivOf(|words| * (32 / bits), bits, 0);
    }
  }

  /** A packed row is dequantized exactly when width and group size are positive, there is a bias for every
      scale, and the words hold exactly the codes of that many groups; the errors tell which failed first. */
  lemma DequantizeAccepts(words: seq<nat>, scales: seq<real>, biases: seq<real>, size: int, bits: int)
    requires bits <= 32
    ensures var r := AffineDequantize(words, scales, biases, size, bits);
            && (r.Ok? <==> && bits > 0 && size > 0 && |scales| == |biases|
                           && |words| * 32 / bits == |scales| * size)
            && (r == Err(Bits) <==> bits <= 0)
            && (r == Err(GroupSize) <==> bits > 0 && size <= 0)
            && (r == Err(SizeMismatch) <==> r.Err? && bits > 0 && size > 0)
            && (r.Ok? ==> |r.value| == |scales| * size)
  {
    if bits > 0 {
      CodesHeld(words, bits);
    }
  }

  /** Dequantizing words whose codes are known. */
  lemma DequantizeCodes(words: seq<nat>, scales: seq<real>, biases: seq<real>, size: nat, bits: nat, codes: seq<nat>)
    requires size > 0 && 0 < bits <= 32 && |scales| == |biases| && UnpackCodes(words, bits) == codes
    requires |codes| == |scales| * size && |words| * 32 == |codes| * bits
    ensures AffineDequantize(words, scales, biases, size, bits) == Ok(Rebuild(codes, scales, biases, size))
  {
    Tensors.DivOf(|codes|, bits, 0);
  }

  lemma RowRoundTrip(w: seq<real>, size: int, bits: int)
    requires (size == 32 || size == 64 || size == 128) && SupportedBits(bits) && |w| % size == 0
    ensures AffineQuantize(w, size, bits).Ok?
    ensures var q := AffineQuantize(w, size, bits).value;
            var r := AffineDequantize(q.words, q.scales, q.biases, size, bits);
            r.Ok? && |r.value| == |w|
            && forall i: nat {:trigger Returned(w, size, bits, r.value, i)} :: i < |w| ==>
                   Returned(w, size, bits, r.value, i)
  {
    CodesExist(bits);
    var q, codes := AffineQuantize(w, size, bits).value, CodesOf(w, size, bits);
    GroupsDivide(|w|, size);
    PackRoundTrip(codes, bits);
    DequantizeCodes(q.words, q.scales, q.biases, size, bits, codes);
    RebuiltRow(w, size, bits, codes, q.scales, q.biases);
  }

  ghost predicate ParamsListed(w: seq<real>, size: nat, bits: nat, scales: seq<real>, biases: seq<real>) {
    && size > 0 && LargestCode(bits) > 0 && |scales| == |biases| == |w| / size
    && forall g: nat {:trigger scales[g]} :: g < |w| / size ==>
        GroupParams(w, size, bits, g) == Params(scales[g], biases[g])
  }

  /** `r[i]` is within a step of `w[i]`, for the distance of two weights of its group. */
  ghost predicate Near(w: seq<real>, size: nat, bits: nat, r: seq<real>, i: nat) {
    && |r| == |w| && i < |w| && size > 0 && Pow(2, bits) > 1
    && exists a: nat, b: nat {:trigger SameGroup(size, i, a), SameGroup(size, i, b)} ::
         && a < |w| && SameGroup(size, i, a) && b < |w| && SameGroup(size, i, b)
         && WithinStep(r[i], w[i], w[a] - w[b], bits)
  }

  lemma RebuiltRow(w: seq<real>, size: nat, bits: nat, codes: seq<nat>, scales: seq<real>, biases: seq<real>)
    requires ParamsListed(w, size, bits, scales, biases) && |w| / size * size == |w| && |w| % size == 0
             && codes == CodesOf(w, size, bits) && LargestCode(bits) == Pow(2, bits) - 1
    ensures forall i: nat {:trigger Returned(w, size, bits, Rebuild(codes, scales, biases, size), i)} ::
              i < |w| ==> Returned(w, size, bits, Rebuild(codes, scales, biases, size), i)
  {
    forall i: nat | i < |w|
      ensures Returned(w, size, bits, Rebuild(codes, scales, biases, size), i)
    {
      var a, b := WeightInGroup(w, size, bits, i);
      if w[i] == 0.0 {
        ZeroInGroup(w, size, bits, i);
      }
      if Largest(w, size, bits, i) {
        LargestInGroup(w, size, bits, i);
      }
      var g := GroupNo(|w|, size, i);
      var p := Params(scales[g], biases[g]);
      assert GroupParams(w, size, bits, g) == p;
      assert Rebuild(codes, scales, biases, size)[i] == Restore(codes[i], p);
    }
  }

  lemma GroupsDivide(n: nat, size: int)
    requires (size == 32 || size == 64 || size == 128) && n % size == 0
    ensures n % 32 == 0 && n / size * size == n
  {
    if size == 32 {
    } else if size == 64 {
      assert n == n / 64 * 64;
    } else {
      assert n == n / 128 * 128;
    }
  }
}
