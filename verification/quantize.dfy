/**
 Affine quantization in exact real arithmetic: the choice of scale and bias for a group, the error of
 quantizing and dequantizing, and the round trip through packed words.
 */
module Quantize {
  import opened Wrappers
  import Tensors
  import opened Packing

  const EPS: real := 0.0000001

  function Abs(x: real): real {
    if x < 0.0 then -x else x
  }

  function RMax(x: real, y: real): real {
    if x < y then y else x
  }

  /** Rounds to the nearest integer, ties to even. */
  function Round(x: real): (r: int)
    ensures -0.5 <= r as real - x <= 0.5
    ensures r as real - x == 0.5 || x - r as real == 0.5 ==> r % 2 == 0
  {
    var f := x.Floor;
    var d := x - f as real;
    if d < 0.5 then f else if d > 0.5 then f + 1 else if f % 2 == 0 then f else f + 1
  }

  function Clip(c: int, n: nat): nat {
    if c < 0 then 0 else if c > n then n else c
  }

  datatype Params = Params(scale: real, bias: real)

  /** The first scale of a group: its range over the largest code, but not too small. */
  function FirstScale(lo: real, hi: real, n: nat): (s: real)
    requires n > 0
    ensures s >= 0.0000001
  {
    RMax((hi - lo) / n as real, EPS)
  }

  /** The end of the range with the larger absolute value. */
  function Edge(lo: real, hi: real): real {
    if Abs(lo) > Abs(hi) then lo else hi
  }

  /** The first scale, signed so that codes count up from the edge. */
  function SignedScale(lo: real, hi: real, n: nat): (s: real)
    requires n > 0
    ensures s != 0.0
  {
    if Abs(lo) > Abs(hi) then FirstScale(lo, hi, n) else -FirstScale(lo, hi, n)
  }

  /** The number of first scales to the edge, rounded. */
  function EdgeCode(edge: real, s: real): int
    requires s != 0.0
  {
    Round(edge / s)
  }

  /** The scale is derived again so that the edge is a whole number of steps from zero. */
  function ParamsFor(edge: real, s: real): (p: Params)
    requires s != 0.0
    ensures p.scale != 0.0
  {
    var q0 := EdgeCode(edge, s);
    NonzeroEdge(edge, s);
    Params(if q0 != 0 then edge / q0 as real else s, if q0 == 0 then 0.0 else edge)
  }

  function AffineParams(lo: real, hi: real, n: nat): (p: Params)
    requires n > 0
    ensures p.scale != 0.0
  {
    ParamsFor(Edge(lo, hi), SignedScale(lo, hi, n))
  }

  lemma NonzeroEdge(e: real, s: real)
    requires s != 0.0
    ensures EdgeCode(e, s) != 0 ==> e != 0.0 && e / EdgeCode(e, s) as real != 0.0
  {
    var q := EdgeCode(e, s);
    if e == 0.0 {
      assert e / s == 0.0;
    } else if q != 0 {
      assert (e / q as real) * q as real == e;
    }
  }

  function Code(w: real, p: Params, n: nat): (c: nat)
    requires p.scale != 0.0
    ensures c <= n
  {
    Clip(Round((w - p.bias) / p.scale), n)
  }

  function Restore(c: nat, p: Params): real {
    c as real * p.scale + p.bias
  }

  // ---------------------------------------------------------------- real arithmetic

  lemma DivMul(a: real, b: real)
    requires b != 0.0
    ensures (a / b) * b == a
  {
  }

  lemma MulMono(a: real, b: real, c: real)
    requires a <= b && c >= 0.0
    ensures a * c <= b * c
  {
  }

  lemma Cancel(a: real, b: real, c: real)
    requires a * c <= b * c && c > 0.0
    ensures a <= b
  {
    assert a > b ==> (a - b) * c > 0.0;
  }

  lemma Double(a: real, c: real)
    ensures (a + a) * c == a * c + a * c == a * (c + c)
  {
  }

  /** Half of s bounds e * s when e is at most a half. */
  lemma HalfBound(e: real, s: real)
    requires Abs(e) <= 0.5 && s >= 0.0
    ensures -s <= e * s + e * s <= s
  {
    var f, g := 1.0 - (e + e), 1.0 + (e + e);
    assert f * s >= 0.0 && g * s >= 0.0;
    assert f * s == s - (e * s + e * s);
    assert g * s == s + (e * s + e * s);
  }

  lemma HalfCancel(e: real, s: real)
    requires s > 0.0 && -s <= e * s + e * s <= s
    ensures Abs(e) <= 0.5
  {
    var f, g := e + e - 1.0, -(e + e) - 1.0;
    assert f * s == e * s + e * s - s;
    assert g * s == -(e * s + e * s) - s;
    assert f > 0.0 ==> f * s > 0.0;
    assert g > 0.0 ==> g * s > 0.0;
  }

  lemma HalfCancelInto(e: real, s: real, m: real)
    requires s > 0.0 && e * s == m && -s <= m + m <= s
    ensures Abs(e) <= 0.5
  {
    HalfCancel(e, s);
  }

  // ---------------------------------------------------------------- the error of one group

  /** The facts that relate the range to the rounded edge: d is the range, x the edge in first scales, q its
      rounding, S the second scale and n the largest code. */
  ghost predicate ScaleSetting(d: real, S: real, s0: real, x: real, q: real, n: real) {
    && n > 0.0 && q >= 1.0 && s0 > 0.0 && S > 0.0 && x > 0.0
    && d <= n * s0 && d <= x * s0 + x * s0
    && S * q == x * s0 && Abs(q - x) <= 0.5
  }

  lemma StepAtMostTwice(S: real, s0: real, x: real, q: real)
    requires S * q == x * s0 && x <= q + q && s0 > 0.0 && q > 0.0
    ensures S <= s0 + s0
  {
    MulMono(x, q + q, s0);
    Double(q, s0);
    assert (s0 + s0) * q == (q + q) * s0;
    Cancel(S, s0 + s0, q);
  }

  lemma ExpandLeft(d: real, n: real, S: real, q: real, xs: real)
    requires S * q == xs
    ensures (d - n * S) * q == d * q - n * xs
  {
    assert (d - n * S) * q == d * q - n * (S * q);
  }

  lemma ClippedWide(d: real, n: real, s0: real, x: real, q: real)
    requires n > 0.0 && q > 0.0 && s0 > 0.0 && d <= n * s0 && Abs(q - x) <= 0.5 && n <= q + q
    ensures d * q - n * (x * s0) <= s0 * q
  {
    var k := n * s0;
    assert d * q <= k * q by {
      MulMono(d, k, q);
    }
    assert n * (x * s0) == x * k;
    assert (k * q - x * k) + (k * q - x * k) <= k by {
      HalfBound(q - x, k);
      assert (q - x) * k == k * q - x * k;
    }
    assert k <= s0 * q + s0 * q by {
      MulMono(n, q + q, s0);
      Double(q, s0);
    }
    HalfChain(d * q, k * q, x * k, k, s0 * q, n * (x * s0));
  }

  lemma HalfChain(a: real, b: real, c: real, k: real, e: real, f: real)
    requires a <= b && f == c && (b - c) + (b - c) <= k && k <= e + e
    ensures a - f <= e
  {
  }

  lemma ClippedNarrow(d: real, n: real, s0: real, x: real, q: real)
    requires q > 0.0 && s0 > 0.0 && x > 0.0 && d <= x * s0 + x * s0 && q + q <= n
    ensures d * q - n * (x * s0) <= 0.0
  {
    var k := x * s0;
    MulMono(d, k + k, q);
    Double(k, q);
    MulMono(q + q, n, k);
    Double(q, k);
    assert k * q == q * k;
  }

  /** What clipping cuts off is at most one first scale. */
  lemma ClippedPart(d: real, S: real, s0: real, x: real, q: real, n: real)
    requires ScaleSetting(d, S, s0, x, q, n)
    ensures d - n * S <= s0
  {
    ExpandLeft(d, n, S, q, x * s0);
    if n <= q + q {
      ClippedWide(d, n, s0, x, q);
    } else {
      ClippedNarrow(d, n, s0, x, q);
      assert s0 * q > 0.0;
    }
    Cancel(d - n * S, s0, q);
  }

  /** A distance that is not clipped moves by at most half a step. */
  lemma RoundedDistance(r: real, t: real, S: real, s0: real, u: real)
    requires t * S == u && Abs(r - t) <= 0.5 && 0.0 < S <= s0 + s0
    ensures Abs(r * S - u) <= s0
  {
    var e := r - t;
    HalfBound(e, S);
    assert e * S == r * S - u;
  }

  lemma ClippedDistance(n: real, t: real, S: real, s0: real, u: real, d: real)
    requires t * S == u && t >= n && S > 0.0 && u <= d && d - n * S <= s0
    ensures Abs(n * S - u) <= s0
  {
    MulMono(n, t, S);
  }

  lemma NonnegativeRatio(t: real, S: real)
    requires t * S >= 0.0 && S > 0.0
    ensures t >= 0.0
  {
    assert t < 0.0 ==> t * S < 0.0;
  }

  /** Rounding a distance to whole steps, clipped to n, moves it by at most one first scale. */
  lemma DistanceError(u: real, d: real, S: real, s0: real, x: real, q: real, n: nat, t: real, r: int, c: real)
    requires ScaleSetting(d, S, s0, x, q, n as real) && 0.0 <= u <= d && t * S == u && Abs(r as real - t) <= 0.5
    requires c == Clip(r, n) as real
    ensures Abs(c * S - u) <= s0
  {
    NonnegativeRatio(t, S);
    if r <= n {
      StepAtMostTwice(S, s0, x, q);
      RoundedDistance(c, t, S, s0, u);
    } else {
      ClippedPart(d, S, s0, x, q, c);
      ClippedDistance(c, t, S, s0, u, d);
    }
  }

  // ---------------------------------------------------------------- the choice of scale and bias

  /** Within half of s. */
  ghost predicate RoundedTo(m: real, edge: real, s: real) {
    -s <= (m - edge) + (m - edge) <= s
  }

  lemma RoundedEdge(edge: real, s: real, y: real, q: real, m: real)
    requires s > 0.0 && y * s == edge && Abs(q - y) <= 0.5 && m == q * s
    ensures RoundedTo(m, edge, s)
  {
    assert (q - y) * s == m - edge;
    HalfBound(q - y, s);
  }

  /** What the second derivation of the scale S establishes, for an edge with a nonzero code q0. */
  ghost predicate Rescaled(S: real, s0: real, edge: real, q0: real) {
    && s0 > 0.0 && Abs(q0) >= 1.0 && S * q0 == edge && Abs(edge) > 0.0
    && exists x :: EdgeSteps(x, s0, edge, q0)
  }

  ghost predicate EdgeSteps(x: real, s0: real, edge: real, q0: real) {
    x * s0 == edge && Abs(q0 - x) <= 0.5
  }

  lemma IsRescaled(edge: real, s0: real)
    requires s0 > 0.0 && EdgeCode(edge, s0) != 0
    ensures Rescaled(ParamsFor(edge, s0).scale, s0, edge, EdgeCode(edge, s0) as real)
            && ParamsFor(edge, s0).bias == edge
  {
    var q0 := EdgeCode(edge, s0) as real;
    NonzeroEdge(edge, s0);
    DivMul(edge, q0);
    DivMul(edge, s0);
    assert EdgeSteps(edge / s0, s0, edge, q0);
  }

  /** The edge, its rounded code and its exact code have one sign. */
  lemma OneSign(x: real, s0: real, edge: real, q0: real)
    requires s0 > 0.0 && Abs(q0) >= 1.0 && EdgeSteps(x, s0, edge, q0)
    ensures (q0 > 0.0 && x > 0.0 && edge > 0.0) || (q0 < 0.0 && x < 0.0 && edge < 0.0)
  {
    assert x > 0.0 ==> x * s0 > 0.0;
    assert x < 0.0 ==> x * s0 < 0.0;
  }

  lemma PositiveStep(S: real, edge: real, q0: real)
    requires S * q0 == edge && ((q0 > 0.0 && edge > 0.0) || (q0 < 0.0 && edge < 0.0))
    ensures S > 0.0 && S * Abs(q0) == Abs(edge)
  {
    assert S <= 0.0 && q0 > 0.0 ==> S * q0 <= 0.0;
    assert S <= 0.0 && q0 < 0.0 ==> S * q0 >= 0.0;
    assert S * (-q0) == -(S * q0);
  }

  lemma AbsSteps(x: real, s0: real, edge: real)
    requires s0 > 0.0 && x * s0 == edge
    ensures Abs(x) * s0 == Abs(edge)
  {
    assert (-x) * s0 == -(x * s0);
    assert x > 0.0 ==> x * s0 > 0.0;
    assert x < 0.0 ==> x * s0 < 0.0;
  }

  /** When the edge's code is not zero, the group meets the setting above. */
  lemma GroupSetting(S: real, d: real, s0: real, edge: real, q0: real, n: real) returns (x: real)
    requires Rescaled(S, s0, edge, q0) && n > 0.0 && d <= n * s0 && d <= Abs(edge) + Abs(edge)
    ensures x * s0 == Abs(edge) && ScaleSetting(d, S, s0, x, Abs(q0), n) && S * Abs(q0) == Abs(edge)
  {
    var y :| EdgeSteps(y, s0, edge, q0);
    OneSign(y, s0, edge, q0);
    PositiveStep(S, edge, q0);
    AbsSteps(y, s0, edge);
    x := Abs(y);
  }

  // ---------------------------------------------------------------- one weight

  /** The error of a weight at distance u above the edge. */
  lemma SteppedError(S: real, d: real, s0: real, edge: real, q0: real, n: nat, u: real, t: real, r: int, c: real,
                     m: real)
    requires Rescaled(S, s0, edge, q0) && n > 0 && d <= n as real * s0 && d <= Abs(edge) + Abs(edge)
    requires 0.0 <= u <= d && t * S == u && Abs(r as real - t) <= 0.5 && c == Clip(r, n) as real && m == c * S
    ensures -s0 <= m - u <= s0
  {
    var x := GroupSetting(S, d, s0, edge, q0, n as real);
    DistanceError(u, d, S, s0, x, Abs(q0), n, t, r, c);
  }

  lemma SmallRatio(y: real, s: real, w: real)
    requires s > 0.0 && y * s == w && -s <= w + w <= s
    ensures Round(y) == 0
  {
    HalfCancelInto(y, s, w);
    HalfRounds(y);
  }

  lemma HalfRounds(y: real)
    requires Abs(y) <= 0.5
    ensures Round(y) == 0
  {
  }

  lemma ZeroTimes(s: real)
    ensures 0.0 * s == 0.0
  {
  }

  /** When the edge rounds to no step at all, every weight of the group is quantized to zero. */
  lemma ZeroGroup(edge: real, s0: real, n: nat, w: real)
    requires s0 > 0.0 && EdgeCode(edge, s0) == 0 && Abs(w) <= Abs(edge)
    ensures Code(w, ParamsFor(edge, s0), n) == 0 && ParamsFor(edge, s0) == Params(s0, 0.0) && Abs(w) <= s0
  {
    DivMul(edge, s0);
    ZeroTimes(s0);
    RoundedEdge(edge, s0, edge / s0, 0.0, 0.0);
    DivMul(w, s0);
    SmallRatio(w / s0, s0, w);
  }

  /** Quantizing and dequantizing with a positive first scale moves a weight by at most that scale. */
  lemma PositiveError(edge: real, s0: real, d: real, n: nat, w: real)
    requires s0 > 0.0 && n > 0 && d <= n as real * s0 && d <= Abs(edge) + Abs(edge)
    requires 0.0 <= w - edge <= d && Abs(w) <= Abs(edge)
    ensures Abs(Restore(Code(w, ParamsFor(edge, s0), n), ParamsFor(edge, s0)) - w) <= s0
  {
    if EdgeCode(edge, s0) == 0 {
      ZeroGroup(edge, s0, n, w);
      ZeroTimes(s0);
    } else {
      IsRescaled(edge, s0);
      var p := ParamsFor(edge, s0);
      var t := (w - edge) / p.scale;
      DivMul(w - edge, p.scale);
      SteppedCode(p, d, s0, edge, EdgeCode(edge, s0) as real, n, w, t, Round(t), Code(w, p, n));
    }
  }

  lemma SteppedCode(p: Params, d: real, s0: real, edge: real, q0: real, n: nat, w: real, t: real, r: int, c: nat)
    requires Rescaled(p.scale, s0, edge, q0) && p.bias == edge
    requires n > 0 && d <= n as real * s0 && d <= Abs(edge) + Abs(edge) && 0.0 <= w - edge <= d
    requires t * p.scale == w - edge && Abs(r as real - t) <= 0.5 && c == Clip(r, n)
    ensures Abs(Restore(c, p) - w) <= s0
  {
    SteppedError(p.scale, d, s0, edge, q0, n, w - edge, t, r, c as real, c as real * p.scale);
  }

  // ---------------------------------------------------------------- negative scales

  function Flip(p: Params): Params {
    Params(-p.scale, -p.bias)
  }

  lemma FlipRatio(a: real, s: real)
    requires s != 0.0
    ensures (-a) / (-s) == a / s && a / (-s) == (-a) / s
  {
    var t := a / s;
    DivMul(a, s);
    assert t * (-s) == -a && (-t) * (-s) == a && (-t) * s == -a;
    RatioIs(-a, -s, t);
    RatioIs(a, -s, -t);
    RatioIs(-a, s, -t);
  }

  lemma RatioIs(a: real, s: real, t: real)
    requires s != 0.0 && t * s == a
    ensures a / s == t
  {
    DivMul(a, s);
    var e := a / s - t;
    assert e * s == 0.0;
    assert e > 0.0 && s > 0.0 ==> e * s > 0.0;
    assert e > 0.0 && s < 0.0 ==> e * s < 0.0;
    assert e < 0.0 && s > 0.0 ==> e * s < 0.0;
    assert e < 0.0 && s < 0.0 ==> e * s > 0.0;
  }

  /** Negating the weight, the scale and the bias gives the same code. */
  lemma FlipCode(w: real, p: Params, n: nat)
    requires p.scale != 0.0
    ensures Code(-w, Flip(p), n) == Code(w, p, n)
  {
    FlipRatio(w - p.bias, p.scale);
    assert -w - (-p.bias) == -(w - p.bias);
  }

  lemma FlipRestore(c: nat, p: Params)
    ensures Restore(c, Flip(p)) == -Restore(c, p)
  {
    assert c as real * (-p.scale) == -(c as real * p.scale);
  }

  /** A group counted down from its upper edge is the negated group counted up from its lower edge. */
  lemma FlipParams(edge: real, s0: real)
    requires s0 > 0.0
    ensures EdgeCode(edge, -s0) == EdgeCode(-edge, s0) && ParamsFor(edge, -s0) == Flip(ParamsFor(-edge, s0))
  {
    FlipRatio(edge, s0);
    var q0 := EdgeCode(edge, -s0);
    if q0 != 0 {
      FlipRatio(edge, q0 as real);
      NegRatio(edge, q0 as real);
    }
  }

  lemma NegRatio(a: real, s: real)
    requires s != 0.0
    ensures (-a) / s == -(a / s)
  {
    DivMul(a, s);
    assert (-(a / s)) * s == -a;
    RatioIs(-a, s, -(a / s));
  }

  // ---------------------------------------------------------------- any group

  lemma RangeAtMost(lo: real, hi: real, n: nat)
    requires n > 0 && lo <= hi
    ensures hi - lo <= n as real * FirstScale(lo, hi, n)
    ensures hi - lo <= Abs(Edge(lo, hi)) + Abs(Edge(lo, hi))
  {
    var d, rn := hi - lo, n as real;
    DivMul(d, rn);
    MulMono(d / rn, FirstScale(lo, hi, n), rn);
  }

  lemma EdgeLargest(lo: real, hi: real, w: real)
    requires lo <= w <= hi
    ensures Abs(w) <= Abs(Edge(lo, hi))
  {
  }

  /** Quantizing and dequantizing moves a weight by at most the group's step, clipped values included. */
  lemma WeightError(lo: real, hi: real, n: nat, w: real)
    requires n > 0 && lo <= w <= hi
    ensures Abs(Restore(Code(w, AffineParams(lo, hi, n), n),
            AffineParams(lo, hi, n)) - w) <= RMax((hi - lo) / n as real, EPS)
  {
    var edge, s0 := Edge(lo, hi), FirstScale(lo, hi, n);
    RangeAtMost(lo, hi, n);
    EdgeLargest(lo, hi, w);
    if Abs(lo) > Abs(hi) {
      PositiveError(edge, s0, hi - lo, n, w);
    } else {
      PositiveError(-edge, s0, hi - lo, n, -w);
      FlippedError(edge, s0, n, w);
    }
  }

  lemma FlippedError(edge: real, s0: real, n: nat, w: real)
    requires s0 > 0.0
    ensures Restore(Code(w, ParamsFor(edge, -s0), n), ParamsFor(edge, -s0)) - w
            == -(Restore(Code(-w, ParamsFor(-edge, s0), n), ParamsFor(-edge, s0)) - (-w))
  {
    var p := ParamsFor(-edge, s0);
    FlipParams(edge, s0);
    FlipCode(-w, p, n);
    FlipRestore(Code(-w, p, n), p);
    assert -(-w) == w;
  }

  // ---------------------------------------------------------------- exact values

  /** Zero is as many steps from the edge as the edge's own code says, and that many steps are in range. */
  lemma PositiveZero(edge: real, s0: real, n: nat)
    requires s0 > 0.0 && n > 0 && edge <= 0.0 && -edge <= n as real * s0
    ensures Restore(Code(0.0, ParamsFor(edge, s0), n), ParamsFor(edge, s0)) == 0.0
  {
    if EdgeCode(edge, s0) == 0 {
      ZeroGroup(edge, s0, n, 0.0);
      ZeroTimes(s0);
    } else {
      IsRescaled(edge, s0);
      var S, q := ParamsFor(edge, s0).scale, -EdgeCode(edge, s0);
      StepsInRange(S, s0, edge, EdgeCode(edge, s0) as real, n as real);
      assert S * q as real == -edge;
      RatioIs(0.0 - edge, S, q as real);
      RoundWhole(q);
    }
  }

  lemma StepsInRange(S: real, s0: real, edge: real, q0: real, n: real)
    requires Rescaled(S, s0, edge, q0) && edge <= 0.0 && -edge <= n * s0
    ensures q0 < 0.0 && -q0 <= n + 0.5 && S * (-q0) == -edge
  {
    var x :| EdgeSteps(x, s0, edge, q0);
    OneSign(x, s0, edge, q0);
    assert (-x) * s0 == -edge;
    Cancel(-x, n, s0);
    assert S * (-q0) == -(S * q0);
  }

  lemma RoundWhole(q: int)
    ensures Round(q as real) == q
  {
  }

  /** Zero is represented exactly by every group whose range contains it. */
  lemma ZeroIsExact(lo: real, hi: real, n: nat)
    requires n > 0 && lo <= 0.0 <= hi
    ensures Restore(Code(0.0, AffineParams(lo, hi, n), n), AffineParams(lo, hi, n)) == 0.0
  {
    var edge, s0 := Edge(lo, hi), FirstScale(lo, hi, n);
    RangeAtMost(lo, hi, n);
    if Abs(lo) > Abs(hi) {
      PositiveZero(edge, s0, n);
    } else {
      PositiveZero(-edge, s0, n);
      FlippedError(edge, s0, n, 0.0);
    }
  }

  /** The edge of the range is recovered exactly just when it rounds to a whole number of steps or is zero. */
  lemma EdgeIsExact(lo: real, hi: real, n: nat)
    requires n > 0 && lo <= hi
    ensures Restore(Code(Edge(lo, hi), AffineParams(lo, hi, n), n), AffineParams(lo, hi, n)) == Edge(lo, hi)
            <==> EdgeCode(Edge(lo, hi), SignedScale(lo, hi, n)) != 0 || Edge(lo, hi) == 0.0
  {
    var edge, s0 := Edge(lo, hi), FirstScale(lo, hi, n);
    if Abs(lo) > Abs(hi) {
      PositiveEdge(edge, s0, n);
    } else {
      PositiveEdge(-edge, s0, n);
      FlipParams(edge, s0);
      FlippedError(edge, s0, n, edge);
    }
  }

  lemma PositiveEdge(edge: real, s0: real, n: nat)
    requires s0 > 0.0
    ensures Restore(Code(edge, ParamsFor(edge, s0), n), ParamsFor(edge, s0)) == edge
            <==> EdgeCode(edge, s0) != 0 || edge == 0.0
  {
    var p := ParamsFor(edge, s0);
    if EdgeCode(edge, s0) == 0 {
      ZeroGroup(edge, s0, n, edge);
      ZeroTimes(s0);
    } else {
      ZeroTimes(p.scale);
      RatioIs(edge - p.bias, p.scale, 0.0);
      RoundWhole(0);
    }
  }
}
