/**
 Packing small codes into 32-bit words, in both layouts: shift-and-sum when the width is a power of
 two, and one stream of bits otherwise.
 */
module Packing {
  import opened Sums
  import opened Tensors

  const WORD: nat := 0x1_0000_0000

  function Pow(b: nat, n: nat): nat {
    if n == 0 then 1 else b * Pow(b, n - 1)
  }

  // ---------------------------------------------------------------- digits in a base

  function PowAt(b: nat, i: int): nat {
    if i < 0 then 0 else Pow(b, i)
  }

  /** The number with the digits f(0), f(1), … in base b. */
  function Value(b: nat, n: nat, f: int -> int): int {
    Sum(n, i => f(i) * PowAt(b, i))
  }

  ghost predicate DigitsBelow(b: nat, n: nat, f: int -> int) {
    forall i :: 0 <= i < n ==> 0 <= f(i) < b
  }

  lemma {:induction false} PowAdd(b: nat, m: nat, n: nat)
    ensures Pow(b, m + n) == Pow(b, m) * Pow(b, n)
  {
    if m > 0 {
      PowAdd(b, m - 1, n);
      MulAssoc(b, Pow(b, m - 1), Pow(b, n));
      assert m + n - 1 == m - 1 + n;
    }
  }

  lemma {:induction false} PowPow(b: nat, m: nat, n: nat)
    ensures Pow(Pow(b, m), n) == Pow(b, m * n)
  {
    if n > 0 {
      PowPow(b, m, n - 1);
      assert m * n == m + m * (n - 1);
      PowAdd(b, m, m * (n - 1));
    }
  }

  lemma {:induction false} PowPositive(b: nat, n: nat)
    requires b > 0
    ensures Pow(b, n) > 0
  {
    if n > 0 {
      PowPositive(b, n - 1);
      MulPositive(b, Pow(b, n - 1));
    }
  }

  lemma MulPositive(a: int, b: int)
    requires a > 0 && b > 0
    ensures a * b > 0
  {
  }

  lemma ValueNext(b: nat, n: nat, f: int -> int)
    ensures Value(b, n + 1, f) == Value(b, n, f) + f(n) * Pow(b, n)
  {
  }

  lemma {:induction false} ValueBound(b: nat, n: nat, f: int -> int)
    requires DigitsBelow(b, n, f)
    ensures 0 <= Value(b, n, f) < Pow(b, n)
  {
    if n > 0 {
      ValueBound(b, n - 1, f);
      ValueNext(b, n - 1, f);
      MulBound(f(n - 1), b, Pow(b, n - 1), Value(b, n - 1, f));
    }
  }

  /** A digit can be read back by dividing and taking the remainder. */
  lemma {:induction false} DigitAt(b: nat, n: nat, f: int -> int, k: nat)
    requires b > 0 && DigitsBelow(b, n, f) && k < n
    ensures Pow(b, k) > 0 && Value(b, n, f) / Pow(b, k) % b == f(k)
    decreases n
  {
    PowPositive(b, k);
    ValueNext(b, n - 1, f);
    if k == n - 1 {
      ValueBound(b, n - 1, f);
      DivOf(f(k), Pow(b, k), Value(b, k, f));
      DivOf(0, b, f(k));
    } else {
      DigitAt(b, n - 1, f, k);
      PowAdd(b, k, n - 1 - k);
      var p, high, low := Pow(b, k), f(n - 1) * Pow(b, n - 2 - k), Value(b, n - 1, f);
      HigherDigit(b, n, f(n - 1), k);
      DivShift(low, high * b, p);
      ModShift(low / p, high, b);
    }
  }

  lemma HigherDigit(b: nat, n: nat, d: int, k: nat)
    requires k < n - 1
    ensures d * Pow(b, n - 1) == d * Pow(b, n - 2 - k) * b * Pow(b, k)
  {
    PowAdd(b, k, n - 1 - k);
    assert Pow(b, n - 1 - k) == b * Pow(b, n - 2 - k);
    Rearrange(d, Pow(b, k), b, Pow(b, n - 2 - k));
  }

  lemma Rearrange(d: int, p: int, b: int, q: int)
    ensures d * (p * (b * q)) == d * q * b * p
  {
    assert d * (p * (b * q)) == (d * q) * (p * b) by {
      MulAssoc(d, q, p * b);
      assert q * (p * b) == p * (b * q);
    }
    MulAssoc(d * q, b, p);
  }

  lemma DivShift(a: int, m: int, p: nat)
    requires p > 0
    ensures (a + m * p) / p == a / p + m
  {
    var r := a % p;
    assert a + m * p == (a / p + m) * p + r;
    DivOf(a / p + m, p, r);
  }

  lemma ModShift(a: int, m: int, b: nat)
    requires b > 0
    ensures (a + m * b) % b == a % b
  {
    var r := a % b;
    assert a + m * b == (a / b + m) * b + r;
    DivOf(a / b + m, b, r);
  }

  function Digit(b: nat, x: nat, i: int): (d: nat)
    requires b > 0
    ensures d < b
  {
    if i < 0 then 0
    else
      PowPositive(b, i);
      x / Pow(b, i) % b
  }

  function Digits(b: nat, x: nat): int -> int
    requires b > 0
  {
    i => Digit(b, x, i)
  }

  /** A number is the value of its digits. */
  lemma {:induction false} DigitsOf(b: nat, n: nat, x: nat)
    requires b > 0
    ensures Pow(b, n) > 0 && Value(b, n, Digits(b, x)) == x % Pow(b, n)
  {
    PowPositive(b, n);
    if n > 0 {
      DigitsOf(b, n - 1, x);
      PowPositive(b, n - 1);
      ValueNext(b, n - 1, Digits(b, x));
      ModSplit(x, Pow(b, n - 1), b);
    } else {
      DivOf(x, 1, 0);
    }
  }

  lemma ValueSame(b: nat, n: nat, f: int -> int, g: int -> int)
    requires forall i :: 0 <= i < n ==> f(i) == g(i)
    ensures Value(b, n, f) == Value(b, n, g)
  {
    SumSame(n, i => f(i) * PowAt(b, i), i => g(i) * PowAt(b, i));
  }

  lemma ModSplit(x: nat, p: nat, b: nat)
    requires p > 0 && b > 0
    ensures b * p > 0 && x % (b * p) == x % p + (x / p % b) * p
  {
    MulPositive(b, p);
    var q, r := x / p, x % p;
    var h, d := q / b, q % b;
    assert x == q * p + r && q == h * b + d;
    MulBound(d, b, p, r);
    assert q * p == h * (b * p) + d * p by {
      Distribute(h * b, d, p);
      MulAssoc(h, b, p);
    }
    DivOf(h, b * p, d * p + r);
  }

  // ---------------------------------------------------------------- the two layouts

  ghost predicate CodesBelow(codes: seq<nat>, bits: nat) {
    forall i :: 0 <= i < |codes| ==> codes[i] < Pow(2, bits)
  }

  function CodeAt(codes: seq<nat>, i: int): nat {
    if 0 <= i < |codes| then codes[i] else 0
  }

  function CodesFrom(codes: seq<nat>, start: int): int -> int {
    i => CodeAt(codes, start + i)
  }

  /** Shift-and-sum: every word holds n codes. */
  function PackShift(codes: seq<nat>, bits: nat, n: nat): seq<nat>
    requires n > 0
  {
    seq(|codes| / n, j requires 0 <= j < |codes| / n => ShiftWord(codes, bits, n, j))
  }

  function ShiftWord(codes: seq<nat>, bits: nat, n: nat, j: nat): nat {
    Sum(n, i => CodesFrom(codes, j * n)(i) * PowAt(2, bits * i)) % WORD
  }

  /** Bit p of the stream of codes. */
  function BitOf(codes: seq<nat>, bits: nat, p: int): nat
    requires 0 < bits
  {
    if p < 0 then 0 else Digit(2, CodeAt(codes, p / bits), p % bits)
  }

  function BitsFrom(codes: seq<nat>, bits: nat, start: int): int -> int
    requires 0 < bits
  {
    p => BitOf(codes, bits, start + p)
  }

  /** One stream of bits, 32 to a word. */
  function PackStream(codes: seq<nat>, bits: nat): seq<nat>
    requires 0 < bits
  {
    seq(|codes| * bits / 32, j requires 0 <= j < |codes| * bits / 32 => StreamWord(codes, bits, j))
  }

  function StreamWord(codes: seq<nat>, bits: nat, j: nat): nat
    requires 0 < bits
  {
    Value(2, 32, BitsFrom(codes, bits, 32 * j)) % WORD
  }

  /** Shifts the wanted bits of a 32-bit word to the top and down again. */
  function UnpackAt(w: nat, bits: nat, start: nat): nat
    requires start + bits <= 32
  {
    PowPositive(2, 32 - bits);
    w * Pow(2, 32 - (start + bits)) % WORD / Pow(2, 32 - bits)
  }

  function UnpackShift(words: seq<nat>, bits: nat, n: nat): seq<nat>
    requires n > 0 && n * bits == 32
  {
    seq(|words| * n, m requires 0 <= m < |words| * n => ShiftCode(words, bits, n, m))
  }

  function ShiftCode(words: seq<nat>, bits: nat, n: nat, m: nat): nat
    requires n > 0 && n * bits == 32
  {
    StartFits(bits, n, m % n);
    UnpackAt(CodeAt(words, m / n), bits, m % n * bits)
  }

  lemma StartFits(bits: nat, n: nat, i: nat)
    requires n * bits == 32 && i < n
    ensures i * bits + bits <= 32
  {
    assert (i + 1) * bits <= n * bits;
  }

  function UnpackStream(words: seq<nat>, bits: nat): seq<nat>
    requires 0 < bits
  {
    seq(|words| * 32 / bits, m requires 0 <= m < |words| * 32 / bits => StreamCode(words, bits, m))
  }

  function StreamCode(words: seq<nat>, bits: nat, m: nat): nat
    requires 0 < bits
  {
    var v := Value(2, bits, BitsFrom(words, 32, m * bits));
    if v < 0 then 0 else v
  }

  // ---------------------------------------------------------------- unpacking undoes packing

  lemma WordIsPow()
    ensures Pow(2, 32) == WORD
  {
    PowAdd(2, 16, 16);
    PowAdd(2, 8, 8);
    PowAdd(2, 4, 4);
    assert Pow(2, 4) == 16;
  }

  lemma BitsBelow(codes: seq<nat>, bits: nat, start: int, n: nat)
    requires 0 < bits
    ensures DigitsBelow(2, n, BitsFrom(codes, bits, start))
  {
    var f := BitsFrom(codes, bits, start);
    forall i | 0 <= i < n
      ensures 0 <= f(i) < 2
    {
      assert f(i) == BitOf(codes, bits, start + i);
    }
  }

  /** A word of the bit stream does not overflow. */
  lemma StreamValue(codes: seq<nat>, bits: nat, j: nat)
    requires 0 < bits
    ensures StreamWord(codes, bits, j) == Value(2, 32, BitsFrom(codes, bits, 32 * j))
  {
    BitsBelow(codes, bits, 32 * j, 32);
    ValueBound(2, 32, BitsFrom(codes, bits, 32 * j));
    WordIsPow();
    DivOf(0, WORD, Value(2, 32, BitsFrom(codes, bits, 32 * j)));
  }

  lemma StreamBit(codes: seq<nat>, bits: nat, j: nat, k: nat)
    requires 0 < bits && k < 32
    ensures Digit(2, StreamWord(codes, bits, j), k) == BitOf(codes, bits, 32 * j + k)
  {
    StreamValue(codes, bits, j);
    BitsBelow(codes, bits, 32 * j, 32);
    DigitAt(2, 32, BitsFrom(codes, bits, 32 * j), k);
  }

  /** Unpacking the bit stream undoes packing it. */
  lemma StreamRoundTrip(codes: seq<nat>, bits: nat)
    requires 0 < bits && |codes| * bits % 32 == 0 && CodesBelow(codes, bits)
    ensures UnpackStream(PackStream(codes, bits), bits) == codes
  {
    var words := PackStream(codes, bits);
    assert |words| * 32 == |codes| * bits;
    DivOf(|codes|, bits, 0);
    forall m: nat | m < |codes|
      ensures StreamCode(words, bits, m) == codes[m]
    {
      CodeBack(codes, bits, m);
    }
  }

  lemma CodeBack(codes: seq<nat>, bits: nat, m: nat)
    requires 0 < bits && |codes| * bits % 32 == 0 && CodesBelow(codes, bits) && m < |codes|
    ensures StreamCode(PackStream(codes, bits), bits, m) == codes[m]
  {
    var words := PackStream(codes, bits);
    forall i: nat | i < bits
      ensures BitsFrom(words, 32, m * bits)(i) == Digits(2, codes[m])(i)
    {
      StreamBitBack(codes, bits, m, i);
    }
    ValueSame(2, bits, BitsFrom(words, 32, m * bits), Digits(2, codes[m]));
    DigitsOf(2, bits, codes[m]);
    DivOf(0, Pow(2, bits), codes[m]);
  }

  lemma StreamBitBack(codes: seq<nat>, bits: nat, m: nat, i: nat)
    requires 0 < bits && |codes| * bits % 32 == 0 && m < |codes| && i < bits
    ensures BitOf(PackStream(codes, bits), 32, m * bits + i) == Digit(2, codes[m], i)
  {
    var p := m * bits + i;
    var j, k := p / 32, p % 32;
    MulBound(m, |codes|, bits, i);
    assert p == 32 * j + k && 32 * j <= p;
    assert j < |codes| * bits / 32;
    StreamBit(codes, bits, j, k);
    DivOf(m, bits, i);
  }

  ghost function ShiftTerms(codes: seq<nat>, bits: nat, n: nat, j: nat): int {
    Sum(n, i => CodesFrom(codes, j * n)(i) * PowAt(2, bits * i))
  }

  lemma ShiftTermsValue(codes: seq<nat>, bits: nat, n: nat, j: nat)
    ensures ShiftTerms(codes, bits, n, j) == Value(Pow(2, bits), n, CodesFrom(codes, j * n))
  {
    var b, f := Pow(2, bits), CodesFrom(codes, j * n);
    forall i | 0 <= i < n
      ensures f(i) * PowAt(2, bits * i) == f(i) * PowAt(b, i)
    {
      PowPow(2, bits, i);
    }
    SumSame(n, i => f(i) * PowAt(2, bits * i), i => f(i) * PowAt(b, i));
  }

  lemma WholeWord(bits: nat, n: nat)
    requires n * bits == 32
    ensures Pow(Pow(2, bits), n) == WORD && Pow(2, bits) > 0
  {
    PowPow(2, bits, n);
    assert bits * n == 32;
    WordIsPow();
    PowPositive(2, bits);
  }

  lemma CodesAreDigits(codes: seq<nat>, bits: nat, start: int, n: nat)
    requires CodesBelow(codes, bits)
    ensures DigitsBelow(Pow(2, bits), n, CodesFrom(codes, start))
  {
    var f := CodesFrom(codes, start);
    PowPositive(2, bits);
    forall i | 0 <= i < n
      ensures 0 <= f(i) < Pow(2, bits)
    {
      assert f(i) == CodeAt(codes, start + i);
    }
  }

  /** A word of the shift-and-sum layout holds the codes as digits in base 2^bits, and does not overflow. */
  lemma ShiftIsValue(codes: seq<nat>, bits: nat, n: nat, j: nat)
    requires n * bits == 32 && CodesBelow(codes, bits)
    ensures ShiftWord(codes, bits, n, j) == ShiftTerms(codes, bits, n, j)
            == Value(Pow(2, bits), n, CodesFrom(codes, j * n)) < WORD
  {
    ShiftTermsValue(codes, bits, n, j);
    CodesAreDigits(codes, bits, j * n, n);
    ValueBound(Pow(2, bits), n, CodesFrom(codes, j * n));
    WholeWord(bits, n);
    DivOf(0, WORD, ShiftTerms(codes, bits, n, j));
  }

  /** Shifting up and down extracts a range of bits. */
  lemma ShiftsExtract(w: nat, s: nat, t: nat, up: nat)
    requires s > 0 && t > 0 && up > 0
    ensures s * t * up > 0 && s * up > 0 && w * up % (s * t * up) / (s * up) == w / s % t
  {
    MulPositive(s, t);
    ModScale(w, s * t, up);
    DivScale(w % (s * t), s, up);
    ModThenDiv(w, s, t);
  }

  /** Reading `bits` bits from `start` by two shifts is dividing and taking the remainder. */
  lemma UnpackIsDigit(w: nat, bits: nat, n: nat, i: nat)
    requires n * bits == 32 && w < WORD && i < n
    ensures i * bits + bits <= 32 && Pow(2, bits) > 0
    ensures UnpackAt(w, bits, i * bits) == Digit(Pow(2, bits), w, i)
  {
    StartFits(bits, n, i);
    PowPositive(2, bits);
    var start := i * bits;
    UnpackByPowers(w, bits, start);
    assert start == bits * i;
    PowPow(2, bits, i);
  }

  lemma UnpackByPowers(w: nat, bits: nat, start: nat)
    requires start + bits <= 32 && w < WORD
    ensures Pow(2, start) > 0 && Pow(2, bits) > 0 && UnpackAt(w, bits, start) == w / Pow(2, start) % Pow(2, bits)
  {
    var rest := 32 - (start + bits);
    PowPositive(2, start);
    PowPositive(2, bits);
    PowPositive(2, rest);
    PowAdd(2, start, bits);
    PowAdd(2, start + bits, rest);
    PowAdd(2, start, rest);
    WordIsPow();
    ShiftsExtract(w, Pow(2, start), Pow(2, bits), Pow(2, rest));
  }

  lemma ModScale(a: nat, m: nat, k: nat)
    requires m > 0 && k > 0
    ensures m * k > 0 && a * k % (m * k) == a % m * k
  {
    MulPositive(m, k);
    var q, r := a / m, a % m;
    assert a == q * m + r;
    assert a * k == q * (m * k) + r * k by {
      Distribute(q * m, r, k);
      MulAssoc(q, m, k);
    }
    MulBound(r, m, k, 0);
    DivOf(q, m * k, r * k);
  }

  lemma DivScale(a: nat, m: nat, k: nat)
    requires m > 0 && k > 0
    ensures m * k > 0 && a * k / (m * k) == a / m
  {
    MulPositive(m, k);
    var q, r := a / m, a % m;
    assert a == q * m + r;
    assert a * k == q * (m * k) + r * k by {
      Distribute(q * m, r, k);
      MulAssoc(q, m, k);
    }
    MulBound(r, m, k, 0);
    DivOf(q, m * k, r * k);
  }

  lemma ModThenDiv(a: nat, s: nat, b: nat)
    requires s > 0 && b > 0
    ensures s * b > 0 && a % (s * b) / s == a / s % b
  {
    ModSplit(a, s, b);
    assert s * b == b * s;
    DivOf(a / s % b, s, a % s);
  }

  /** Unpacking by shifts undoes shift-and-sum packing. */
  lemma ShiftRoundTrip(codes: seq<nat>, bits: nat, n: nat)
    requires n > 0 && n * bits == 32 && |codes| % n == 0 && CodesBelow(codes, bits)
    ensures UnpackShift(PackShift(codes, bits, n), bits, n) == codes
  {
    var words := PackShift(codes, bits, n);
    assert |words| * n == |codes|;
    forall m: nat | m < |codes|
      ensures ShiftCode(words, bits, n, m) == codes[m]
    {
      DivBound(m, |words|, n);
      assert m == m / n * n + m % n;
      ShiftCodeBack(codes, words, bits, n, m / n, m % n);
    }
  }

  lemma ShiftCodeBack(codes: seq<nat>, words: seq<nat>, bits: nat, n: nat, j: nat, i: nat)
    requires n > 0 && n * bits == 32 && CodesBelow(codes, bits) && i < n && j < |words|
             && words[j] == ShiftWord(codes, bits, n, j)
    ensures ShiftCode(words, bits, n, j * n + i) == CodeAt(codes, j * n + i)
  {
    DivOf(j, n, i);
    ShiftWordDigit(codes, bits, n, j, i);
  }

  lemma ShiftWordDigit(codes: seq<nat>, bits: nat, n: nat, j: nat, i: nat)
    requires n * bits == 32 && CodesBelow(codes, bits) && i < n
    ensures i * bits + bits <= 32 && UnpackAt(ShiftWord(codes, bits, n, j), bits, i * bits) == CodeAt(codes, j * n + i)
  {
    ShiftIsValue(codes, bits, n, j);
    CodesAreDigits(codes, bits, j * n, n);
    UnpackIsDigit(ShiftWord(codes, bits, n, j), bits, n, i);
    DigitAt(Pow(2, bits), n, CodesFrom(codes, j * n), i);
  }

  /** For widths that divide 32 the two layouts are the same words. */
  lemma LayoutsAgree(codes: seq<nat>, bits: nat, n: nat)
    requires n > 0 && n * bits == 32 && |codes| % n == 0 && CodesBelow(codes, bits)
    ensures PackShift(codes, bits, n) == PackStream(codes, bits)
  {
    var words := |codes| / n;
    assert |codes| == words * n;
    MulAssoc(words, n, bits);
    DivOf(words, 32, 0);
    forall j: nat | j < words
      ensures ShiftWord(codes, bits, n, j) == StreamWord(codes, bits, j)
    {
      WordsAgree(codes, bits, n, j);
    }
  }

  ghost function StreamTerm(codes: seq<nat>, bits: nat, j: nat, p: int): int
    requires bits > 0
  {
    BitOf(codes, bits, 32 * j + p) * PowAt(2, p)
  }

  ghost function TermsOf(codes: seq<nat>, bits: nat, j: nat): int -> int
    requires bits > 0
  {
    p => StreamTerm(codes, bits, j, p)
  }

  lemma StreamTerms(codes: seq<nat>, bits: nat, j: nat)
    requires bits > 0
    ensures StreamWord(codes, bits, j) == Sum(32, TermsOf(codes, bits, j))
  {
    StreamValue(codes, bits, j);
    SumSame(32, i => BitsFrom(codes, bits, 32 * j)(i) * PowAt(2, i), TermsOf(codes, bits, j));
  }

  /** The terms of one row of bits. */
  ghost function Row(f: int -> int, bits: nat, i: int): int {
    Sum(bits, q => f(i * bits + q))
  }

  lemma RowsOfTerms(f: int -> int, bits: nat, n: nat)
    ensures Sum(n * bits, f) == Sum(n, i => Row(f, bits, i))
  {
    SumRows(n, bits, f);
    SumSame(n, i => Sum(bits, q => f(i * bits + q)), i => Row(f, bits, i));
  }

  lemma WordsAgree(codes: seq<nat>, bits: nat, n: nat, j: nat)
    requires bits > 0 && n * bits == 32 && CodesBelow(codes, bits)
    ensures ShiftWord(codes, bits, n, j) == StreamWord(codes, bits, j)
  {
    StreamTerms(codes, bits, j);
    RowsOfTerms(TermsOf(codes, bits, j), bits, n);
    RowsAreCodes(codes, bits, n, j);
    ShiftIsValue(codes, bits, n, j);
  }

  lemma RowsAreCodes(codes: seq<nat>, bits: nat, n: nat, j: nat)
    requires bits > 0 && n * bits == 32 && CodesBelow(codes, bits)
    ensures Sum(n, i => Row(TermsOf(codes, bits, j), bits, i)) == ShiftTerms(codes, bits, n, j)
  {
    forall i | 0 <= i < n
      ensures Row(TermsOf(codes, bits, j), bits, i) == CodesFrom(codes, j * n)(i) * PowAt(2, bits * i)
    {
      RowOfBits(codes, bits, n, j, i);
    }
    SumSame(n, i => Row(TermsOf(codes, bits, j), bits, i), i => CodesFrom(codes, j * n)(i) * PowAt(2, bits * i));
  }

  ghost function DigitTerms(c: nat): int -> int {
    q => Digits(2, c)(q) * PowAt(2, q)
  }

  lemma DigitTermAt(c: nat, q: nat)
    ensures DigitTerms(c)(q) == Digit(2, c, q) * Pow(2, q)
  {
    assert Digits(2, c)(q) == Digit(2, c, q);
    assert PowAt(2, q) == Pow(2, q);
    assert DigitTerms(c)(q) == Digits(2, c)(q) * PowAt(2, q);
  }

  lemma DigitSum(c: nat, bits: nat)
    requires c < Pow(2, bits)
    ensures Sum(bits, DigitTerms(c)) == c
  {
    DigitsOf(2, bits, c);
    DivOf(0, Pow(2, bits), c);
    SumSame(bits, DigitTerms(c), i => Digits(2, c)(i) * PowAt(2, i));
  }

  /** The bits of one code, at their places in the word, are the code shifted up. */
  lemma RowOfBits(codes: seq<nat>, bits: nat, n: nat, j: nat, i: nat)
    requires bits > 0 && n * bits == 32 && CodesBelow(codes, bits) && i < n
    ensures Row(TermsOf(codes, bits, j), bits, i) == CodeAt(codes, j * n + i) * Pow(2, bits * i)
  {
    var c, p := CodeAt(codes, j * n + i), Pow(2, bits * i);
    PowPositive(2, bits);
    forall q | 0 <= q < bits
      ensures TermsOf(codes, bits, j)(i * bits + q) == p * DigitTerms(c)(q)
    {
      TermInRow(codes, bits, n, j, i, q);
    }
    ScaledRow(TermsOf(codes, bits, j), DigitTerms(c), bits, i, p);
    DigitSum(c, bits);
    MulCommutes(p, c);
  }

  lemma ScaledRow(f: int -> int, g: int -> int, bits: nat, i: int, p: int)
    requires forall q :: 0 <= q < bits ==> f(i * bits + q) == p * g(q)
    ensures Row(f, bits, i) == p * Sum(bits, g)
  {
    SumSame(bits, q => f(i * bits + q), q => p * g(q));
    SumScale(bits, p, g);
  }

  lemma TermInRow(codes: seq<nat>, bits: nat, n: nat, j: nat, i: nat, q: nat)
    requires bits > 0 && n * bits == 32 && i < n && q < bits
    ensures TermsOf(codes, bits, j)(i * bits + q) == Pow(2, bits * i) * DigitTerms(CodeAt(codes, j * n + i))(q)
  {
    BitInRow(codes, bits, n, j, i, q);
    var p, d := Pow(2, bits * i), Digit(2, CodeAt(codes, j * n + i), q);
    MulCommutes(i, bits);
    PowAdd(2, bits * i, q);
    MulSwapped(d, p, Pow(2, q));
    assert TermsOf(codes, bits, j)(i * bits + q) == d * Pow(2, bits * i + q);
    DigitTermAt(CodeAt(codes, j * n + i), q);
  }

  lemma MulSwapped(d: int, p: int, q: int)
    ensures d * (p * q) == p * (d * q)
  {
  }

  lemma BitInRow(codes: seq<nat>, bits: nat, n: nat, j: nat, i: nat, q: nat)
    requires n * bits == 32 && i < n && q < bits
    ensures BitOf(codes, bits, 32 * j + (i * bits + q)) == Digit(2, CodeAt(codes, j * n + i), q)
  {
    assert 32 * j + (i * bits + q) == (j * n + i) * bits + q by {
      Distribute(j * n, i, bits);
      MulAssoc(j, n, bits);
    }
    DivOf(j * n + i, bits, q);
  }
}
