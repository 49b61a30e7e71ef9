/**
 Sums over index letters.  An assignment gives letters their index values; `SumLetters` adds up a
 quantity over all values of a set of letters.
 */
module Sums {
  type Assignment = map<char, int>

  /** The size of every letter's axes. */
  type Dims = char -> nat

  function Sum(n: nat, f: int -> int): int {
    if n == 0 then 0 else Sum(n - 1, f) + f(n - 1)
  }

  lemma {:induction false} SumSame(n: nat, f: int -> int, g: int -> int)
    requires forall v :: 0 <= v < n ==> f(v) == g(v)
    ensures Sum(n, f) == Sum(n, g)
  {
    if n > 0 {
      SumSame(n - 1, f, g);
    }
  }

  lemma {:induction false} SumPlus(n: nat, f: int -> int, g: int -> int)
    ensures Sum(n, v => f(v) + g(v)) == Sum(n, f) + Sum(n, g)
  {
    if n > 0 {
      SumPlus(n - 1, f, g);
    }
  }

  lemma {:induction false} SumScale(n: nat, k: int, f: int -> int)
    ensures Sum(n, v => k * f(v)) == k * Sum(n, f)
  {
    if n > 0 {
      SumScale(n - 1, k, f);
    }
  }

  lemma {:induction false} SumZero(n: nat)
    ensures Sum(n, v => 0) == 0
  {
    if n > 0 {
      SumZero(n - 1);
    }
  }

  /** The order of two sums does not matter. */
  lemma {:induction false} SumSwap(n: nat, m: nat, f: (int, int) -> int)
    ensures Sum(n, i => Sum(m, j => f(i, j))) == Sum(m, j => Sum(n, i => f(i, j)))
  {
    if n == 0 {
      SumZero(m);
      SumSame(m, j => Sum(n, i => f(i, j)), v => 0);
    } else {
      SumSwap(n - 1, m, f);
      SumPlus(m, j => Sum(n - 1, i => f(i, j)), j => f(n - 1, j));
      SumSame(m, j => Sum(n, i => f(i, j)), j => (j => Sum(n - 1, i => f(i, j)))(j) + (j => f(n - 1, j))(j));
    }
  }

  /** A sum over n * m values, row by row. */
  lemma {:induction false} SumRows(n: nat, m: nat, f: int -> int)
    ensures Sum(n * m, f) == Sum(n, i => Sum(m, j => f(i * m + j)))
  {
    if n > 0 {
      SumRows(n - 1, m, f);
      SumSplit((n - 1) * m, m, f);
      assert (n - 1) * m + m == n * m;
    }
  }

  lemma {:induction false} SumSplit(a: nat, b: nat, f: int -> int)
    ensures Sum(a + b, f) == Sum(a, f) + Sum(b, j => f(a + j))
  {
    if b > 0 {
      SumSplit(a, b - 1, f);
      assert a + b - 1 == a + (b - 1);
    }
  }

  // ---------------------------------------------------------------- sums over letters

  ghost function AnyOf(s: set<char>): (c: char)
    requires s != {}
    ensures c in s
  {
    var c :| c in s; c
  }

  ghost function SumLetters(s: set<char>, dims: Dims, env: Assignment, f: Assignment -> int): int
    decreases s
  {
    if s == {} then f(env)
    else
      var c := AnyOf(s);
      Sum(dims(c), v => SumLetters(s - {c}, dims, env[c := v], f))
  }

  /** `e` changes `env` at most in the letters of `s`, to values in range. */
  ghost predicate Varies(e: Assignment, env: Assignment, s: set<char>, dims: Dims)
  {
    && e.Keys == env.Keys + s
    && (forall c :: c in env && c !in s ==> e[c] == env[c])
    && (forall c :: c in s ==> 0 <= e[c] < dims(c))
  }

  lemma {:induction false} SumLettersSame(s: set<char>, dims: Dims, env: Assignment, f: Assignment -> int,
                                          g: Assignment -> int)
    requires forall e :: Varies(e, env, s, dims) ==> f(e) == g(e)
    decreases s
    ensures SumLetters(s, dims, env, f) == SumLetters(s, dims, env, g)
  {
    if s == {} {
      assert Varies(env, env, s, dims);
    } else {
      var c := AnyOf(s);
      forall v {:trigger env[c := v]} | 0 <= v < dims(c)
        ensures SumLetters(s - {c}, dims, env[c := v], f) == SumLetters(s - {c}, dims, env[c := v], g)
      {
        forall e | Varies(e, env[c := v], s - {c}, dims)
          ensures f(e) == g(e)
        {
          assert Varies(e, env, s, dims);
        }
        SumLettersSame(s - {c}, dims, env[c := v], f, g);
      }
      SumSame(dims(c), v => SumLetters(s - {c}, dims, env[c := v], f), v => SumLetters(s - {c}, dims, env[c := v], g));
    }
  }

  /** Summing two letters before the rest. */
  ghost function TwoFirst(s: set<char>, d: char, c: char, dims: Dims, env: Assignment, f: Assignment -> int): int
    requires c in s && d in s
  {
    Sum(dims(d), u => Sum(dims(c), v => SumLetters(s - {d} - {c}, dims, env[d := u][c := v], f)))
  }

  lemma TwoFirstSwap(s: set<char>, d: char, c: char, dims: Dims, env: Assignment, f: Assignment -> int)
    requires c in s && d in s && c != d
    ensures TwoFirst(s, d, c, dims, env, f) == TwoFirst(s, c, d, dims, env, f)
  {
    var rest := s - {d} - {c};
    assert rest == s - {c} - {d};
    var both := (u: int, v: int) => SumLetters(rest, dims, env[d := u][c := v], f);
    forall u, v
      ensures SumLetters(rest, dims, env[c := v][d := u], f) == both(u, v)
    {
      assert env[c := v][d := u] == env[d := u][c := v];
    }
    SumSwap(dims(d), dims(c), both);
    forall u {:trigger env[d := u]}
      ensures Sum(dims(c), v => SumLetters(s - {d} - {c}, dims, env[d := u][c := v], f))
              == Sum(dims(c), v => both(u, v))
    {
      SumSame(dims(c), v => SumLetters(s - {d} - {c}, dims, env[d := u][c := v], f), v => both(u, v));
    }
    SumSame(dims(d), u => Sum(dims(c), v => SumLetters(s - {d} - {c}, dims, env[d := u][c := v], f)),
        u => Sum(dims(c), v => both(u, v)));
    forall v {:trigger env[c := v]}
      ensures Sum(dims(d), u => SumLetters(s - {c} - {d}, dims, env[c := v][d := u], f))
              == Sum(dims(d), u => both(u, v))
    {
      SumSame(dims(d), u => SumLetters(s - {c} - {d}, dims, env[c := v][d := u], f), u => both(u, v));
    }
    SumSame(dims(c), v => Sum(dims(d), u => SumLetters(s - {c} - {d}, dims, env[c := v][d := u], f)),
        v => Sum(dims(d), u => both(u, v)));
  }

  lemma {:induction false} PickSecond(s: set<char>, d: char, c: char, dims: Dims, env: Assignment, f: Assignment -> int)
    requires c in s && d in s && c != d
    decreases s, 0
    ensures Sum(dims(d), u => SumLetters(s - {d}, dims, env[d := u], f)) == TwoFirst(s, d, c, dims, env, f)
  {
    forall u {:trigger env[d := u]}
      ensures SumLetters(s - {d}, dims, env[d := u], f)
              == Sum(dims(c), v => SumLetters(s - {d} - {c}, dims, env[d := u][c := v], f))
    {
      SumPick(s - {d}, c, dims, env[d := u], f);
    }
    SumSame(dims(d), u => SumLetters(s - {d}, dims, env[d := u], f),
            u => Sum(dims(c), v => SumLetters(s - {d} - {c}, dims, env[d := u][c := v], f)));
  }

  /** Any letter of the set can be summed first. */
  lemma {:induction false} SumPick(s: set<char>, c: char, dims: Dims, env: Assignment, f: Assignment -> int)
    requires c in s
    decreases s, 1
    ensures SumLetters(s, dims, env, f) == Sum(dims(c), v => SumLetters(s - {c}, dims, env[c := v], f))
  {
    var d := AnyOf(s);
    if d != c {
      PickSecond(s, d, c, dims, env, f);
      TwoFirstSwap(s, d, c, dims, env, f);
      PickSecond(s, c, d, dims, env, f);
    }
  }

  /** Summing over two disjoint sets is summing over one inside the other. */
  lemma {:induction false} SumUnion(a: set<char>, b: set<char>, dims: Dims, env: Assignment, f: Assignment -> int)
    requires a !! b
    decreases a
    ensures SumLetters(a + b, dims, env, f) == SumLetters(a, dims, env, e => SumLetters(b, dims, e, f))
  {
    var inner := (e: Assignment) => SumLetters(b, dims, e, f);
    if a == {} {
      assert a + b == b;
    } else {
      var c := AnyOf(a);
      SumPick(a + b, c, dims, env, f);
      assert a + b - {c} == (a - {c}) + b;
      forall v {:trigger env[c := v]} | 0 <= v < dims(c)
        ensures SumLetters(a + b - {c}, dims, env[c := v], f) == SumLetters(a - {c}, dims, env[c := v], inner)
      {
        SumUnion(a - {c}, b, dims, env[c := v], f);
        SumLettersSame(a - {c}, dims, env[c := v], e => SumLetters(b, dims, e, f), inner);
      }
      SumSame(dims(c), v => SumLetters(a + b - {c}, dims, env[c := v], f),
          v => SumLetters(a - {c}, dims, env[c := v], inner));
      SumLettersSame(a, dims, env, inner, e => SumLetters(b, dims, e, f));
    }
  }

  /** A factor that does not vary with the summed letters can be pulled out. */
  lemma {:induction false} SumFactor(s: set<char>, dims: Dims, env: Assignment, k: int, f: Assignment -> int)
    decreases s
    ensures SumLetters(s, dims, env, e => k * f(e)) == k * SumLetters(s, dims, env, f)
  {
    if s != {} {
      var c := AnyOf(s);
      forall v {:trigger env[c := v]} | 0 <= v < dims(c)
        ensures SumLetters(s - {c}, dims, env[c := v], e => k * f(e)) == k * SumLetters(s - {c}, dims, env[c := v], f)
      {
        SumFactor(s - {c}, dims, env[c := v], k, f);
      }
      var inner := (v: int) => SumLetters(s - {c}, dims, env[c := v], f);
      SumSame(dims(c), v => SumLetters(s - {c}, dims, env[c := v], e => k * f(e)), v => k * inner(v));
      SumScale(dims(c), k, inner);
      SumSame(dims(c), v => SumLetters(s - {c}, dims, env[c := v], f), inner);
    }
  }

  // ---------------------------------------------------------------- replacing a factor by its partial sum

  /** `f` only depends on the letters of `s`. */
  ghost predicate DependsOn(f: Assignment -> int, s: set<char>) {
    forall e1, e2 {:trigger f(e1), f(e2)} :: AgreeOn(e1, e2, s) ==> f(e1) == f(e2)
  }

  ghost predicate AgreeOn(e1: Assignment, e2: Assignment, s: set<char>) {
    forall c :: c in s ==> (c in e1 <==> c in e2) && (c in e1 ==> e1[c] == e2[c])
  }

  ghost predicate InRange(e: Assignment, s: set<char>, dims: Dims) {
    forall c :: c in s ==> c in e && 0 <= e[c] < dims(c)
  }

  /** `part`, with letters `q`, is `whole` summed over the other letters of `p`. */
  ghost predicate PartialSum(part: Assignment -> int, q: set<char>, whole: Assignment -> int, p: set<char>, dims: Dims)
  {
    forall e :: InRange(e, q, dims) ==> part(e) == SumLetters(p - q, dims, e, whole)
  }

  /** The law behind every contraction: in a sum of products, the factor `whole` can be replaced by its sum
      over letters that occur neither in the rest of the product nor in the output. */
  lemma ContractFactor(rest: Assignment -> int, r: set<char>, whole: Assignment -> int, p: set<char>,
                       part: Assignment -> int, q: set<char>,
                       out: set<char>, dims: Dims, env: Assignment)
    requires q <= p && p * (r + out) <= q
    requires DependsOn(rest, r) && PartialSum(part, q, whole, p, dims)
    requires InRange(env, out, dims)
    ensures SumLetters((r + p) - out, dims, env, e => rest(e) * whole(e))
            == SumLetters((r + q) - out, dims, env, e => rest(e) * part(e))
  {
    var a, b := (r + q) - out, p - q;
    var both := (e: Assignment) => rest(e) * whole(e);
    var reduced := (e: Assignment) => rest(e) * part(e);
    assert (r + p) - out == a + b;
    SumUnion(a, b, dims, env, both);
    var inner := (e: Assignment) => SumLetters(b, dims, e, both);
    forall e | Varies(e, env, a, dims)
      ensures inner(e) == reduced(e)
    {
      assert InRange(e, q, dims);
      var k := rest(e);
      forall e2 | Varies(e2, e, b, dims)
        ensures both(e2) == k * whole(e2)
      {
        assert AgreeOn(e2, e, r);
        assert rest(e2) == rest(e);
      }
      SumLettersSame(b, dims, e, both, e2 => k * whole(e2));
      SumFactor(b, dims, e, k, whole);
    }
    SumLettersSame(a, dims, env, e => SumLetters(b, dims, e, both), inner);
    SumLettersSame(a, dims, env, inner, reduced);
    SumLettersSame((r + p) - out, dims, env, e => rest(e) * whole(e), both);
    SumLettersSame(a, dims, env, reduced, e => rest(e) * part(e));
  }
}
