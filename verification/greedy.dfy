/**
 The greedy contraction planner: candidate pairs are scored once and carried over from step to step
 with their positions shifted.
 */
module Greedy {
  import opened Sums
  import opened Tensors
  import opened Labels
  import opened Subscripts
  import opened Products
  import opened Plan

  // ---------------------------------------------------------------- sizes

  /** The product of the sizes of a set of letters. */
  ghost function SetSize(s: set<char>, dims: Dims): nat
    decreases s
  {
    if s == {} then 1
    else
      var c := AnyOf(s);
      dims(c) * SetSize(s - {c}, dims)
  }

  lemma {:induction false} SetSizePick(s: set<char>, c: char, dims: Dims)
    requires c in s
    ensures SetSize(s, dims) == dims(c) * SetSize(s - {c}, dims)
    decreases s
  {
    var d := AnyOf(s);
    if d != c {
      SetSizePick(s - {d}, c, dims);
      SetSizePick(s - {c}, d, dims);
      assert s - {d} - {c} == s - {c} - {d};
      MulSwap(dims(d), dims(c), SetSize(s - {d} - {c}, dims));
    }
  }

  lemma MulSwap(a: int, b: int, c: int)
    ensures a * (b * c) == b * (a * c)
  {
  }

  /** The product over the letters in any order. */
  method TermSize(term: set<char>, dims: Dims) returns (size: nat)
    ensures size == SetSize(term, dims)
  {
    size := 1;
    var rest := term;
    while rest != {}
      invariant rest <= term && size * SetSize(rest, dims) == SetSize(term, dims)
      decreases rest
    {
      var c :| c in rest;
      SetSizePick(rest, c, dims);
      MulAssoc(size, dims(c), SetSize(rest - {c}, dims));
      size := size * dims(c);
      rest := rest - {c};
    }
  }

  /** The operations of contracting terms over the letters of `term`. */
  ghost function Flops(term: set<char>, inner: bool, terms: nat, dims: Dims): nat {
    SetSize(term, dims) * ((if terms - 1 > 1 then terms - 1 else 1) + if inner then 1 else 0)
  }

  method FlopCount(term: set<char>, inner: bool, terms: nat, dims: Dims) returns (cost: nat)
    ensures cost == Flops(term, inner, terms, dims)
  {
    var size := TermSize(term, dims);
    var opFactor: nat := 1;
    if terms - 1 > opFactor {
      opFactor := terms - 1;
    }
    if inner {
      opFactor := opFactor + 1;
    }
    cost := size * opFactor;
  }

  /** The operations of one node: for every assignment of its letters one multiplication less than it has
      inputs, but at least one operation, and an addition if some letter is summed. */
  ghost function NodeCost(inputs: seq<Subscript>, out: set<char>, dims: Dims): nat {
    var size := SetSize(LettersOf(inputs), dims);
    (if |inputs| > 2 then size * (|inputs| - 1) else size) + if LettersOf(inputs) <= out then 0 else size
  }

  lemma FlopsOfNode(inputs: seq<Subscript>, out: set<char>, dims: Dims)
    ensures Flops(LettersOf(inputs), !(LettersOf(inputs) <= out), |inputs|, dims) == NodeCost(inputs, out, dims)
  {
    var size, n := SetSize(LettersOf(inputs), dims), |inputs| - 1;
    assert size * (n + 1) == size * n + size;
  }

  method CostAndScaling(inputs: seq<Subscript>, output: Subscript, dims: Dims) returns (cost: nat, scaling: nat)
    ensures cost == NodeCost(inputs, output.letters, dims) && scaling == |LettersOf(inputs)|
  {
    var contractions := LettersOf(inputs);
    var inner := false;
    var rest := contractions;
    while rest != {} && !inner
      invariant rest <= contractions && (inner <==> !(contractions - rest <= output.letters))
      decreases rest
    {
      var c :| c in rest;
      inner := c !in output.letters;
      rest := rest - {c};
    }
    FlopsOfNode(inputs, output.letters, dims);
    cost := FlopCount(contractions, inner, |inputs|, dims);
    scaling := |contractions|;
  }

  ghost function PathCost(path: seq<PathNode>, dims: Dims): nat {
    if |path| == 0 then 0
    else PathCost(path[..|path| - 1], dims) + NodeCost(path[|path| - 1].inputs, path[|path| - 1].output.letters, dims)
  }

  // ---------------------------------------------------------------- candidates

  datatype Contraction = Contraction(size: int, cost: nat, output: set<char>, dims: nat, x: nat, y: nat)

  /** The letters of all inputs but two. */
  ghost function LettersExcept(subs: seq<Subscript>, x: nat, y: nat): set<char> {
    if |subs| == 0 then {}
    else LettersExcept(subs[..|subs| - 1], x, y) + if |subs| - 1 == x
        || |subs| - 1 == y then {} else subs[|subs| - 1].letters
  }

  lemma {:induction false} HasExcept(subs: seq<Subscript>, x: nat, y: nat, i: nat)
    requires i < |subs| && i != x && i != y
    ensures subs[i].letters <= LettersExcept(subs, x, y)
    decreases |subs|
  {
    if i < |subs| - 1 {
      HasExcept(subs[..|subs| - 1], x, y, i);
    }
  }

  lemma {:induction false} FindExcept(subs: seq<Subscript>, x: nat, y: nat, c: char) returns (i: nat)
    requires c in LettersExcept(subs, x, y)
    ensures i < |subs| && i != x && i != y && c in subs[i].letters
    decreases |subs|
  {
    var n := |subs| - 1;
    if n != x && n != y && c in subs[n].letters {
      i := n;
    } else {
      i := FindExcept(subs[..n], x, y, c);
    }
  }

  ghost function Joined(subs: seq<Subscript>, x: nat, y: nat): set<char>
    requires x < y < |subs|
  {
    subs[x].letters + subs[y].letters
  }

  /** The letters of a pair that are still needed after contracting it. */
  ghost function NewTerm(subs: seq<Subscript>, out: set<char>, x: nat, y: nat): set<char>
    requires x < y < |subs|
  {
    Joined(subs, x, y) * (LettersExcept(subs, x, y) + out)
  }

  /** The record of contracting inputs x and y of a list. */
  ghost function Candidate(subs: seq<Subscript>, out: set<char>, x: nat, y: nat, dims: Dims): Contraction
    requires x < y < |subs|
  {
    var both, term := Joined(subs, x, y), NewTerm(subs, out, x, y);
    Contraction(SetSize(subs[x].letters, dims) + SetSize(subs[y].letters, dims) - SetSize(term, dims),
                Flops(both, |both| > |term|, 2, dims), term, |both|, x, y)
  }

  /** A candidate is what scoring its pair on this list gives. */
  ghost predicate Exact(c: Contraction, subs: seq<Subscript>, out: set<char>, dims: Dims) {
    c.x < c.y < |subs| && c == Candidate(subs, out, c.x, c.y, dims)
  }

  ghost predicate AllExact(cs: seq<Contraction>, subs: seq<Subscript>, out: set<char>, dims: Dims) {
    forall k {:trigger cs[k]} :: 0 <= k < |cs| ==> Exact(cs[k], subs, out, dims)
  }

  /** The letters of the other inputs and of the output among those of a pair. */
  method NeededLetters(subs: seq<Subscript>, output: Subscript, p1: nat, p2: nat, contractions: set<char>)
    returns (term: set<char>)
    ensures term == contractions * (LettersExcept(subs, p1, p2) + output.letters)
  {
    term := {};
    for i := 0 to |subs|
      invariant term == contractions * LettersExcept(subs[..i], p1, p2)
    {
      assert subs[..i + 1][..i] == subs[..i];
      if i != p1 && i != p2 {
        term := term + (subs[i].letters * contractions);
      }
    }
    assert subs[..|subs|] == subs;
    term := term + (output.letters * contractions);
  }

  /** Scores a pair, unless its result is too large or the path gets too costly. */
  method AddContraction(cs: seq<Contraction>, subs: seq<Subscript>, output: Subscript, p1: nat, p2: nat, dims: Dims,
                        pathCost: nat, costLimit: nat, memoryLimit: nat) returns (cs1: seq<Contraction>)
    requires p1 < p2 < |subs|
    ensures cs1 == ScoredOne(cs, Candidate(subs, output.letters, p1, p2, dims), dims, pathCost, costLimit, memoryLimit)
  {
    var contractions := subs[p1].letters + subs[p2].letters;
    var newTerm := NeededLetters(subs, output, p1, p2, contractions);
    ghost var scored := Candidate(subs, output.letters, p1, p2, dims);
    assert scored.output == newTerm && scored.x == p1 && scored.y == p2 && scored.dims == |contractions|;
    var newSize := TermSize(newTerm, dims);
    if newSize > memoryLimit {
      return cs;
    }
    var size1 := TermSize(subs[p1].letters, dims);
    var size2 := TermSize(subs[p2].letters, dims);
    var removedSize := size1 + size2 - newSize;
    var inner := |contractions| > |newTerm|;
    var cost := FlopCount(contractions, inner, 2, dims);
    assert scored.cost == cost;
    if pathCost + cost > costLimit {
      return cs;
    }
    assert scored.size == removedSize;
    cs1 := cs + [Contraction(removedSize, cost, newTerm, |contractions|, p1, p2)];
  }

  ghost predicate PairsBelow(pairs: seq<(nat, nat)>, n: nat) {
    forall k {:trigger pairs[k]} :: 0 <= k < |pairs| ==> pairs[k].0 < pairs[k].1 < n
  }

  /** A list of candidates with a scored pair added, unless its result is too large or the path gets too costly. */
  ghost function ScoredOne(cs: seq<Contraction>, c: Contraction, dims: Dims, pathCost: nat, costLimit: nat,
                           memoryLimit: nat): seq<Contraction> {
    if SetSize(c.output, dims) > memoryLimit || pathCost + c.cost > costLimit then cs else cs + [c]
  }

  /** The candidates with every pair scored in turn; without `outer`, only pairs that share a letter. */
  ghost function Scored(cs: seq<Contraction>, pairs: seq<(nat, nat)>, subs: seq<Subscript>, out: set<char>, dims: Dims,
                        outer: bool,
                        pathCost: nat, costLimit: nat, memoryLimit: nat): seq<Contraction>
    requires PairsBelow(pairs, |subs|)
  {
    if |pairs| == 0 then cs
    else
      var n := |pairs| - 1;
      var before := Scored(cs, pairs[..n], subs, out, dims, outer, pathCost, costLimit, memoryLimit);
      if outer || !(subs[pairs[n].0].letters !! subs[pairs[n].1].letters)
      then ScoredOne(before, Candidate(subs, out, pairs[n].0, pairs[n].1, dims), dims, pathCost, costLimit, memoryLimit)
      else before
  }

  lemma {:induction false} ScoredExact(cs: seq<Contraction>, pairs: seq<(nat, nat)>, subs: seq<Subscript>,
                                       out: set<char>, dims: Dims, outer: bool,
                                       pathCost: nat, costLimit: nat, memoryLimit: nat)
    requires PairsBelow(pairs, |subs|) && AllExact(cs, subs, out, dims)
    ensures AllExact(Scored(cs, pairs, subs, out, dims, outer, pathCost, costLimit, memoryLimit), subs, out, dims)
    decreases |pairs|
  {
    if |pairs| > 0 {
      ScoredExact(cs, pairs[..|pairs| - 1], subs, out, dims, outer, pathCost, costLimit, memoryLimit);
    }
  }

  /** Scores all pairs; outer products only when asked for. */
  method AddPairs(cs: seq<Contraction>, pairs: seq<(nat, nat)>, subs: seq<Subscript>, output: Subscript, dims: Dims,
                  outer: bool,
                  pathCost: nat, costLimit: nat, memoryLimit: nat) returns (cs1: seq<Contraction>)
    requires PairsBelow(pairs, |subs|)
    ensures cs1 == Scored(cs, pairs, subs, output.letters, dims, outer, pathCost, costLimit, memoryLimit)
  {
    cs1 := cs;
    for k := 0 to |pairs|
      invariant cs1 == Scored(cs, pairs[..k], subs, output.letters, dims, outer, pathCost, costLimit, memoryLimit)
    {
      var p1, p2 := pairs[k].0, pairs[k].1;
      assert pairs[..k + 1][..k] == pairs[..k];
      if outer || !(subs[p1].letters !! subs[p2].letters) {
        cs1 := AddContraction(cs1, subs, output, p1, p2, dims, pathCost, costLimit, memoryLimit);
      }
    }
    assert pairs[..|pairs|] == pairs;
  }

  predicate Better(a: Contraction, b: Contraction) {
    a.size > b.size || (a.size == b.size && a.cost < b.cost)
  }

  /** The first of the candidates that shrink the operands most and are then the cheapest. */
  method Best(cs: seq<Contraction>) returns (best: Contraction)
    requires |cs| > 0
    ensures FirstBest(cs, best)
  {
    best := cs[0];
    ghost var at := 0;
    for k := 1 to |cs|
      invariant 0 <= at < k && cs[at] == best
      invariant forall j :: 0 <= j < at ==> Better(best, cs[j])
      invariant forall j :: 0 <= j < k ==> !Better(cs[j], best)
    {
      if Better(cs[k], best) {
        best, at := cs[k], k;
      }
    }
  }

  /** No candidate removes more elements, or as many at less cost, and those before it all do worse. */
  ghost predicate FirstBest(cs: seq<Contraction>, best: Contraction) {
    && (forall k :: 0 <= k < |cs| ==> cs[k].size < best.size || (cs[k].size == best.size && cs[k].cost >= best.cost))
    && exists k :: 0 <= k < |cs| && cs[k] == best &&
         forall j :: 0 <= j < k ==>
           cs[j].size < best.size || (cs[j].size == best.size && cs[j].cost > best.cost)
  }

  // ---------------------------------------------------------------- carrying candidates over

  /** A position once two smaller or larger ones are erased. */
  function Shift(i: nat, p: nat, q: nat): nat
    requires p < q && i != p && i != q
  {
    i - (if i > p then 1 else 0) - (if i > q then 1 else 0)
  }

  function Unshift(j: nat, p: nat, q: nat): (i: nat)
    requires p < q
    ensures i != p && i != q && Shift(i, p, q) == j
  {
    if j < p then j else if j + 1 < q then j + 1 else j + 2
  }

  /** The list after contracting inputs bx and by. */
  ghost function Contracted(subs: seq<Subscript>, p: nat, q: nat, s: Subscript): (r: seq<Subscript>)
    requires p < q < |subs|
    ensures |r| == |subs| - 1 && r[|r| - 1] == s
  {
    Without(Without(subs, q), p) + [s]
  }

  lemma ContractedAt(subs: seq<Subscript>, p: nat, q: nat, s: Subscript, i: nat)
    requires p < q < |subs| && i < |subs| && i != p && i != q
    ensures Shift(i, p, q) < |subs| - 2 && Contracted(subs, p, q, s)[Shift(i, p, q)] == subs[i]
  {
  }

  /** The needed letters of a pair do not change when another pair is contracted. */
  lemma NeededSame(subs: seq<Subscript>, out: set<char>, p: nat, q: nat, s: Subscript, x: nat, y: nat)
    requires p < q < |subs| && x < y < |subs| && x != p && x != q && y != p && y != q
    requires s.letters == NewTerm(subs, out, p, q)
    ensures Joined(subs, x, y) * (LettersExcept(Contracted(subs, p, q, s), Shift(x, p, q), Shift(y, p, q)) + out)
            == NewTerm(subs, out, x, y)
  {
    var subs1, x1, y1 := Contracted(subs, p, q, s), Shift(x, p, q), Shift(y, p, q);
    ContractedAt(subs, p, q, s, x);
    ContractedAt(subs, p, q, s, y);
    forall c | c in Joined(subs, x, y)
      ensures c in LettersExcept(subs1, x1, y1) + out <==> c in LettersExcept(subs, x, y) + out
    {
      if c in LettersExcept(subs, x, y) {
        NeededForth(subs, out, p, q, s, x, y, c);
      }
      if c in LettersExcept(subs1, x1, y1) {
        NeededBack(subs, out, p, q, s, x, y, c);
      }
    }
  }

  lemma NeededForth(subs: seq<Subscript>, out: set<char>, p: nat, q: nat, s: Subscript, x: nat, y: nat, c: char)
    requires p < q < |subs| && x < y < |subs| && x != p && x != q && y != p && y != q
    requires s.letters == NewTerm(subs, out, p, q) && c in Joined(subs, x, y) && c in LettersExcept(subs, x, y)
    ensures c in LettersExcept(Contracted(subs, p, q, s), Shift(x, p, q), Shift(y, p, q))
  {
    var subs1, x1, y1 := Contracted(subs, p, q, s), Shift(x, p, q), Shift(y, p, q);
    ContractedAt(subs, p, q, s, x);
    ContractedAt(subs, p, q, s, y);
    var i := FindExcept(subs, x, y, c);
    if i == p || i == q {
      HasExcept(subs, p, q, x);
      HasExcept(subs, p, q, y);
      HasExcept(subs1, x1, y1, |subs1| - 1);
    } else {
      ContractedAt(subs, p, q, s, i);
      HasExcept(subs1, x1, y1, Shift(i, p, q));
    }
  }

  lemma NeededBack(subs: seq<Subscript>, out: set<char>, p: nat, q: nat, s: Subscript, x: nat, y: nat, c: char)
    requires p < q < |subs| && x < y < |subs| && x != p && x != q && y != p && y != q
    requires s.letters == NewTerm(subs, out, p, q)
    requires c in LettersExcept(Contracted(subs, p, q, s), Shift(x, p, q), Shift(y, p, q))
    ensures c in LettersExcept(subs, x, y)
  {
    var subs1, x1, y1 := Contracted(subs, p, q, s), Shift(x, p, q), Shift(y, p, q);
    var j := FindExcept(subs1, x1, y1, c);
    if j == |subs1| - 1 {
      HasExcept(subs, x, y, p);
      HasExcept(subs, x, y, q);
    } else {
      var i := Unshift(j, p, q);
      ContractedAt(subs, p, q, s, i);
      HasExcept(subs, x, y, i);
    }
  }

  /** A carried-over candidate is exactly what scoring its pair again would give. */
  lemma CarriedExact(subs: seq<Subscript>, out: set<char>, p: nat, q: nat, s: Subscript, c: Contraction, dims: Dims)
    requires p < q < |subs| && Exact(c, subs, out, dims) && c.x != p && c.x != q && c.y != p && c.y != q
    requires s.letters == NewTerm(subs, out, p, q)
    ensures Exact(c.(x := Shift(c.x, p, q), y := Shift(c.y, p, q)), Contracted(subs, p, q, s), out, dims)
  {
    NeededSame(subs, out, p, q, s, c.x, c.y);
    ContractedAt(subs, p, q, s, c.x);
    ContractedAt(subs, p, q, s, c.y);
  }

  predicate Touches(c: Contraction, best: Contraction) {
    c.x == best.x || c.x == best.y || c.y == best.x || c.y == best.y
  }

  /** The candidates that do not involve the contracted inputs, at their new positions. */
  function Carried(cs: seq<Contraction>, best: Contraction): seq<Contraction>
    requires best.x < best.y
  {
    if |cs| == 0 then []
    else
      var c, before := cs[|cs| - 1], Carried(cs[..|cs| - 1], best);
      if Touches(c, best) then before
      else before + [c.(x := Shift(c.x, best.x, best.y), y := Shift(c.y, best.x, best.y))]
  }

  /** Carried-over candidates are exactly what scoring their pairs on the new list would give. */
  lemma {:induction false} CarriedAllExact(cs: seq<Contraction>, best: Contraction, subs: seq<Subscript>,
                                           out: set<char>, s: Subscript, dims: Dims)
    requires AllExact(cs, subs, out, dims) && Exact(best, subs, out, dims) && s.letters == best.output
    ensures AllExact(Carried(cs, best), Contracted(subs, best.x, best.y, s), out, dims)
    decreases |cs|
  {
    if |cs| > 0 {
      var c := cs[|cs| - 1];
      CarriedAllExact(cs[..|cs| - 1], best, subs, out, s, dims);
      if !Touches(c, best) {
        CarriedExact(subs, out, best.x, best.y, s, c, dims);
      }
    }
  }

  /** Drops the candidates of the contracted inputs and shifts the others. */
  method CarryOver(cs: seq<Contraction>, best: Contraction) returns (cs1: seq<Contraction>)
    requires best.x < best.y
    ensures cs1 == Carried(cs, best)
  {
    cs1 := [];
    for k := 0 to |cs|
      invariant cs1 == Carried(cs[..k], best)
    {
      var c := cs[k];
      assert cs[..k + 1][..k] == cs[..k];
      if !Touches(c, best) {
        var x := c.x - (if c.x > best.x then 1 else 0) - (if c.x > best.y then 1 else 0);
        var y := c.y - (if c.y > best.x then 1 else 0) - (if c.y > best.y then 1 else 0);
        cs1 := cs1 + [c.(x := x, y := y)];
      }
    }
    assert cs[..|cs|] == cs;
  }

  // ---------------------------------------------------------------- what a greedy choice is

  /** What a path has cost so far, the most it may cost, and the largest result it may have. */
  datatype Budget = Budget(spent: nat, cost: nat, memory: nat)

  /** Elements of two inputs less the elements of the result of contracting them. */
  ghost function Removed(subs: seq<Subscript>, out: set<char>, x: nat, y: nat, dims: Dims): int
    requires x < y < |subs|
  {
    SetSize(subs[x].letters, dims) + SetSize(subs[y].letters, dims) - SetSize(NewTerm(subs, out, x, y), dims)
  }

  /** One multiplication for every assignment of the letters, and one addition if a letter is summed. */
  ghost function PairCost(subs: seq<Subscript>, out: set<char>, x: nat, y: nat, dims: Dims): nat
    requires x < y < |subs|
  {
    SetSize(Joined(subs, x, y), dims) * if Joined(subs, x, y) <= NewTerm(subs, out, x, y) then 1 else 2
  }

  lemma CandidateMeans(subs: seq<Subscript>, out: set<char>, x: nat, y: nat, dims: Dims)
    requires x < y < |subs|
    ensures var c := Candidate(subs, out, x, y, dims);
            c.size == Removed(subs, out, x, y, dims) && c.cost == PairCost(subs, out, x, y, dims)
            && c.output == NewTerm(subs, out, x, y)
  {
    SmallerSubset(NewTerm(subs, out, x, y), Joined(subs, x, y));
  }

  /** Contracting the pair breaks no limit. */
  ghost predicate Fits(subs: seq<Subscript>, out: set<char>, x: nat, y: nat, dims: Dims, b: Budget) {
    && x < y < |subs| && SetSize(NewTerm(subs, out, x, y), dims) <= b.memory
    && b.spent + PairCost(subs, out, x, y, dims) <= b.cost
  }

  ghost predicate Overlap(subs: seq<Subscript>, x: nat, y: nat) {
    x < y < |subs| && exists c :: c in subs[x].letters && c in subs[y].letters
  }

  /** Pair (x, y) removes fewer elements than pair (u, v), or as many at no less cost. */
  ghost predicate NoBetter(subs: seq<Subscript>, out: set<char>, x: nat, y: nat, u: nat, v: nat, dims: Dims) {
    x < y < |subs| && u < v < |subs| &&
    (Removed(subs, out, x, y, dims) < Removed(subs, out, u, v, dims)
     || (Removed(subs, out, x, y, dims) == Removed(subs, out, u, v, dims)
         && PairCost(subs, out, x, y, dims) >= PairCost(subs, out, u, v, dims)))
  }

  ghost predicate Has(cs: seq<Contraction>, x: nat, y: nat) {
    exists k :: 0 <= k < |cs| && cs[k].x == x && cs[k].y == y
  }

  /** Every candidate met the limit for results, and the one for costs on its own. */
  ghost predicate AllWithin(cs: seq<Contraction>, dims: Dims, b: Budget) {
    forall k {:trigger cs[k]} :: 0 <= k < |cs| ==> SetSize(cs[k].output, dims) <= b.memory && cs[k].cost <= b.cost
  }

  lemma {:induction false} ScoredHas(cs: seq<Contraction>, pairs: seq<(nat, nat)>, subs: seq<Subscript>,
                                     out: set<char>, dims: Dims, outer: bool, b: Budget, x: nat, y: nat)
    requires PairsBelow(pairs, |subs|)
    requires Has(cs, x, y) || ((x, y) in pairs && (outer || Overlap(subs, x, y)) && Fits(subs, out, x, y, dims, b))
    ensures Has(Scored(cs, pairs, subs, out, dims, outer, b.spent, b.cost, b.memory), x, y)
    decreases |pairs|
  {
    if |pairs| > 0 {
      var n := |pairs| - 1;
      var before := Scored(cs, pairs[..n], subs, out, dims, outer, b.spent, b.cost, b.memory);
      if Has(cs, x, y) || (x, y) in pairs[..n] {
        ScoredHas(cs, pairs[..n], subs, out, dims, outer, b, x, y);
        HasMore(before, Candidate(subs, out, pairs[n].0, pairs[n].1, dims), x, y);
      } else {
        assert pairs[n] == (x, y);
        FitsIsScored(before, subs, out, dims, b, x, y);
      }
    }
  }

  lemma FitsIsScored(before: seq<Contraction>, subs: seq<Subscript>, out: set<char>, dims: Dims, b: Budget, x: nat,
                     y: nat)
    requires Fits(subs, out, x, y, dims, b)
    ensures var c := Candidate(subs, out, x, y, dims);
            ScoredOne(before, c, dims, b.spent, b.cost, b.memory) == before + [c] && Has(before + [c], x, y)
  {
    var c := Candidate(subs, out, x, y, dims);
    CandidateMeans(subs, out, x, y, dims);
    assert (before + [c])[|before|] == c;
  }

  lemma HasMore(cs: seq<Contraction>, c: Contraction, x: nat, y: nat)
    requires Has(cs, x, y)
    ensures Has(cs + [c], x, y)
  {
    var k :| 0 <= k < |cs| && cs[k].x == x && cs[k].y == y;
    assert (cs + [c])[k] == cs[k];
  }

  /** A scored candidate was there before, or is a pair on offer that breaks no limit. */
  lemma {:induction false} ScoredFrom(cs: seq<Contraction>, pairs: seq<(nat, nat)>, subs: seq<Subscript>,
                                      out: set<char>, dims: Dims, outer: bool, b: Budget, c: Contraction)
    requires PairsBelow(pairs, |subs|)
    requires c in Scored(cs, pairs, subs, out, dims, outer, b.spent, b.cost, b.memory)
    ensures c in cs ||
            ((c.x, c.y) in pairs && (outer || Overlap(subs, c.x, c.y)) && Fits(subs, out, c.x, c.y, dims, b)
             && c == Candidate(subs, out, c.x, c.y, dims))
    decreases |pairs|
  {
    if |pairs| > 0 {
      var n := |pairs| - 1;
      if c in Scored(cs, pairs[..n], subs, out, dims, outer, b.spent, b.cost, b.memory) {
        ScoredFrom(cs, pairs[..n], subs, out, dims, outer, b, c);
        assert (c.x, c.y) in pairs[..n] ==> (c.x, c.y) in pairs;
      } else {
        CandidateMeans(subs, out, pairs[n].0, pairs[n].1, dims);
        assert pairs[n] in pairs;
      }
    }
  }

  lemma {:induction false} ScoredWithin(cs: seq<Contraction>, pairs: seq<(nat, nat)>, subs: seq<Subscript>,
                                        out: set<char>, dims: Dims, outer: bool, b: Budget)
    requires PairsBelow(pairs, |subs|) && AllWithin(cs, dims, b)
    ensures AllWithin(Scored(cs, pairs, subs, out, dims, outer, b.spent, b.cost, b.memory), dims, b)
    decreases |pairs|
  {
    if |pairs| > 0 {
      ScoredWithin(cs, pairs[..|pairs| - 1], subs, out, dims, outer, b);
    }
  }

  lemma LastHas(cs: seq<Contraction>, x: nat, y: nat)
    requires Has(cs, x, y)
    ensures |cs| > 0 && (Has(cs[..|cs| - 1], x, y) || (cs[|cs| - 1].x == x && cs[|cs| - 1].y == y))
  {
    var k :| 0 <= k < |cs| && cs[k].x == x && cs[k].y == y;
    if k < |cs| - 1 {
      assert cs[..|cs| - 1][k] == cs[k];
    }
  }

  /** Untouched candidates are carried over. */
  lemma {:induction false} CarriedHas(cs: seq<Contraction>, best: Contraction, x: nat, y: nat)
    requires best.x < best.y && Has(cs, x, y) && x != best.x && x != best.y && y != best.x && y != best.y
    ensures Has(Carried(cs, best), Shift(x, best.x, best.y), Shift(y, best.x, best.y))
    decreases |cs|
  {
    var n := |cs| - 1;
    var c, before := cs[n], Carried(cs[..n], best);
    if Has(cs[..n], x, y) {
      CarriedHas(cs[..n], best, x, y);
      if !Touches(c, best) {
        HasMore(before, c.(x := Shift(c.x, best.x, best.y), y := Shift(c.y, best.x, best.y)),
                Shift(x, best.x, best.y), Shift(y, best.x, best.y));
      }
    } else {
      LastHas(cs, x, y);
      assert Carried(cs, best)[|before|] == c.(x := Shift(c.x, best.x, best.y), y := Shift(c.y, best.x, best.y));
    }
  }

  lemma {:induction false} CarriedWithin(cs: seq<Contraction>, best: Contraction, dims: Dims, b: Budget)
    requires best.x < best.y && AllWithin(cs, dims, b)
    ensures AllWithin(Carried(cs, best), dims, b)
    decreases |cs|
  {
    if |cs| > 0 {
      CarriedWithin(cs[..|cs| - 1], best, dims, b);
    }
  }

  // ---------------------------------------------------------------- the output string of a node

  ghost predicate SortedBySize(str: string, dims: Dims) {
    forall i, j :: 0 <= i < j < |str| ==> dims(str[i]) <= dims(str[j])
  }

  /** The letters of a set sorted by size; letters of one size come in any order. */
  method SortLetters(letters: set<char>, dims: Dims) returns (str: string)
    ensures Distinct(str) && Letters(str) == letters && SortedBySize(str, dims)
  {
    str := "";
    var rest := letters;
    while rest != {}
      invariant rest <= letters && Distinct(str) && Letters(str) == letters - rest && SortedBySize(str, dims)
      invariant forall i, c :: 0 <= i < |str| && c in rest ==> dims(str[i]) <= dims(c)
      decreases rest
    {
      var c := Smallest(rest, dims);
      SingleDistinct(c);
      DistinctConcat(str, [c]);
      LettersConcat(str, [c]);
      str := str + [c];
      rest := rest - {c};
    }
  }

  method Smallest(s: set<char>, dims: Dims) returns (c: char)
    requires s != {}
    ensures c in s && forall d :: d in s ==> dims(c) <= dims(d)
  {
    c :| c in s;
    var rest := s - {c};
    while rest != {}
      invariant rest <= s && c in s && forall d :: d in s - rest ==> dims(c) <= dims(d)
      decreases rest
    {
      var d :| d in rest;
      if dims(d) < dims(c) {
        c := d;
      }
      rest := rest - {d};
    }
  }

  // ---------------------------------------------------------------- greedy_path

  method AllPairs(n: nat) returns (pairs: seq<(nat, nat)>)
    ensures PairsBelow(pairs, n) && forall i: nat, j: nat :: i < j < n ==> (i, j) in pairs
  {
    pairs := [];
    for i := 0 to n
      invariant PairsBelow(pairs, n) && forall p: nat, q: nat :: p < i && p < q < n ==> (p, q) in pairs
    {
      for j := i + 1 to n
        invariant PairsBelow(pairs, n) && forall p: nat, q: nat :: p < q < n && (p < i || (p == i && q < j)) ==>
                  (p, q) in pairs
      {
        pairs := pairs + [(i, j)];
      }
    }
  }

  /** The pairs of the newest input. */
  method LastPairs(last: nat) returns (pairs: seq<(nat, nat)>)
    ensures PairsBelow(pairs, last + 1) && forall i: nat {:trigger (i, last)} :: i < last ==> (i, last) in pairs
  {
    pairs := [];
    for i := 0 to last
      invariant PairsBelow(pairs, last + 1) && forall p: nat {:trigger (p, last)} :: p < i ==> (p, last) in pairs
    {
      pairs := pairs + [(i, last)];
    }
  }

  /** The candidates of one step: carried ones, new ones, and outer products when there are no others. */
  method Candidates(carried: seq<Contraction>, pairs: seq<(nat, nat)>, subs: seq<Subscript>, output: Subscript,
                    dims: Dims,
                    pathCost: nat, costLimit: nat, memoryLimit: nat) returns (cs: seq<Contraction>)
    requires PairsBelow(pairs, |subs|) && AllExact(carried, subs, output.letters, dims)
    ensures AllExact(cs, subs, output.letters, dims)
    ensures var overlapping := Scored(carried, pairs, subs, output.letters, dims, false, pathCost, costLimit,
            memoryLimit);
            cs == if overlapping != [] then overlapping
                  else Scored([], pairs, subs, output.letters, dims, true, pathCost, costLimit, memoryLimit)
  {
    ScoredExact(carried, pairs, subs, output.letters, dims, false, pathCost, costLimit, memoryLimit);
    cs := AddPairs(carried, pairs, subs, output, dims, false, pathCost, costLimit, memoryLimit);
    if cs == [] {
      ScoredExact([], pairs, subs, output.letters, dims, true, pathCost, costLimit, memoryLimit);
      cs := AddPairs(cs, pairs, subs, output, dims, true, pathCost, costLimit, memoryLimit);
    }
  }

  lemma OneDropped<T>(s: seq<T>, one: seq<nat>)
    requires |one| == 1 && one[0] < |s|
    ensures Increasing(one, |s|) && DropAt(s, one) == Without(s, one[0])
  {
  }

  lemma TwoDropped<T>(s: seq<T>, pair: seq<nat>)
    requires |pair| == 2 && pair[0] < pair[1] < |s|
    ensures Increasing(pair, |s|) && DropAt(s, pair) == Without(Without(s, pair[1]), pair[0])
  {
    OneDropped(Without(s, pair[1]), pair[..1]);
  }

  lemma TwoWithout(subs: seq<Subscript>, x: nat, y: nat, i: nat)
    requires x < y < |subs| && i < |subs| && i != x && i != y
    ensures Shift(i, x, y) < |subs| - 2 && Without(Without(subs, y), x)[Shift(i, x, y)] == subs[i]
  {
  }

  lemma TwoLetters(subs: seq<Subscript>, x: nat, y: nat)
    requires x < y < |subs|
    ensures LettersOf(Without(Without(subs, y), x)) == LettersExcept(subs, x, y)
  {
    var rest := Without(Without(subs, y), x);
    forall c | c in LettersExcept(subs, x, y)
      ensures c in LettersOf(rest)
    {
      var i := FindExcept(subs, x, y, c);
      TwoWithout(subs, x, y, i);
      HasLetters(rest, Shift(i, x, y));
    }
    forall c | c in LettersOf(rest)
      ensures c in LettersExcept(subs, x, y)
    {
      var j := FindLetters(rest, c);
      var i := Unshift(j, x, y);
      TwoWithout(subs, x, y, i);
      HasExcept(subs, x, y, i);
    }
  }

  /** The node of a chosen pair is valid, and the planner's list is the list after it. */
  lemma PairNode(subs: seq<Subscript>, best: Contraction, s: Subscript, out: set<char>, dims: Dims)
    requires Exact(best, subs, out, dims) && DistinctSub(s) && s.letters == best.output
    ensures var node := PathNode([subs[best.x], subs[best.y]], s, [best.x, best.y]);
            NodeOk(node, subs, out) && After(node, subs) == Contracted(subs, best.x, best.y, s)
            && NodeCost(node.inputs, s.letters, dims) == best.cost && |LettersOf(node.inputs)| == best.dims
  {
    TwoDropped(subs, [best.x, best.y]);
    TwoLetters(subs, best.x, best.y);
    var a, b := subs[best.x], subs[best.y];
    assert [a, b] == [a] + [b];
    LettersOfConcat([a], [b]);
    LettersOne(a);
    LettersOne(b);
    assert [a, b] == Select(subs, [best.x, best.y]);
    var both, term := Joined(subs, best.x, best.y), best.output;
    SmallerSubset(term, both);
  }

  lemma SmallerSubset(a: set<char>, b: set<char>)
    requires a <= b
    ensures |b| > |a| <==> !(b <= a)
  {
    assert b == a + (b - a);
    assert |b| == |a| + |b - a|;
    assert b - a == {} <==> b <= a;
  }

  /** The node that contracts everything left. */
  lemma RestNode(subs: seq<Subscript>, output: Subscript, positions: seq<nat>)
    requires |subs| > 0 && DistinctSub(output) && output.letters <= LettersOf(subs)
    requires |positions| == |subs| && forall i :: 0 <= i < |positions| ==> positions[i] == i
    ensures var node := PathNode(subs, output, positions);
            NodeOk(node, subs, output.letters) && After(node, subs) == [output]
  {
    assert Select(subs, positions) == subs;
    assert DropAt(subs, positions) == [];
  }

  method Iota(n: nat) returns (r: seq<nat>)
    ensures |r| == n && forall i :: 0 <= i < n ==> r[i] == i
  {
    r := [];
    for i := 0 to n
      invariant |r| == i && forall j :: 0 <= j < i ==> r[j] == j
    {
      r := r + [i];
    }
  }

  ghost function PathScaling(path: seq<PathNode>): nat {
    if |path| == 0 then 0 else Max(PathScaling(path[..|path| - 1]), |LettersOf(path[|path| - 1].inputs)|)
  }

  lemma PathNext(path: seq<PathNode>, node: PathNode, dims: Dims)
    ensures PathCost(path + [node], dims) == PathCost(path, dims) + NodeCost(node.inputs, node.output.letters, dims)
    ensures PathScaling(path + [node]) == Max(PathScaling(path), |LettersOf(node.inputs)|)
  {
    assert (path + [node])[..|path + [node]| - 1] == path;
  }

  /** A node keeps the output letters among the operands' letters. */
  lemma OutputStays(subs: seq<Subscript>, node: PathNode, out: set<char>)
    requires NodeOk(node, subs, out) && out <= LettersOf(subs)
    ensures out <= LettersOf(After(node, subs))
    ensures |subs| == |node.positions| ==> node.output.letters == out
  {
    SelectLetters(subs, node.positions);
    LettersOfConcat(DropAt(subs, node.positions), [node.output]);
    LettersOne(node.output);
  }

  /** The path leads to one operand with the output's letters, which its last node makes. */
  ghost predicate Finished(path: seq<PathNode>, inputs: seq<Subscript>, out: set<char>) {
    && |path| > 0
    && Leads(path, inputs, [path[|path| - 1].output], out)
    && path[|path| - 1].output.letters == out
  }

  /** Relabelling the last result by the requested output completes the plan. */
  lemma FinishPlan(path: seq<PathNode>, inputs: seq<Subscript>, output: Subscript)
    requires Finished(path, inputs, output.letters) && DistinctSub(output)
    ensures PlanOk(path[|path| - 1 := path[|path| - 1].(output := output)], inputs, output)
  {
    var n := |path| - 1;
    var out := output.letters;
    var before :| Leads(path[..n], inputs, before, out) && NodeOk(path[n], before, out)
        && [path[n].output] == After(path[n], before);
    var node := path[n].(output := output);
    assert DropAt(before, path[n].positions) == [] by {
      assert |After(path[n], before)| == 1;
    }
    LeadsNext(path[..n], inputs, before, node, out);
    assert path[..n] + [node] == path[n := node];
  }

  /** One pair contracted: the node, the new list and the carried candidates. */
  method Step(cs: seq<Contraction>, subs: seq<Subscript>, ghost out: set<char>, dims: Dims)
    returns (node: PathNode, best: Contraction, subs1: seq<Subscript>, carried: seq<Contraction>)
    requires |cs| > 0 && AllExact(cs, subs, out, dims)
    ensures NodeOk(node, subs, out) && subs1 == After(node, subs) && |subs1| == |subs| - 1 && |node.positions| == 2
    ensures NodeCost(node.inputs, node.output.letters, dims) == best.cost && |LettersOf(node.inputs)| == best.dims
    ensures SortedBySize(node.output.str, dims) && node.output.letters == best.output
    ensures node.positions == [best.x, best.y]
    ensures FirstBest(cs, best)
    ensures best.x < best.y && carried == Carried(cs, best) && AllExact(carried, subs1, out, dims)
  {
    best := Best(cs);
    var outStr := SortLetters(best.output, dims);
    var newOutput := Subscript(outStr, best.output);
    PairNode(subs, best, newOutput, out, dims);
    node := PathNode([subs[best.x], subs[best.y]], newOutput, [best.x, best.y]);
    subs1 := Without(subs, best.y);
    subs1 := Without(subs1, best.x);
    subs1 := subs1 + [newOutput];
    CarriedAllExact(cs, best, subs, out, newOutput, dims);
    carried := CarryOver(cs, best);
  }

  /** After n steps the nodes so far lead to n operands fewer. */
  ghost predicate Planned(path: seq<PathNode>, inputs0: seq<Subscript>, inputs: seq<Subscript>, out: set<char>,
                          n: nat) {
    && n < |inputs0| && |inputs| == |inputs0| - n && Leads(path, inputs0, inputs, out) && out <= LettersOf(inputs)
    && (n > 0 ==> |path| > 0 && inputs[|inputs| - 1] == path[|path| - 1].output)
    && (0 < n == |inputs0| - 1 ==> path[|path| - 1].output.letters == out)
  }

  lemma PlannedNext(path: seq<PathNode>, inputs0: seq<Subscript>, inputs: seq<Subscript>, out: set<char>, n: nat,
                    node: PathNode)
    requires Planned(path, inputs0, inputs, out, n) && NodeOk(node, inputs, out) && |node.positions| == 2
    ensures Planned(path + [node], inputs0, After(node, inputs), out, n + 1)
  {
    LeadsNext(path, inputs0, inputs, node, out);
    OutputStays(inputs, node, out);
  }

  lemma PlannedAll(path: seq<PathNode>, inputs0: seq<Subscript>, inputs: seq<Subscript>, out: set<char>)
    requires |inputs0| > 1 && Planned(path, inputs0, inputs, out, |inputs0| - 1)
    ensures Finished(path, inputs0, out)
  {
    assert inputs == [path[|path| - 1].output];
  }

  /** A naive node for everything left completes the path. */
  method NaiveRest(path: seq<PathNode>, inputs: seq<Subscript>, output: Subscript, dims: Dims,
                   ghost inputs0: seq<Subscript>)
    returns (path1: seq<PathNode>, cost: nat, scale: nat)
    requires |inputs| > 0 && Leads(path, inputs0, inputs, output.letters) && DistinctSub(output)
             && output.letters <= LettersOf(inputs)
    ensures Finished(path1, inputs0, output.letters) && |path1| == |path| + 1
    ensures path1 == path + [path1[|path|]]
    ensures NodeOk(path1[|path|], inputs, output.letters) && After(path1[|path|], inputs) == [output]
    ensures |path1[|path|].positions| == |inputs|
    ensures PathCost(path1, dims) == PathCost(path, dims) + cost && PathScaling(path1) == Max(PathScaling(path), scale)
  {
    var positions := Iota(|inputs|);
    cost, scale := CostAndScaling(inputs, output, dims);
    var node := PathNode(inputs, output, positions);
    RestNode(inputs, output, positions);
    LeadsNext(path, inputs0, inputs, node, output.letters);
    PathNext(path, node, dims);
    path1 := path + [node];
  }

  /** The chosen pair is no worse than any carried candidate and any pair on offer that overlaps and breaks
      no limit; without either, no worse than any pair on offer that breaks no limit. */
  ghost predicate BestOffered(possible: seq<Contraction>, pairs: seq<(nat, nat)>, subs: seq<Subscript>,
                              out: set<char>, dims: Dims, b: Budget, u: nat, v: nat) {
    && (forall x, y {:trigger Has(possible, x, y)} :: Has(possible, x, y) ==> NoBetter(subs, out, x, y, u, v, dims))
    && (forall x: nat, y: nat {:trigger Overlap(subs, x, y)} ::
          (x, y) in pairs && Overlap(subs, x, y) && Fits(subs, out, x, y, dims, b) ==>
            NoBetter(subs, out, x, y, u, v, dims))
    && (Has(possible, u, v) || Overlap(subs, u, v) || OnlyOuter(possible, pairs, subs, out, dims, b, u, v))
  }

  ghost predicate OnlyOuter(possible: seq<Contraction>, pairs: seq<(nat, nat)>, subs: seq<Subscript>, out: set<char>,
                            dims: Dims, b: Budget, u: nat, v: nat) {
    && possible == []
    && forall x: nat, y: nat {:trigger Fits(subs, out, x, y, dims, b)} ::
         (x, y) in pairs && Fits(subs, out, x, y, dims, b) ==>
           !Overlap(subs, x, y) && NoBetter(subs, out, x, y, u, v, dims)
  }

  /** A carried candidate, or an overlapping pair on offer that breaks no limit. */
  ghost predicate Known(possible: seq<Contraction>, pairs: seq<(nat, nat)>, subs: seq<Subscript>, out: set<char>,
                        dims: Dims, b: Budget, x: nat, y: nat) {
    Has(possible, x, y) || ((x, y) in pairs && Overlap(subs, x, y) && Fits(subs, out, x, y, dims, b))
  }

  /** What was known and is not touched by the contraction is carried over. */
  ghost predicate CarriesAll(possible: seq<Contraction>, pairs: seq<(nat, nat)>, subs: seq<Subscript>,
                             out: set<char>, dims: Dims, b: Budget, u: nat, v: nat, carried: seq<Contraction>)
    requires u < v
  {
    forall x: nat, y: nat {:trigger Known(possible, pairs, subs, out, dims, b, x, y)} ::
      && x != u && x != v && y != u && y != v && Known(possible, pairs, subs, out, dims, b, x, y) ==>
        Has(carried, Shift(x, u, v), Shift(y, u, v))
  }

  /** The node contracts the best pair on offer within the limits; the new list and what is carried match. */
  ghost predicate Advances(possible: seq<Contraction>, pairs: seq<(nat, nat)>, subs: seq<Subscript>, out: set<char>,
                           dims: Dims, b: Budget, node: PathNode, subs1: seq<Subscript>, carried: seq<Contraction>) {
    && NodeOk(node, subs, out) && |node.positions| == 2
    && subs1 == After(node, subs) && |subs1| == |subs| - 1
    && SetSize(node.output.letters, dims) <= b.memory && NodeCost(node.inputs, node.output.letters, dims) <= b.cost
    && SortedBySize(node.output.str, dims)
    && BestOffered(possible, pairs, subs, out, dims, b, node.positions[0], node.positions[1])
    && AllExact(carried, subs1, out, dims) && AllWithin(carried, dims, b)
    && CarriesAll(possible, pairs, subs, out, dims, b, node.positions[0], node.positions[1], carried)
  }

  /** The result of every pair on offer is too large, or its cost too high. */
  ghost predicate AllBreak(pairs: seq<(nat, nat)>, subs: seq<Subscript>, out: set<char>, dims: Dims, b: Budget) {
    forall x: nat, y: nat {:trigger (x, y) in pairs} :: (x, y) in pairs ==>
      && x < y < |subs|
      && (|| SetSize(NewTerm(subs, out, x, y), dims) > b.memory
          || b.spent + PairCost(subs, out, x, y, dims) > b.cost)
  }

  lemma HasAt(cs: seq<Contraction>, x: nat, y: nat) returns (k: nat)
    requires Has(cs, x, y)
    ensures k < |cs| && cs[k].x == x && cs[k].y == y
  {
    k :| 0 <= k < |cs| && cs[k].x == x && cs[k].y == y;
  }

  /** A pair among the candidates is not better than the best one. */
  lemma NotBetter(cs: seq<Contraction>, best: Contraction, subs: seq<Subscript>, out: set<char>, dims: Dims, x: nat,
                  y: nat)
    requires AllExact(cs, subs, out, dims) && FirstBest(cs, best)
    requires Has(cs, x, y)
    ensures NoBetter(subs, out, x, y, best.x, best.y, dims)
  {
    var k := HasAt(cs, x, y);
    assert Exact(cs[k], subs, out, dims);
    CandidateMeans(subs, out, x, y, dims);
    var j :| 0 <= j < |cs| && cs[j] == best;
    assert Exact(cs[j], subs, out, dims);
    CandidateMeans(subs, out, best.x, best.y, dims);
  }

  /** The candidates of a step, as `Candidates` computes them. */
  ghost function Offers(possible: seq<Contraction>, pairs: seq<(nat, nat)>, subs: seq<Subscript>, out: set<char>,
                        dims: Dims, b: Budget): seq<Contraction>
    requires PairsBelow(pairs, |subs|)
  {
    var overlapping := Scored(possible, pairs, subs, out, dims, false, b.spent, b.cost, b.memory);
    if overlapping != [] then overlapping else Scored([], pairs, subs, out, dims, true, b.spent, b.cost, b.memory)
  }

  lemma OffersHave(possible: seq<Contraction>, pairs: seq<(nat, nat)>, subs: seq<Subscript>, out: set<char>,
                   dims: Dims, b: Budget, x: nat, y: nat)
    requires PairsBelow(pairs, |subs|) && Known(possible, pairs, subs, out, dims, b, x, y)
    ensures Has(Offers(possible, pairs, subs, out, dims, b), x, y)
  {
    ScoredHas(possible, pairs, subs, out, dims, false, b, x, y);
  }

  /** No candidates: nothing was carried, and every pair on offer breaks a limit. */
  lemma NoOffers(possible: seq<Contraction>, pairs: seq<(nat, nat)>, subs: seq<Subscript>, out: set<char>, dims: Dims,
                 b: Budget)
    requires PairsBelow(pairs, |subs|) && Offers(possible, pairs, subs, out, dims, b) == []
    ensures possible == []
    ensures forall x: nat, y: nat {:trigger Fits(subs, out, x, y, dims, b)} ::
              (x, y) in pairs ==> !Fits(subs, out, x, y, dims, b)
  {
    if possible != [] {
      assert Has(possible, possible[0].x, possible[0].y);
      OffersHave(possible, pairs, subs, out, dims, b, possible[0].x, possible[0].y);
    }
    forall x: nat, y: nat {:trigger Fits(subs, out, x, y, dims, b)} | (x, y) in pairs
      ensures !Fits(subs, out, x, y, dims, b)
    {
      if Fits(subs, out, x, y, dims, b) {
        ScoredHas([], pairs, subs, out, dims, true, b, x, y);
      }
    }
  }

  /** The best of the candidates of a step is the best on offer. */
  lemma BestOfOffers(possible: seq<Contraction>, pairs: seq<(nat, nat)>, subs: seq<Subscript>, out: set<char>,
                     dims: Dims, b: Budget, best: Contraction)
    requires PairsBelow(pairs, |subs|) && AllExact(possible, subs, out, dims)
    requires var cs := Offers(possible, pairs, subs, out, dims, b);
             AllExact(cs, subs, out, dims) && FirstBest(cs, best)
    ensures BestOffered(possible, pairs, subs, out, dims, b, best.x, best.y)
  {
    var cs := Offers(possible, pairs, subs, out, dims, b);
    forall x: nat, y: nat | Has(possible, x, y)
                            || ((x, y) in pairs && Overlap(subs, x, y) && Fits(subs, out, x, y, dims, b))
      ensures NoBetter(subs, out, x, y, best.x, best.y, dims)
    {
      OffersHave(possible, pairs, subs, out, dims, b, x, y);
      NotBetter(cs, best, subs, out, dims, x, y);
    }
    if Scored(possible, pairs, subs, out, dims, false, b.spent, b.cost, b.memory) != [] {
      ScoredFrom(possible, pairs, subs, out, dims, false, b, best);
      if best in possible {
        var k :| 0 <= k < |possible| && possible[k] == best;
        assert Has(possible, best.x, best.y);
      }
    } else {
      BestOuter(possible, pairs, subs, out, dims, b, best);
    }
  }

  lemma BestOuter(possible: seq<Contraction>, pairs: seq<(nat, nat)>, subs: seq<Subscript>, out: set<char>,
                  dims: Dims, b: Budget, best: Contraction)
    requires PairsBelow(pairs, |subs|)
    requires Scored(possible, pairs, subs, out, dims, false, b.spent, b.cost, b.memory) == []
    requires var cs := Scored([], pairs, subs, out, dims, true, b.spent, b.cost, b.memory);
             AllExact(cs, subs, out, dims) && FirstBest(cs, best)
    ensures OnlyOuter(possible, pairs, subs, out, dims, b, best.x, best.y)
  {
    var cs := Scored([], pairs, subs, out, dims, true, b.spent, b.cost, b.memory);
    if possible != [] {
      assert Has(possible, possible[0].x, possible[0].y);
      ScoredHas(possible, pairs, subs, out, dims, false, b, possible[0].x, possible[0].y);
    }
    forall x: nat, y: nat {:trigger Fits(subs, out, x, y, dims, b)}
      | (x, y) in pairs && Fits(subs, out, x, y, dims, b)
      ensures !Overlap(subs, x, y) && NoBetter(subs, out, x, y, best.x, best.y, dims)
    {
      if Overlap(subs, x, y) {
        ScoredHas(possible, pairs, subs, out, dims, false, b, x, y);
      }
      ScoredHas([], pairs, subs, out, dims, true, b, x, y);
      NotBetter(cs, best, subs, out, dims, x, y);
    }
  }

  lemma OffersCarried(possible: seq<Contraction>, pairs: seq<(nat, nat)>, subs: seq<Subscript>, out: set<char>,
                      dims: Dims, b: Budget, best: Contraction)
    requires PairsBelow(pairs, |subs|) && best.x < best.y
    ensures CarriesAll(possible, pairs, subs, out, dims, b, best.x, best.y,
                       Carried(Offers(possible, pairs, subs, out, dims, b), best))
  {
    var cs := Offers(possible, pairs, subs, out, dims, b);
    forall x: nat, y: nat {:trigger Known(possible, pairs, subs, out, dims, b, x, y)}
      | && x != best.x && x != best.y && y != best.x && y != best.y
        && Known(possible, pairs, subs, out, dims, b, x, y)
      ensures Has(Carried(cs, best), Shift(x, best.x, best.y), Shift(y, best.x, best.y))
    {
      OffersHave(possible, pairs, subs, out, dims, b, x, y);
      CarriedHas(cs, best, x, y);
    }
  }

  lemma OffersWithin(possible: seq<Contraction>, pairs: seq<(nat, nat)>, subs: seq<Subscript>, out: set<char>,
                     dims: Dims, b: Budget)
    requires PairsBelow(pairs, |subs|) && AllWithin(possible, dims, b)
    ensures AllWithin(Offers(possible, pairs, subs, out, dims, b), dims, b)
  {
    ScoredWithin(possible, pairs, subs, out, dims, false, b);
    ScoredWithin([], pairs, subs, out, dims, true, b);
  }

  /** One step of the planner: scores the pairs and contracts the best candidate, if there is one.  There is
      none only if nothing was carried and every pair on offer breaks a limit. */
  method NextNode(possible: seq<Contraction>, pairs: seq<(nat, nat)>, subs: seq<Subscript>, output: Subscript,
                  dims: Dims,
                  pathCost: nat, costLimit: nat, memoryLimit: nat)
    returns (found: bool, node: PathNode, best: Contraction, subs1: seq<Subscript>, carried: seq<Contraction>)
    requires PairsBelow(pairs, |subs|) && AllExact(possible, subs, output.letters, dims)
    requires AllWithin(possible, dims, Budget(pathCost, costLimit, memoryLimit))
    ensures !found ==>
              possible == [] && AllBreak(pairs, subs, output.letters, dims, Budget(pathCost, costLimit, memoryLimit))
    ensures found ==> Advances(possible, pairs, subs, output.letters, dims,
                               Budget(pathCost, costLimit, memoryLimit), node, subs1, carried)
    ensures found ==> NodeCost(node.inputs, node.output.letters, dims) == best.cost
    ensures found ==> |LettersOf(node.inputs)| == best.dims
  {
    ghost var b := Budget(pathCost, costLimit, memoryLimit);
    var cs := Candidates(possible, pairs, subs, output, dims, pathCost, costLimit, memoryLimit);
    assert cs == Offers(possible, pairs, subs, output.letters, dims, b);
    if cs == [] {
      NoOffers(possible, pairs, subs, output.letters, dims, b);
      NoneFits(pairs, subs, output.letters, dims, b);
      found := false;
      node, best, subs1, carried := PathNode([], output, []), Contraction(0, 0, {}, 0, 0, 0), subs, [];
      return;
    }
    found := true;
    node, best, subs1, carried := Step(cs, subs, output.letters, dims);
    BestOfOffers(possible, pairs, subs, output.letters, dims, b, best);
    OffersCarried(possible, pairs, subs, output.letters, dims, b, best);
    OffersWithin(possible, pairs, subs, output.letters, dims, b);
    CarriedWithin(cs, best, dims, b);
  }

  lemma NoneFits(pairs: seq<(nat, nat)>, subs: seq<Subscript>, out: set<char>, dims: Dims, b: Budget)
    requires PairsBelow(pairs, |subs|)
    requires forall x: nat, y: nat {:trigger Fits(subs, out, x, y, dims, b)} ::
               (x, y) in pairs ==> !Fits(subs, out, x, y, dims, b)
    ensures AllBreak(pairs, subs, out, dims, b)
  {
    forall x: nat, y: nat | (x, y) in pairs
      ensures x < y < |subs| && !Fits(subs, out, x, y, dims, b)
    {
      var k :| 0 <= k < |pairs| && pairs[k] == (x, y);
    }
  }

  // ---------------------------------------------------------------- greedy_path

  /** The node contracts a pair of operands, and no overlapping pair that breaks no limit removes more
      elements, or as many at less cost.  Its result and its cost are within the limits. */
  ghost predicate PairChosen(node: PathNode, subs: seq<Subscript>, out: set<char>, dims: Dims, b: Budget) {
    && |node.positions| == 2 && |node.inputs| == 2
    && SetSize(node.output.letters, dims) <= b.memory
    && NodeCost(node.inputs, node.output.letters, dims) <= b.cost
    && SortedBySize(node.output.str, dims)
    && forall x: nat, y: nat {:trigger Overlap(subs, x, y)} ::
         Overlap(subs, x, y) && Fits(subs, out, x, y, dims, b) ==>
           NoBetter(subs, out, x, y, node.positions[0], node.positions[1], dims)
  }

  /** The node contracts all operands: every overlapping pair and every pair with the last operand breaks a
      limit - at the start, every pair. */
  ghost predicate RestTaken(node: PathNode, subs: seq<Subscript>, out: set<char>, dims: Dims, b: Budget, start: bool) {
    && |node.positions| == |subs|
    && forall x: nat, y: nat {:trigger Fits(subs, out, x, y, dims, b)} ::
         x < y < |subs| && (Overlap(subs, x, y) || y == |subs| - 1 || start) ==> !Fits(subs, out, x, y, dims, b)
  }

  /** The choices along a path, over the operand lists it goes through. */
  ghost predicate ChosenAt(path: seq<PathNode>, lists: seq<seq<Subscript>>, out: set<char>, dims: Dims,
                           costLimit: nat, memoryLimit: nat, i: nat)
    requires i < |path| && |lists| == |path| + 1
  {
    var b := Budget(PathCost(path[..i], dims), costLimit, memoryLimit);
    && StepAt(path, lists, out, i) && |lists[i]| > 1
    && (PairChosen(path[i], lists[i], out, dims, b) || RestTaken(path[i], lists[i], out, dims, b, i == 0))
  }

  /** `lists` are the operand lists along the path, and every node is a greedy choice. */
  ghost predicate Greedily(path: seq<PathNode>, lists: seq<seq<Subscript>>, out: set<char>, dims: Dims,
                           costLimit: nat, memoryLimit: nat)
  {
    && |lists| == |path| + 1
    && forall i: nat {:trigger ChosenAt(path, lists, out, dims, costLimit, memoryLimit, i)} ::
         i < |path| ==> ChosenAt(path, lists, out, dims, costLimit, memoryLimit, i)
  }

  lemma GreedilyNext(path: seq<PathNode>, lists: seq<seq<Subscript>>, out: set<char>, dims: Dims,
                     costLimit: nat, memoryLimit: nat, node: PathNode, subs1: seq<Subscript>)
    requires Greedily(path, lists, out, dims, costLimit, memoryLimit)
    requires NodeOk(node, lists[|path|], out) && subs1 == After(node, lists[|path|]) && |lists[|path|]| > 1
    requires var b := Budget(PathCost(path, dims), costLimit, memoryLimit);
             || PairChosen(node, lists[|path|], out, dims, b)
             || RestTaken(node, lists[|path|], out, dims, b, |path| == 0)
    ensures Greedily(path + [node], lists + [subs1], out, dims, costLimit, memoryLimit)
  {
    var path1, lists1 := path + [node], lists + [subs1];
    forall i: nat | i < |path1|
      ensures ChosenAt(path1, lists1, out, dims, costLimit, memoryLimit, i)
    {
      assert path1[..i] == path[..i];
      if i < |path| {
        assert ChosenAt(path, lists, out, dims, costLimit, memoryLimit, i);
      } else {
        assert path[..i] == path;
      }
    }
  }

  /** Every overlapping pair that breaks no limit is known. */
  ghost predicate AllKnown(possible: seq<Contraction>, pairs: seq<(nat, nat)>, subs: seq<Subscript>, out: set<char>,
                           dims: Dims, b: Budget) {
    forall x: nat, y: nat {:trigger Overlap(subs, x, y)} ::
      Overlap(subs, x, y) && Fits(subs, out, x, y, dims, b) ==> Known(possible, pairs, subs, out, dims, b, x, y)
  }

  /** A pair left alone overlaps and breaks limits as it did. */
  lemma PairMoves(subs: seq<Subscript>, out: set<char>, p: nat, q: nat, s: Subscript, x: nat, y: nat, dims: Dims,
                  b: Budget, b1: Budget)
    requires p < q < |subs| && x < y < |subs| && x != p && x != q && y != p && y != q
    requires s.letters == NewTerm(subs, out, p, q)
    requires b.cost == b1.cost && b.memory == b1.memory && b.spent <= b1.spent
    ensures var subs1, x1, y1 := Contracted(subs, p, q, s), Shift(x, p, q), Shift(y, p, q);
            && (Overlap(subs1, x1, y1) ==> Overlap(subs, x, y))
            && (Fits(subs1, out, x1, y1, dims, b1) ==> Fits(subs, out, x, y, dims, b))
  {
    NeededSame(subs, out, p, q, s, x, y);
    ContractedAt(subs, p, q, s, x);
    ContractedAt(subs, p, q, s, y);
  }

  /** After a step the pairs of the new operand are on offer, and the others that matter are carried. */
  lemma KnownNext(possible: seq<Contraction>, pairs: seq<(nat, nat)>, subs: seq<Subscript>, out: set<char>,
                  dims: Dims, b: Budget, b1: Budget, node: PathNode, carried: seq<Contraction>,
                  pairs1: seq<(nat, nat)>)
    requires AllKnown(possible, pairs, subs, out, dims, b) && NodeOk(node, subs, out) && |node.positions| == 2
    requires CarriesAll(possible, pairs, subs, out, dims, b, node.positions[0], node.positions[1], carried)
    requires b.cost == b1.cost && b.memory == b1.memory && b.spent <= b1.spent
    requires forall i: nat {:trigger (i, |subs| - 2)} :: i < |subs| - 2 ==> (i, |subs| - 2) in pairs1
    ensures AllKnown(carried, pairs1, After(node, subs), out, dims, b1)
  {
    var u, v, s := node.positions[0], node.positions[1], node.output;
    TwoDropped(subs, [u, v]);
    assert node.positions == [u, v];
    var subs1 := After(node, subs);
    assert subs1 == Contracted(subs, u, v, s);
    NodeTerm(node, subs, out);
    forall x1: nat, y1: nat {:trigger Overlap(subs1, x1, y1)}
      | Overlap(subs1, x1, y1) && Fits(subs1, out, x1, y1, dims, b1)
      ensures Known(carried, pairs1, subs1, out, dims, b1, x1, y1)
    {
      if y1 < |subs1| - 1 {
        var x, y := Unshift(x1, u, v), Unshift(y1, u, v);
        PairMoves(subs, out, u, v, s, x, y, dims, b, b1);
        assert Known(possible, pairs, subs, out, dims, b, x, y);
      } else {
        assert (x1, |subs| - 2) in pairs1;
      }
    }
  }

  /** The letters of a pair node's result. */
  lemma NodeTerm(node: PathNode, subs: seq<Subscript>, out: set<char>)
    requires NodeOk(node, subs, out) && |node.positions| == 2
    ensures node.output.letters == NewTerm(subs, out, node.positions[0], node.positions[1])
  {
    var u, v := node.positions[0], node.positions[1];
    TwoDropped(subs, [u, v]);
    assert node.positions == [u, v];
    TwoLetters(subs, u, v);
    assert node.inputs == [subs[u]] + [subs[v]];
    LettersOfConcat([subs[u]], [subs[v]]);
    LettersOne(subs[u]);
    LettersOne(subs[v]);
  }

  /** Where every overlapping pair is known, the best on offer is a greedy choice. */
  lemma OfferedIsChosen(possible: seq<Contraction>, pairs: seq<(nat, nat)>, subs: seq<Subscript>, out: set<char>,
                        dims: Dims, b: Budget, node: PathNode)
    requires NodeOk(node, subs, out) && |node.positions| == 2
    requires AllKnown(possible, pairs, subs, out, dims, b)
    requires BestOffered(possible, pairs, subs, out, dims, b, node.positions[0], node.positions[1])
    requires SetSize(node.output.letters, dims) <= b.memory && SortedBySize(node.output.str, dims)
    requires NodeCost(node.inputs, node.output.letters, dims) <= b.cost
    ensures PairChosen(node, subs, out, dims, b)
  {
  }

  /** Pairs with the last operand are on offer, and at the start all pairs. */
  ghost predicate LastOffered(pairs: seq<(nat, nat)>, n: nat, start: bool) {
    forall x: nat, y: nat {:trigger (x, y)} :: x < y < n && (y == n - 1 || start) ==> (x, y) in pairs
  }

  /** Where every pair on offer breaks a limit, contracting everything is right. */
  lemma NothingFits(pairs: seq<(nat, nat)>, subs: seq<Subscript>, out: set<char>, dims: Dims, b: Budget,
                    node: PathNode, start: bool)
    requires PairsBelow(pairs, |subs|) && AllKnown([], pairs, subs, out, dims, b)
    requires |node.positions| == |subs| && LastOffered(pairs, |subs|, start)
    requires AllBreak(pairs, subs, out, dims, b)
    ensures RestTaken(node, subs, out, dims, b, start)
  {
    forall x: nat, y: nat {:trigger Fits(subs, out, x, y, dims, b)}
      | x < y < |subs| && (Overlap(subs, x, y) || y == |subs| - 1 || start)
      ensures !Fits(subs, out, x, y, dims, b)
    {
      if y == |subs| - 1 || start {
        assert (x, y) in pairs;
      } else {
        assert Fits(subs, out, x, y, dims, b) ==> Known([], pairs, subs, out, dims, b, x, y);
      }
    }
  }

  /** What the planner keeps from step to step. */
  ghost predicate Planning(path: seq<PathNode>, lists: seq<seq<Subscript>>, subs: seq<Subscript>,
                           possible: seq<Contraction>, pairs: seq<(nat, nat)>, out: set<char>, dims: Dims, b: Budget) {
    && Greedily(path, lists, out, dims, b.cost, b.memory) && lists[|path|] == subs && b.spent == PathCost(path, dims)
    && PairsBelow(pairs, |subs|) && LastOffered(pairs, |subs|, |path| == 0)
    && AllExact(possible, subs, out, dims) && AllWithin(possible, dims, b)
    && AllKnown(possible, pairs, subs, out, dims, b)
  }

  /** One step keeps it. */
  lemma PlanningNext(path: seq<PathNode>, lists: seq<seq<Subscript>>, subs: seq<Subscript>,
                     possible: seq<Contraction>, pairs: seq<(nat, nat)>, out: set<char>, dims: Dims, b: Budget,
                     node: PathNode, subs1: seq<Subscript>, carried: seq<Contraction>, pairs1: seq<(nat, nat)>)
    requires Planning(path, lists, subs, possible, pairs, out, dims, b) && |subs| > 1
    requires Advances(possible, pairs, subs, out, dims, b, node, subs1, carried)
    requires PairsBelow(pairs1, |subs| - 1)
    requires forall i: nat {:trigger (i, |subs| - 2)} :: i < |subs| - 2 ==> (i, |subs| - 2) in pairs1
    ensures var spent := b.spent + NodeCost(node.inputs, node.output.letters, dims);
            Planning(path + [node], lists + [subs1], subs1, carried, pairs1, out, dims, b.(spent := spent))
  {
    OfferedIsChosen(possible, pairs, subs, out, dims, b, node);
    GreedilyNext(path, lists, out, dims, b.cost, b.memory, node, subs1);
    PathNext(path, node, dims);
    var b1 := b.(spent := b.spent + NodeCost(node.inputs, node.output.letters, dims));
    KnownNext(possible, pairs, subs, out, dims, b, b1, node, carried, pairs1);
  }

  /** Nothing is left on offer: the naive node for the rest is a greedy choice too. */
  lemma RestChosen(path: seq<PathNode>, lists: seq<seq<Subscript>>, subs: seq<Subscript>, pairs: seq<(nat, nat)>,
                   out: set<char>, dims: Dims, b: Budget, path1: seq<PathNode>)
    requires Planning(path, lists, subs, [], pairs, out, dims, b) && |subs| > 1
    requires AllBreak(pairs, subs, out, dims, b)
    requires |path1| == |path| + 1 && path1 == path + [path1[|path|]]
    requires NodeOk(path1[|path|], subs, out) && |path1[|path|].positions| == |subs|
    ensures Greedily(path1, lists + [After(path1[|path|], subs)], out, dims, b.cost, b.memory)
  {
    NothingFits(pairs, subs, out, dims, b, path1[|path|], |path| == 0);
    GreedilyNext(path, lists, out, dims, b.cost, b.memory, path1[|path|], After(path1[|path|], subs));
  }

  lemma PlanningStarts(subs: seq<Subscript>, pairs: seq<(nat, nat)>, out: set<char>, dims: Dims, b: Budget)
    requires PairsBelow(pairs, |subs|) && forall x: nat, y: nat :: x < y < |subs| ==> (x, y) in pairs
    requires b.spent == 0
    ensures Planning([], [subs], subs, [], pairs, out, dims, b)
  {
  }

  /** A naive node for what is left ends the path. */
  method EndPath(path: seq<PathNode>, ghost lists: seq<seq<Subscript>>, inputs: seq<Subscript>,
                 ghost pairs: seq<(nat, nat)>, output: Subscript, dims: Dims, pathCost: nat, pathScaling: nat,
                 ghost b: Budget, ghost inputs0: seq<Subscript>)
    returns (path1: seq<PathNode>, cost: nat, scaling: nat, ghost lists1: seq<seq<Subscript>>)
    requires Planning(path, lists, inputs, [], pairs, output.letters, dims, b) && |inputs| > 1
    requires AllBreak(pairs, inputs, output.letters, dims, b)
    requires Leads(path, inputs0, inputs, output.letters) && DistinctSub(output) && output.letters <= LettersOf(inputs)
    requires pathCost == PathCost(path, dims) && pathScaling == PathScaling(path) && lists[0] == inputs0
    ensures Finished(path1, inputs0, output.letters)
    ensures cost == PathCost(path1, dims) && scaling == PathScaling(path1)
    ensures Greedily(path1, lists1, output.letters, dims, b.cost, b.memory)
    ensures lists1[0] == inputs0 && |lists1[|path1|]| == 1
  {
    var restCost, scale;
    path1, restCost, scale := NaiveRest(path, inputs, output, dims, inputs0);
    RestChosen(path, lists, inputs, pairs, output.letters, dims, b, path1);
    cost, scaling, lists1 := pathCost + restCost, Max(pathScaling, scale), lists + [[output]];
  }

  /** One pair contracted, or none found. */
  method Advance(ghost path: seq<PathNode>, ghost lists: seq<seq<Subscript>>, inputs: seq<Subscript>,
                 possible: seq<Contraction>, pairs: seq<(nat, nat)>, output: Subscript, dims: Dims,
                 pathCost: nat, costLimit: nat, memoryLimit: nat)
    returns (found: bool, node: PathNode, best: Contraction, inputs1: seq<Subscript>, carried: seq<Contraction>,
        pairs1: seq<(nat, nat)>)
    requires |inputs| > 1
    requires Planning(path, lists, inputs, possible, pairs, output.letters, dims,
                      Budget(pathCost, costLimit, memoryLimit))
    ensures !found ==>
              possible == [] && AllBreak(pairs, inputs, output.letters, dims, Budget(pathCost, costLimit, memoryLimit))
    ensures found ==> NodeOk(node, inputs, output.letters) && |node.positions| == 2 && inputs1 == After(node, inputs)
    ensures found ==> NodeCost(node.inputs, node.output.letters, dims) == best.cost
    ensures found ==> |LettersOf(node.inputs)| == best.dims
    ensures found ==> Planning(path + [node], lists + [inputs1], inputs1, carried, pairs1, output.letters, dims,
                               Budget(pathCost + best.cost, costLimit, memoryLimit))
  {
    ghost var b := Budget(pathCost, costLimit, memoryLimit);
    found, node, best, inputs1, carried :=
      NextNode(possible, pairs, inputs, output, dims, pathCost, costLimit, memoryLimit);
    pairs1 := [];
    if found {
      pairs1 := LastPairs(|inputs1| - 1);
      PlanningNext(path, lists, inputs, possible, pairs, output.letters, dims, b, node, inputs1, carried, pairs1);
    }
  }

  /** Whatever the limits, the greedy path is a valid plan for the whole sum, and every node a greedy choice. */
  method GreedyPath(inputs0: seq<Subscript>, output: Subscript, dims: Dims, costLimit: nat, memoryLimit: nat)
    returns (path: seq<PathNode>, pathCost: nat, pathScaling: nat, ghost lists: seq<seq<Subscript>>)
    requires |inputs0| > 1 && DistinctSub(output) && output.letters <= LettersOf(inputs0)
    ensures Finished(path, inputs0, output.letters)
    ensures pathCost == PathCost(path, dims) && pathScaling == PathScaling(path)
    ensures Greedily(path, lists, output.letters, dims, costLimit, memoryLimit) && lists[0] == inputs0
    ensures |lists[|path|]| == 1
    ensures (exists m: nat :: RoomFor(LettersOf(inputs0), |inputs0|, dims, m, costLimit, memoryLimit)) ==>
              |path| == |inputs0| - 1 && forall i :: 0 <= i < |path| ==> |path[i].positions| == 2
  {
    var inputs := inputs0;
    var pairs := AllPairs(|inputs|);
    var possible: seq<Contraction> := [];
    path, pathCost, pathScaling, lists := [], 0, 0, [inputs0];
    PlanningStarts(inputs0, pairs, output.letters, dims, Budget(0, costLimit, memoryLimit));
    for i := 0 to |inputs0| - 1
      invariant Planned(path, inputs0, inputs, output.letters, i)
      invariant pathCost == PathCost(path, dims) && pathScaling == PathScaling(path)
      invariant Planning(path, lists, inputs, possible, pairs, output.letters, dims,
                         Budget(pathCost, costLimit, memoryLimit))
      invariant lists[0] == inputs0
    {
      var found, node, best, inputs1, carried,
          pairs1 := Advance(path, lists, inputs, possible, pairs, output, dims, pathCost, costLimit, memoryLimit);
      if !found {
        path, pathCost, pathScaling, lists :=
          EndPath(path, lists, inputs, pairs, output, dims, pathCost, pathScaling,
                  Budget(pathCost, costLimit, memoryLimit), inputs0);
        RoomyPaths(path, lists, output.letters, dims, costLimit, memoryLimit);
        return;
      }
      PlannedNext(path, inputs0, inputs, output.letters, i, node);
      PathNext(path, node, dims);
      pathScaling := Max(pathScaling, best.dims);
      path, lists := path + [node], lists + [inputs1];
      inputs, possible, pairs := inputs1, carried, pairs1;
      pathCost := pathCost + best.cost;
    }
    PlannedAll(path, inputs0, inputs, output.letters);
    RoomyPaths(path, lists, output.letters, dims, costLimit, memoryLimit);
  }

  // ---------------------------------------------------------------- limits that bind nothing

  /** With `n` operands over these letters no result and no cost can break the limits: every set of the
      letters has at most `m` assignments, and there is room for 2 * m operations for every operand. */
  ghost predicate RoomFor(letters: set<char>, n: nat, dims: Dims, m: nat, costLimit: nat, memoryLimit: nat) {
    && m <= memoryLimit && 2 * n * m <= costLimit
    && forall s: set<char> {:trigger SetSize(s, dims)} :: s <= letters ==> SetSize(s, dims) <= m
  }

  lemma RoomForPair(subs: seq<Subscript>, out: set<char>, letters: set<char>, n: nat, dims: Dims, m: nat, b: Budget,
                    k: nat, x: nat, y: nat)
    requires RoomFor(letters, n, dims, m, b.cost, b.memory) && LettersOf(subs) <= letters && x < y < |subs|
    requires b.spent <= 2 * k * m && k < n
    ensures Fits(subs, out, x, y, dims, b)
  {
    HasLetters(subs, x);
    HasLetters(subs, y);
    assert Joined(subs, x, y) <= letters && NewTerm(subs, out, x, y) <= letters;
    RoomForOne(b.spent, k, n, m);
  }

  lemma RoomForOne(spent: nat, k: nat, n: nat, m: nat)
    requires spent <= 2 * k * m && k < n
    ensures spent + 2 * m <= 2 * n * m && spent + 2 * m <= 2 * (k + 1) * m
  {
    assert k * m + m == (k + 1) * m;
    MulMono(k + 1, n, m);
  }

  lemma MulMono(a: nat, b: nat, m: nat)
    requires a <= b
    ensures a * m <= b * m
  {
    assert (b - a) * m >= 0;
  }

  lemma PairNodeCost(node: PathNode, letters: set<char>, n: nat, dims: Dims, m: nat, b: Budget)
    requires RoomFor(letters, n, dims, m, b.cost, b.memory) && LettersOf(node.inputs) <= letters && |node.inputs| == 2
    ensures NodeCost(node.inputs, node.output.letters, dims) <= 2 * m
  {
  }

  /** The operands along a path only have letters of the first ones. */
  lemma LettersShrink(node: PathNode, subs: seq<Subscript>, out: set<char>)
    requires NodeOk(node, subs, out)
    ensures LettersOf(node.inputs) <= LettersOf(subs) && LettersOf(After(node, subs)) <= LettersOf(subs)
    ensures |After(node, subs)| == |subs| - |node.positions| + 1
  {
    SelectLetters(subs, node.positions);
    LettersOfConcat(DropAt(subs, node.positions), [node.output]);
    LettersOne(node.output);
  }

  /** After `i` nodes of a greedy path with room to spare. */
  ghost predicate PairsUpTo(path: seq<PathNode>, lists: seq<seq<Subscript>>, dims: Dims, m: nat, i: nat)
    requires i <= |path| && |lists| == |path| + 1
  {
    && LettersOf(lists[i]) <= LettersOf(lists[0]) && |lists[i]| == |lists[0]| - i
    && PathCost(path[..i], dims) <= 2 * i * m
    && forall j :: 0 <= j < i ==> |path[j].positions| == 2 && |path[j].inputs| == 2
  }

  lemma RoomyNode(path: seq<PathNode>, lists: seq<seq<Subscript>>, out: set<char>, dims: Dims, costLimit: nat,
                  memoryLimit: nat, m: nat, i: nat)
    requires i < |path| && Greedily(path, lists, out, dims, costLimit, memoryLimit)
    requires RoomFor(LettersOf(lists[0]), |lists[0]|, dims, m, costLimit, memoryLimit)
    requires PairsUpTo(path, lists, dims, m, i)
    ensures |path[i].positions| == 2 && |path[i].inputs| == 2
  {
    assert ChosenAt(path, lists, out, dims, costLimit, memoryLimit, i);
    var b, k := Budget(PathCost(path[..i], dims), costLimit, memoryLimit), |lists[i]|;
    RoomForPair(lists[i], out, LettersOf(lists[0]), |lists[0]|, dims, m, b, i, k - 2, k - 1);
  }

  lemma RoomyStep(path: seq<PathNode>, lists: seq<seq<Subscript>>, out: set<char>, dims: Dims, costLimit: nat,
                  memoryLimit: nat, m: nat, i: nat)
    requires i < |path| && Greedily(path, lists, out, dims, costLimit, memoryLimit)
    requires RoomFor(LettersOf(lists[0]), |lists[0]|, dims, m, costLimit, memoryLimit)
    requires PairsUpTo(path, lists, dims, m, i)
    ensures PairsUpTo(path, lists, dims, m, i + 1)
  {
    RoomyNode(path, lists, out, dims, costLimit, memoryLimit, m, i);
    assert ChosenAt(path, lists, out, dims, costLimit, memoryLimit, i) && StepAt(path, lists, out, i);
    LettersShrink(path[i], lists[i], out);
    assert path[..i + 1] == path[..i] + [path[i]];
    PathNext(path[..i], path[i], dims);
    PairNodeCost(path[i], LettersOf(lists[0]), |lists[0]|, dims, m, Budget(0, costLimit, memoryLimit));
    RoomForOne(PathCost(path[..i], dims), i, i + 1, m);
  }

  /** With room to spare a greedy path contracts two operands at every node, down to one. */
  lemma RoomyPath(path: seq<PathNode>, lists: seq<seq<Subscript>>, out: set<char>, dims: Dims, costLimit: nat,
                  memoryLimit: nat, m: nat)
    requires Greedily(path, lists, out, dims, costLimit, memoryLimit) && |lists[|path|]| == 1
    requires RoomFor(LettersOf(lists[0]), |lists[0]|, dims, m, costLimit, memoryLimit)
    ensures |path| == |lists[0]| - 1
    ensures forall i :: 0 <= i < |path| ==> |path[i].positions| == 2 && |path[i].inputs| == 2
  {
    for i := 0 to |path|
      invariant PairsUpTo(path, lists, dims, m, i)
    {
      RoomyStep(path, lists, out, dims, costLimit, memoryLimit, m, i);
    }
  }

  lemma RoomyPaths(path: seq<PathNode>, lists: seq<seq<Subscript>>, out: set<char>, dims: Dims, costLimit: nat,
                   memoryLimit: nat)
    requires Greedily(path, lists, out, dims, costLimit, memoryLimit) && |lists[|path|]| == 1
    ensures (exists m: nat :: RoomFor(LettersOf(lists[0]), |lists[0]|, dims, m, costLimit, memoryLimit)) ==>
              |path| == |lists[0]| - 1 && forall i :: 0 <= i < |path| ==> |path[i].positions| == 2
  {
    if m: nat :| RoomFor(LettersOf(lists[0]), |lists[0]|, dims, m, costLimit, memoryLimit) {
      RoomyPath(path, lists, out, dims, costLimit, memoryLimit, m);
    }
  }
}
