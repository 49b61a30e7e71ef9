/**
 Einsum: the subscripts are checked against the operands, a contraction path is planned, and the path
 is run.
 */
module Einsum {
  import opened Wrappers
  import opened Sums
  import opened Tensors
  import opened Labels
  import opened Subscripts
  import opened Products
  import opened Collapse
  import opened Plan
  import opened Greedy
  import opened Executor

  datatype EinsumError =
    | NoOperands
    | OperandCount
    | NotALetter
    | RepeatedOutput
    | WrongRank(input: nat)
    | RepeatedSizes(input: nat)
    | CannotBroadcast(input: nat)

  datatype PathInfo = PathInfo(naiveCost: nat, naiveScaling: nat, optimized: Option<(nat, nat)>)

  datatype Planned = Planned(path: seq<PathNode>, info: PathInfo)

  /** A letter: its ASCII code is that of a capital or a small letter. */
  predicate IsAlpha(c: char): (r: bool)
    ensures r <==> 65 <= c as int < 65 + 26 || 97 <= c as int < 97 + 26
  {
    'a' <= c <= 'z' || 'A' <= c <= 'Z'
  }

  ghost predicate AllAlpha(str: string) {
    forall i :: 0 <= i < |str| ==> IsAlpha(str[i])
  }

  method CheckLetters(str: string) returns (ok: bool)
    ensures ok <==> AllAlpha(str)
  {
    for i := 0 to |str|
      invariant forall j :: 0 <= j < i ==> IsAlpha(str[j])
    {
      if !IsAlpha(str[i]) {
        return false;
      }
    }
    ok := true;
  }

  /** Axes of one letter have one size. */
  ghost predicate SameSizes(str: string, shape: seq<nat>) {
    |str| == |shape| && forall j, k :: 0 <= j < k < |str| && str[j] == str[k] ==> shape[j] == shape[k]
  }

  /** Checks the sizes of repeated letters within one input. */
  method CheckRepeats(str: string, shape: seq<nat>) returns (ok: bool)
    requires |str| == |shape|
    ensures ok <==> SameSizes(str, shape)
  {
    var localDims: map<char, nat> := map[];
    for k := 0 to |str|
      invariant forall j :: 0 <= j < k ==> str[j] in localDims && localDims[str[j]] == shape[j]
      invariant forall c :: c in localDims ==> exists j :: 0 <= j < k && str[j] == c
    {
      if str[k] in localDims {
        if localDims[str[k]] != shape[k] {
          return false;
        }
      } else {
        localDims := localDims[str[k] := shape[k]];
      }
    }
    ok := true;
  }

  /** The size a map gives a letter; letters it does not know have size 0. */
  function DimsOf(m: map<char, nat>): Dims {
    c => if c in m then m[c] else 0
  }

  ghost predicate Agrees(m: map<char, nat>, dims: Dims) {
    forall c :: c in m ==> m[c] == dims(c)
  }

  /** Every axis has its letter's size, or size 1 and is broadcast to it. */
  ghost predicate Stretches(str: string, shape: seq<nat>, dims: Dims) {
    |str| == |shape| && forall j :: 0 <= j < |str| ==> shape[j] == 1 || shape[j] == dims(str[j])
  }

  ghost predicate MapStretches(m: map<char, nat>, dims: Dims) {
    forall c :: c in m ==> m[c] == 1 || m[c] == dims(c)
  }

  /** The letter of an axis had another size before, in the map or at an earlier axis, and neither is 1. */
  ghost predicate Clash(str: string, shape: seq<nat>, m: map<char, nat>, j: nat, size: nat)
    requires j < |str| == |shape|
  {
    && shape[j] != 1 && size != 1 && size != shape[j]
    && ((str[j] in m && m[str[j]] == size) || exists i :: 0 <= i < j && str[i] == str[j] && shape[i] == size)
  }

  /** The recorded size of a letter was recorded before or is the size of one of its axes. */
  ghost predicate Seen(str: string, shape: seq<nat>, m: map<char, nat>, c: char, size: nat)
    requires |str| == |shape|
  {
    (c in m && m[c] == size) || exists j :: 0 <= j < |str| && str[j] == c && shape[j] == size
  }

  /** `m1` is `m` with the largest size of every letter of one input. */
  ghost predicate Added(str: string, shape: seq<nat>, m: map<char, nat>, m1: map<char, nat>) {
    && |str| == |shape| && m1.Keys == m.Keys + Letters(str)
    && (forall j :: 0 <= j < |str| ==> str[j] in m1 && shape[j] <= m1[str[j]])
    && (forall c :: c in m ==> m[c] <= m1[c])
    && forall c {:trigger Seen(str, shape, m, c, m1[c])} :: c in m1 ==> Seen(str, shape, m, c, m1[c])
  }

  lemma SeenMore(str: string, shape: seq<nat>, m: map<char, nat>, k: nat, c: char, size: nat)
    requires k < |str| == |shape|
    requires Seen(str[..k], shape[..k], m, c, size) || (c == str[k] && size == shape[k])
    ensures Seen(str[..k + 1], shape[..k + 1], m, c, size)
  {
    var str1, shape1 := str[..k + 1], shape[..k + 1];
    assert str1[k] == str[k] && shape1[k] == shape[k];
    if Seen(str[..k], shape[..k], m, c, size) && !(c in m && m[c] == size) {
      var j :| 0 <= j < k && str[..k][j] == c && shape[..k][j] == size;
      assert str1[j] == c && shape1[j] == size;
    }
  }

  lemma AddedMore(str: string, shape: seq<nat>, m: map<char, nat>, m1: map<char, nat>, k: nat)
    requires k < |str| == |shape| && Added(str[..k], shape[..k], m, m1)
    ensures var size := if str[k] in m1 then Max(m1[str[k]], shape[k]) else shape[k];
            Added(str[..k + 1], shape[..k + 1], m, m1[str[k] := size])
  {
    var size := if str[k] in m1 then Max(m1[str[k]], shape[k]) else shape[k];
    var m2 := m1[str[k] := size];
    PrefixLetters(str, k);
    forall j {:trigger str[..k + 1][j]} | 0 <= j < k + 1
      ensures str[..k + 1][j] in m2 && shape[..k + 1][j] <= m2[str[..k + 1][j]]
    {
      assert j < k ==> str[..k][j] == str[j] && shape[..k][j] == shape[j];
    }
    forall c | c in m2
      ensures Seen(str[..k + 1], shape[..k + 1], m, c, m2[c])
    {
      assert c in m1 ==> Seen(str[..k], shape[..k], m, c, m1[c]);
      SeenMore(str, shape, m, k, c, m2[c]);
    }
  }

  lemma Clashes(str: string, shape: seq<nat>, m: map<char, nat>, m1: map<char, nat>, k: nat)
    requires k < |str| == |shape| && Added(str[..k], shape[..k], m, m1) && str[k] in m1
    requires shape[k] != 1 && m1[str[k]] != 1 && m1[str[k]] != shape[k]
    ensures Clash(str, shape, m, k, m1[str[k]])
  {
    assert Seen(str[..k], shape[..k], m, str[k], m1[str[k]]);
  }

  /** Adds the sizes of one input, broadcasting sizes of 1: the largest size of every letter is recorded, and
      only sizes that differ with neither being 1 are an error. */
  method AddDims(str: string, shape: seq<nat>, m: map<char, nat>, ghost dims: Dims)
    returns (ok: bool, m1: map<char, nat>)
    requires |str| == |shape|
    ensures ok ==> Added(str, shape, m, m1)
    ensures !ok ==> exists j: nat, size: nat :: j < |str| && Clash(str, shape, m, j, size)
    ensures Stretches(str, shape, dims) && MapStretches(m, dims) ==> ok && MapStretches(m1, dims)
    ensures shape == ShapeOf(str, dims) && Agrees(m, dims) ==> ok && Agrees(m1, dims)
  {
    ok, m1 := true, m;
    for j := 0 to |str|
      invariant Added(str[..j], shape[..j], m, m1)
      invariant Stretches(str, shape, dims) && MapStretches(m, dims) ==> MapStretches(m1, dims)
      invariant shape == ShapeOf(str, dims) && Agrees(m, dims) ==> Agrees(m1, dims)
    {
      var dim := shape[j];
      var inDim := if str[j] in m1 then m1[str[j]] else dim;
      if dim != 1 && inDim != 1 && inDim != dim {
        Clashes(str, shape, m, m1, j);
        ok := false;
        return;
      }
      AddedMore(str, shape, m, m1, j);
      m1 := m1[str[j] := Max(inDim, dim)];
    }
    assert str[..|str|] == str && shape[..|str|] == shape;
  }

  ghost predicate InputOk(str: string, t: Tensor) {
    |str| == |t.shape| && SameSizes(str, t.shape)
  }

  ghost predicate InputDone(inSubs: seq<string>, operands: seq<Tensor>, m: map<char, nat>, i: nat)
    requires i < |inSubs| == |operands|
  {
    InputOk(inSubs[i], operands[i]) &&
    forall j :: 0 <= j < |inSubs[i]| ==> inSubs[i][j] in m && operands[i].shape[j] <= m[inSubs[i][j]]
  }

  /** Axis (i, j) has this letter and this size. */
  ghost predicate AxisOf(inSubs: seq<string>, operands: seq<Tensor>, i: nat, j: nat, c: char, size: nat) {
    i < |inSubs| == |operands| && j < |inSubs[i]| == |operands[i].shape|
    && inSubs[i][j] == c && operands[i].shape[j] == size
  }

  /** Every recorded size is the size of an axis of the first `n` inputs. */
  ghost predicate AllSeenBefore(inSubs: seq<string>, operands: seq<Tensor>, m: map<char, nat>, n: nat) {
    forall c :: c in m ==> exists i: nat, j: nat :: i < n && AxisOf(inSubs, operands, i, j, c, m[c])
  }

  ghost predicate AllSeen(inSubs: seq<string>, operands: seq<Tensor>, m: map<char, nat>) {
    AllSeenBefore(inSubs, operands, m, |inSubs|)
  }

  lemma SeenSomewhere(inSubs: seq<string>, operands: seq<Tensor>, m: map<char, nat>, m1: map<char, nat>, i: nat)
    requires i < |inSubs| == |operands| && AllSeenBefore(inSubs, operands, m, i)
    requires Added(inSubs[i], operands[i].shape, m, m1)
    ensures AllSeenBefore(inSubs, operands, m1, i + 1)
  {
    forall c | c in m1
      ensures exists k: nat, j: nat :: k < i + 1 && AxisOf(inSubs, operands, k, j, c, m1[c])
    {
      assert Seen(inSubs[i], operands[i].shape, m, c, m1[c]);
      if j: nat :| j < |inSubs[i]| && inSubs[i][j] == c && operands[i].shape[j] == m1[c] {
        assert AxisOf(inSubs, operands, i, j, c, m1[c]);
      }
    }
  }

  /** What a check of the first n inputs has established. */
  ghost predicate InputsDone(inSubs: seq<string>, operands: seq<Tensor>, m: map<char, nat>, n: nat)
    requires |inSubs| == |operands|
  {
    forall i: nat {:trigger InputDone(inSubs, operands, m, i)} :: i < n && i < |inSubs| ==>
        InputDone(inSubs, operands, m, i)
  }

  /** Checks one input against its operand and adds its sizes. */
  method CheckInput(str: string, shape: seq<nat>, i: nat, m: map<char, nat>, ghost dims: Dims)
    returns (r: Result<map<char, nat>, EinsumError>)
    ensures r.Ok? ==> SameSizes(str, shape) && Added(str, shape, m, r.value)
    ensures Stretches(str, shape, dims) && MapStretches(m, dims) ==>
              if r.Ok? then MapStretches(r.value, dims) else r.error == RepeatedSizes(i)
    ensures r.Err? ==> match r.error
                       case WrongRank(k) => k == i && |str| != |shape|
                       case RepeatedSizes(k) => k == i && |str| == |shape| && !SameSizes(str, shape)
                       case CannotBroadcast(k) => k == i && |str| == |shape| && SameSizes(str, shape)
                           && !(Agrees(m, dims) && shape == ShapeOf(str, dims))
                           && exists j: nat, size: nat :: j < |str| && Clash(str, shape, m, j, size)
                       case _ => false
    ensures r.Ok? && Agrees(m, dims) && shape == ShapeOf(str, dims) ==> Agrees(r.value, dims)
  {
    if |str| != |shape| {
      return Err(WrongRank(i));
    }
    var letters := Letters(str);
    if |letters| < |str| {
      var ok := CheckRepeats(str, shape);
      if !ok {
        return Err(RepeatedSizes(i));
      }
    } else {
      SizeDistinct(str);
      DistinctSameSizes(str, shape);
    }
    var ok, m1 := AddDims(str, shape, m, dims);
    if !ok {
      return Err(CannotBroadcast(i));
    }
    r := Ok(m1);
  }

  /** Two axes of one letter, the first in input `i` and the second not after it, have different sizes other
      than 1. */
  ghost predicate TwoSizes(inSubs: seq<string>, operands: seq<Tensor>, i: nat) {
    exists j: nat, k: nat, l: nat, c, a: nat, b: nat
      {:trigger AxisOf(inSubs, operands, i, j, c, a), AxisOf(inSubs, operands, k, l, c, b)} ::
      && AxisOf(inSubs, operands, i, j, c, a) && AxisOf(inSubs, operands, k, l, c, b) && k <= i
      && a != b && a != 1 && b != 1
  }

  /** What is wrong with the input an error names; nothing is wrong with those before it. */
  ghost predicate BadInput(e: EinsumError, inSubs: seq<string>, operands: seq<Tensor>)
    requires |inSubs| == |operands|
  {
    match e
    case WrongRank(i) => i < |inSubs| && GoodBefore(inSubs, operands, i) && |inSubs[i]| != |operands[i].shape|
    case RepeatedSizes(i) =>
      && i < |inSubs| && GoodBefore(inSubs, operands, i) && |inSubs[i]| == |operands[i].shape|
      && !SameSizes(inSubs[i], operands[i].shape)
    case CannotBroadcast(i) =>
      i < |inSubs| && GoodBefore(inSubs, operands, i + 1) && TwoSizes(inSubs, operands, i)
    case _ => false
  }

  ghost predicate GoodBefore(inSubs: seq<string>, operands: seq<Tensor>, n: nat)
    requires n <= |inSubs| == |operands|
  {
    forall k :: 0 <= k < n ==> InputOk(inSubs[k], operands[k])
  }

  lemma ClashIsTwoSizes(inSubs: seq<string>, operands: seq<Tensor>, m: map<char, nat>, i: nat, j: nat, size: nat)
    requires i < |inSubs| == |operands| && AllSeenBefore(inSubs, operands, m, i)
    requires j < |inSubs[i]| == |operands[i].shape| && Clash(inSubs[i], operands[i].shape, m, j, size)
    ensures TwoSizes(inSubs, operands, i)
  {
    var str, shape := inSubs[i], operands[i].shape;
    assert AxisOf(inSubs, operands, i, j, str[j], shape[j]);
    if l: nat :| l < j && str[l] == str[j] && shape[l] == size {
      assert AxisOf(inSubs, operands, i, l, str[j], size);
    } else {
      assert str[j] in m && m[str[j]] == size;
      var k: nat, l: nat :| k < i && AxisOf(inSubs, operands, k, l, str[j], size);
    }
  }

  /** The error of checking input `i` describes it. */
  lemma WhyBad(inSubs: seq<string>, operands: seq<Tensor>, m: map<char, nat>, i: nat, e: EinsumError)
    requires i < |inSubs| == |operands| && InputsDone(inSubs, operands, m, i) && AllSeenBefore(inSubs, operands, m, i)
    requires match e
             case WrongRank(k) => k == i && |inSubs[i]| != |operands[i].shape|
             case RepeatedSizes(k) => k == i && |inSubs[i]| == |operands[i].shape|
                 && !SameSizes(inSubs[i], operands[i].shape)
             case CannotBroadcast(k) => k == i && InputOk(inSubs[i], operands[i])
                 && exists j: nat, size: nat :: j < |inSubs[i]| && Clash(inSubs[i], operands[i].shape, m, j, size)
             case _ => false
    ensures BadInput(e, inSubs, operands)
  {
    forall k: nat | k < i
      ensures InputOk(inSubs[k], operands[k])
    {
      assert InputDone(inSubs, operands, m, k);
    }
    if e.CannotBroadcast? {
      var j: nat, size: nat :| j < |inSubs[i]| && Clash(inSubs[i], operands[i].shape, m, j, size);
      ClashIsTwoSizes(inSubs, operands, m, i, j, size);
    }
  }

  /** Every operand can be broadcast to one size per letter. */
  ghost predicate AllStretch(inSubs: seq<string>, operands: seq<Tensor>, dims: Dims) {
    |inSubs| == |operands| && forall i :: 0 <= i < |inSubs| ==> Stretches(inSubs[i], operands[i].shape, dims)
  }

  /** Checks every input against its operand and collects the letters' sizes: for every letter the largest
      size it has anywhere. */
  method CheckInputs(inSubs: seq<string>, operands: seq<Tensor>, ghost dims: Dims)
    returns (r: Result<map<char, nat>, EinsumError>)
    requires |inSubs| == |operands|
    ensures r.Ok? ==> InputsDone(inSubs, operands, r.value, |inSubs|) && AllSeen(inSubs, operands, r.value)
    ensures AllStretch(inSubs, operands, dims) && r.Err? ==> r.error.RepeatedSizes?
    ensures r.Err? ==> BadInput(r.error, inSubs, operands)
    ensures r.Err? && r.error.CannotBroadcast? ==> !OneSize(inSubs, operands, dims)
    ensures r.Ok? && OneSize(inSubs, operands, dims) ==> Agrees(r.value, dims)
  {
    var m: map<char, nat> := map[];
    for i := 0 to |inSubs|
      invariant InputsDone(inSubs, operands, m, i) && AllSeenBefore(inSubs, operands, m, i)
      invariant OneSize(inSubs, operands, dims) ==> Agrees(m, dims)
      invariant AllStretch(inSubs, operands, dims) ==> MapStretches(m, dims)
    {
      var checked := CheckInput(inSubs[i], operands[i].shape, i, m, dims);
      assert OneSize(inSubs, operands, dims) ==> OneSizeAt(inSubs, operands, dims, i);
      if checked.Err? {
        WhyBad(inSubs, operands, m, i, checked.error);
        return Err(checked.error);
      }
      forall k: nat {:trigger InputDone(inSubs, operands, checked.value, k)} | k <= i
        ensures InputDone(inSubs, operands, checked.value, k)
      {
        assert k < i ==> InputDone(inSubs, operands, m, k);
      }
      SeenSomewhere(inSubs, operands, m, checked.value, i);
      m := checked.value;
    }
    r := Ok(m);
  }

  lemma DistinctSameSizes(str: string, shape: seq<nat>)
    requires Distinct(str) && |str| == |shape|
    ensures SameSizes(str, shape)
  {
    forall j, k | 0 <= j < k < |str| && str[j] == str[k]
      ensures shape[j] == shape[k]
    {
      assert FreshAt(str, j) && FreshAt(str, k);
    }
  }

  ghost predicate OneSizeAt(inSubs: seq<string>, operands: seq<Tensor>, dims: Dims, i: nat)
    requires i < |inSubs| == |operands|
  {
    |inSubs[i]| == |operands[i].shape| ==> operands[i].shape == ShapeOf(inSubs[i], dims)
  }

  /** Each letter has one size everywhere. */
  ghost predicate OneSize(inSubs: seq<string>, operands: seq<Tensor>, dims: Dims) {
    |inSubs| == |operands| && forall i: nat {:trigger OneSizeAt(inSubs, operands, dims, i)} :: i < |inSubs| ==>
        OneSizeAt(inSubs, operands, dims, i)
  }

  function SubscriptOf(str: string): Subscript {
    Subscript(str, Letters(str))
  }

  function SubscriptsOf(strs: seq<string>): (r: seq<Subscript>)
    ensures |r| == |strs| && forall i {:trigger r[i]} :: 0 <= i < |strs| ==> r[i] == SubscriptOf(strs[i])
  {
    seq(|strs|, i requires 0 <= i < |strs| => SubscriptOf(strs[i]))
  }

  /** What the subscripts must satisfy whatever the sizes. */
  ghost predicate WellFormed(inSubs: seq<string>, outSub: string, operands: seq<Tensor>) {
    && 0 < |operands| == |inSubs|
    && (forall i :: 0 <= i < |inSubs| ==> AllAlpha(inSubs[i]) && InputOk(inSubs[i], operands[i]))
    && AllAlpha(outSub) && Distinct(outSub)
  }

  method StringSize(str: string, dims: Dims) returns (size: nat)
    ensures size == Size(ShapeOf(str, dims))
  {
    size := 1;
    for k := 0 to |str|
      invariant size == Size(ShapeOf(str[..k], dims))
    {
      assert str[..k + 1] == str[..k] + [str[k]];
      ShapeConcat(str[..k], [str[k]], dims);
      SizeConcat(ShapeOf(str[..k], dims), ShapeOf([str[k]], dims));
      SizeSingle(str[k], dims);
      size := size * dims(str[k]);
    }
    assert str[..|str|] == str;
  }

  lemma SizeSingle(c: char, dims: Dims)
    ensures Size(ShapeOf([c], dims)) == dims(c)
  {
    assert ShapeOf([c], dims) == [dims(c)] && [dims(c)][1..] == [];
  }

  /** The size of the largest operand or result. */
  ghost predicate IsLargest(inSubs: seq<string>, outSub: string, dims: Dims, size: nat) {
    && Size(ShapeOf(outSub, dims)) <= size
    && (forall i :: 0 <= i < |inSubs| ==> Size(ShapeOf(inSubs[i], dims)) <= size)
    && (size == Size(ShapeOf(outSub, dims)) || exists i :: 0 <= i < |inSubs| && size == Size(ShapeOf(inSubs[i], dims)))
  }

  method LargestTerm(inSubs: seq<string>, outSub: string, dims: Dims) returns (size: nat)
    ensures IsLargest(inSubs, outSub, dims, size)
  {
    size := StringSize(outSub, dims);
    for i := 0 to |inSubs|
      invariant IsLargest(inSubs[..i], outSub, dims, size)
    {
      var n := StringSize(inSubs[i], dims);
      LargerTerm(inSubs, outSub, dims, size, i);
      size := Max(size, n);
    }
    assert inSubs[..|inSubs|] == inSubs;
  }

  lemma LargerTerm(inSubs: seq<string>, outSub: string, dims: Dims, size: nat, i: nat)
    requires i < |inSubs| && IsLargest(inSubs[..i], outSub, dims, size)
    ensures IsLargest(inSubs[..i + 1], outSub, dims, Max(size, Size(ShapeOf(inSubs[i], dims))))
  {
    var more := inSubs[..i + 1];
    assert more[i] == inSubs[i] && forall j :: 0 <= j < i ==> more[j] == inSubs[..i][j];
  }

  /** Up to two operands are contracted at once; more along a greedy path, never costlier in one node than
      contracting all at once and with no result larger than the largest operand or output, whose last result
      is labelled by the output.  The costs are those of the paths. */
  ghost predicate PlannedFor(r: Planned, inputs: seq<Subscript>, output: Subscript, dims: Dims, maxSize: nat) {
    && r.info.naiveCost == NodeCost(inputs, output.letters, dims) && r.info.naiveScaling == |LettersOf(inputs)|
    && if |inputs| <= 2
       then r.info.optimized == None && |r.path| == 1
       else r.info.optimized == Some((PathCost(r.path, dims), PathScaling(r.path)))
            && exists path, lists :: GreedyFor(r.path, path, lists, inputs, output, dims, r.info.naiveCost, maxSize)
  }

  ghost predicate GreedyFor(labelled: seq<PathNode>, path: seq<PathNode>, lists: seq<seq<Subscript>>,
                            inputs: seq<Subscript>, output: Subscript, dims: Dims, naiveCost: nat, maxSize: nat) {
    && Greedily(path, lists, output.letters, dims, naiveCost, maxSize) && lists[0] == inputs && |path| > 0
    && labelled == path[|path| - 1 := path[|path| - 1].(output := output)]
  }

  /** Plans a contraction whose output letters all occur in the inputs. */
  method PlanPath(inputs: seq<Subscript>, output: Subscript, dims: Dims, maxSize: nat) returns (r: Planned)
    requires |inputs| > 0 && DistinctSub(output) && output.letters <= LettersOf(inputs)
    ensures PlanOk(r.path, inputs, output)
    ensures PlannedFor(r, inputs, output, dims, maxSize)
  {
    var naiveCost, naiveScaling := CostAndScaling(inputs, output, dims);
    if |inputs| <= 2 {
      var positions := Iota(|inputs|);
      RestNode(inputs, output, positions);
      var node := PathNode(inputs, output, positions);
      LeadsNext([], inputs, inputs, node, output.letters);
      assert [] + [node] == [node];
      r := Planned([node], PathInfo(naiveCost, naiveScaling, None));
    } else {
      var path, cost, scaling;
      ghost var lists;
      path, cost, scaling, lists := GreedyPath(inputs, output, dims, naiveCost, maxSize);
      FinishPlan(path, inputs, output);
      RelabelCost(path, output, dims);
      ghost var greedy := path;
      path := path[|path| - 1 := path[|path| - 1].(output := output)];
      assert GreedyFor(path, greedy, lists, inputs, output, dims, naiveCost, maxSize);
      r := Planned(path, PathInfo(naiveCost, naiveScaling, Some((cost, scaling))));
    }
  }

  lemma RelabelCost(path: seq<PathNode>, output: Subscript, dims: Dims)
    requires |path| > 0 && path[|path| - 1].output.letters == output.letters
    ensures var path1 := path[|path| - 1 := path[|path| - 1].(output := output)];
            PathCost(path1, dims) == PathCost(path, dims) && PathScaling(path1) == PathScaling(path)
  {
    var path1 := path[|path| - 1 := path[|path| - 1].(output := output)];
    assert path1[..|path| - 1] == path[..|path| - 1];
  }

  ghost predicate AllLetters(inSubs: seq<string>, outSub: string) {
    AllAlpha(outSub) && forall i :: 0 <= i < |inSubs| ==> AllAlpha(inSubs[i])
  }

  /** What every error says. */
  ghost predicate Explains(e: EinsumError, inSubs: seq<string>, outSub: string, operands: seq<Tensor>) {
    match e
    case NoOperands => |operands| == 0
    case OperandCount => 0 < |operands| != |inSubs|
    case NotALetter => 0 < |operands| == |inSubs| && !AllLetters(inSubs, outSub)
    case RepeatedOutput => 0 < |operands| == |inSubs| && AllLetters(inSubs, outSub) && !Distinct(outSub)
    case _ =>
      && 0 < |operands| == |inSubs| && AllLetters(inSubs, outSub) && Distinct(outSub)
      && BadInput(e, inSubs, operands)
  }

  /** Checks the subscripts and plans the path, with the largest size of every letter. */
  method EinsumPathHelper(inSubs: seq<string>, outSub: string, operands: seq<Tensor>, ghost dims: Dims)
    returns (r: Result<Planned, EinsumError>, ghost sizes: map<char, nat>, ghost largest: nat)
    requires Letters(outSub) <= LettersOf(SubscriptsOf(inSubs))
    ensures r.Ok? ==> WellFormed(inSubs, outSub, operands)
    ensures r.Ok? ==> PlanOk(r.value.path, SubscriptsOf(inSubs), SubscriptOf(outSub))
    ensures r.Err? ==> Explains(r.error, inSubs, outSub, operands)
    ensures r == Err(NoOperands) <==> |operands| == 0
    ensures r == Err(OperandCount) <==> 0 < |operands| != |inSubs|
    ensures r == Err(NotALetter) <==> 0 < |operands| == |inSubs| && !AllLetters(inSubs, outSub)
    ensures r == Err(RepeatedOutput) <==> 0 < |operands| == |inSubs| && AllLetters(inSubs, outSub) && !Distinct(outSub)
    ensures WellFormed(inSubs, outSub, operands) && OneSize(inSubs, operands, dims) ==> r.Ok?
    ensures WellFormed(inSubs, outSub, operands) && AllStretch(inSubs, operands, dims) ==> r.Ok?
    ensures r.Ok? ==> InputsDone(inSubs, operands, sizes, |inSubs|) && AllSeen(inSubs, operands, sizes)
                      && IsLargest(inSubs, outSub, DimsOf(sizes), largest)
    ensures r.Ok? ==> PlannedFor(r.value, SubscriptsOf(inSubs), SubscriptOf(outSub), DimsOf(sizes), largest)
  {
    sizes, largest := map[], 0;
    if |operands| == 0 {
      return Err(NoOperands), sizes, largest;
    }
    if |operands| != |inSubs| {
      return Err(OperandCount), sizes, largest;
    }
    for i := 0 to |inSubs|
      invariant forall j :: 0 <= j < i ==> AllAlpha(inSubs[j])
    {
      var ok := CheckLetters(inSubs[i]);
      if !ok {
        return Err(NotALetter), sizes, largest;
      }
    }
    var ok := CheckLetters(outSub);
    if !ok {
      return Err(NotALetter), sizes, largest;
    }
    var outSet := Letters(outSub);
    OutputDistinct(outSub);
    if |outSet| != |outSub| {
      return Err(RepeatedOutput), sizes, largest;
    }
    var checked := CheckInputs(inSubs, operands, dims);
    if checked.Err? {
      return Err(checked.error), sizes, largest;
    }
    AllInputsOk(inSubs, operands, checked.value);
    var dimMap := DimsOf(checked.value);
    var maxSize := LargestTerm(inSubs, outSub, dimMap);
    var planned := PlanPath(SubscriptsOf(inSubs), SubscriptOf(outSub), dimMap, maxSize);
    sizes, largest, r := checked.value, maxSize, Ok(planned);
  }

  lemma AllInputsOk(inSubs: seq<string>, operands: seq<Tensor>, m: map<char, nat>)
    requires |inSubs| == |operands| && InputsDone(inSubs, operands, m, |inSubs|)
    ensures forall i :: 0 <= i < |inSubs| ==> InputOk(inSubs[i], operands[i])
  {
    forall i | 0 <= i < |inSubs|
      ensures InputOk(inSubs[i], operands[i])
    {
      assert InputDone(inSubs, operands, m, i);
    }
  }

  lemma OutputDistinct(str: string)
    ensures |Letters(str)| == |str| <==> Distinct(str)
  {
    SizeDistinct(str);
    if Distinct(str) {
      DistinctSize(str);
    }
  }

  // ---------------------------------------------------------------- einsum

  /** The result an einsum promises: at every output index, the sum over all other letters of the product of
      the operands' elements, where a letter repeated in an operand takes its diagonal. */
  ghost predicate IsEinsum(t: Tensor, outSub: string, operands: seq<Tensor>, inSubs: seq<string>, dims: Dims)
    requires |operands| == |inSubs|
  {
    && t.shape == ShapeOf(outSub, dims)
    && forall env :: InRange(env, Letters(outSub), dims) ==>
         Val(t, outSub, env) == SumLetters(LettersOf(SubscriptsOf(inSubs)) - Letters(outSub), dims, env,
             ProductFn(operands, SubscriptsOf(inSubs)))
  }

  /** With one size per letter and an output over the inputs' letters, einsum fails only on malformed subscripts,
      and otherwise computes the direct sum of products, whatever path the planner chose. */
  method Einsum(inSubs: seq<string>, outSub: string, operands: seq<Tensor>, ghost dims: Dims)
    returns (r: Result<Tensor, EinsumError>)
    requires Letters(outSub) <= LettersOf(SubscriptsOf(inSubs))
             && (|inSubs| == |operands| ==> OneSize(inSubs, operands, dims))
    ensures r.Ok? <==> WellFormed(inSubs, outSub, operands)
    ensures r.Err? ==> Explains(r.error, inSubs, outSub, operands)
    ensures r.Ok? ==> IsEinsum(r.value, outSub, operands, inSubs, dims)
  {
    var planned;
    ghost var sizes, largest;
    planned, sizes, largest := EinsumPathHelper(inSubs, outSub, operands, dims);
    if planned.Err? {
      return Err(planned.error);
    }
    OperandsLabelled(inSubs, outSub, operands, dims);
    var t := RunPath(planned.value.path, operands, SubscriptsOf(inSubs), SubscriptOf(outSub), dims);
    r := Ok(t);
  }

  lemma OperandsLabelled(inSubs: seq<string>, outSub: string, operands: seq<Tensor>, dims: Dims)
    requires WellFormed(inSubs, outSub, operands) && OneSize(inSubs, operands, dims)
    ensures OperandsOk(operands, SubscriptsOf(inSubs), dims)
  {
    var subs := SubscriptsOf(inSubs);
    forall i {:trigger subs[i]} | 0 <= i < |operands|
      ensures OperandOk(operands[i], subs[i], dims)
    {
      assert OneSizeAt(inSubs, operands, dims, i);
    }
  }
}
