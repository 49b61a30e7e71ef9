/**
 The padded mixture-of-experts schedule: rows sorted by expert are padded to whole tiles of 32, so that
 every tile belongs to one expert.
 */
module Moe {
  import opened Sums
  import opened Tensors

  /** Rows off[e] up to off[e + 1] belong to expert e. */
  ghost predicate Offsets(off: seq<nat>, rows: nat) {
    |off| > 0 && off[0] == 0 && off[|off| - 1] == rows && forall e :: 0 <= e < |off| - 1 ==> off[e] <= off[e + 1]
  }

  function Padded(count: nat): nat {
    (count + 31) / 32 * 32
  }

  /** Where expert e's padded rows start. */
  function OffPad(off: seq<nat>, e: nat): nat
    requires e < |off|
  {
    if e == 0 then 0
    else OffPad(off, e - 1) + Padded(if off[e] >= off[e - 1] then off[e] - off[e - 1] else 0)
  }

  function PadPos(off: seq<nat>, e: nat, j: nat): int
    requires e < |off|
  {
    OffPad(off, e) + j - off[e]
  }

  /** The expert of row j. */
  function ExpertFrom(off: seq<nat>, j: nat, e: nat): (r: nat)
    requires e < |off|
    ensures e <= r < |off|
    ensures r < |off| - 1 ==> j < off[r + 1]
    ensures e < r && off[e] <= j ==> off[r] <= j
    decreases |off| - e
  {
    if e == |off| - 1 || j < off[e + 1] then e else ExpertFrom(off, j, e + 1)
  }

  function Expert(off: seq<nat>, j: nat): nat
    requires |off| > 0
  {
    ExpertFrom(off, j, 0)
  }

  lemma {:induction false} OffsetsGrow(off: seq<nat>, rows: nat, a: nat, b: nat)
    requires Offsets(off, rows) && a <= b < |off|
    ensures off[a] <= off[b] && OffPad(off, a) <= OffPad(off, b)
    decreases b - a
  {
    if a < b {
      OffsetsGrow(off, rows, a, b - 1);
      assert off[b - 1] <= off[b - 1 + 1];
    }
  }

  lemma ExpertHolds(off: seq<nat>, rows: nat, j: nat)
    requires Offsets(off, rows) && j < rows
    ensures var e := Expert(off, j); e < |off| - 1 && off[e] <= j < off[e + 1]
  {
  }

  lemma ExpertUnique(off: seq<nat>, rows: nat, j: nat, e: nat)
    requires Offsets(off, rows) && e < |off| - 1 && off[e] <= j < off[e + 1]
    ensures Expert(off, j) == e
  {
    var x := Expert(off, j);
    OffsetsGrow(off, rows, e + 1, |off| - 1);
    ExpertHolds(off, rows, j);
    if x < e {
      OffsetsGrow(off, rows, x + 1, e);
    } else if e < x {
      OffsetsGrow(off, rows, e + 1, x);
    }
  }

  lemma PaddedBounds(count: nat)
    ensures Padded(count) % 32 == 0 && count <= Padded(count) <= count + 31 && (count == 0 ==> Padded(count) == 0)
  {
  }

  lemma {:induction false} WholeTiles(off: seq<nat>, e: nat)
    requires e < |off|
    ensures OffPad(off, e) % 32 == 0
  {
    if e > 0 {
      WholeTiles(off, e - 1);
      PaddedBounds(if off[e] >= off[e - 1] then off[e] - off[e - 1] else 0);
    }
  }

  /** Tile t is one of expert e's. */
  ghost predicate OwnsTile(off: seq<nat>, e: nat, t: nat) {
    e < |off| - 1 && OffPad(off, e) / 32 <= t < OffPad(off, e + 1) / 32
  }

  lemma TileOwnerUnique(off: seq<nat>, rows: nat, t: nat, a: nat, b: nat)
    requires Offsets(off, rows) && OwnsTile(off, a, t) && OwnsTile(off, b, t)
    ensures a == b
  {
    if a < b {
      OffsetsGrow(off, rows, a + 1, b);
    } else if b < a {
      OffsetsGrow(off, rows, b + 1, a);
    }
  }

  /** A row's padded place is inside its expert's tiles. */
  lemma PadPosOwned(off: seq<nat>, rows: nat, e: nat, j: nat)
    requires Offsets(off, rows) && e < |off| - 1 && off[e] <= j < off[e + 1]
    ensures OffPad(off, e) <= PadPos(off, e, j) < OffPad(off, e + 1) <= OffPad(off, |off| - 1)
    ensures OwnsTile(off, e, PadPos(off, e, j) / 32)
  {
    PaddedBounds(off[e + 1] - off[e]);
    OffsetsGrow(off, rows, e + 1, |off| - 1);
    WholeTiles(off, e);
    WholeTiles(off, e + 1);
    TileBetween(OffPad(off, e), OffPad(off, e + 1), PadPos(off, e, j));
  }

  lemma TileBetween(a: nat, b: nat, p: nat)
    requires a % 32 == 0 && b % 32 == 0 && a <= p < b
    ensures a / 32 <= p / 32 < b / 32
  {
  }

  /** Different rows get different padded places. */
  lemma PadPosInjective(off: seq<nat>, rows: nat, i: nat, j: nat)
    requires Offsets(off, rows) && i < j < rows
    ensures PadPos(off, Expert(off, i), i) < PadPos(off, Expert(off, j), j)
  {
    ExpertHolds(off, rows, i);
    ExpertHolds(off, rows, j);
    var a, b := Expert(off, i), Expert(off, j);
    if b < a {
      OffsetsGrow(off, rows, b + 1, a);
    }
    if a < b {
      PadPosOwned(off, rows, a, i);
      PadPosOwned(off, rows, b, j);
      OffsetsGrow(off, rows, a + 1, b);
    }
  }

  /** The number of experts with rows. */
  function NonEmpty(off: seq<nat>, e: nat): nat
    requires e < |off|
  {
    if e == 0 then 0 else NonEmpty(off, e - 1) + if off[e] > off[e - 1] then 1 else 0
  }

  /** Padding adds at most 31 rows for every expert that has any. */
  lemma {:induction false} PaddingAtMost(off: seq<nat>, rows: nat, e: nat)
    requires Offsets(off, rows) && e < |off|
    ensures off[e] <= OffPad(off, e) <= off[e] + 31 * NonEmpty(off, e)
  {
    if e > 0 {
      PaddingAtMost(off, rows, e - 1);
      assert off[e - 1] <= off[e - 1 + 1];
      PaddedBounds(off[e] - off[e - 1]);
    }
  }

  // ---------------------------------------------------------------- building the schedule

  ghost predicate PlacedRow(off: seq<nat>, padpos: seq<nat>, j: nat)
    requires j < |padpos|
  {
    |off| > 0 && padpos[j] == PadPos(off, Expert(off, j), j)
  }

  ghost predicate TilesOwned(off: seq<nat>, eot: seq<nat>, n: nat) {
    n <= |eot| && forall t: nat {:trigger eot[t]} :: t < n ==> OwnsTile(off, eot[t], t)
  }

  ghost predicate RowsPlaced(off: seq<nat>, padpos: seq<nat>, n: nat) {
    n <= |padpos| && forall j: nat {:trigger padpos[j]} :: j < n ==> PlacedRow(off, padpos, j)
  }

  lemma OffPadNext(off: seq<nat>, rows: nat, e: nat)
    requires Offsets(off, rows) && 0 < e < |off|
    ensures off[e - 1] <= off[e] && OffPad(off, e) == OffPad(off, e - 1) + Padded(off[e] - off[e - 1])
  {
    assert off[e - 1] <= off[e - 1 + 1];
  }

  /** Starts of the experts' padded rows. */
  method PaddedOffsets(off: seq<nat>, rows: nat) returns (offPad: array<nat>)
    requires Offsets(off, rows)
    ensures offPad.Length == |off| && forall e :: 0 <= e < |off| ==> offPad[e] == OffPad(off, e)
  {
    offPad := new nat[|off|](i => 0);
    for e := 1 to |off|
      invariant forall k :: 0 <= k < e ==> offPad[k] == OffPad(off, k)
    {
      OffPadNext(off, rows, e);
      offPad[e] := offPad[e - 1] + Padded(off[e] - off[e - 1]);
    }
  }

  /** The expert of every tile. */
  method ExpertOfTile(off: seq<nat>, rows: nat, offPad: array<nat>) returns (eot: array<nat>)
    requires Offsets(off, rows) && offPad.Length == |off| && forall e :: 0 <= e < |off| ==> offPad[e] == OffPad(off, e)
    ensures eot.Length * 32 == OffPad(off, |off| - 1) && TilesOwned(off, eot[..], eot.Length)
  {
    var experts := |off| - 1;
    WholeTiles(off, experts);
    eot := new nat[offPad[experts] / 32](i => 0);
    for e := 0 to experts
      invariant TilesOwned(off, eot[..], OffPad(off, e) / 32)
    {
      OffsetsGrow(off, rows, e, e + 1);
      OffsetsGrow(off, rows, e + 1, experts);
      for t := offPad[e] / 32 to offPad[e + 1] / 32
        invariant TilesOwned(off, eot[..], t)
      {
        ghost var before := eot[..];
        eot[t] := e;
        assert forall k: nat :: k < t ==> eot[..][k] == before[k];
      }
    }
  }

  lemma PlacedNext(off: seq<nat>, before: seq<nat>, after: seq<nat>, j: nat)
    requires RowsPlaced(off, before, j) && j < |before| == |after| && |off| > 0
    requires after[..j] == before[..j] && PlacedRow(off, after, j)
    ensures RowsPlaced(off, after, j + 1)
  {
    forall k: nat | k < j
      ensures PlacedRow(off, after, k)
    {
      assert after[..j][k] == before[..j][k];
      assert PlacedRow(off, before, k);
    }
  }

  /** The padded place of every row. */
  method PadPositions(off: seq<nat>, rows: nat, offPad: array<nat>) returns (padpos: array<nat>)
    requires Offsets(off, rows) && offPad.Length == |off| && forall e :: 0 <= e < |off| ==> offPad[e] == OffPad(off, e)
    ensures padpos.Length == rows && RowsPlaced(off, padpos[..], rows)
  {
    padpos := new nat[rows](i => 0);
    var experts := |off| - 1;
    assert off[experts] == rows;
    for e := 0 to experts
      invariant off[e] <= rows && RowsPlaced(off, padpos[..], off[e])
    {
      OffsetsGrow(off, rows, e, e + 1);
      OffsetsGrow(off, rows, e + 1, experts);
      for j := off[e] to off[e + 1]
        invariant RowsPlaced(off, padpos[..], j)
      {
        ghost var before := padpos[..];
        ExpertUnique(off, rows, j, e);
        padpos[j] := offPad[e] + (j - off[e]);
        PlacedNext(off, before, padpos[..], j);
      }
    }
    assert RowsPlaced(off, padpos[..], off[experts]);
  }

  /** The token of the (token, choice) pair in sorted place j. */
  function TokenOf(so: seq<nat>, j: nat, perToken: nat): nat
    requires perToken > 0 && j < |so|
  {
    so[j] / perToken
  }

  ghost predicate Gathered(so: seq<nat>, padpos: seq<nat>, gidx: seq<nat>, perToken: nat, j: nat)
    requires perToken > 0 && j < |so| == |padpos|
  {
    padpos[j] < |gidx| && gidx[padpos[j]] == so[j] / perToken
  }

  /** The first n rows are gathered, and places no row has still read token 0. */
  ghost predicate GatheredUpTo(so: seq<nat>, places: seq<nat>, gidx: seq<nat>, perToken: nat, n: nat) {
    && perToken > 0 && n <= |so| == |places|
    && (forall j: nat {:trigger Gathered(so, places, gidx, perToken, j)} :: j < n ==>
        Gathered(so, places, gidx, perToken, j))
    && forall p: nat {:trigger gidx[p]} :: p < |gidx| && Where<nat>(places, p) == |so| ==> gidx[p] == 0
  }

  lemma GatheredNext(off: seq<nat>, so: seq<nat>, places: seq<nat>, gidx: seq<nat>, perToken: nat, j: nat)
    requires Offsets(off, |so|) && |places| == |so| && RowsPlaced(off, places, |so|) && j < |so|
    requires GatheredUpTo(so, places, gidx, perToken, j) && places[j] < |gidx|
    ensures GatheredUpTo(so, places, gidx[places[j] := TokenOf(so, j, perToken)], perToken, j + 1)
  {
    var gidx1 := gidx[places[j] := TokenOf(so, j, perToken)];
    WhereFirst<nat>(places, j);
    forall k: nat {:trigger Gathered(so, places, gidx1, perToken, k)} | k < j + 1
      ensures Gathered(so, places, gidx1, perToken, k)
    {
      if k < j {
        assert Gathered(so, places, gidx, perToken, k);
        PlacesDiffer(off, so, places, k, j);
      }
    }
  }

  /** The token of every padded row; padding rows read token 0. */
  method GatherIndex(off: seq<nat>, so: seq<nat>, padpos: array<nat>, total: nat, perToken: nat)
    returns (gidx: array<nat>)
    requires Offsets(off, |so|) && perToken > 0 && padpos.Length == |so| && RowsPlaced(off, padpos[..], |so|)
             && total == OffPad(off, |off| - 1)
    ensures gidx.Length == total && GatheredUpTo(so, padpos[..], gidx[..], perToken, |so|)
  {
    gidx := new nat[total](i => 0);
    ghost var places := padpos[..];
    for j := 0 to |so|
      invariant padpos[..] == places && GatheredUpTo(so, places, gidx[..], perToken, j)
    {
      RowFits(off, so, places, j);
      GatheredNext(off, so, places, gidx[..], perToken, j);
      ghost var before := gidx[..];
      var token := TokenOf(so, j, perToken);
      gidx[padpos[j]] := token;
      assert gidx[..] == before[places[j] := token];
    }
  }

  lemma RowFits(off: seq<nat>, so: seq<nat>, places: seq<nat>, j: nat)
    requires Offsets(off, |so|) && |places| == |so| && RowsPlaced(off, places, |so|) && j < |so|
    ensures places[j] < OffPad(off, |off| - 1) && OwnsTile(off, Expert(off, j), places[j] / 32)
  {
    assert PlacedRow(off, places, j);
    ExpertHolds(off, |so|, j);
    PadPosOwned(off, |so|, Expert(off, j), j);
  }

  lemma PlacesDiffer(off: seq<nat>, so: seq<nat>, places: seq<nat>, i: nat, j: nat)
    requires Offsets(off, |so|) && |places| == |so| && RowsPlaced(off, places, |so|) && i < j < |so|
    ensures places[i] < places[j]
  {
    assert PlacedRow(off, places, i) && PlacedRow(off, places, j);
    PadPosInjective(off, |so|, i, j);
  }

  // ---------------------------------------------------------------- the whole schedule

  /** The rows sorted by expert: `so` lists the (token, choice) pairs, `ids` gives each pair's expert. */
  ghost predicate Routed(off: seq<nat>, so: seq<nat>, ids: seq<nat>) {
    && Offsets(off, |so|) && |ids| == |so| && IsPermutation(so, |so|)
    && forall j: nat {:trigger so[j]} :: j < |so| ==> ids[so[j]] == Expert(off, j)
  }

  /** `inv` lists the places of `so` in the order of their values. */
  ghost predicate Argsort(inv: seq<nat>, so: seq<nat>) {
    && IsPermutation(inv, |so|)
    && forall i :: 0 <= i < |so| - 1 ==> so[inv[i]] <= so[inv[i + 1]]
  }

  lemma SortedDistinct(inv: seq<nat>, so: seq<nat>, i: nat)
    requires IsPermutation(so, |so|) && Argsort(inv, so) && i + 1 < |so|
    ensures so[inv[i]] < so[inv[i + 1]]
  {
    assert FreshAt<nat>(so, inv[i]) && FreshAt<nat>(so, inv[i + 1]);
    assert FreshAt<nat>(inv, i) && FreshAt<nat>(inv, i + 1);
  }

  lemma {:induction false} SortedAbove(inv: seq<nat>, so: seq<nat>, i: nat)
    requires IsPermutation(so, |so|) && Argsort(inv, so) && i < |so|
    ensures i <= so[inv[i]]
  {
    if i > 0 {
      SortedAbove(inv, so, i - 1);
      SortedDistinct(inv, so, i - 1);
    }
  }

  lemma {:induction false} SortedBelow(inv: seq<nat>, so: seq<nat>, i: nat)
    requires IsPermutation(so, |so|) && Argsort(inv, so) && i < |so|
    ensures so[inv[i]] <= i
    decreases |so| - i
  {
    if i + 1 < |so| {
      SortedBelow(inv, so, i + 1);
      SortedDistinct(inv, so, i);
    } else {
      assert so[inv[i]] < |so|;
    }
  }

  /** The argsort of a permutation is its inverse. */
  lemma ArgsortInverts(inv: seq<nat>, so: seq<nat>, i: nat)
    requires IsPermutation(so, |so|) && Argsort(inv, so) && i < |so|
    ensures inv[i] < |so| && so[inv[i]] == i
  {
    SortedAbove(inv, so, i);
    SortedBelow(inv, so, i);
  }

  /** The schedule's arrays. */
  method HostGlued(off: seq<nat>, so: seq<nat>, perToken: nat)
    returns (eot: array<nat>, padpos: array<nat>, gidx: array<nat>)
    requires Offsets(off, |so|) && perToken > 0
    ensures eot.Length * 32 == OffPad(off, |off| - 1) == gidx.Length && TilesOwned(off, eot[..], eot.Length)
    ensures padpos.Length == |so| && RowsPlaced(off, padpos[..], |so|)
    ensures GatheredUpTo(so, padpos[..], gidx[..], perToken, |so|)
  {
    var offPad := PaddedOffsets(off, |so|);
    eot := ExpertOfTile(off, |so|, offPad);
    padpos := PadPositions(off, |so|, offPad);
    gidx := GatherIndex(off, so, padpos, offPad[|off| - 1], perToken);
  }

  /** What the grouped matrix products leave in padded row p: expert eot[p / 32] applied to token gidx[p]. */
  function RowOutput(eot: seq<nat>, gidx: seq<nat>, apply: (int, int) -> int, p: int): int {
    if 0 <= p < |gidx| && p / 32 < |eot| then apply(eot[p / 32], gidx[p]) else 0
  }

  /** What finalize adds up for token t: choice k's weight times the row at the place it is told. */
  function Finalized(rows: int -> int, places: int -> int, weights: int -> int, perToken: nat, t: int): int {
    Sum(perToken, FinalTerm(rows, places, weights, perToken, t))
  }

  function FinalTerm(rows: int -> int, places: int -> int, weights: int -> int, perToken: nat, t: int): int -> int {
    k => weights(t * perToken + k) * rows(places(t * perToken + k))
  }

  /** The direct sum: every choice's expert applied to the token. */
  function Mixture(ids: seq<nat>, apply: (int, int) -> int, weights: int -> int, perToken: nat, t: int): int {
    Sum(perToken, MixtureTerm(ids, apply, weights, perToken, t))
  }

  function MixtureTerm(ids: seq<nat>, apply: (int, int) -> int, weights: int -> int, perToken: nat,
                       t: int): int -> int {
    k => weights(t * perToken + k) * apply(ExpertOf(ids, t * perToken + k), t)
  }

  function ExpertOf(ids: seq<nat>, i: int): int {
    if 0 <= i < |ids| then ids[i] else 0
  }

  function PlaceOf(padpos: seq<nat>, inv: seq<nat>, i: int): int {
    if 0 <= i < |inv| && inv[i] < |padpos| then padpos[inv[i]] else 0
  }

  /** The arrays are those of the schedule for a routing. */
  ghost predicate Scheduled(off: seq<nat>, so: seq<nat>, ids: seq<nat>, inv: seq<nat>, perToken: nat, eot: seq<nat>,
                            padpos: seq<nat>, gidx: seq<nat>) {
    && Routed(off, so, ids) && Argsort(inv, so) && perToken > 0
    && |eot| * 32 == OffPad(off, |off| - 1) == |gidx| && TilesOwned(off, eot, |eot|) && |padpos| == |so|
        && RowsPlaced(off, padpos, |so|)
    && GatheredUpTo(so, padpos, gidx, perToken, |so|)
  }

  /** The padded row finalize reads for a choice holds that choice's expert applied to its token. */
  lemma ChoiceRow(off: seq<nat>, so: seq<nat>, ids: seq<nat>, inv: seq<nat>, perToken: nat, eot: seq<nat>,
                  padpos: seq<nat>, gidx: seq<nat>,
                  apply: (int, int) -> int, i: nat)
    requires Scheduled(off, so, ids, inv, perToken, eot, padpos, gidx) && i < |so|
    ensures RowOutput(eot, gidx, apply, PlaceOf(padpos, inv, i)) == apply(ids[i], i / perToken)
  {
    ArgsortInverts(inv, so, i);
    var j := inv[i];
    RowFits(off, so, padpos, j);
    assert Gathered(so, padpos, gidx, perToken, j);
    var t := padpos[j] / 32;
    assert OwnsTile(off, eot[t], t);
    TileOwnerUnique(off, |so|, t, eot[t], Expert(off, j));
    assert ids[so[j]] == Expert(off, j);
  }

  /** The schedule computes, for any routing, every token's weighted sum over its experts. */
  lemma ScheduleComputesMixture(off: seq<nat>, so: seq<nat>, ids: seq<nat>, inv: seq<nat>, perToken: nat,
                                eot: seq<nat>, padpos: seq<nat>, gidx: seq<nat>,
                                apply: (int, int) -> int, weights: int -> int, t: nat)
    requires Scheduled(off, so, ids, inv, perToken, eot, padpos, gidx) && (t + 1) * perToken <= |so|
    ensures Finalized(p => RowOutput(eot, gidx, apply, p), i => PlaceOf(padpos, inv, i), weights, perToken, t)
            == Mixture(ids, apply, weights, perToken, t)
  {
    var rows, places := (p: int) => RowOutput(eot, gidx, apply, p), (i: int) => PlaceOf(padpos, inv, i);
    forall k | 0 <= k < perToken
      ensures FinalTerm(rows, places, weights, perToken, t)(k) == MixtureTerm(ids, apply, weights, perToken, t)(k)
    {
      SameTerm(off, so, ids, inv, perToken, eot, padpos, gidx, apply, weights, t, k, rows, places);
    }
    SumSame(perToken, FinalTerm(rows, places, weights, perToken, t), MixtureTerm(ids, apply, weights, perToken, t));
  }

  lemma SameTerm(off: seq<nat>, so: seq<nat>, ids: seq<nat>, inv: seq<nat>, perToken: nat, eot: seq<nat>,
                 padpos: seq<nat>, gidx: seq<nat>,
                 apply: (int, int) -> int, weights: int -> int, t: nat, k: nat, rows: int -> int, places: int -> int)
    requires Scheduled(off, so, ids, inv, perToken, eot, padpos, gidx) && k < perToken && (t + 1) * perToken <= |so|
    requires forall p :: rows(p) == RowOutput(eot, gidx, apply, p)
    requires forall i :: places(i) == PlaceOf(padpos, inv, i)
    ensures FinalTerm(rows, places, weights, perToken, t)(k) == MixtureTerm(ids, apply, weights, perToken, t)(k)
  {
    TokenOfChoice(t, perToken, k);
    ChoiceTerm(off, so, ids, inv, perToken, eot, padpos, gidx, apply, weights, t, t * perToken + k);
  }

  lemma ChoiceTerm(off: seq<nat>, so: seq<nat>, ids: seq<nat>, inv: seq<nat>, perToken: nat, eot: seq<nat>,
                   padpos: seq<nat>, gidx: seq<nat>,
                   apply: (int, int) -> int, weights: int -> int, t: nat, i: nat)
    requires Scheduled(off, so, ids, inv, perToken, eot, padpos, gidx) && i < |so| && i / perToken == t
    ensures weights(i) * RowOutput(eot, gidx, apply, PlaceOf(padpos, inv, i)) == weights(i) * apply(ExpertOf(ids, i), t)
  {
    ChoiceRow(off, so, ids, inv, perToken, eot, padpos, gidx, apply, i);
    TermSame(weights(i), RowOutput(eot, gidx, apply, PlaceOf(padpos, inv, i)), apply(ExpertOf(ids, i), t));
  }

  lemma TokenOfChoice(t: nat, perToken: nat, k: int)
    requires 0 <= k < perToken
    ensures 0 <= t * perToken + k < (t + 1) * perToken && (t * perToken + k) / perToken == t
  {
    MulBound(t, t + 1, perToken, k);
    DivOf(t, perToken, k);
  }

  lemma TermSame(w: int, a: int, b: int)
    requires a == b
    ensures w * a == w * b
  {
  }
}
