/**
 The compiler's cache: per function, the compiled results of the input signatures and constants seen so far.
 */
module Cache {
  import opened Wrappers

  type FunId = nat

  /** What the cache compares of an array. */
  datatype Spec = Spec(shape: seq<nat>, dtype: nat)

  /** What compiling a function for a request ends in: the function throws while it is traced, laying out the
      traced graph throws, the finished tape is refused for shapeless use, or there is a tape. */
  datatype Outcome<T> = TraceThrows | LayoutThrows | ValidateThrows(tape: T) | Compiled(tape: T)

  /** What an entry holds: nothing at all, the traced inputs and outputs without a tape, or a tape. */
  datatype Stored<T> = NoTrace | NoTape | Tape(tape: T)

  datatype CacheEntry<T> = CacheEntry(inputs: seq<Spec>, stored: Stored<T>, empty: bool, constants: seq<nat>)

  datatype CallError = Threw

  // ---------------------------------------------------------------- matching

  predicate SameSpec(shapeless: bool, a: Spec, b: Spec) {
    |a.shape| == |b.shape| && (shapeless || a.shape == b.shape) && a.dtype == b.dtype
  }

  /** As many arrays, and each pair of one signature. */
  predicate SameInputs(shapeless: bool, a: seq<Spec>, b: seq<Spec>) {
    |a| == |b| && forall i :: 0 <= i < |a| ==> SameSpec(shapeless, a[i], b[i])
  }

  predicate Matches<T>(shapeless: bool, inputs: seq<Spec>, constants: seq<nat>, e: CacheEntry<T>) {
    SameInputs(shapeless, inputs, e.inputs) && constants == e.constants
  }

  /** As many arrays, each of the same type and number of dimensions as its partner, and of the same shape
      unless the function is compiled for any shape. */
  ghost predicate Alike(shapeless: bool, a: seq<Spec>, b: seq<Spec>) {
    && |a| == |b|
    && (forall i :: 0 <= i < |a| ==> a[i].dtype == b[i].dtype)
    && (forall i :: 0 <= i < |a| ==> |a[i].shape| == |b[i].shape|)
    && (!shapeless ==> forall i :: 0 <= i < |a| ==> a[i].shape == b[i].shape)
  }

  lemma MatchMeans<T>(shapeless: bool, inputs: seq<Spec>, constants: seq<nat>, e: CacheEntry<T>)
    ensures Matches(shapeless, inputs, constants, e)
            <==> Alike(shapeless, inputs, e.inputs) && e.constants == constants
  {
    if Alike(shapeless, inputs, e.inputs) {
      forall i | 0 <= i < |inputs|
        ensures SameSpec(shapeless, inputs[i], e.inputs[i])
      {
      }
    }
    if SameInputs(shapeless, inputs, e.inputs) {
      forall i | 0 <= i < |inputs|
        ensures inputs[i].dtype == e.inputs[i].dtype && |inputs[i].shape| == |e.inputs[i].shape|
        ensures shapeless || inputs[i].shape == e.inputs[i].shape
      {
        assert SameSpec(shapeless, inputs[i], e.inputs[i]);
      }
    }
  }

  /** Some entry was made for such inputs and these constants. */
  ghost predicate Answered<T>(shapeless: bool, entries: seq<CacheEntry<T>>, inputs: seq<Spec>, constants: seq<nat>) {
    exists k {:trigger entries[k]} ::
      0 <= k < |entries| && Alike(shapeless, inputs, entries[k].inputs) && entries[k].constants == constants
  }

  lemma MissingMeans<T>(shapeless: bool, entries: seq<CacheEntry<T>>, inputs: seq<Spec>, constants: seq<nat>)
    ensures Missing(shapeless, entries, inputs, constants) <==> !Answered(shapeless, entries, inputs, constants)
  {
    forall k {:trigger entries[k]} | 0 <= k < |entries|
      ensures Matches(shapeless, inputs, constants, entries[k])
              <==> Alike(shapeless, inputs, entries[k].inputs) && entries[k].constants == constants
    {
      MatchMeans(shapeless, inputs, constants, entries[k]);
    }
  }

  /** No two entries match each other. */
  ghost predicate EntriesApart<T>(shapeless: bool, entries: seq<CacheEntry<T>>) {
    forall i, j {:trigger entries[i], entries[j]} :: 0 <= i < j < |entries| ==>
      !(SameInputs(shapeless, entries[i].inputs, entries[j].inputs) && entries[i].constants == entries[j].constants)
  }

  lemma SameInputsSymmetric(shapeless: bool, a: seq<Spec>, b: seq<Spec>)
    ensures SameInputs(shapeless, a, b) <==> SameInputs(shapeless, b, a)
  {
    if SameInputs(shapeless, a, b) {
      forall i | 0 <= i < |a| ensures SameSpec(shapeless, b[i], a[i]) {
        assert SameSpec(shapeless, a[i], b[i]);
      }
    }
    if SameInputs(shapeless, b, a) {
      forall i | 0 <= i < |a| ensures SameSpec(shapeless, a[i], b[i]) {
        assert SameSpec(shapeless, b[i], a[i]);
      }
    }
  }

  lemma SameInputsTransitive(shapeless: bool, a: seq<Spec>, b: seq<Spec>, c: seq<Spec>)
    requires SameInputs(shapeless, a, b) && SameInputs(shapeless, b, c)
    ensures SameInputs(shapeless, a, c)
  {
    forall i | 0 <= i < |a|
      ensures SameSpec(shapeless, a[i], c[i])
    {
      assert SameSpec(shapeless, a[i], b[i]) && SameSpec(shapeless, b[i], c[i]);
    }
  }

  /** Entries that are apart never answer one request twice. */
  lemma AtMostOneMatch<T>(shapeless: bool, entries: seq<CacheEntry<T>>, inputs: seq<Spec>, constants: seq<nat>, i: nat,
                          j: nat)
    requires EntriesApart(shapeless, entries) && i < |entries| && j < |entries|
    requires Matches(shapeless, inputs, constants, entries[i]) && Matches(shapeless, inputs, constants, entries[j])
    ensures i == j
  {
    SameInputsSymmetric(shapeless, inputs, entries[i].inputs);
    SameInputsTransitive(shapeless, entries[i].inputs, inputs, entries[j].inputs);
    SameInputsSymmetric(shapeless, entries[i].inputs, entries[j].inputs);
  }

  ghost predicate Missing<T>(shapeless: bool, entries: seq<CacheEntry<T>>, inputs: seq<Spec>, constants: seq<nat>) {
    forall k {:trigger entries[k]} :: 0 <= k < |entries| ==> !Matches(shapeless, inputs, constants, entries[k])
  }

  /** Adding an entry keeps the entries apart exactly when nothing matched it. */
  lemma ApartNext<T>(shapeless: bool, entries: seq<CacheEntry<T>>, e: CacheEntry<T>)
    requires EntriesApart(shapeless, entries)
    ensures EntriesApart(shapeless, entries + [e]) <==> Missing(shapeless, entries, e.inputs, e.constants)
  {
    var n, more := |entries|, entries + [e];
    if Missing(shapeless, entries, e.inputs, e.constants) {
      forall i, j {:trigger more[i], more[j]} | 0 <= i < j < |more|
        ensures !(SameInputs(shapeless, more[i].inputs, more[j].inputs) && more[i].constants == more[j].constants)
      {
        if j == n {
          SameInputsSymmetric(shapeless, entries[i].inputs, e.inputs);
          assert !Matches(shapeless, e.inputs, e.constants, entries[i]);
        } else {
          assert more[i] == entries[i] && more[j] == entries[j];
        }
      }
    }
    if EntriesApart(shapeless, more) {
      forall k {:trigger entries[k]} | 0 <= k < n
        ensures !Matches(shapeless, e.inputs, e.constants, entries[k])
      {
        assert more[k] == entries[k] && more[n] == e;
        SameInputsSymmetric(shapeless, e.inputs, entries[k].inputs);
      }
    }
  }

  // ---------------------------------------------------------------- what a call leaves behind

  /** The entry a call fills in, whatever happens on the way. */
  function Filled<T>(inputs: seq<Spec>, constants: seq<nat>, outcome: Outcome<T>): CacheEntry<T> {
    match outcome
    case TraceThrows => CacheEntry([], NoTrace, false, constants)
    case LayoutThrows => CacheEntry(inputs, NoTape, false, constants)
    case ValidateThrows(t) => CacheEntry(inputs, Tape(t), false, constants)
    case Compiled(t) => CacheEntry(inputs, Tape(t), false, constants)
  }

  /** After a miss, the entries stay apart exactly when tracing succeeded, or the request had no inputs, or no entry
      with no inputs has these constants. */
  lemma MissKeepsApart<T>(shapeless: bool, entries: seq<CacheEntry<T>>, inputs: seq<Spec>, constants: seq<nat>,
                          outcome: Outcome<T>)
    requires EntriesApart(shapeless, entries) && Missing(shapeless, entries, inputs, constants)
    ensures EntriesApart(shapeless, entries + [Filled(inputs, constants, outcome)])
            <==> (outcome.TraceThrows? && inputs != [] ==> forall k :: 0 <= k < |entries| ==>
                !(entries[k].inputs == [] && entries[k].constants == constants))
  {
    ApartNext(shapeless, entries, Filled(inputs, constants, outcome));
    forall k {:trigger entries[k]} | 0 <= k < |entries|
      ensures Matches(shapeless, [], constants, entries[k])
              <==> entries[k].inputs == [] && entries[k].constants == constants
    {
    }
  }

  /** A function whose tracing throws twice leaves two entries that match one request, the one without inputs, and
      answer it without a trace. */
  lemma FailedTraceDuplicates(spec: Spec)
    ensures var failed := Filled<nat>([spec], [], TraceThrows);
            Missing(false, [failed], [spec], []) && !EntriesApart(false, [failed, failed])
            && Matches(false, [], [], failed) && failed.stored == NoTrace
  {
    var failed := Filled<nat>([spec], [], TraceThrows);
    var two := [failed, failed];
    assert SameInputs(false, two[0].inputs, two[1].inputs);
  }

  /** Every entry holds the outcome of compiling its own request. */
  ghost predicate Honest<T(!new)>(f: FunId, entries: seq<CacheEntry<T>>,
                           build: (FunId, seq<Spec>, seq<nat>) -> Outcome<T>) {
    forall k {:trigger entries[k]} :: 0 <= k < |entries| ==>
      !entries[k].empty && (entries[k].stored.Tape? ==>
          Built(build(f, entries[k].inputs, entries[k].constants), entries[k].stored.tape))
  }

  ghost predicate Built<T>(outcome: Outcome<T>, tape: T) {
    outcome == Compiled(tape) || outcome == ValidateThrows(tape)
  }

  /** Entry `k` is the first made for such inputs and these constants. */
  ghost predicate FirstAnswer<T>(shapeless: bool, entries: seq<CacheEntry<T>>, inputs: seq<Spec>,
                                 constants: seq<nat>, k: nat) {
    && k < |entries| && !Answered(shapeless, entries[..k], inputs, constants)
    && Alike(shapeless, inputs, entries[k].inputs) && entries[k].constants == constants
  }

  /** After a miss that compiled, the same request is answered with the tape; a layout that threw is answered
      without one; a trace that threw is not answered, unless for no inputs. */
  lemma RepeatedRequest<T>(shapeless: bool, entries: seq<CacheEntry<T>>, inputs: seq<Spec>, constants: seq<nat>,
                           outcome: Outcome<T>, k: nat)
    requires !Answered(shapeless, entries, inputs, constants)
    ensures var after := entries + [Filled(inputs, constants, outcome)];
            && (FirstAnswer(shapeless, after, inputs, constants, k) ==>
                  k == |entries| && (outcome.Compiled? || outcome.ValidateThrows? ==>
                    after[k].stored == Tape(outcome.tape)) && !after[k].empty
                  && (outcome.LayoutThrows? ==> after[k].stored == NoTape)
                  && (outcome.TraceThrows? ==> after[k].stored == NoTrace))
            && (Answered(shapeless, after, inputs, constants) <==> !outcome.TraceThrows? || inputs == [])
  {
    var e, n := Filled(inputs, constants, outcome), |entries|;
    var after := entries + [e];
    assert after[n] == e && after[..n] == entries;
    AnsweredNext(shapeless, entries, e, inputs, constants);
    assert k < n ==> after[k] == entries[k];
  }

  lemma AnsweredNext<T>(shapeless: bool, entries: seq<CacheEntry<T>>, e: CacheEntry<T>, inputs: seq<Spec>,
                        constants: seq<nat>)
    ensures Answered(shapeless, entries + [e], inputs, constants)
            <==> || Answered(shapeless, entries, inputs, constants)
                 || (Alike(shapeless, inputs, e.inputs) && e.constants == constants)
  {
    var after, n := entries + [e], |entries|;
    assert after[n] == e && forall j :: 0 <= j < n ==> after[j] == entries[j];
    if k :| 0 <= k < n && Alike(shapeless, inputs, entries[k].inputs) && entries[k].constants == constants {
      assert after[k] == entries[k];
    }
  }

  // ---------------------------------------------------------------- the cache

  class CompilerCache<T(!new)> {
    var cache: map<FunId, seq<CacheEntry<T>>>

    constructor ()
      ensures cache == map[]
    {
      cache := map[];
    }

    ghost predicate Valid(build: (FunId, seq<Spec>, seq<nat>) -> Outcome<T>)
      reads this
    {
      forall f :: f in cache ==> Honest(f, cache[f], build)
    }

    /** No function has two entries that answer one request. */
    ghost predicate OneAnswer(shapeless: FunId -> bool)
      reads this
    {
      forall f :: f in cache ==> EntriesApart(shapeless(f), cache[f])
    }

    ghost function EntriesOf(f: FunId): seq<CacheEntry<T>>
      reads this
    {
      if f in cache then cache[f] else []
    }

    /** The place of the first matching entry; a new empty entry if none matches. */
    method Find(f: FunId, inputs: seq<Spec>, shapeless: bool, constants: seq<nat>) returns (k: nat)
      modifies this
      ensures f in cache && k < |cache[f]| && k <= |old(EntriesOf(f))|
      ensures Missing(shapeless, old(EntriesOf(f))[..k], inputs, constants)
      ensures if k < |old(EntriesOf(f))|
              then cache[f] == old(EntriesOf(f)) && Matches(shapeless, inputs, constants, cache[f][k])
              else cache[f] == old(EntriesOf(f)) + [CacheEntry([], NoTrace, true, [])]
      ensures cache == old(cache)[f := cache[f]]
    {
      if f !in cache {
        cache := cache[f := []];
      }
      var entries := cache[f];
      k := 0;
      while k < |entries|
        invariant 0 <= k <= |entries| && entries == old(EntriesOf(f)) == cache[f] && cache == old(cache)[f := entries]
        invariant Missing(shapeless, entries[..k], inputs, constants)
      {
        if Matches(shapeless, inputs, constants, entries[k]) {
          return;
        }
        assert entries[..k + 1] == entries[..k] + [entries[k]];
        k := k + 1;
      }
      assert entries[..k] == entries;
      cache := cache[f := entries + [CacheEntry([], NoTrace, true, [])]];
    }

    method Erase(f: FunId)
      modifies this
      ensures cache == old(cache) - {f}
      ensures forall build {:trigger Valid(build)} :: old(Valid(build)) ==> Valid(build)
      ensures forall shapeless {:trigger OneAnswer(shapeless)} :: old(OneAnswer(shapeless)) ==> OneAnswer(shapeless)
    {
      cache := cache - {f};
    }

    method Clear()
      modifies this
      ensures cache == map[]
      ensures forall build {:trigger Valid(build)} :: Valid(build)
      ensures forall shapeless {:trigger OneAnswer(shapeless)} :: OneAnswer(shapeless)
    {
      cache := map[];
    }

    /** One call of a compiled function.  A matching entry answers it; otherwise the function is compiled for the
        request and the outcome is kept.  A tape always comes from compiling a request with the same signature
        and constants. */
    method Call(f: FunId, inputs: seq<Spec>, constants: seq<nat>, ghost shapeless: FunId -> bool, flag: bool,
                build: (FunId, seq<Spec>, seq<nat>) -> Outcome<T>) returns (r: Result<Stored<T>, CallError>)
      requires Valid(build) && OneAnswer(shapeless) && flag == shapeless(f)
      modifies this
      ensures Valid(build)
      ensures build(f, inputs, constants).TraceThrows? || OneAnswer(shapeless)
      ensures r.Ok? && r.value.Tape? ==> exists traced {:trigger Alike(flag, inputs, traced)} ::
                Alike(flag, inputs, traced) && Built(build(f, traced, constants), r.value.tape)
      ensures !Answered(flag, old(EntriesOf(f)), inputs, constants) ==>
                cache == old(cache)[f := old(EntriesOf(f)) + [Filled(inputs, constants, build(f, inputs, constants))]]
                && r == (if build(f, inputs, constants).Compiled? then Ok(Tape(build(f, inputs,
                    constants).tape)) else Err(Threw))
      ensures Answered(flag, old(EntriesOf(f)), inputs, constants) ==> cache == old(cache) && r.Ok?
      ensures Answered(flag, old(EntriesOf(f)), inputs, constants) ==>
                exists k: nat :: FirstAnswer(flag, old(EntriesOf(f)), inputs, constants, k)
                            && r.value == old(EntriesOf(f))[k].stored
    {
      ghost var entries0 := EntriesOf(f);
      var k := Find(f, inputs, flag, constants);
      MissingMeans(flag, entries0, inputs, constants);
      MissingMeans(flag, entries0[..k], inputs, constants);
      var entry := cache[f][k];
      if entry.empty {
        var outcome := build(f, inputs, constants);
        entry := Filled(inputs, constants, outcome);
        cache := cache[f := cache[f][k := entry]];
        MissFilled(flag, entries0, inputs, constants, outcome, k, cache[f]);
        assert cache[f] == entries0 + [entry];
        if !outcome.Compiled? {
          return Err(Threw);
        }
        assert Alike(flag, inputs, inputs);
        return Ok(Tape(outcome.tape));
      }
      HitUnchanged(flag, entries0, inputs, constants, k);
      MatchMeans(flag, inputs, constants, entry);
      assert cache == old(cache);
      r := Ok(entry.stored);
    }
  }

  lemma MissFilled<T>(shapeless: bool, entries: seq<CacheEntry<T>>, inputs: seq<Spec>, constants: seq<nat>,
                      outcome: Outcome<T>, k: nat, after: seq<CacheEntry<T>>)
    requires k == |entries| && after == entries + [Filled(inputs, constants, outcome)]
             && Missing(shapeless, entries, inputs, constants)
    requires EntriesApart(shapeless, entries)
    ensures outcome.TraceThrows? || EntriesApart(shapeless, after)
  {
    MissKeepsApart(shapeless, entries, inputs, constants, outcome);
  }

  lemma HitUnchanged<T>(shapeless: bool, entries: seq<CacheEntry<T>>, inputs: seq<Spec>, constants: seq<nat>, k: nat)
    requires k < |entries| && Matches(shapeless, inputs, constants, entries[k])
    ensures !Missing(shapeless, entries, inputs, constants)
  {
  }
}
