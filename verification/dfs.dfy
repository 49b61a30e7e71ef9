/**
 `compile_dfs`: the depth-first walk that lays the traced graph out on a tape and logs every use of
 every array.
 */
module Dfs {
  import opened Wrappers
  import opened ArrayGraph

  /** A traced graph: inputs and siblings are allocated, `rank` decreases along inputs and is shared by
      the outputs of one primitive. */
  ghost predicate Traced(h: Heap, rank: map<Id, nat>) {
    && (forall p :: p in h ==> TracedAt(h, rank, p))
    && (forall p {:trigger SiblingsOk(h, p)} :: p in h ==> SiblingsOk(h, p))
  }

  ghost predicate TracedAt(h: Heap, rank: map<Id, nat>, p: Id)
    requires p in h
  {
    && p in rank
    && (forall i {:trigger h[p].inputs[i]} :: 0 <= i < |h[p].inputs| ==>
          h[p].inputs[i] in h && h[p].inputs[i] in rank && rank[h[p].inputs[i]] < rank[p])
    && (forall i {:trigger h[p].siblings[i]} :: 0 <= i < |h[p].siblings| ==>
          h[p].siblings[i] in h && h[p].siblings[i] in rank && rank[h[p].siblings[i]] == rank[p])
  }

  /** The meaning of an array of a traced graph, read off the graph itself. */
  ghost function Denote(h: Heap, rank: map<Id, nat>, p: Id): Term
    requires Traced(h, rank) && p in h
    decreases rank[p]
  {
    var args := seq(|h[p].inputs|, i requires 0 <= i < |h[p].inputs| => Denote(h, rank, h[p].inputs[i]));
    match h[p].prim
    case Some(Base(_, kind, attrs, _)) => Apply(kind, attrs, args, h[p].position)
    case _ => if IsScalar(h[p]) then Literal(h[p].bits, h[p].dtype) else Leaf(p)
  }

  /** Only what can be read and has no dimensions is a known value; any other array without primitive
      stands for itself. */
  lemma LeafTerm(h: Heap, rank: map<Id, nat>, p: Id)
    requires Traced(h, rank) && p in h && h[p].prim.None?
    ensures h[p].shape != [] || !h[p].available ==> Denote(h, rank, p) == Leaf(p)
    ensures h[p].shape == [] && h[p].available ==> Denote(h, rank, p) == Literal(h[p].bits, h[p].dtype)
  {
  }

  ghost predicate Reaches(h: Heap, rank: map<Id, nat>, p: Id, y: Id)
    requires Traced(h, rank) && p in h
    decreases rank[p]
  {
    p == y || exists i :: 0 <= i < |h[p].inputs| && Reaches(h, rank, h[p].inputs[i], y)
  }

  /** An output depends on one of the caller's own arrays. */
  ghost predicate Captures(h: Heap, rank: map<Id, nat>, outputs: seq<Id>, originalInputs: seq<Id>)
    requires Traced(h, rank) && Allocated(h, outputs)
  {
    exists i, y :: 0 <= i < |outputs| && y in originalInputs && Reaches(h, rank, outputs[i], y)
  }

  ghost predicate Clean(h: Heap, rank: map<Id, nat>, original: set<Id>, p: Id)
    requires Traced(h, rank) && p in h
  {
    forall y :: y in original ==> !Reaches(h, rank, p, y)
  }

  /** Every entry is new to its prefix, and everything it reads is accounted for by the prefix. */
  ghost predicate TapeOk(h: Heap, tape: seq<Id>)
    requires Allocated(h, tape)
  {
    tape == [] ||
    var k := |tape| - 1;
    && TapeOk(h, tape[..k])
    && tape[k] !in Members(h, tape[..k])
    && forall i :: 0 <= i < |h[tape[k]].inputs| ==> h[tape[k]].inputs[i] in Members(h, tape[..k])
  }

  ghost predicate NoDuplicates<T>(s: seq<T>) {
    forall i, j :: 0 <= i < j < |s| ==> s[i] != s[j]
  }

  /** The map lists exactly the reads of the arrays in `users`, each once. */
  ghost predicate ExactUses(h: Heap, pm: ParentsMap, users: set<Id>) {
    && (forall x, e :: Listed(pm, x, e) <==> e.user in users && ReadsAt(h, e, x))
    && (forall x :: x in pm ==> NoDuplicates(pm[x]))
  }

  /** `pm` is `pm0` with every read by a user in `cache` but not in `cache0`, and the reads by outputs of
      the primitive of `a` in slots below `i`. */
  ghost predicate UsesAdded(h: Heap, pm0: ParentsMap, pm: ParentsMap, cache0: set<Id>, cache: set<Id>, a: Id, i: nat)
    requires a in h
  {
    forall x, e :: Listed(pm, x, e) <==>
      || Listed(pm0, x, e)
      || (ReadsAt(h, e, x) && e.user in cache && e.user !in cache0)
      || (ReadsAt(h, e, x) && e.user in Group(h, a) && e.slot < i)
  }

  /** Every logged user is finished, or still being visited above rank `r`. */
  ghost predicate Pending(pm: ParentsMap, cache: set<Id>, rank: map<Id, nat>, r: nat) {
    forall x, e :: Listed(pm, x, e) ==> e.user in cache || (e.user in rank && rank[e.user] > r)
  }

  lemma LogStep(h: Heap, pm0: ParentsMap, pm1: ParentsMap, pm2: ParentsMap, cache0: set<Id>, cache: set<Id>, a: Id,
                i: nat)
    requires a in h && SiblingsOk(h, a) && i < |h[a].inputs|
    requires UsesAdded(h, pm0, pm1, cache0, cache, a, i)
    requires forall y, e :: Listed(pm2, y, e) <==>
               Listed(pm1, y, e) || (y == h[a].inputs[i] && e.user in Group(h, a) && e.slot == i)
    ensures UsesAdded(h, pm0, pm2, cache0, cache, a, i + 1)
  {
    GroupReadsAlike(h, a);
  }

  lemma VisitStep(h: Heap, pm0: ParentsMap, pm1: ParentsMap, pm2: ParentsMap,
                  cache0: set<Id>, cache1: set<Id>, cache2: set<Id>, a: Id, i: nat, x: Id)
    requires a in h && x in h && cache0 <= cache1 <= cache2
    requires UsesAdded(h, pm0, pm1, cache0, cache1, a, i) && UsesAdded(h, pm1, pm2, cache1, cache2, x, 0)
    ensures UsesAdded(h, pm0, pm2, cache0, cache2, a, i)
  {
  }

  lemma FinishGroup(h: Heap, pm0: ParentsMap, pm: ParentsMap, cache0: set<Id>, cache: set<Id>, a: Id)
    requires a in h && SiblingsOk(h, a) && cache0 <= cache && Group(h, a) !! cache
    requires UsesAdded(h, pm0, pm, cache0, cache, a, |h[a].inputs|)
    ensures UsesAdded(h, pm0, pm, cache0, cache + Group(h, a), a, 0)
  {
    GroupReadsAlike(h, a);
  }

  lemma ExactStep(h: Heap, pm0: ParentsMap, pm: ParentsMap, users: set<Id>, more: set<Id>, a: Id)
    requires ExactUses(h, pm0, users) && users <= more && NoRepeatedUse(pm)
    requires a in h && UsesAdded(h, pm0, pm, users, more, a, 0)
    ensures ExactUses(h, pm, more)
  {
  }

  /** `tape` extends `tape0` by arrays the map lists as used, or in `roots`. */
  ghost predicate UsedFrom(tape0: seq<Id>, tape: seq<Id>, pm: ParentsMap, roots: set<Id>) {
    tape0 <= tape && forall k :: |tape0| <= k < |tape| ==> tape[k] in roots || tape[k] in pm
  }

  lemma UsedFromStep(tape0: seq<Id>, tape1: seq<Id>, tape: seq<Id>, pm1: ParentsMap, pm: ParentsMap, x: Id)
    requires UsedFrom(tape0, tape1, pm1, {}) && UsedFrom(tape1, tape, pm, {x})
    requires x in pm1 && pm1.Keys <= pm.Keys
    ensures UsedFrom(tape0, tape, pm, {})
  {
    forall k | |tape0| <= k < |tape|
      ensures tape[k] in pm
    {
      if k < |tape1| {
        assert tape[k] == tape1[k];
      }
    }
  }

  /** What the walk has laid out so far. */
  ghost predicate LaidOut(h: Heap, tape: seq<Id>, cache: set<Id>) {
    && Allocated(h, tape)
    && cache == Members(h, tape)
    && TapeOk(h, tape)
  }

  ghost predicate NoRepeatedUse(pm: ParentsMap) {
    forall x :: x in pm ==> NoDuplicates(pm[x])
  }

  ghost predicate CleanInputs(h: Heap, rank: map<Id, nat>, original: set<Id>, cache: set<Id>)
    requires Traced(h, rank)
  {
    forall t, i :: t in cache && t in h && 0 <= i < |h[t].inputs| ==> Clean(h, rank, original, h[t].inputs[i])
  }

  lemma CleanFromInputs(h: Heap, rank: map<Id, nat>, original: set<Id>, a: Id)
    requires Traced(h, rank) && a in h && a !in original
    requires forall i :: 0 <= i < |h[a].inputs| ==> Clean(h, rank, original, h[a].inputs[i])
    ensures Clean(h, rank, original, a)
  {
    forall y | y in original
      ensures !Reaches(h, rank, a, y)
    {
      assert forall k :: 0 <= k < |h[a].inputs| ==> !Reaches(h, rank, h[a].inputs[k], y);
    }
  }

  lemma CleanFromCache(h: Heap, rank: map<Id, nat>, original: set<Id>, cache: set<Id>, a: Id)
    requires Traced(h, rank) && a in h && a !in original && CleanInputs(h, rank, original, cache)
    requires forall i :: 0 <= i < |h[a].inputs| ==> h[a].inputs[i] in cache && h[a].inputs[i] !in original
    ensures Clean(h, rank, original, a)
    ensures forall i :: 0 <= i < |h[a].inputs| ==> Clean(h, rank, original, h[a].inputs[i])
  {
    assert TracedAt(h, rank, a);
    forall i | 0 <= i < |h[a].inputs|
      ensures Clean(h, rank, original, h[a].inputs[i])
    {
      CleanFromInputs(h, rank, original, h[a].inputs[i]);
    }
    CleanFromInputs(h, rank, original, a);
  }

  lemma DirtyFromInput(h: Heap, rank: map<Id, nat>, original: set<Id>, a: Id, i: nat)
    requires Traced(h, rank) && a in h && i < |h[a].inputs|
    requires !Clean(h, rank, original, h[a].inputs[i])
    ensures !Clean(h, rank, original, a)
  {
    var y :| y in original && Reaches(h, rank, h[a].inputs[i], y);
    assert Reaches(h, rank, a, y);
  }

  lemma GroupUncached(h: Heap, rank: map<Id, nat>, tape: seq<Id>, cache: set<Id>, a: Id)
    requires Traced(h, rank) && a in h && a !in cache && LaidOut(h, tape, cache)
    ensures Group(h, a) !! cache
    ensures forall g :: g in Group(h, a) ==> g in h && rank[g] == rank[a]
  {
    forall g | g in Group(h, a)
      ensures g !in cache && g in h && rank[g] == rank[a]
    {
      GroupIsOutputs(h, a, g);
      if g in cache {
        var k := MembersWitness(h, tape, g);
        GroupIsOutputs(h, tape[k], g);
        MembersContain(h, tape, k);
        assert false;
      }
    }
  }

  lemma LayOut(h: Heap, tape: seq<Id>, cache: set<Id>, a: Id)
    requires a in h && LaidOut(h, tape, cache) && a !in cache
    requires forall i :: 0 <= i < |h[a].inputs| ==> h[a].inputs[i] in cache
    ensures LaidOut(h, tape + [a], cache + Group(h, a))
  {
    assert (tape + [a])[..|tape|] == tape;
  }

  // ---------------------------------------------------------------- the walk as a function

  /** The variables the walk updates. */
  datatype Walked = Walked(tape: seq<Id>, cache: set<Id>, parents: ParentsMap)

  function SlotOf(users: seq<Id>, i: nat): (es: seq<Edge>)
    ensures |es| == |users|
  {
    seq(|users|, k requires 0 <= k < |users| => Edge(users[k], i))
  }

  /** The map after logging that slot `i` of `a` and of its siblings reads `x`. */
  function Logged(h: Heap, pm: ParentsMap, x: Id, a: Id, i: nat): ParentsMap
    requires a in h
  {
    pm[x := UsersOf(pm, x) + [Edge(a, i)] + SlotOf(h[a].siblings, i)]
  }

  /** Where the walk is after visiting `a`, when nothing is thrown. */
  ghost function Visited(h: Heap, rank: map<Id, nat>, inputSet: set<Id>, a: Id, w: Walked): Walked
    requires Traced(h, rank) && a in h
    decreases rank[a], 1, 0
  {
    if a in w.cache then w
    else
      var w2 := VisitedInputs(h, rank, inputSet, a, 0, w);
      Walked(w2.tape + [a], w2.cache + Group(h, a), w2.parents)
  }

  ghost function VisitedInputs(h: Heap, rank: map<Id, nat>, inputSet: set<Id>, a: Id, i: nat, w: Walked): Walked
    requires Traced(h, rank) && a in h && i <= |h[a].inputs|
    decreases rank[a], 0, |h[a].inputs| - i
  {
    if i == |h[a].inputs| then w
    else
      assert TracedAt(h, rank, a);
      var x, w1 := h[a].inputs[i], Walked(w.tape, w.cache, Logged(h, w.parents, h[a].inputs[i], a, i));
      VisitedInputs(h, rank, inputSet, a, i + 1, if a in inputSet then w1 else Visited(h, rank, inputSet, x, w1))
  }

  ghost function WalkedFrom(h: Heap, rank: map<Id, nat>, inputSet: set<Id>, outputs: seq<Id>, w: Walked): Walked
    requires Traced(h, rank) && Allocated(h, outputs)
  {
    if outputs == [] then w
    else WalkedFrom(h, rank, inputSet, outputs[1..], Visited(h, rank, inputSet, outputs[0], w))
  }

  /** The tape and the consumer map of a traced graph. */
  ghost function WholeWalk(h: Heap, rank: map<Id, nat>, inputs: seq<Id>, outputs: seq<Id>): Walked
    requires Traced(h, rank) && Allocated(h, outputs)
  {
    WalkedFrom(h, rank, (set x | x in inputs), outputs, Walked([], {}, map[]))
  }

  /** Logs that slot `i` of `a` and of each sibling of `a` reads `x`. */
  method LogUses(h: Heap, pm: ParentsMap, x: Id, a: Id, i: nat) returns (parents: ParentsMap)
    requires a in h && SiblingsOk(h, a)
    requires forall e :: Listed(pm, x, e) ==> e.user !in Group(h, a) || e.slot != i
    requires NoRepeatedUse(pm)
    ensures forall y, e :: Listed(parents, y, e) <==>
              Listed(pm, y, e) || (y == x && e.user in Group(h, a) && e.slot == i)
    ensures NoRepeatedUse(parents)
    ensures parents == Logged(h, pm, x, a, i)
  {
    var before := UsersOf(pm, x);
    var log := before + [Edge(a, i)];
    var siblings := h[a].siblings;
    SiblingsDistinct(h, a);
    for k := 0 to |siblings|
      invariant NoDuplicates(log)
      invariant forall e :: e in log <==>
                  e in before || e == Edge(a, i) || (e.slot == i && e.user in siblings[..k])
      invariant log == before + [Edge(a, i)] + SlotOf(siblings[..k], i)
    {
      assert siblings[..k + 1] == siblings[..k] + [siblings[k]];
      log := log + [Edge(siblings[k], i)];
    }
    assert siblings[..|siblings|] == siblings;
    parents := pm[x := log];
  }

  /** Nothing has logged slot `i` of the primitive of `a` yet, and everything logged will be finished. */
  lemma ReadyToLog(h: Heap, rank: map<Id, nat>, pm0: ParentsMap, pm: ParentsMap, cache0: set<Id>, cache: set<Id>,
                   a: Id, i: nat)
    requires Traced(h, rank) && a in h && i < |h[a].inputs|
    requires Pending(pm0, cache0, rank, rank[a]) && UsesAdded(h, pm0, pm, cache0, cache, a, i)
    requires cache0 <= cache && Group(h, a) !! cache
    ensures forall e :: Listed(pm, h[a].inputs[i], e) ==> e.user !in Group(h, a) || e.slot != i
  {
    forall g | g in Group(h, a)
      ensures g in rank && rank[g] == rank[a]
    {
      GroupRank(h, rank, a, g);
    }
  }

  lemma GroupRank(h: Heap, rank: map<Id, nat>, a: Id, g: Id)
    requires Traced(h, rank) && a in h && g in Group(h, a)
    ensures a in rank && g in rank && rank[g] == rank[a]
  {
    assert TracedAt(h, rank, a);
    if g != a {
      var i :| 0 <= i < |h[a].siblings| && h[a].siblings[i] == g;
    }
  }

  lemma StillPending(h: Heap, rank: map<Id, nat>, pm0: ParentsMap, pm: ParentsMap, cache0: set<Id>, cache: set<Id>,
                     a: Id, i: nat, x: Id)
    requires Traced(h, rank) && a in h && x in h && x in rank && rank[x] < rank[a]
    requires Pending(pm0, cache0, rank, rank[a]) && UsesAdded(h, pm0, pm, cache0, cache, a, i)
    requires cache0 <= cache
    ensures Pending(pm, cache, rank, rank[x])
  {
    forall g | g in Group(h, a)
      ensures g in rank && rank[g] == rank[a]
    {
      GroupRank(h, rank, a, g);
    }
  }

  /** Logs one input of `a`, keeping count of what has been logged since the visit began. */
  method LogInput(h: Heap, ghost rank: map<Id, nat>, pm: ParentsMap, a: Id, i: nat,
                  ghost pm0: ParentsMap, ghost cache0: set<Id>, ghost cache: set<Id>)
    returns (parents: ParentsMap)
    requires Traced(h, rank) && a in h && i < |h[a].inputs|
    requires Pending(pm0, cache0, rank, rank[a]) && UsesAdded(h, pm0, pm, cache0, cache, a, i)
    requires cache0 <= cache && Group(h, a) !! cache && NoRepeatedUse(pm)
    ensures UsesAdded(h, pm0, parents, cache0, cache, a, i + 1) && NoRepeatedUse(parents)
    ensures Pending(parents, cache, rank, rank[h[a].inputs[i]])
    ensures parents == Logged(h, pm, h[a].inputs[i], a, i)
  {
    assert SiblingsOk(h, a) && TracedAt(h, rank, a);
    ReadyToLog(h, rank, pm0, pm, cache0, cache, a, i);
    parents := LogUses(h, pm, h[a].inputs[i], a, i);
    LogStep(h, pm0, pm, parents, cache0, cache, a, i);
    StillPending(h, rank, pm0, parents, cache0, cache, a, i + 1, h[a].inputs[i]);
  }

  /** The invariant of the loop over the inputs of `a`. */
  ghost predicate Visiting(h: Heap, rank: map<Id, nat>, original: set<Id>, a: Id, i: nat,
                           tape0: seq<Id>, cache0: set<Id>, parents0: ParentsMap,
                           tape: seq<Id>, cache: set<Id>, parents: ParentsMap)
    requires Traced(h, rank) && a in h
  {
    && i <= |h[a].inputs|
    && LaidOut(h, tape, cache) && NoRepeatedUse(parents) && CleanInputs(h, rank, original, cache)
    && cache0 <= cache && Group(h, a) !! cache
    && (forall p :: p in cache && p !in cache0 ==> p in h && rank[p] < rank[a])
    && (forall k :: 0 <= k < i ==> h[a].inputs[k] in cache && h[a].inputs[k] !in original)
    && UsesAdded(h, parents0, parents, cache0, cache, a, i)
    && parents0.Keys <= parents.Keys && UsedFrom(tape0, tape, parents, {})
  }

  /** One round of the loop over the inputs of `a`. */
  method VisitInput(h: Heap, ghost rank: map<Id, nat>, inputSet: set<Id>, original: set<Id>, a: Id, i: nat,
                    ghost tape0: seq<Id>, ghost cache0: set<Id>, ghost parents0: ParentsMap,
                    tape1: seq<Id>, cache1: set<Id>, parents1: ParentsMap)
    returns (ok: bool, tape: seq<Id>, cache: set<Id>, parents: ParentsMap)
    requires Traced(h, rank) && a in h && i < |h[a].inputs|
    requires forall x :: x in inputSet && x in h ==> h[x].inputs == []
    requires Pending(parents0, cache0, rank, rank[a])
    requires Visiting(h, rank, original, a, i, tape0, cache0, parents0, tape1, cache1, parents1)
    decreases rank[a], 0
    ensures !ok ==> !Clean(h, rank, original, a)
    ensures ok ==> Visiting(h, rank, original, a, i + 1, tape0, cache0, parents0, tape, cache, parents)
    ensures ok ==> VisitedInputs(h, rank, inputSet, a, i, Walked(tape1, cache1, parents1))
                   == VisitedInputs(h, rank, inputSet, a, i + 1, Walked(tape, cache, parents))
  {
    var x := h[a].inputs[i];
    ok, tape, cache := true, tape1, cache1;
    parents := LogInput(h, rank, parents1, a, i, parents0, cache0, cache);
    if a !in inputSet {
      ghost var pm1 := parents;
      ok, tape, cache, parents := Visit(h, rank, inputSet, original, x, tape, cache, parents);
      if !ok {
        DirtyFromInput(h, rank, original, a, i);
        return;
      }
      assert Reaches(h, rank, x, x);
      VisitStep(h, parents0, pm1, parents, cache0, cache1, cache, a, i + 1, x);
      UsedFromStep(tape0, tape1, tape, pm1, parents, x);
      StillApart(h, rank, a, cache1, cache);
    }
  }

  lemma StillApart(h: Heap, rank: map<Id, nat>, a: Id, cache1: set<Id>, cache: set<Id>)
    requires Traced(h, rank) && a in h && Group(h, a) !! cache1
    requires forall p :: p in cache && p !in cache1 ==> p in h && rank[p] < rank[a]
    ensures Group(h, a) !! cache
  {
    forall g | g in Group(h, a)
      ensures g !in cache
    {
      GroupRank(h, rank, a, g);
    }
  }

  /** The recursive lambda, with the locals it captures passed in and out.  `ok` is false when an array
      of `original` is met: the program throws there. */
  method Visit(h: Heap, ghost rank: map<Id, nat>, inputSet: set<Id>, original: set<Id>, a: Id,
               tape0: seq<Id>, cache0: set<Id>, parents0: ParentsMap)
    returns (ok: bool, tape: seq<Id>, cache: set<Id>, parents: ParentsMap)
    requires Traced(h, rank) && a in h
    requires forall x :: x in inputSet && x in h ==> h[x].inputs == []
    requires LaidOut(h, tape0, cache0) && NoRepeatedUse(parents0) && CleanInputs(h, rank, original, cache0)
    requires Pending(parents0, cache0, rank, rank[a])
    decreases rank[a], 1
    ensures ok <==> Clean(h, rank, original, a)
    ensures ok ==> LaidOut(h, tape, cache) && NoRepeatedUse(parents) && CleanInputs(h, rank, original, cache)
    ensures ok ==> a in cache && cache0 <= cache
    ensures ok ==> forall p :: p in cache && p !in cache0 ==> p in h && rank[p] <= rank[a]
    ensures ok ==> UsesAdded(h, parents0, parents, cache0, cache, a, 0)
    ensures ok ==> parents0.Keys <= parents.Keys && UsedFrom(tape0, tape, parents, {a})
    ensures ok ==> Walked(tape, cache, parents) == Visited(h, rank, inputSet, a, Walked(tape0, cache0, parents0))
  {
    tape, cache, parents := tape0, cache0, parents0;
    if a in original {
      assert Reaches(h, rank, a, a);
      return false, tape, cache, parents;
    }
    if a in cache {
      CleanFromInputs(h, rank, original, a);
      return true, tape, cache, parents;
    }
    GroupUncached(h, rank, tape, cache, a);
    ghost var end := VisitedInputs(h, rank, inputSet, a, 0, Walked(tape0, cache0, parents0));
    for i := 0 to |h[a].inputs|
      invariant Visiting(h, rank, original, a, i, tape0, cache0, parents0, tape, cache, parents)
      invariant VisitedInputs(h, rank, inputSet, a, i, Walked(tape, cache, parents)) == end
    {
      ok, tape, cache, parents := VisitInput(h, rank, inputSet, original, a, i, tape0, cache0, parents0, tape, cache,
          parents);
      if !ok {
        return;
      }
    }
    FinishVisit(h, rank, original, a, tape0, cache0, parents0, tape, cache, parents);
    cache := cache + Group(h, a);
    tape := tape + [a];
    ok := true;
  }

  lemma FinishVisit(h: Heap, rank: map<Id, nat>, original: set<Id>, a: Id,
                    tape0: seq<Id>, cache0: set<Id>, parents0: ParentsMap,
                    tape: seq<Id>, cache: set<Id>, parents: ParentsMap)
    requires Traced(h, rank) && a in h && a !in original
    requires Visiting(h, rank, original, a, |h[a].inputs|, tape0, cache0, parents0, tape, cache, parents)
    ensures Clean(h, rank, original, a)
    ensures LaidOut(h, tape + [a], cache + Group(h, a)) && CleanInputs(h, rank, original, cache + Group(h, a))
    ensures forall p :: p in cache + Group(h, a) && p !in cache0 ==> p in h && rank[p] <= rank[a]
    ensures UsesAdded(h, parents0, parents, cache0, cache + Group(h, a), a, 0)
    ensures UsedFrom(tape0, tape + [a], parents, {a})
  {
    assert SiblingsOk(h, a);
    CleanFromCache(h, rank, original, cache, a);
    FinishGroup(h, parents0, parents, cache0, cache, a);
    GroupReadsAlike(h, a);
    LayOut(h, tape, cache, a);
    forall g | g in Group(h, a)
      ensures g in h && rank[g] == rank[a]
    {
      GroupRank(h, rank, a, g);
    }
  }

  lemma SiblingsDistinct(h: Heap, a: Id)
    requires SiblingsOk(h, a)
    ensures a !in h[a].siblings && NoDuplicates(h[a].siblings)
  {
    var os, pos := Outputs(h, a), h[a].position;
    forall i, j | 0 <= i < j < |os|
      ensures os[i] != os[j]
    {
      assert h[os[i]].position == i && h[os[j]].position == j;
    }
    forall i | 0 <= i < |h[a].siblings|
      ensures h[a].siblings[i] == os[if i < pos then i else i + 1]
    {
    }
    assert os[pos] == a;
  }

  lemma GroupReadsAlike(h: Heap, a: Id)
    requires SiblingsOk(h, a)
    ensures forall g :: g in Group(h, a) ==> g in h && h[g].inputs == h[a].inputs
  {
    forall g | g in Group(h, a)
      ensures g in h && h[g].inputs == h[a].inputs
    {
      GroupIsOutputs(h, a, g);
    }
  }

  ghost predicate AllClean(h: Heap, rank: map<Id, nat>, original: set<Id>, outputs: seq<Id>, n: nat)
    requires Traced(h, rank) && Allocated(h, outputs) && n <= |outputs|
  {
    forall j {:trigger outputs[j]} :: 0 <= j < n ==> Clean(h, rank, original, outputs[j])
  }

  /** What is laid out when the walk from the first `k` outputs is done. */
  ghost predicate WalkState(h: Heap, rank: map<Id, nat>, original: set<Id>, outputs: seq<Id>, k: nat, tape: seq<Id>,
                            cache: set<Id>, parents: ParentsMap)
    requires Traced(h, rank) && Allocated(h, outputs) && k <= |outputs|
  {
    && LaidOut(h, tape, cache) && CleanInputs(h, rank, original, cache) && ExactUses(h, parents, cache)
    && (forall j :: 0 <= j < |tape| ==> tape[j] in outputs || tape[j] in parents)
    && AllClean(h, rank, original, outputs, k)
    && (forall j {:trigger outputs[j]} :: 0 <= j < k ==> outputs[j] in cache)
  }

  /** Walks from every output in turn. */
  method Walk(h: Heap, ghost rank: map<Id, nat>, inputSet: set<Id>, original: set<Id>, outputs: seq<Id>)
    returns (ok: bool, tape: seq<Id>, cache: set<Id>, parents: ParentsMap)
    requires Traced(h, rank) && Allocated(h, outputs)
    requires forall x :: x in inputSet && x in h ==> h[x].inputs == []
    ensures ok <==> AllClean(h, rank, original, outputs, |outputs|)
    ensures ok ==> WalkState(h, rank, original, outputs, |outputs|, tape, cache, parents)
    ensures ok ==> Walked(tape, cache, parents) == WalkedFrom(h, rank, inputSet, outputs, Walked([], {}, map[]))
  {
    ok, tape, cache, parents := true, [], {}, map[];
    ghost var end := WalkedFrom(h, rank, inputSet, outputs, Walked([], {}, map[]));
    for k := 0 to |outputs|
      invariant ok && WalkState(h, rank, original, outputs, k, tape, cache, parents)
      invariant WalkedFrom(h, rank, inputSet, outputs[k..], Walked(tape, cache, parents)) == end
    {
      ghost var before := Walked(tape, cache, parents);
      assert outputs[k..][1..] == outputs[k + 1..];
      ok, tape, cache, parents := Visit(h, rank, inputSet, original, outputs[k], tape, cache, parents);
      if !ok {
        return;
      }
      WalkStep(h, rank, original, outputs, k, before, Walked(tape, cache, parents));
    }
  }

  lemma WalkStep(h: Heap, rank: map<Id, nat>, original: set<Id>, outputs: seq<Id>, k: nat, w: Walked, w2: Walked)
    requires Traced(h, rank) && Allocated(h, outputs) && k < |outputs|
    requires WalkState(h, rank, original, outputs, k, w.tape, w.cache, w.parents)
    requires Clean(h, rank, original, outputs[k]) && outputs[k] in w2.cache && w.cache <= w2.cache
    requires LaidOut(h, w2.tape, w2.cache) && CleanInputs(h, rank, original, w2.cache)
    requires UsesAdded(h, w.parents, w2.parents, w.cache, w2.cache, outputs[k], 0) && NoRepeatedUse(w2.parents)
    requires w.parents.Keys <= w2.parents.Keys && UsedFrom(w.tape, w2.tape, w2.parents, {outputs[k]})
    ensures WalkState(h, rank, original, outputs, k + 1, w2.tape, w2.cache, w2.parents)
  {
    ExactStep(h, w.parents, w2.parents, w.cache, w2.cache, outputs[k]);
    forall j | 0 <= j < |w2.tape|
      ensures w2.tape[j] in outputs || w2.tape[j] in w2.parents
    {
      if j < |w.tape| {
        assert w2.tape[j] == w.tape[j];
      }
    }
  }

  lemma CleanOutputs(h: Heap, rank: map<Id, nat>, outputs: seq<Id>, originalInputs: seq<Id>, original: set<Id>)
    requires Traced(h, rank) && Allocated(h, outputs)
    requires forall y :: y in original <==> y in originalInputs
    ensures AllClean(h, rank, original, outputs, |outputs|) <==> !Captures(h, rank, outputs, originalInputs)
  {
    if Captures(h, rank, outputs, originalInputs) {
      var i, y :| 0 <= i < |outputs| && y in originalInputs && Reaches(h, rank, outputs[i], y);
      assert y in original && !Clean(h, rank, original, outputs[i]);
    }
  }

  lemma TapeOkAt(h: Heap, tape: seq<Id>, k: nat)
    requires Allocated(h, tape) && TapeOk(h, tape) && k < |tape|
    ensures forall i :: 0 <= i < |h[tape[k]].inputs| ==> h[tape[k]].inputs[i] in Members(h, tape[..k])
    ensures Members(h, tape[..k + 1]) == Members(h, tape[..k]) + Group(h, tape[k])
  {
    assert tape[..k + 1][..k] == tape[..k];
    TapeOkPrefix(h, tape, k + 1);
  }

  lemma {:induction false} TapeOkPrefix(h: Heap, tape: seq<Id>, k: nat)
    requires Allocated(h, tape) && TapeOk(h, tape) && k <= |tape|
    ensures TapeOk(h, tape[..k])
    ensures Members(h, tape[..k]) <= Members(h, tape)
  {
    if k < |tape| {
      TapeOkPrefix(h, tape[..|tape| - 1], k);
      assert tape[..|tape| - 1][..k] == tape[..k];
    } else {
      assert tape[..k] == tape;
    }
  }

  // ---------------------------------------------------------------- what the tape accounts for

  /** An array the outputs depend on, or a sibling of one. */
  ghost predicate Needed(h: Heap, rank: map<Id, nat>, outputs: seq<Id>, x: Id)
    requires Traced(h, rank) && Allocated(h, outputs)
  {
    exists i, y :: 0 <= i < |outputs| && NeededFor(h, rank, outputs[i], y, x)
  }

  ghost predicate NeededFor(h: Heap, rank: map<Id, nat>, o: Id, y: Id, x: Id)
    requires Traced(h, rank) && o in h
  {
    y in h && Reaches(h, rank, o, y) && x in Group(h, y)
  }

  /** `tape` extends `tape0` by arrays `p` depends on. */
  ghost predicate ReachedFrom(h: Heap, rank: map<Id, nat>, p: Id, tape0: seq<Id>, tape: seq<Id>)
    requires Traced(h, rank) && p in h
  {
    tape0 <= tape && forall k {:trigger tape[k]} :: |tape0| <= k < |tape| ==>
      tape[k] in h && Reaches(h, rank, p, tape[k])
  }

  lemma {:induction false} VisitedReaches(h: Heap, rank: map<Id, nat>, inputSet: set<Id>, a: Id, w: Walked)
    requires Traced(h, rank) && a in h
    ensures ReachedFrom(h, rank, a, w.tape, Visited(h, rank, inputSet, a, w).tape)
    decreases rank[a], 1, 0
  {
    if a !in w.cache {
      VisitedInputsReach(h, rank, inputSet, a, 0, w);
    }
  }

  lemma {:induction false} VisitedInputsReach(h: Heap, rank: map<Id, nat>, inputSet: set<Id>, a: Id, i: nat, w: Walked)
    requires Traced(h, rank) && a in h && i <= |h[a].inputs|
    ensures ReachedFrom(h, rank, a, w.tape, VisitedInputs(h, rank, inputSet, a, i, w).tape)
    decreases rank[a], 0, |h[a].inputs| - i
  {
    if i < |h[a].inputs| {
      assert TracedAt(h, rank, a);
      var x, w1 := h[a].inputs[i], Walked(w.tape, w.cache, Logged(h, w.parents, h[a].inputs[i], a, i));
      VisitedReaches(h, rank, inputSet, x, w1);
      var w2 := if a in inputSet then w1 else Visited(h, rank, inputSet, x, w1);
      VisitedInputsReach(h, rank, inputSet, a, i + 1, w2);
    }
  }

  lemma {:induction false} WalkReaches(h: Heap, rank: map<Id, nat>, inputSet: set<Id>, outputs: seq<Id>, w: Walked)
    requires Traced(h, rank) && Allocated(h, outputs)
    ensures w.tape <= WalkedFrom(h, rank, inputSet, outputs, w).tape
    ensures forall k :: |w.tape| <= k < |WalkedFrom(h, rank, inputSet, outputs, w).tape| ==>
              Needed(h, rank, outputs, WalkedFrom(h, rank, inputSet, outputs, w).tape[k])
  {
    if outputs != [] {
      var w1 := Visited(h, rank, inputSet, outputs[0], w);
      var tape := WalkedFrom(h, rank, inputSet, outputs, w).tape;
      VisitedReaches(h, rank, inputSet, outputs[0], w);
      WalkReaches(h, rank, inputSet, outputs[1..], w1);
      forall k | |w.tape| <= k < |tape|
        ensures Needed(h, rank, outputs, tape[k])
      {
        if k < |w1.tape| {
          assert tape[k] == w1.tape[k];
          assert NeededFor(h, rank, outputs[0], tape[k], tape[k]);
        } else {
          assert Needed(h, rank, outputs[1..], tape[k]);
          var i, y :| 0 <= i < |outputs[1..]| && NeededFor(h, rank, outputs[1..][i], y, tape[k]);
          assert NeededFor(h, rank, outputs[i + 1], y, tape[k]);
        }
      }
    }
  }

  /** A sorted tape accounts for everything its arrays depend on, and their siblings. */
  lemma {:induction false} MembersClosed(h: Heap, rank: map<Id, nat>, tape: seq<Id>, p: Id, y: Id)
    requires Traced(h, rank) && Allocated(h, tape) && TapeOk(h, tape) && p in h && p in Members(h, tape)
    requires Reaches(h, rank, p, y)
    ensures y in Members(h, tape) && y in h && Group(h, y) <= Members(h, tape)
    decreases rank[p]
  {
    var k := MembersWitness(h, tape, p);
    assert SiblingsOk(h, tape[k]) && TracedAt(h, rank, p);
    GroupIsOutputs(h, tape[k], p);
    MembersContain(h, tape, k);
    if p != y {
      var i :| 0 <= i < |h[p].inputs| && Reaches(h, rank, h[p].inputs[i], y);
      TapeOkAt(h, tape, k);
      TapeOkPrefix(h, tape, k);
      MembersClosed(h, rank, tape, h[p].inputs[i], y);
    }
  }

  lemma MembersNeeded(h: Heap, rank: map<Id, nat>, inputs: seq<Id>, outputs: seq<Id>, tape: seq<Id>)
    requires Traced(h, rank) && Allocated(h, outputs) && Allocated(h, tape) && TapeOk(h, tape)
    requires tape == WholeWalk(h, rank, inputs, outputs).tape
    requires forall i :: 0 <= i < |outputs| ==> outputs[i] in Members(h, tape)
    ensures forall x :: x in Members(h, tape) <==> Needed(h, rank, outputs, x)
  {
    WalkReaches(h, rank, (set x | x in inputs), outputs, Walked([], {}, map[]));
    forall x | x in Members(h, tape)
      ensures Needed(h, rank, outputs, x)
    {
      var k := MembersWitness(h, tape, x);
      assert Needed(h, rank, outputs, tape[k]);
      var i, y :| 0 <= i < |outputs| && NeededFor(h, rank, outputs[i], y, tape[k]);
      assert SiblingsOk(h, y);
      GroupIsOutputs(h, y, tape[k]);
      assert NeededFor(h, rank, outputs[i], y, x);
    }
    forall x | Needed(h, rank, outputs, x)
      ensures x in Members(h, tape)
    {
      var i, y :| 0 <= i < |outputs| && NeededFor(h, rank, outputs[i], y, x);
      MembersClosed(h, rank, tape, outputs[i], y);
    }
  }

  ghost predicate AllMembers(h: Heap, tape: seq<Id>, xs: seq<Id>)
    requires Allocated(h, tape)
  {
    forall i {:trigger xs[i]} :: 0 <= i < |xs| ==> xs[i] in Members(h, tape)
  }

  /** A tape and a consumer map of the outputs: sorted, with exactly the arrays the outputs depend on and
      their siblings, and exactly their reads; an entry that is no output has users. */
  ghost predicate LaysOut(h: Heap, rank: map<Id, nat>, inputs: seq<Id>, outputs: seq<Id>, tape: seq<Id>,
                          parents: ParentsMap)
    requires Traced(h, rank) && Allocated(h, outputs)
  {
    && Allocated(h, tape) && TapeOk(h, tape) && AllMembers(h, tape, outputs)
    && (forall x :: x in Members(h, tape) <==> Needed(h, rank, outputs, x))
    && ExactUses(h, parents, Members(h, tape))
    && (forall k :: 0 <= k < |tape| ==> tape[k] in outputs || tape[k] in parents)
    && Walked(tape, Members(h, tape), parents) == WholeWalk(h, rank, inputs, outputs)
  }

  datatype CompileError = UncapturedInputs

  /** `compile_dfs`.  It throws exactly when one of the caller's own arrays is reachable; otherwise the
      tape is topologically sorted with one entry per primitive, it accounts for every array the outputs
      depend on, and the consumer map lists each read of each tape array and its siblings exactly once. */
  method CompileDfs(h: Heap, ghost rank: map<Id, nat>, inputs: seq<Id>, outputs: seq<Id>, originalInputs: seq<Id>)
    returns (r: Result<(seq<Id>, ParentsMap), CompileError>)
    requires Traced(h, rank) && Allocated(h, outputs)
    requires |inputs| == |originalInputs|
    requires forall x :: x in inputs && x in h ==> h[x].inputs == []
    ensures r.Err? <==> Captures(h, rank, outputs, originalInputs)
    ensures r.Ok? ==> LaysOut(h, rank, inputs, outputs, r.value.0, r.value.1)
  {
    var inputSet, original := set x | x in inputs, set x | x in originalInputs;
    var ok, tape, cache, parents := Walk(h, rank, inputSet, original, outputs);
    CleanOutputs(h, rank, outputs, originalInputs, original);
    if !ok {
      return Err(UncapturedInputs);
    }
    MembersNeeded(h, rank, inputs, outputs, tape);
    return Ok((tape, parents));
  }
}
