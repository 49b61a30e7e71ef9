/**
 The main loop of `compile_fuse`, and the tape it leaves behind.
 */
module FusePass {
  import opened Wrappers
  import Tensors
  import opened ArrayGraph
  import opened Dfs
  import opened LiveGraph
  import opened Region
  import opened Contraction
  import opened Complete
  import opened Fuse
  import opened Replay

  /** The loop has dealt with the entries from `i` on: the entries below `i` are live unless they were
      fused, and every live array belongs to one of them or to an entry of the new tape, which is kept
      in reverse order. */
  ghost predicate Progress(h: Heap, v: View, tape: seq<Id>, i: nat, globalCache: set<Id>, newTape: seq<Id>)
    requires i <= |tape|
  {
    && (forall k {:trigger tape[k]} :: 0 <= k < i ==>
          if tape[k] in globalCache then tape[k] !in v.live && tape[k] in h
          else tape[k] in v.live && tape[k] in v.ord && v.ord[tape[k]] == k)
    && TapePart(h, v, i, newTape)
    && (forall p {:trigger Placed(h, v, tape, i, globalCache, newTape, p)} :: p in v.live ==>
        Placed(h, v, tape, i, globalCache, newTape, p))
  }

  ghost predicate Placed(h: Heap, v: View, tape: seq<Id>, i: nat, globalCache: set<Id>, newTape: seq<Id>, p: Id)
    requires i <= |tape|
  {
    p in v.ord &&
    if v.ord[p] < i
    then tape[v.ord[p]] !in globalCache && tape[v.ord[p]] in h && p in Group(h, tape[v.ord[p]])
    else InNewTape(h, newTape, p)
  }

  ghost predicate InNewTape(h: Heap, newTape: seq<Id>, p: Id) {
    exists m :: 0 <= m < |newTape| && newTape[m] in h && p in Group(h, newTape[m])
  }

  /** Skipping an entry that was fused earlier. */
  lemma ProgressSkips(h: Heap, v: View, tape: seq<Id>, i: nat, globalCache: set<Id>, newTape: seq<Id>)
    requires i < |tape| && Progress(h, v, tape, i + 1, globalCache, newTape) && tape[i] in globalCache
    ensures Progress(h, v, tape, i, globalCache, newTape)
  {
    forall p | p in v.live
      ensures Placed(h, v, tape, i, globalCache, newTape, p)
    {
      assert Placed(h, v, tape, i + 1, globalCache, newTape, p);
    }
  }

  ghost predicate TapePart(h: Heap, v: View, i: nat, newTape: seq<Id>) {
    && (forall m {:trigger newTape[m]} :: 0 <= m < |newTape| ==>
          newTape[m] in v.live && newTape[m] in v.ord && v.ord[newTape[m]] >= i && newTape[m] in h)
    && (forall m, n :: 0 <= m < n < |newTape| ==>
          newTape[m] in v.ord && newTape[n] in v.ord && v.ord[newTape[m]] > v.ord[newTape[n]])
  }

  lemma TapePartGrows(h: Heap, v: View, i: nat, newTape: seq<Id>, t: Id)
    requires TapePart(h, v, i + 1, newTape)
    requires t in v.live && t in h && t in v.ord && v.ord[t] == i
    ensures TapePart(h, v, i, newTape + [t])
  {
  }

  lemma InNewTapeGrows(h: Heap, newTape: seq<Id>, t: Id, p: Id)
    requires InNewTape(h, newTape, p)
    ensures InNewTape(h, newTape + [t], p)
  {
    var m :| 0 <= m < |newTape| && newTape[m] in h && p in Group(h, newTape[m]);
    assert (newTape + [t])[m] == newTape[m];
  }

  lemma InNewTapeLast(h: Heap, newTape: seq<Id>, t: Id, p: Id)
    requires t in h && p in Group(h, t)
    ensures InNewTape(h, newTape + [t], p)
  {
    assert (newTape + [t])[|newTape|] == t;
  }

  /** Keeping an entry as it is. */
  lemma ProgressKeeps(h: Heap, pm: ParentsMap, v: View, tape: seq<Id>, i: nat, globalCache: set<Id>, newTape: seq<Id>)
    requires Good(h, pm, v)
    requires i < |tape| && Progress(h, v, tape, i + 1, globalCache, newTape) && tape[i] !in globalCache
    ensures Progress(h, v, tape, i, globalCache, newTape + [tape[i]])
  {
    assert NodeGood(h, v, tape[i]);
    TapePartGrows(h, v, i, newTape, tape[i]);
    forall p | p in v.live
      ensures Placed(h, v, tape, i, globalCache, newTape + [tape[i]], p)
    {
      assert Placed(h, v, tape, i + 1, globalCache, newTape, p);
      if v.ord[p] == i {
        InNewTapeLast(h, newTape, tape[i], p);
      } else if v.ord[p] > i {
        InNewTapeGrows(h, newTape, tape[i], p);
      }
    }
  }

  ghost predicate ContractedAt(h: Heap, pm: ParentsMap, v: View, h2: Heap, pm2: ParentsMap, v2: View, c: Cut,
                               prim: Primitive,
                               tape: seq<Id>, i: nat)
  {
    && Contracts(h, pm, v, h2, pm2, v2, c, prim)
    && i < |tape| && c.root == tape[i] && c.root in v.ord && v.ord[c.root] == i
  }

  lemma KeptFacts(h: Heap, pm: ParentsMap, v: View, h2: Heap, pm2: ParentsMap, v2: View, c: Cut, prim: Primitive, p: Id)
    requires Contracts(h, pm, v, h2, pm2, v2, c, prim)
    requires p in v.live && p !in c.region
    ensures p in h && p in h2 && p in v2.live && p in v.ord && p in v2.ord && v2.ord[p] == v.ord[p]
    ensures Group(h2, p) == Group(h, p)
  {
    KeptOrder(h, pm, v, h2, pm2, v2, c, prim, p);
    assert NodeGood(h, v, p);
    assert SameButInputs(h[p], h2[p]);
  }

  lemma NewRootFacts(h: Heap, pm: ParentsMap, v: View, h2: Heap, pm2: ParentsMap, v2: View, c: Cut, prim: Primitive)
    requires Contracts(h, pm, v, h2, pm2, v2, c, prim)
    ensures c.NewRoot() in h2 && c.NewRoot() in v2.live && c.NewRoot() in v2.ord && v2.ord[c.NewRoot()] == v.ord[c.root]
    ensures forall x :: x in c.ids ==> x in Group(h2, c.NewRoot()) && x in v2.ord && v2.ord[x] == v.ord[c.root]
  {
    NewIds(h, pm, v, c);
    var k := |c.ids| - 1;
    NewOutputs(h, pm, h2, c, prim, k);
    assert Outputs(h2, c.ids[k]) == c.ids;
  }

  /** Contracting the region rooted at an entry. */
  lemma ProgressContracts(h: Heap, pm: ParentsMap, v: View, h2: Heap, pm2: ParentsMap, v2: View, c: Cut,
                          prim: Primitive,
                          tape: seq<Id>, i: nat, globalCache: set<Id>, newTape: seq<Id>)
    requires ContractedAt(h, pm, v, h2, pm2, v2, c, prim, tape, i)
    requires Progress(h, v, tape, i + 1, globalCache, newTape)
    ensures Progress(h2, v2, tape, i, globalCache + (c.region - {c.root}), newTape + [c.NewRoot()])
  {
    NewRootFacts(h, pm, v, h2, pm2, v2, c, prim);
    EntriesContracted(h, pm, v, h2, pm2, v2, c, prim, tape, i, globalCache, newTape);
    TapePartContracted(h, pm, v, h2, pm2, v2, c, prim, tape, i, newTape);
    TapePartGrows(h2, v2, i, newTape, c.NewRoot());
    forall p | p in v2.live
      ensures Placed(h2, v2, tape, i, globalCache + (c.region - {c.root}), newTape + [c.NewRoot()], p)
    {
      if p in c.ids {
        InNewTapeLast(h2, newTape, c.NewRoot(), p);
      } else {
        PlacedContracted(h, pm, v, h2, pm2, v2, c, prim, tape, i, globalCache, newTape, p);
      }
    }
  }

  lemma EntriesContracted(h: Heap, pm: ParentsMap, v: View, h2: Heap, pm2: ParentsMap, v2: View, c: Cut,
                          prim: Primitive,
                          tape: seq<Id>, i: nat, globalCache: set<Id>, newTape: seq<Id>)
    requires ContractedAt(h, pm, v, h2, pm2, v2, c, prim, tape, i)
    requires Progress(h, v, tape, i + 1, globalCache, newTape)
    ensures forall k {:trigger tape[k]} :: 0 <= k < i ==>
              if tape[k] in globalCache + (c.region - {c.root}) then tape[k] !in v2.live && tape[k] in h2
              else tape[k] in v2.live && tape[k] in v2.ord && v2.ord[tape[k]] == k
  {
    NewIds(h, pm, v, c);
    forall k {:trigger tape[k]} | 0 <= k < i
      ensures if tape[k] in globalCache + (c.region - {c.root}) then tape[k] !in v2.live && tape[k] in h2
              else tape[k] in v2.live && tape[k] in v2.ord && v2.ord[tape[k]] == k
    {
      var t := tape[k];
      if t !in globalCache && t !in c.region {
        KeptFacts(h, pm, v, h2, pm2, v2, c, prim, t);
      } else if t !in globalCache {
        assert NodeGood(h, v, t);
      }
    }
  }

  lemma TapePartContracted(h: Heap, pm: ParentsMap, v: View, h2: Heap, pm2: ParentsMap, v2: View, c: Cut,
                           prim: Primitive,
                           tape: seq<Id>, i: nat, newTape: seq<Id>)
    requires ContractedAt(h, pm, v, h2, pm2, v2, c, prim, tape, i)
    requires TapePart(h, v, i + 1, newTape)
    ensures TapePart(h2, v2, i + 1, newTape)
  {
    forall m {:trigger newTape[m]} | 0 <= m < |newTape|
      ensures newTape[m] in v2.live && newTape[m] in v2.ord && newTape[m] in v.ord
      ensures v2.ord[newTape[m]] == v.ord[newTape[m]] && newTape[m] in h2
    {
      KeptFacts(h, pm, v, h2, pm2, v2, c, prim, newTape[m]);
    }
  }

  lemma PlacedContracted(h: Heap, pm: ParentsMap, v: View, h2: Heap, pm2: ParentsMap, v2: View, c: Cut, prim: Primitive,
                         tape: seq<Id>, i: nat, globalCache: set<Id>, newTape: seq<Id>, p: Id)
    requires ContractedAt(h, pm, v, h2, pm2, v2, c, prim, tape, i)
    requires Progress(h, v, tape, i + 1, globalCache, newTape)
    requires p in v.live && p !in c.region
    ensures Placed(h2, v2, tape, i, globalCache + (c.region - {c.root}), newTape + [c.NewRoot()], p)
  {
    KeptFacts(h, pm, v, h2, pm2, v2, c, prim, p);
    assert Placed(h, v, tape, i + 1, globalCache, newTape, p);
    if v.ord[p] <= i {
      var t := tape[v.ord[p]];
      assert t in v.live && p in Group(h, t);
      assert NodeGood(h, v, t);
      assert h[t].siblings == [] ==> Group(h, t) == {t};
      assert t !in c.region;
      KeptFacts(h, pm, v, h2, pm2, v2, c, prim, t);
    } else {
      var m :| 0 <= m < |newTape| && newTape[m] in h && p in Group(h, newTape[m]);
      assert v.ord[newTape[m]] >= i + 1;
      KeptFacts(h, pm, v, h2, pm2, v2, c, prim, newTape[m]);
      assert (newTape + [c.NewRoot()])[m] == newTape[m];
    }
  }

  // ---------------------------------------------------------------- the outputs

  /** `x` is a live array with the term of the graph output `o`; unless it is `o` itself it is a `Compiled`
      array. */
  ghost predicate Provides(h: Heap, v: View, den: map<Id, Term>, o: Id, x: Id) {
    && x in v.live && x in v.den && o in den && v.den[x] == den[o]
    && x in h && (x == o || (h[x].prim.Some? && h[x].prim.value.Compiled?))
  }

  /** Every graph output is provided, but those in `lost`, which have left the graph. */
  ghost predicate OutputsOk(h: Heap, v: View, den: map<Id, Term>, outputMap: map<Id, Id>, lost: set<Id>) {
    forall o {:trigger outputMap[o]} :: o in outputMap ==>
      if o in lost then outputMap[o] == o && LeftGraph(h, v, o) else Provides(h, v, den, o, outputMap[o])
  }

  ghost predicate LeftGraph(h: Heap, v: View, x: Id) {
    x in h && x !in v.live
  }

  ghost predicate TermsKept(h: Heap, v: View, den: map<Id, Term>) {
    forall x :: x in den ==> x in h && x in v.den && v.den[x] == den[x]
  }

  /** Points the graph outputs among the replaced arrays at the new arrays. */
  method UpdateOutputs(outputMap: map<Id, Id>, outputs: seq<Id>, ids: seq<Id>) returns (updated: map<Id, Id>)
    requires |outputs| == |ids|
    ensures updated.Keys == outputMap.Keys
    ensures forall o :: o in outputMap ==>
              if o in outputs then exists k :: 0 <= k < |outputs| && outputs[k] == o && updated[o] == ids[k]
              else updated[o] == outputMap[o]
  {
    updated := outputMap;
    for k := 0 to |outputs|
      invariant updated.Keys == outputMap.Keys
      invariant forall o :: o in outputMap ==>
                  if o in outputs[..k] then exists j :: 0 <= j < k && outputs[j] == o && updated[o] == ids[j]
                  else updated[o] == outputMap[o]
    {
      assert outputs[..k + 1] == outputs[..k] + [outputs[k]];
      if outputs[k] in updated {
        updated := updated[outputs[k] := ids[k]];
      }
    }
    assert outputs[..|outputs|] == outputs;
  }

  lemma OutputsContract(h: Heap, pm: ParentsMap, v: View, h2: Heap, pm2: ParentsMap, v2: View, c: Cut, prim: Primitive,
                        den: map<Id, Term>, outputMap: map<Id, Id>, updated: map<Id, Id>, lost: set<Id>)
    requires Contracts(h, pm, v, h2, pm2, v2, c, prim)
    requires OutputsOk(h, v, den, outputMap, lost) && TermsKept(h, v, den)
    requires updated.Keys == outputMap.Keys
    requires forall o :: o in outputMap ==>
               if o in c.outputs then exists k :: 0 <= k < |c.outputs| && c.outputs[k] == o && updated[o] == c.ids[k]
               else updated[o] == outputMap[o]
    requires forall x :: x in c.region && x in outputMap ==> x in c.outputs
    ensures OutputsOk(h2, v2, den, updated, lost) && TermsKept(h2, v2, den)
  {
    NewIds(h, pm, v, c);
    forall o {:trigger updated[o]} | o in updated
      ensures if o in lost then updated[o] == o && LeftGraph(h2, v2, o) else Provides(h2, v2, den, o, updated[o])
    {
      OutputContracts(h, pm, v, h2, pm2, v2, c, prim, den, outputMap, updated, lost, o);
    }
  }

  lemma LostStays(h: Heap, pm: ParentsMap, v: View, h2: Heap, pm2: ParentsMap, v2: View, c: Cut, prim: Primitive, o: Id)
    requires Contracts(h, pm, v, h2, pm2, v2, c, prim) && LeftGraph(h, v, o)
    ensures o !in c.outputs && LeftGraph(h2, v2, o)
  {
  }

  lemma NewProvides(h: Heap, pm: ParentsMap, v: View, h2: Heap, pm2: ParentsMap, v2: View, c: Cut, prim: Primitive,
                    den: map<Id, Term>, k: nat)
    requires Contracts(h, pm, v, h2, pm2, v2, c, prim) && k < |c.outputs| && k < |c.ids|
    requires c.outputs[k] in den && c.outputs[k] in v.den && v.den[c.outputs[k]] == den[c.outputs[k]]
    ensures Provides(h2, v2, den, c.outputs[k], c.ids[k])
  {
    NewIds(h, pm, v, c);
    assert c.ids[k] in h2;
  }

  lemma KeptProvides(h: Heap, pm: ParentsMap, v: View, h2: Heap, pm2: ParentsMap, v2: View, c: Cut, prim: Primitive,
                     den: map<Id, Term>, o: Id, y: Id)
    requires Contracts(h, pm, v, h2, pm2, v2, c, prim) && Provides(h, v, den, o, y) && (y == o ==> o !in c.region)
    ensures Provides(h2, v2, den, o, y)
  {
    assert y in c.region ==> IsInner(h, y);
    KeptFacts(h, pm, v, h2, pm2, v2, c, prim, y);
    NewIds(h, pm, v, c);
    assert SameButInputs(h[y], h2[y]);
  }

  lemma OutputContracts(h: Heap, pm: ParentsMap, v: View, h2: Heap, pm2: ParentsMap, v2: View, c: Cut, prim: Primitive,
                        den: map<Id, Term>, outputMap: map<Id, Id>, updated: map<Id, Id>, lost: set<Id>, o: Id)
    requires Contracts(h, pm, v, h2, pm2, v2, c, prim) && OutputsOk(h, v, den, outputMap, lost) && TermsKept(h, v, den)
    requires o in outputMap && o in updated && (o in c.region ==> o in c.outputs)
    requires if o in c.outputs then exists k :: 0 <= k < |c.outputs| && c.outputs[k] == o && updated[o] == c.ids[k]
             else updated[o] == outputMap[o]
    ensures if o in lost then updated[o] == o && LeftGraph(h2, v2, o) else Provides(h2, v2, den, o, updated[o])
  {
    if o in lost {
      LostStays(h, pm, v, h2, pm2, v2, c, prim, o);
    } else if o in c.outputs {
      var k :| 0 <= k < |c.outputs| && c.outputs[k] == o && updated[o] == c.ids[k];
      assert Provides(h, v, den, o, outputMap[o]);
      NewProvides(h, pm, v, h2, pm2, v2, c, prim, den, k);
    } else {
      KeptProvides(h, pm, v, h2, pm2, v2, c, prim, den, o, outputMap[o]);
    }
  }

  // ---------------------------------------------------------------- the new tape

  function Reverse(s: seq<Id>): (r: seq<Id>)
    ensures |r| == |s| && forall k :: 0 <= k < |s| ==> r[k] == s[|s| - 1 - k]
  {
    seq(|s|, k requires 0 <= k < |s| => s[|s| - 1 - k])
  }

  /** A tape in increasing order that accounts for every live array. */
  ghost predicate InOrder(h: Heap, v: View, tape: seq<Id>) {
    && Allocated(h, tape)
    && (forall k {:trigger tape[k]} :: 0 <= k < |tape| ==> tape[k] in v.live && tape[k] in v.ord)
    && (forall j, k :: 0 <= j < k < |tape| ==> tape[j] in v.ord && tape[k] in v.ord && v.ord[tape[j]] < v.ord[tape[k]])
    && (forall p {:trigger InNewTape(h, tape, p)} :: p in v.live ==> InNewTape(h, tape, p))
  }

  lemma OrderOfGroup(h: Heap, pm: ParentsMap, v: View, p: Id, q: Id)
    requires Good(h, pm, v) && p in v.live && p in h && q in Group(h, p)
    ensures q in v.live && q in v.ord && p in v.ord && v.ord[q] == v.ord[p]
  {
    assert NodeGood(h, v, p) && GroupGood(h, v, p);
    assert q in v.live;
  }

  lemma NewToPrefix(h: Heap, pm: ParentsMap, v: View, tape: seq<Id>, k: nat)
    requires Good(h, pm, v) && InOrder(h, v, tape) && k < |tape|
    ensures tape[k] !in Members(h, tape[..k])
  {
    if tape[k] in Members(h, tape[..k]) {
      var m := MembersWitness(h, tape[..k], tape[k]);
      OrderOfGroup(h, pm, v, tape[m], tape[k]);
      assert false;
    }
  }

  lemma EarlierInPrefix(h: Heap, pm: ParentsMap, v: View, tape: seq<Id>, k: nat, x: Id)
    requires Good(h, pm, v) && InOrder(h, v, tape) && k < |tape|
    requires x in v.live && x in v.ord && v.ord[x] < v.ord[tape[k]]
    ensures x in Members(h, tape[..k])
  {
    assert InNewTape(h, tape, x);
    var m :| 0 <= m < |tape| && tape[m] in h && x in Group(h, tape[m]);
    OrderOfGroup(h, pm, v, tape[m], x);
    assert m < k;
    MembersContain(h, tape[..k], m);
  }

  lemma ReadsEarlier(h: Heap, pm: ParentsMap, v: View, t: Id, i: nat)
    requires Good(h, pm, v) && t in v.live && t in h && i < |h[t].inputs|
    ensures h[t].inputs[i] in v.live && h[t].inputs[i] in v.ord && t in v.ord && v.ord[h[t].inputs[i]] < v.ord[t]
  {
    assert NodeGood(h, v, t) && OrderGood(h, v, t);
  }

  lemma {:induction false} InOrderIsTapeOk(h: Heap, pm: ParentsMap, v: View, tape: seq<Id>, k: nat)
    requires Good(h, pm, v) && InOrder(h, v, tape) && k <= |tape|
    ensures TapeOk(h, tape[..k])
  {
    if k > 0 {
      var t, pre := tape[k - 1], tape[..k - 1];
      InOrderIsTapeOk(h, pm, v, tape, k - 1);
      NewToPrefix(h, pm, v, tape, k - 1);
      forall i {:trigger h[t].inputs[i]} | 0 <= i < |h[t].inputs|
        ensures h[t].inputs[i] in Members(h, pre)
      {
        ReadsEarlier(h, pm, v, t, i);
        EarlierInPrefix(h, pm, v, tape, k - 1, h[t].inputs[i]);
      }
      TapeOkSnoc(h, pre, t);
      assert tape[..k] == pre + [t];
    }
  }

  lemma TapeOkSnoc(h: Heap, tape: seq<Id>, t: Id)
    requires Allocated(h, tape) && t in h && TapeOk(h, tape) && t !in Members(h, tape)
    requires forall i {:trigger h[t].inputs[i]} :: 0 <= i < |h[t].inputs| ==> h[t].inputs[i] in Members(h, tape)
    ensures Allocated(h, tape + [t]) && TapeOk(h, tape + [t])
  {
    assert (tape + [t])[..|tape|] == tape;
  }

  lemma InOrderMembers(h: Heap, pm: ParentsMap, v: View, tape: seq<Id>)
    requires Good(h, pm, v) && InOrder(h, v, tape)
    ensures Members(h, tape) == v.live
  {
    forall x | x in Members(h, tape)
      ensures x in v.live
    {
      var m := MembersWitness(h, tape, x);
      OrderOfGroup(h, pm, v, tape[m], x);
    }
    forall x | x in v.live
      ensures x in Members(h, tape)
    {
      assert InNewTape(h, tape, x);
      var m :| 0 <= m < |tape| && tape[m] in h && x in Group(h, tape[m]);
      MembersContain(h, tape, m);
    }
  }

  lemma InOrderReplayable(h: Heap, pm: ParentsMap, v: View, tape: seq<Id>)
    requires Good(h, pm, v) && InOrder(h, v, tape)
    ensures Replayable(h, v.den, tape) && Members(h, tape) == v.live
  {
    InOrderIsTapeOk(h, pm, v, tape, |tape|);
    assert tape[..|tape|] == tape;
    InOrderMembers(h, pm, v, tape);
    forall x | x in Members(h, tape)
      ensures Consistent(h, v.den, x)
    {
      assert NodeGood(h, v, x);
    }
    forall k {:trigger tape[k]} | 0 <= k < |tape|
      ensures SiblingsOk(h, tape[k]) && (h[tape[k]].prim.None? ==> h[tape[k]].siblings == [])
    {
      assert NodeGood(h, v, tape[k]);
    }
  }

  lemma ProgressDone(h: Heap, v: View, tape: seq<Id>, globalCache: set<Id>, newTape: seq<Id>)
    requires Progress(h, v, tape, 0, globalCache, newTape)
    ensures InOrder(h, v, Reverse(newTape))
  {
    var r := Reverse(newTape);
    forall p | p in v.live
      ensures InNewTape(h, r, p)
    {
      assert Placed(h, v, tape, 0, globalCache, newTape, p);
      var m :| 0 <= m < |newTape| && newTape[m] in h && p in Group(h, newTape[m]);
      assert r[|newTape| - 1 - m] == newTape[m];
    }
  }

  lemma AllPlaced(h: Heap, v: View, tape: seq<Id>, globalCache: set<Id>, newTape: seq<Id>)
    requires Progress(h, v, tape, 0, globalCache, newTape)
    ensures forall p {:trigger InNewTape(h, newTape, p)} :: p in v.live ==> InNewTape(h, newTape, p)
  {
    forall p | p in v.live
      ensures InNewTape(h, newTape, p)
    {
      assert Placed(h, v, tape, 0, globalCache, newTape, p);
    }
  }

  // ---------------------------------------------------------------- disjoint regions

  /** The arrays a `Compiled` primitive was built from. */
  ghost function InnerTape(h: Heap, p: Id): set<Id>
    requires p in h
  {
    match h[p].prim
    case Some(Compiled(_, _, _, tape, _)) => ToSet(tape)
    case _ => {}
  }

  /** Different primitives were built from different arrays. */
  ghost predicate BuiltApart(h: Heap, p: Id, q: Id) {
    p in h && q in h && h[p].prim != h[q].prim ==> InnerTape(h, p) !! InnerTape(h, q)
  }

  ghost predicate TapesApart(h: Heap, v: View) {
    forall p, q {:trigger BuiltApart(h, p, q)} :: p in v.live && q in v.live ==> BuiltApart(h, p, q)
  }

  lemma NothingCompiled(h: Heap, v: View)
    requires forall p {:trigger h[p]} :: p in h && h[p].prim.Some? ==> h[p].prim.value.Base?
    ensures TapesApart(h, v)
  {
    forall p, q | p in v.live && q in v.live
      ensures BuiltApart(h, p, q)
    {
      assert p in h ==> InnerTape(h, p) == {};
    }
  }

  lemma KeptTape(h: Heap, pm: ParentsMap, v: View, h2: Heap, pm2: ParentsMap, v2: View, c: Cut, prim: Primitive, p: Id)
    requires Contracts(h, pm, v, h2, pm2, v2, c, prim) && p in v.live && p !in c.region
    ensures p in h && p in h2 && h2[p].prim == h[p].prim
    ensures InnerTape(h2, p) == InnerTape(h, p) && InnerTape(h, p) !! v.live
  {
    assert NodeGood(h, v, p) && SameButInputs(h[p], h2[p]);
    assert PrimGood(h, v, p);
  }

  lemma NewTape(h: Heap, pm: ParentsMap, v: View, h2: Heap, pm2: ParentsMap, v2: View, c: Cut, prim: Primitive, p: Id)
    requires Contracts(h, pm, v, h2, pm2, v2, c, prim) && p in c.ids
    ensures p in h2 && h2[p].prim == Some(prim) && InnerTape(h2, p) == c.region && c.region <= v.live
  {
    var k :| 0 <= k < |c.ids| && c.ids[k] == p;
    assert c.ids[k] in h2;
    assert forall x :: x in c.region <==> x in ToSet(c.fused);
  }

  /** A contraction keeps the regions of all `Compiled` arrays disjoint, the new one's included. */
  lemma ApartContracts(h: Heap, pm: ParentsMap, v: View, h2: Heap, pm2: ParentsMap, v2: View, c: Cut, prim: Primitive)
    requires Contracts(h, pm, v, h2, pm2, v2, c, prim) && TapesApart(h, v)
    ensures TapesApart(h2, v2)
  {
    forall p, q | p in v2.live && q in v2.live
      ensures BuiltApart(h2, p, q)
    {
      ApartPair(h, pm, v, h2, pm2, v2, c, prim, p, q);
    }
  }

  lemma ApartPair(h: Heap, pm: ParentsMap, v: View, h2: Heap, pm2: ParentsMap, v2: View, c: Cut, prim: Primitive,
                  p: Id, q: Id)
    requires Contracts(h, pm, v, h2, pm2, v2, c, prim) && p in v2.live && q in v2.live && BuiltApart(h, p, q)
    ensures BuiltApart(h2, p, q)
  {
    if p in c.ids {
      NewTape(h, pm, v, h2, pm2, v2, c, prim, p);
    } else {
      KeptTape(h, pm, v, h2, pm2, v2, c, prim, p);
    }
    if q in c.ids {
      NewTape(h, pm, v, h2, pm2, v2, c, prim, q);
    } else {
      KeptTape(h, pm, v, h2, pm2, v2, c, prim, q);
    }
  }

  // ---------------------------------------------------------------- nothing left to fuse

  /** The heap was only extended, by `Compiled` arrays, and its inputs rewired. */
  ghost predicate Extends(h: Heap, h2: Heap) {
    && h.Keys <= h2.Keys && (forall p {:trigger h2[p]} :: p in h ==> SameButInputs(h[p], h2[p]))
    && forall p {:trigger h2[p]} :: p in h2 && p !in h ==> IsCompiled(h2, p)
  }

  ghost predicate IsCompiled(h: Heap, p: Id) {
    p in h && h[p].prim.Some? && h[p].prim.value.Compiled?
  }

  lemma ExtendsOn(h: Heap, h1: Heap, h2: Heap)
    requires Extends(h, h1) && Extends(h1, h2)
    ensures Extends(h, h2)
  {
    forall p {:trigger h2[p]} | p in h
      ensures SameButInputs(h[p], h2[p])
    {
      assert SameButInputs(h[p], h1[p]) && SameButInputs(h1[p], h2[p]);
    }
    forall p {:trigger h2[p]} | p in h2 && p !in h
      ensures IsCompiled(h2, p)
    {
      if p in h1 {
        assert h1[p].prim.Some? && IsCompiled(h1, p) && SameButInputs(h1[p], h2[p]);
      }
    }
  }

  lemma ExtendsContracts(h: Heap, pm: ParentsMap, v: View, h2: Heap, pm2: ParentsMap, v2: View, c: Cut,
                         prim: Primitive)
    requires Contracts(h, pm, v, h2, pm2, v2, c, prim)
    ensures Extends(h, h2)
  {
    forall p {:trigger h2[p]} | p in h2 && p !in h
      ensures IsCompiled(h2, p)
    {
      var k :| 0 <= k < |c.ids| && c.ids[k] == p;
      assert c.ids[k] in h2;
    }
  }

  ghost predicate NoneCompiled(h: Heap) {
    forall p {:trigger h[p]} :: p in h && h[p].prim.Some? ==> h[p].prim.value.Base?
  }

  ghost predicate AllFinished(h: Heap, pm: ParentsMap, outputs: set<Id>, inputIds: set<Id>, newTape: seq<Id>) {
    forall p {:trigger Finished(h, pm, outputs, inputIds, p)} :: InNewTape(h, newTape, p) ==>
      Finished(h, pm, outputs, inputIds, p)
  }

  /** What was collected at an entry. */
  ghost predicate CollectedAt(h: Heap, pm: ParentsMap, v: View, outputs: set<Id>, arr: Id, stream: nat,
                              cache: set<Id>) {
    arr in h &&
    if h[arr].prim.None? then cache == {}
    else
      && stream == h[arr].prim.value.stream
      && Collected(h, pm, outputs, arr, 0, stream, h[arr].shape, {}) == Some(cache)
      && (cache == {} || RegionOk(h, pm, v, outputs, arr, stream, cache))
  }

  lemma GroupFinished(h: Heap, pm: ParentsMap, v: View, outputs: set<Id>, inputIds: set<Id>, t: Id, stream: nat,
                      cache: set<Id>, p: Id)
    requires Good(h, pm, v) && t in v.live && CollectedAt(h, pm, v, outputs, t, stream, cache) && |cache| <= 1
    requires h[t].prim.Some? ==> h[t].prim.value.Base?
    requires p in Group(h, t)
    ensures Finished(h, pm, outputs, inputIds, p)
  {
    assert NodeGood(h, v, t) && PrimGood(h, v, t) && GroupGood(h, v, t);
    AloneFinished(h, pm, v, outputs, inputIds, t, cache);
    GroupIsOutputs(h, t, p);
    assert h[t].siblings == [] ==> Group(h, t) == {t};
  }

  /** Keeping an entry with nothing to fuse. */
  lemma FinishedKeeps(h: Heap, pm: ParentsMap, v: View, outputs: set<Id>, inputIds: set<Id>, newTape: seq<Id>, t: Id,
                      stream: nat, cache: set<Id>)
    requires Good(h, pm, v) && t in v.live && CollectedAt(h, pm, v, outputs, t, stream, cache) && |cache| <= 1
    requires h[t].prim.Some? ==> h[t].prim.value.Base?
    requires AllFinished(h, pm, outputs, inputIds, newTape)
    ensures AllFinished(h, pm, outputs, inputIds, newTape + [t])
  {
    forall p | InNewTape(h, newTape + [t], p)
      ensures Finished(h, pm, outputs, inputIds, p)
    {
      var m :| 0 <= m < |newTape + [t]| && (newTape + [t])[m] in h && p in Group(h, (newTape + [t])[m]);
      if m == |newTape| {
        GroupFinished(h, pm, v, outputs, inputIds, t, stream, cache, p);
      } else {
        assert InNewTape(h, newTape, p);
      }
    }
  }

  /** An array of an entry dealt with earlier stays finished. */
  lemma EarlierFinished(h: Heap, pm: ParentsMap, v: View, h2: Heap, pm2: ParentsMap, v2: View, c: Cut, prim: Primitive,
                        tape: seq<Id>, i: nat, newTape: seq<Id>, outputs: set<Id>, inputIds: set<Id>, m: nat, p: Id)
    requires ContractedAt(h, pm, v, h2, pm2, v2, c, prim, tape, i)
    requires TapePart(h, v, i + 1, newTape) && AllFinished(h, pm, outputs, inputIds, newTape)
    requires m < |newTape| && newTape[m] in h2 && p in Group(h2, newTape[m])
    ensures Finished(h2, pm2, outputs, inputIds, p)
  {
    var t := newTape[m];
    KeptFacts(h, pm, v, h2, pm2, v2, c, prim, t);
    KeptSibling(h, pm, v, c, t, p);
    assert InNewTape(h, newTape, p);
    KeptFinished(h, pm, v, h2, pm2, v2, c, prim, outputs, inputIds, p);
  }

  lemma FinishedContracts(h: Heap, pm: ParentsMap, v: View, h2: Heap, pm2: ParentsMap, v2: View, c: Cut,
                          prim: Primitive, tape: seq<Id>, i: nat, newTape: seq<Id>, outputs: set<Id>,
                          inputIds: set<Id>)
    requires ContractedAt(h, pm, v, h2, pm2, v2, c, prim, tape, i)
    requires TapePart(h, v, i + 1, newTape) && AllFinished(h, pm, outputs, inputIds, newTape)
    requires forall k {:trigger c.ids[k]} :: 0 <= k < |c.ids| ==> Finished(h2, pm2, outputs, inputIds, c.ids[k])
    ensures AllFinished(h2, pm2, outputs, inputIds, newTape + [c.NewRoot()])
  {
    var tape2 := newTape + [c.NewRoot()];
    forall p | InNewTape(h2, tape2, p)
      ensures Finished(h2, pm2, outputs, inputIds, p)
    {
      var m :| 0 <= m < |tape2| && tape2[m] in h2 && p in Group(h2, tape2[m]);
      if m == |newTape| {
        NewOutputs(h, pm, h2, c, prim, |c.ids| - 1);
      } else {
        EarlierFinished(h, pm, v, h2, pm2, v2, c, prim, tape, i, newTape, outputs, inputIds, m, p);
      }
    }
  }

  /** The new arrays of the contraction of what was collected. */
  lemma NewFinishedAll(h: Heap, pm: ParentsMap, v: View, h2: Heap, pm2: ParentsMap, v2: View, c: Cut, prim: Primitive,
                       outputs: set<Id>, inputIds: set<Id>, stream: nat)
    requires Contracts(h, pm, v, h2, pm2, v2, c, prim) && PrimBuilt(h, outputs, inputIds, prim)
    requires CollectedAt(h, pm, v, outputs, c.root, stream, c.region)
    requires h[c.root].prim.Some? && prim.stream == h[c.root].prim.value.stream
    requires forall k {:trigger c.ids[k]} :: 0 <= k < |c.ids| ==>
               && c.ids[k] in h2 && k < |c.outputs| && c.outputs[k] in h
               && h2[c.ids[k]].shape == h[c.outputs[k]].shape && h2[c.ids[k]].dtype == h[c.outputs[k]].dtype
               && h[c.outputs[k]].shape == h[c.root].shape
    ensures forall k {:trigger c.ids[k]} :: 0 <= k < |c.ids| ==> Finished(h2, pm2, outputs, inputIds, c.ids[k])
  {
    forall k {:trigger c.ids[k]} | 0 <= k < |c.ids|
      ensures Finished(h2, pm2, outputs, inputIds, c.ids[k])
    {
      NewFinished(h, pm, v, h2, pm2, c, prim, outputs, inputIds, k);
    }
  }

  lemma CutBuilt(h: Heap, pm: ParentsMap, v: View, c: Cut, prim: Primitive, outputs: set<Id>, inputIds: set<Id>)
    requires prim.Compiled? && prim.inputs == c.inputs && prim.outputs == c.outputs && prim.tape == c.fused
    requires CollectedAt(h, pm, v, outputs, c.root, prim.stream, c.region) && |c.region| > 1
    requires forall x :: x in c.region <==> x in c.fused
    requires |c.outputs| > 0 && c.outputs[|c.outputs| - 1] == c.root
    requires forall k :: 0 <= k < |c.outputs| ==> c.outputs[k] in c.region
    requires |c.fused| > 0 && c.fused[|c.fused| - 1] == c.root
    requires forall k :: 0 <= k < |c.outputs| ==> c.outputs[k] in outputs || c.outputs[k] == c.root
    requires forall x :: x in c.region && x in outputs ==> x in c.outputs
    requires forall x :: x in prim.constants <==>
               x in c.inputs && x in h && Tensors.Size(h[x].shape) == 1 && h[x].prim.None? && x !in inputIds
    ensures PrimBuilt(h, outputs, inputIds, prim)
  {
    assert c.region == ToSet(c.fused);
    ToSetSize(c.fused);
    CollectedNear(h, pm, outputs, c.root, 0, prim.stream, h[c.root].shape, {}, c.region, c.root, []);
    forall k {:trigger prim.tape[k]} | 0 <= k < |prim.tape|
      ensures FitsIn(h, prim.stream, prim.tape[k])
    {
      assert prim.tape[k] in c.region && Fusable(h, prim.tape[k], prim.stream);
    }
    forall x | x in prim.outputs
      ensures x in ToSet(prim.tape) && (x in outputs || x == c.root)
    {
      var k :| 0 <= k < |c.outputs| && c.outputs[k] == x;
    }
  }

  /** `c` contracts what was collected at its root; the new arrays look like the arrays they replace. */
  ghost predicate ContractsCollected(h: Heap, pm: ParentsMap, v: View, h2: Heap, pm2: ParentsMap, v2: View, c: Cut,
                                     prim: Primitive, outputs: set<Id>, inputIds: set<Id>, stream: nat) {
    && Contracts(h, pm, v, h2, pm2, v2, c, prim)
    && CollectedAt(h, pm, v, outputs, c.root, stream, c.region) && |c.region| > 1
    && h[c.root].prim.Some? && prim.stream == h[c.root].prim.value.stream
    && |c.fused| > 0 && c.fused[|c.fused| - 1] == c.root
    && (forall k :: 0 <= k < |c.outputs| ==> c.outputs[k] in outputs || c.outputs[k] == c.root)
    && (forall x :: x in c.region && x in outputs ==> x in c.outputs)
    && (forall x :: x in prim.constants <==>
          x in c.inputs && x in h && Tensors.Size(h[x].shape) == 1 && h[x].prim.None? && x !in inputIds)
    && (forall k {:trigger c.ids[k]} :: 0 <= k < |c.ids| ==>
          && c.ids[k] in h2 && k < |c.outputs| && c.outputs[k] in h
          && h2[c.ids[k]].shape == h[c.outputs[k]].shape && h2[c.ids[k]].dtype == h[c.outputs[k]].dtype
          && h[c.outputs[k]].shape == h[c.root].shape)
  }

  /** The contraction at an entry leaves it and what came before finished. */
  lemma FuseFinished(h: Heap, pm: ParentsMap, v: View, h2: Heap, pm2: ParentsMap, v2: View, c: Cut, prim: Primitive,
                     tape: seq<Id>, i: nat, newTape: seq<Id>, outputs: set<Id>, inputIds: set<Id>, stream: nat)
    requires ContractsCollected(h, pm, v, h2, pm2, v2, c, prim, outputs, inputIds, stream)
    requires ContractedAt(h, pm, v, h2, pm2, v2, c, prim, tape, i) && TapePart(h, v, i + 1, newTape)
    ensures AllFinished(h, pm, outputs, inputIds, newTape) ==>
              AllFinished(h2, pm2, outputs, inputIds, newTape + [c.NewRoot()])
  {
    CutBuilt(h, pm, v, c, prim, outputs, inputIds);
    NewFinishedAll(h, pm, v, h2, pm2, v2, c, prim, outputs, inputIds, stream);
    if AllFinished(h, pm, outputs, inputIds, newTape) {
      FinishedContracts(h, pm, v, h2, pm2, v2, c, prim, tape, i, newTape, outputs, inputIds);
    }
  }

  // ---------------------------------------------------------------- the pass

  /** One round of the loop: what can be fused with entry `i`. */
  method CollectAt(h: Heap, pm: ParentsMap, ghost v: View, outputs: set<Id>, arr: Id)
    returns (cache: set<Id>, stream: nat)
    requires Good(h, pm, v) && arr in v.live && arr in h
    ensures CollectedAt(h, pm, v, outputs, arr, stream, cache)
  {
    cache, stream := {}, 0;
    if h[arr].prim.Some? {
      stream := h[arr].prim.value.stream;
      cache := Collect(h, pm, v, outputs, arr, arr, 0, stream, h[arr].shape, {});
    }
  }

  /** The state of the walk before entry `i`, which started at `h0`. */
  ghost predicate Fusing(h0: Heap, pm0: ParentsMap, v0: View, h: Heap, pm: ParentsMap, v: View, tape: seq<Id>, i: nat,
                         globalCache: set<Id>, newTape: seq<Id>, outputMap: map<Id, Id>, inputIds: set<Id>,
                         next: nat, lost: set<Id>) {
    && Good(h, pm, v) && v.stale == v0.stale && i <= |tape| && Progress(h, v, tape, i, globalCache, newTape)
    && (forall p :: p in h ==> p < next)
    && OutputsOk(h, v, v0.den, outputMap, lost) && TermsKept(h, v, v0.den)
    && (TapesApart(h0, v0) ==> TapesApart(h, v))
    && Extends(h0, h)
    && (NoneCompiled(h0) ==> AllFinished(h, pm, outputMap.Keys, inputIds, newTape))
    && NoNewStale(h0, pm0, v0, pm)
  }

  /** No array is listed for a stale user that was not before. */
  ghost predicate NoNewStale(h0: Heap, pm0: ParentsMap, v0: View, pm: ParentsMap) {
    forall x, e: Edge {:trigger Listed(pm, x, e)} ::
      x in h0 && e.user in v0.stale && Listed(pm, x, e) ==> Listed(pm0, x, e)
  }

  lemma StaleContracts(h0: Heap, pm0: ParentsMap, v0: View, h: Heap, pm: ParentsMap, v: View, h2: Heap,
                       pm2: ParentsMap, v2: View, c: Cut, prim: Primitive)
    requires Contracts(h, pm, v, h2, pm2, v2, c, prim) && Extends(h0, h) && v.stale == v0.stale
    requires NoNewStale(h0, pm0, v0, pm)
    ensures NoNewStale(h0, pm0, v0, pm2)
  {
    forall x, e: Edge | x in h0 && e.user in v0.stale && Listed(pm2, x, e)
      ensures Listed(pm0, x, e)
    {
      assert x != c.NewRoot() && e.user !in c.ids;
      assert Listed(pm, x, e);
    }
  }

  /** A region contracted, with all that is known of it. */
  method ContractAt(h: Heap, pm: ParentsMap, ghost v: View, next: nat, arr: Id, region: set<Id>, stream: nat,
                    outputs: set<Id>, inputIds: set<Id>)
    returns (ok: bool, h2: Heap, pm2: ParentsMap, c: Cut, prim: Primitive, ghost v2: View)
    requires Good(h, pm, v) && CollectedAt(h, pm, v, outputs, arr, stream, region) && |region| > 1
    requires forall p :: p in h ==> p < next
    ensures ok && c.region == region && c.root == arr
    ensures ContractsCollected(h, pm, v, h2, pm2, v2, c, prim, outputs, inputIds, stream)
    ensures forall p :: p in h2 ==> p < next + |c.ids|
  {
    ok, h2, pm2, c, prim, v2 := ContractRegion(h, pm, v, next, arr, region, stream, outputs, inputIds);
  }

  /** The walk goes on after a contraction. */
  lemma FusingNext(h0: Heap, pm0: ParentsMap, v0: View, h: Heap, pm: ParentsMap, v: View, h2: Heap,
                   pm2: ParentsMap, v2: View, c: Cut, prim: Primitive, tape: seq<Id>, i: nat, globalCache: set<Id>,
                   newTape: seq<Id>, outputMap: map<Id, Id>, updated: map<Id, Id>, inputIds: set<Id>, next: nat,
                   next2: nat, lost: set<Id>, stream: nat)
    requires Fusing(h0, pm0, v0, h, pm, v, tape, i + 1, globalCache, newTape, outputMap, inputIds, next, lost)
    requires i < |tape| && tape[i] == c.root && tape[i] !in globalCache
    requires ContractsCollected(h, pm, v, h2, pm2, v2, c, prim, outputMap.Keys, inputIds, stream)
    requires forall p :: p in h2 ==> p < next2
    requires updated.Keys == outputMap.Keys
    requires OutputsOk(h2, v2, v0.den, updated, lost) && TermsKept(h2, v2, v0.den)
    ensures Fusing(h0, pm0, v0, h2, pm2, v2, tape, i, globalCache + (c.region - {c.root}), newTape + [c.NewRoot()],
                   updated, inputIds, next2, lost)
  {
    ContractKeepsGood(h, pm, v, h2, pm2, v2, c, prim);
    ProgressContracts(h, pm, v, h2, pm2, v2, c, prim, tape, i, globalCache, newTape);
    if TapesApart(h, v) {
      ApartContracts(h, pm, v, h2, pm2, v2, c, prim);
    }
    FuseFinished(h, pm, v, h2, pm2, v2, c, prim, tape, i, newTape, outputMap.Keys, inputIds, stream);
    ExtendsContracts(h, pm, v, h2, pm2, v2, c, prim);
    ExtendsOn(h0, h, h2);
    StaleContracts(h0, pm0, v0, h, pm, v, h2, pm2, v2, c, prim);
  }

  /** Contracts the region collected at entry `i` and moves the walk past it. */
  method FuseAt(ghost h0: Heap, ghost pm0: ParentsMap, ghost v0: View, h: Heap, pm: ParentsMap, ghost v: View,
                tape: seq<Id>, i: nat, region: set<Id>, stream: nat, inputIds: set<Id>, next: nat,
                globalCache: set<Id>, newTape: seq<Id>, outputMap: map<Id, Id>, ghost lost: set<Id>)
    returns (ok: bool, h2: Heap, pm2: ParentsMap, next2: nat, globalCache2: set<Id>, newTape2: seq<Id>,
        updated: map<Id, Id>, ghost v2: View)
    requires i < |tape| && tape[i] !in globalCache
    requires Fusing(h0, pm0, v0, h, pm, v, tape, i + 1, globalCache, newTape, outputMap, inputIds, next, lost)
    requires CollectedAt(h, pm, v, outputMap.Keys, tape[i], stream, region) && |region| > 1
    ensures ok && updated.Keys == outputMap.Keys
    ensures Fusing(h0, pm0, v0, h2, pm2, v2, tape, i, globalCache2, newTape2, updated, inputIds, next2, lost)
  {
    var c, prim;
    ok, h2, pm2, c, prim, v2 := ContractAt(h, pm, v, next, tape[i], region, stream, outputMap.Keys, inputIds);
    updated := UpdateOutputs(outputMap, c.outputs, c.ids);
    OutputsContract(h, pm, v, h2, pm2, v2, c, prim, v0.den, outputMap, updated, lost);
    next2 := next + |c.ids|;
    FusingNext(h0, pm0, v0, h, pm, v, h2, pm2, v2, c, prim, tape, i, globalCache, newTape, outputMap, updated, inputIds,
               next, next2, lost, stream);
    globalCache2 := globalCache + (region - {tape[i]});
    newTape2 := newTape + [c.NewRoot()];
  }

  /** One round of the walk at an entry that was not fused before: keeps it or fuses what it collects. */
  method FuseEntry(ghost h0: Heap, ghost pm0: ParentsMap, ghost v0: View, h: Heap, pm: ParentsMap, ghost v: View,
                   tape: seq<Id>, i: nat, inputIds: set<Id>, next: nat, globalCache: set<Id>, newTape: seq<Id>,
                   outputMap: map<Id, Id>, ghost lost: set<Id>)
    returns (ok: bool, h2: Heap, pm2: ParentsMap, next2: nat, globalCache2: set<Id>, newTape2: seq<Id>,
        updated: map<Id, Id>, ghost v2: View)
    requires i < |tape| && tape[i] !in globalCache && tape[i] in h0
    requires Fusing(h0, pm0, v0, h, pm, v, tape, i + 1, globalCache, newTape, outputMap, inputIds, next, lost)
    ensures ok && updated.Keys == outputMap.Keys
    ensures Fusing(h0, pm0, v0, h2, pm2, v2, tape, i, globalCache2, newTape2, updated, inputIds, next2, lost)
  {
    ok, h2, pm2, next2, globalCache2, newTape2, updated, v2 :=
      true, h, pm, next, globalCache, newTape, outputMap, v;
    assert NodeGood(h, v, tape[i]);
    var cache, stream := CollectAt(h, pm, v, outputMap.Keys, tape[i]);
    if |cache| <= 1 {
      ProgressKeeps(h, pm, v, tape, i, globalCache, newTape);
      if NoneCompiled(h0) {
        assert h[tape[i]].prim == h0[tape[i]].prim;
        FinishedKeeps(h, pm, v, outputMap.Keys, inputIds, newTape, tape[i], stream, cache);
      }
      newTape2 := newTape + [tape[i]];
    } else {
      ok, h2, pm2, next2, globalCache2, newTape2, updated, v2 :=
        FuseAt(h0, pm0, v0, h, pm, v, tape, i, cache, stream, inputIds, next, globalCache, newTape, outputMap, lost);
    }
  }

  /** `compile_fuse`.  The new tape can be replayed and accounts for exactly the live arrays, every graph
      output is provided by an array with the same term, the shape error is not raised, and nothing that
      could be fused is left. */
  method CompileFuse(h: Heap, tape: seq<Id>, pm: ParentsMap, inputs: seq<Id>, outputs: seq<Id>, next: nat,
                     ghost v: View, ghost lost: set<Id>)
    returns (ok: bool, h2: Heap, tape2: seq<Id>, pm2: ParentsMap, outputs2: seq<Id>, ghost v2: View)
    requires Good(h, pm, v) && Progress(h, v, tape, |tape|, {}, [])
    requires forall p :: p in h ==> p < next
    requires forall k :: 0 <= k < |outputs| ==> if outputs[k] in lost then LeftGraph(h, v, outputs[k])
                                                else outputs[k] in v.live
    requires v.den.Keys <= h.Keys
    ensures ok
    ensures Good(h2, pm2, v2) && v2.stale == v.stale
    ensures Replayable(h2, v2.den, tape2) && Members(h2, tape2) == v2.live
    ensures |outputs2| == |outputs|
    ensures forall k {:trigger outputs2[k]} :: 0 <= k < |outputs| ==>
              if outputs[k] in lost then outputs2[k] == outputs[k] && LeftGraph(h2, v2, outputs[k])
              else Provides(h2, v2, v.den, outputs[k], outputs2[k])
    ensures TermsKept(h2, v2, v.den)
    ensures TapesApart(h, v) ==> TapesApart(h2, v2)
    ensures Extends(h, h2) && NoNewStale(h, pm, v, pm2)
    ensures NoneCompiled(h) ==>
              forall p {:trigger Finished(h2, pm2, ToSet(outputs), ToSet(inputs), p)} :: p in v2.live ==>
                Finished(h2, pm2, ToSet(outputs), ToSet(inputs), p)
  {
    ok, h2, pm2, v2 := true, h, pm, v;
    var nextId := next;
    var outputMap: map<Id, Id> := map o | o in outputs :: o;
    var inputIds := set x | x in inputs;
    FusingStarts(h, pm, v, tape, outputs, outputMap, inputIds, next, lost);
    var newTape, globalCache := [], {};
    for i := |tape| downto 0
      invariant ok
      invariant Fusing(h, pm, v, h2, pm2, v2, tape, i, globalCache, newTape, outputMap, inputIds, nextId, lost)
      invariant outputMap.Keys == ToSet(outputs)
    {
      if tape[i] in globalCache {
        FusingSkips(h, pm, v, h2, pm2, v2, tape, i, globalCache, newTape, outputMap, inputIds, nextId, lost);
      } else {
        ok, h2, pm2, nextId, globalCache, newTape, outputMap, v2 :=
          FuseEntry(h, pm, v, h2, pm2, v2, tape, i, inputIds, nextId, globalCache, newTape, outputMap, lost);
      }
    }
    FusingDone(h, pm, v, h2, pm2, v2, tape, globalCache, newTape, outputMap, inputIds, nextId, lost);
    tape2 := Reverse(newTape);
    outputs2 := MapOutputs(outputs, outputMap);
  }

  /** Replaces every output by the array that provides it. */
  method MapOutputs(outputs: seq<Id>, outputMap: map<Id, Id>) returns (outputs2: seq<Id>)
    requires forall k :: 0 <= k < |outputs| ==> outputs[k] in outputMap
    ensures |outputs2| == |outputs| && forall k :: 0 <= k < |outputs| ==> outputs2[k] == outputMap[outputs[k]]
  {
    outputs2 := outputs;
    for k := 0 to |outputs|
      invariant |outputs2| == |outputs|
      invariant forall j :: 0 <= j < |outputs| ==> outputs2[j] == if j < k then outputMap[outputs[j]] else outputs[j]
    {
      outputs2 := outputs2[k := outputMap[outputs2[k]]];
    }
  }

  lemma FusingSkips(h0: Heap, pm0: ParentsMap, v0: View, h: Heap, pm: ParentsMap, v: View, tape: seq<Id>, i: nat,
                    globalCache: set<Id>, newTape: seq<Id>, outputMap: map<Id, Id>, inputIds: set<Id>, next: nat,
                    lost: set<Id>)
    requires i < |tape| && tape[i] in globalCache
    requires Fusing(h0, pm0, v0, h, pm, v, tape, i + 1, globalCache, newTape, outputMap, inputIds, next, lost)
    ensures Fusing(h0, pm0, v0, h, pm, v, tape, i, globalCache, newTape, outputMap, inputIds, next, lost)
  {
    ProgressSkips(h, v, tape, i, globalCache, newTape);
  }

  lemma FusingDone(h0: Heap, pm0: ParentsMap, v0: View, h: Heap, pm: ParentsMap, v: View, tape: seq<Id>,
                   globalCache: set<Id>, newTape: seq<Id>, outputMap: map<Id, Id>, inputIds: set<Id>, next: nat,
                   lost: set<Id>)
    requires Fusing(h0, pm0, v0, h, pm, v, tape, 0, globalCache, newTape, outputMap, inputIds, next, lost)
    ensures Replayable(h, v.den, Reverse(newTape)) && Members(h, Reverse(newTape)) == v.live
    ensures NoneCompiled(h0) ==>
              forall p {:trigger Finished(h, pm, outputMap.Keys, inputIds, p)} :: p in v.live ==>
                Finished(h, pm, outputMap.Keys, inputIds, p)
  {
    AllPlaced(h, v, tape, globalCache, newTape);
    ProgressDone(h, v, tape, globalCache, newTape);
    InOrderReplayable(h, pm, v, Reverse(newTape));
  }

  lemma FusingStarts(h: Heap, pm: ParentsMap, v: View, tape: seq<Id>, outputs: seq<Id>, outputMap: map<Id, Id>,
                     inputIds: set<Id>, next: nat, lost: set<Id>)
    requires Good(h, pm, v) && Progress(h, v, tape, |tape|, {}, [])
    requires forall p :: p in h ==> p < next
    requires forall k :: 0 <= k < |outputs| ==> if outputs[k] in lost then LeftGraph(h, v, outputs[k])
                                                else outputs[k] in v.live
    requires v.den.Keys <= h.Keys && outputMap == map o | o in outputs :: o
    ensures Fusing(h, pm, v, h, pm, v, tape, |tape|, {}, [], outputMap, inputIds, next, lost)
    ensures Allocated(h, tape) && outputMap.Keys == ToSet(outputs)
  {
    OutputsStart(h, pm, v, outputs, outputMap, lost);
    EntriesAllocated(h, pm, v, tape);
  }

  lemma EntriesAllocated(h: Heap, pm: ParentsMap, v: View, tape: seq<Id>)
    requires Good(h, pm, v) && Progress(h, v, tape, |tape|, {}, [])
    ensures Allocated(h, tape)
  {
    forall k | 0 <= k < |tape|
      ensures tape[k] in h
    {
      assert NodeGood(h, v, tape[k]);
    }
  }

  lemma OutputsStart(h: Heap, pm: ParentsMap, v: View, outputs: seq<Id>, outputMap: map<Id, Id>, lost: set<Id>)
    requires Good(h, pm, v) && v.den.Keys <= h.Keys
    requires forall k :: 0 <= k < |outputs| ==> if outputs[k] in lost then LeftGraph(h, v, outputs[k])
                                                else outputs[k] in v.live
    requires outputMap == map o | o in outputs :: o
    ensures OutputsOk(h, v, v.den, outputMap, lost) && TermsKept(h, v, v.den)
  {
    forall o | o in outputs && o !in lost
      ensures o in v.live && o in v.den && o in h
    {
      assert o in v.live ==> NodeGood(h, v, o);
    }
  }
}
