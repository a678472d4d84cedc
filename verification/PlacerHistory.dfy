/** What clients can rely on over whole runs of the placer: stable and spread placements. */
module PlacerHistory {
  import opened Basics
  import opened PlacerModel
  import opened PlacerClock
  import opened PlacerEviction
  import opened PlacerSteps
  import opened PlacerRun

  // ---- stable placement -----------------------------------------------------------

  /** Chunk c of x is confirmed and x is not evicted. */
  predicate Settled(s: State, x: Key, c: nat) {
    Requester(s, x) && c < |s.Pm(x).confirmed| && c < |s.store[x].placement| && s.Pm(x).confirmed[c]
  }

  /** The object is evicted, or chunk c of it is where it was. */
  predicate Rests(s: State, t: State, x: Key, c: nat)
    requires Settled(s, x, c)
  {
    && x in t.store
    && (t.store[x].deleted || (Settled(t, x, c) && t.store[x].placement[c] == s.store[x].placement[c]))
  }

  /** A step either evicts the object or leaves its confirmed chunks where they are. */
  lemma StepStable(s: State, step: Step, n: nat, x: Key, c: nat)
    requires Inv(s, n) && Allowed(s, step, n) && Settled(s, x, c)
    ensures Rests(s, Apply(s, step, n), x, c) && s.store[x].placement[c] < |s.instances|
  {
    PlacedInGroup(s, x, c, n);
    match step
    case SetBegins(key, chunk, lambdaId, sliceSize, chunkSize) =>
      assert key in s.store ==> MetaOk(s, n, key);
      AdmitStable(s, key, chunk, NewMeta(n, chunk, lambdaId, sliceSize, chunkSize), x, c);
    case SetSettles(key, chunk, lambdaId) =>
      SettleStable(s, key, chunk, lambdaId, n, x, c);
    case Gets(_, _) =>
  }

  lemma AdmitStable(s: State, key: Key, chunk: nat, offered: Meta, x: Key, c: nat)
    requires Settled(s, x, c)
    requires var m := Revived(s, key, offered);
             m.placerMeta.Some? ==> chunk < |m.placerMeta.value.confirmed|
    ensures Rests(s, Admit(s, key, chunk, offered), x, c)
  {
  }

  lemma SettleStable(s: State, key: Key, chunk: nat, lambdaId: nat, n: nat, x: Key, c: nat)
    requires Inv(s, n) && CanSettle(s, key, chunk, lambdaId, n) && Settled(s, x, c)
    ensures Rests(s, Settle(s, key, chunk, lambdaId, n), x, c)
  {
    var t := Settle(s, key, chunk, lambdaId, n);
    match RouteOf(s, key, lambdaId)
    case Gone =>
    case Evicting =>
      SettleTakes(s, key, chunk, lambdaId, n);
      TookStable(s, t, key, chunk, VictimOf(s, key, n), n, x, c);
    case Placed =>
      PlacedFiles(s, key, chunk, lambdaId, n);
      FiledStable(s, t, key, chunk, Assigned(s, key, lambdaId), x, c);
    case Swapped =>
      SwappedFiles(s, key, chunk, lambdaId, n);
      FiledStable(s, t, key, chunk, s.Pm(key).swapMap[chunk], x, c);
  }

  lemma FiledStable(s: State, t: State, key: Key, chunk: nat, i: nat, x: Key, c: nat)
    requires Filed(s, t, key, chunk, i) && Settled(s, x, c) && !s.Pm(key).confirmed[chunk]
    ensures Rests(s, t, x, c)
  {
  }

  lemma TookStable(s: State, t: State, key: Key, chunk: nat, m: Key, n: nat, x: Key, c: nat)
    requires Took(s, t, key, chunk, m, n) && Settled(s, x, c) && !s.Pm(key).confirmed[chunk]
    ensures Rests(s, t, x, c)
  {
  }

  /** From its confirmation until its object's eviction, a chunk stays on one instance of the group. */
  lemma {:induction false} RunStable(trace: seq<State>, steps: seq<Step>, n: nat, i: nat, j: nat, x: Key, c: nat)
    requires IsRun(trace, steps, n) && i <= j <= |steps| && Settled(trace[i], x, c)
    requires forall m :: i <= m <= j && x in trace[m].store ==> !trace[m].store[x].deleted
    ensures Settled(trace[j], x, c)
    ensures trace[j].store[x].placement[c] == trace[i].store[x].placement[c]
    ensures trace[j].store[x].placement[c] < |trace[j].instances|
    decreases j - i
  {
    if i < j {
      RunStable(trace, steps, n, i, j - 1, x, c);
      RunAt(trace, steps, n, j - 1);
      StepStable(trace[j - 1], steps[j - 1], n, x, c);
    }
    RunHolds(trace, steps, n, j);
    PlacedInGroup(trace[j], x, c, n);
  }

  lemma PlacedInGroup(s: State, x: Key, c: nat, n: nat)
    requires Inv(s, n) && Settled(s, x, c)
    ensures s.store[x].placement[c] < |s.instances|
  {
  }

  // ---- spread placement -----------------------------------------------------------

  /** The lambda id a client gave last for each chunk. */
  type Picks = map<(Key, nat), nat>

  function PicksAfter(picks: Picks, step: Step): Picks {
    if step.SetSettles? then picks[(step.key, step.chunk) := step.lambdaId] else picks
  }

  /** Lambda ids lie within the group and differ between the confirmed chunks of one object. */
  predicate DistinctPick(s: State, picks: Picks, step: Step) {
    step.SetSettles? && s.Known(step.key) ==>
      && step.lambdaId < |s.instances|
      && forall c | 0 <= c < |s.Pm(step.key).confirmed| && s.Pm(step.key).confirmed[c] && c != step.chunk ::
           (step.key, c) in picks ==> picks[(step.key, c)] != step.lambdaId
  }

  /** An eviction is only triggered by the first chunk of an object. */
  predicate FirstChunk(s: State, step: Step)
    requires |s.instances| > 0
  {
    step.SetSettles? && s.Known(step.key) && RouteOf(s, step.key, step.lambdaId).Evicting? ==>
      s.Pm(step.key).numConfirmed == 0
  }

  /** Why the confirmed chunks of x lie on different instances: one slice base, or an inherited placement. */
  predicate SpreadMeta(meta: Meta, x: Key, picks: Picks, g: nat)
    requires g > 0
  {
    meta.placerMeta.Some? && !meta.deleted ==>
      var pm := meta.placerMeta.value;
      && |pm.confirmed| == |meta.placement|
      && if pm.swapMap != [] then
           && |pm.swapMap| == |meta.placement| && Distinct(pm.swapMap)
           && forall c :: 0 <= c < |pm.confirmed| && pm.confirmed[c] ==> meta.placement[c] == pm.swapMap[c]
         else
           forall c :: 0 <= c < |pm.confirmed| && pm.confirmed[c] ==>
             && meta.slice.base.Some? && (x, c) in picks && picks[(x, c)] < g
             && meta.placement[c] == (meta.slice.base.value + picks[(x, c)]) % g
             && forall d :: 0 <= d < c && pm.confirmed[d] && (x, d) in picks ==> picks[(x, d)] != picks[(x, c)]
  }

  ghost predicate Spread(s: State, picks: Picks)
    requires |s.instances| > 0
  {
    forall x :: x in s.store ==> SpreadMeta(s.store[x], x, picks, |s.instances|)
  }

  lemma SmallMultiple(g: nat, d: int)
    requires -(g as int) < g * d < g
    ensures d == 0
  {
  }

  lemma ModInjective(b: nat, p: nat, q: nat, g: nat)
    requires p < g && q < g && (b + p) % g == (b + q) % g
    ensures p == q
  {
    var d := (b + q) / g - (b + p) / g;
    assert q - p == g * d;
    SmallMultiple(g, d);
  }

  /** The chunks of a complete object lie on pairwise different instances. */
  lemma CompleteSpread(meta: Meta, x: Key, picks: Picks, g: nat)
    requires g > 0 && SpreadMeta(meta, x, picks, g) && meta.placerMeta.Some? && !meta.deleted
    requires forall c :: 0 <= c < |meta.placerMeta.value.confirmed| ==> meta.placerMeta.value.confirmed[c]
    ensures Distinct(meta.placement)
  {
    var pm := meta.placerMeta.value;
    if pm.swapMap == [] {
      forall d, c | 0 <= d < c < |meta.placement| ensures meta.placement[d] != meta.placement[c] {
        assert pm.confirmed[c] && pm.confirmed[d];
        if meta.placement[d] == meta.placement[c] {
          ModInjective(meta.slice.base.value, picks[(x, d)], picks[(x, c)], g);
        }
      }
    } else {
      assert meta.placement == pm.swapMap;
    }
  }

  lemma SpreadFiles(s: State, t: State, key: Key, chunk: nat, lambdaId: nat, i: nat, picks: Picks, n: nat)
    requires |s.instances| > 0 && Spread(s, picks) && Filed(s, t, key, chunk, i) && |t.instances| == |s.instances|
    requires DistinctPick(s, picks, SetSettles(key, chunk, lambdaId)) && !s.Pm(key).confirmed[chunk]
    requires if s.Pm(key).swapMap != [] then chunk < |s.Pm(key).swapMap| && i == s.Pm(key).swapMap[chunk]
             else
               && t.store[key].slice.base.Some?
               && (s.store[key].slice.base.Some? ==> t.store[key].slice.base == s.store[key].slice.base)
               && i == (t.store[key].slice.base.value + lambdaId) % |s.instances|
    ensures Spread(t, PicksAfter(picks, SetSettles(key, chunk, lambdaId)))
  {
    var after := PicksAfter(picks, SetSettles(key, chunk, lambdaId));
    forall x | x in t.store ensures SpreadMeta(t.store[x], x, after, |t.instances|) {
      assert SpreadMeta(s.store[x], x, picks, |s.instances|);
    }
  }

  lemma SpreadTakes(s: State, t: State, key: Key, chunk: nat, m: Key, lambdaId: nat, picks: Picks, n: nat)
    requires |s.instances| > 0 && Spread(s, picks) && Took(s, t, key, chunk, m, n) && |t.instances| == |s.instances|
    requires forall c :: 0 <= c < |s.Pm(key).confirmed| ==> !s.Pm(key).confirmed[c]
    requires s.Known(m) && !s.store[m].deleted
    requires forall c :: 0 <= c < |s.Pm(m).confirmed| ==> s.Pm(m).confirmed[c]
    ensures Spread(t, PicksAfter(picks, SetSettles(key, chunk, lambdaId)))
  {
    var after := PicksAfter(picks, SetSettles(key, chunk, lambdaId));
    assert s.Pm(m) == s.store[m].placerMeta.value;
    CompleteSpread(s.store[m], m, picks, |s.instances|);
    forall x | x in t.store ensures SpreadMeta(t.store[x], x, after, |t.instances|) {
      assert SpreadMeta(s.store[x], x, picks, |s.instances|);
      assert x != key && x != m ==> Unclocked(t.store[x]) == Unclocked(s.store[x]);
    }
  }

  /** An eviction for the first chunk of an object cannot list it twice. */
  lemma FirstChunkSafe(s: State, key: Key, chunk: nat, lambdaId: nat, n: nat)
    requires Inv(s, n) && CanSettle(s, key, chunk, lambdaId, n) && FirstChunk(s, SetSettles(key, chunk, lambdaId))
    ensures !DoubleLists(s, key, chunk, lambdaId, n)
  {
    if RouteOf(s, key, lambdaId) == Evicting {
      LiveIn(s.P(), key);
    }
  }

  lemma SpreadGone(s: State, key: Key, chunk: nat, lambdaId: nat, picks: Picks)
    requires |s.instances| > 0 && Spread(s, picks) && key in s.store && s.store[key].deleted
    ensures Spread(s, PicksAfter(picks, SetSettles(key, chunk, lambdaId)))
  {
  }

  lemma SpreadPlacing(s: State, key: Key, chunk: nat, lambdaId: nat, n: nat, picks: Picks)
    requires |s.instances| > 0 && s.Known(key) && Spread(s, picks) && s.Pm(key).swapMap == []
    requires chunk < n == |s.Pm(key).confirmed| == |s.store[key].placement| && !s.Pm(key).confirmed[chunk]
    requires DistinctPick(s, picks, SetSettles(key, chunk, lambdaId))
    ensures var t := Place(WithSlice(s, key), key, chunk, Assigned(s, key, lambdaId));
            |t.instances| == |s.instances| && Spread(t, PicksAfter(picks, SetSettles(key, chunk, lambdaId)))
  {
    var w, i := WithSlice(s, key), Assigned(s, key, lambdaId);
    SliceRecord(s, key);
    PlaceFiles(w, key, chunk, i);
    SliceBase(s, key, lambdaId);
    SpreadFiles(s, Place(w, key, chunk, i), key, chunk, lambdaId, i, picks, n);
  }

  lemma SpreadPlaced(s: State, key: Key, chunk: nat, lambdaId: nat, n: nat, picks: Picks)
    requires Inv(s, n) && CanSettle(s, key, chunk, lambdaId, n) && Spread(s, picks)
    requires DistinctPick(s, picks, SetSettles(key, chunk, lambdaId))
    requires RouteOf(s, key, lambdaId).Placed?
    ensures |Settle(s, key, chunk, lambdaId, n).instances| == |s.instances|
    ensures Spread(Settle(s, key, chunk, lambdaId, n), PicksAfter(picks, SetSettles(key, chunk, lambdaId)))
  {
    assert MetaOk(s, n, key);
    SpreadPlacing(s, key, chunk, lambdaId, n, picks);
  }

  lemma SpreadSettles(s: State, key: Key, chunk: nat, lambdaId: nat, n: nat, picks: Picks)
    requires Inv(s, n) && CanSettle(s, key, chunk, lambdaId, n) && Spread(s, picks)
    requires DistinctPick(s, picks, SetSettles(key, chunk, lambdaId))
    requires FirstChunk(s, SetSettles(key, chunk, lambdaId))
    ensures |Settle(s, key, chunk, lambdaId, n).instances| == |s.instances|
    ensures Spread(Settle(s, key, chunk, lambdaId, n), PicksAfter(picks, SetSettles(key, chunk, lambdaId)))
  {
    var t := Settle(s, key, chunk, lambdaId, n);
    assert MetaOk(s, n, key);
    match RouteOf(s, key, lambdaId)
    case Gone =>
      SpreadGone(s, key, chunk, lambdaId, picks);
    case Swapped =>
      SwappedFiles(s, key, chunk, lambdaId, n);
      SpreadFiles(s, t, key, chunk, lambdaId, s.Pm(key).swapMap[chunk], picks, n);
    case Placed =>
      SpreadPlaced(s, key, chunk, lambdaId, n, picks);
    case Evicting =>
      SpreadEvicting(s, key, chunk, lambdaId, n, picks);
  }

  lemma SpreadEvicting(s: State, key: Key, chunk: nat, lambdaId: nat, n: nat, picks: Picks)
    requires Inv(s, n) && CanSettle(s, key, chunk, lambdaId, n) && Spread(s, picks)
    requires RouteOf(s, key, lambdaId) == Evicting && s.Pm(key).numConfirmed == 0
    ensures |Settle(s, key, chunk, lambdaId, n).instances| == |s.instances|
    ensures Spread(Settle(s, key, chunk, lambdaId, n), PicksAfter(picks, SetSettles(key, chunk, lambdaId)))
  {
    SettleTakes(s, key, chunk, lambdaId, n);
    SettleGroup(s, key, chunk, lambdaId, n);
    VictimComplete(s, key, n);
    assert MetaOk(s, n, key);
    CountBound(s.Pm(key).confirmed);
    SpreadTakes(s, Settle(s, key, chunk, lambdaId, n), key, chunk, VictimOf(s, key, n), lambdaId, picks, n);
  }

  lemma SettleGroup(s: State, key: Key, chunk: nat, lambdaId: nat, n: nat)
    requires Inv(s, n) && CanSettle(s, key, chunk, lambdaId, n) && RouteOf(s, key, lambdaId) == Evicting
    ensures |Settle(s, key, chunk, lambdaId, n).instances| == |s.instances|
  {
    var w := WithSlice(s, key);
    SliceReady(s, key, chunk, lambdaId, n);
    InheritFrame(w, key, chunk, n);
    ChosenSpec(w, key, n);
  }

  lemma SpreadBegins(s: State, key: Key, chunk: nat, offered: Meta, n: nat, picks: Picks)
    requires |s.instances| > 0 && Spread(s, picks) && offered.placerMeta.None?
    requires var m := Revived(s, key, offered);
             m.placerMeta.Some? ==> chunk < |m.placerMeta.value.confirmed|
    ensures Spread(Admit(s, key, chunk, offered), picks)
  {
  }

  lemma SpreadGets(s: State, key: Key, chunk: nat, picks: Picks)
    requires |s.instances| > 0 && Spread(s, picks) && (s.Known(key) ==> chunk < |s.Pm(key).confirmed|)
    ensures Spread(Touch(s, key, chunk), picks)
  {
  }

  lemma SpreadStep(s: State, step: Step, n: nat, picks: Picks)
    requires Inv(s, n) && Allowed(s, step, n) && Spread(s, picks)
    requires DistinctPick(s, picks, step) && FirstChunk(s, step)
    ensures |Apply(s, step, n).instances| == |s.instances|
    ensures Spread(Apply(s, step, n), PicksAfter(picks, step))
  {
    match step
    case SetSettles(key, chunk, lambdaId) =>
      SpreadSettles(s, key, chunk, lambdaId, n, picks);
    case SetBegins(key, chunk, lambdaId, sliceSize, chunkSize) =>
      var offered := NewMeta(n, chunk, lambdaId, sliceSize, chunkSize);
      AdmitKeeps(s, key, chunk, offered, n);
      SpreadBegins(s, key, chunk, offered, n, picks);
    case Gets(key, chunk) =>
      TouchKeeps(s, key, chunk, n);
      SpreadGets(s, key, chunk, picks);
  }

  /** The lambda ids given in the course of a run. */
  function PicksOf(steps: seq<Step>): Picks {
    if steps == [] then map[] else PicksAfter(PicksOf(steps[..|steps| - 1]), steps[|steps| - 1])
  }

  /** Clients pick distinct lambda ids, and only first chunks evict. */
  ghost predicate SpreadRun(trace: seq<State>, steps: seq<Step>) {
    && |trace| == |steps| + 1
    && forall m :: 0 <= m < |steps| ==>
         && |trace[m].instances| > 0
         && DistinctPick(trace[m], PicksOf(steps[..m]), steps[m]) && FirstChunk(trace[m], steps[m])
  }

  /** Fault independence: in every state of such a run, a complete object's chunks are on different instances. */
  lemma {:induction false} RunSpread(trace: seq<State>, steps: seq<Step>, n: nat)
    requires IsRun(trace, steps, n) && SpreadRun(trace, steps)
    ensures |trace[|steps|].instances| > 0 && Spread(trace[|steps|], PicksOf(steps))
    ensures forall x :: Requester(trace[|steps|], x) && trace[|steps|].Pm(x).AllConfirmed() ==>
                          Distinct(trace[|steps|].store[x].placement)
    decreases |steps|
  {
    RunInv(trace, steps, n);
    if steps != [] {
      var m := |steps| - 1;
      RunLast(trace, steps, n);
      forall j | 0 <= j < m ensures steps[..m][..j] == steps[..j] {
      }
      RunSpread(trace[..m + 1], steps[..m], n);
      SpreadStep(trace[m], steps[m], n, PicksOf(steps[..m]));
    }
    AllSpread(trace[|steps|], n, PicksOf(steps));
  }

  lemma AllSpread(s: State, n: nat, picks: Picks)
    requires Inv(s, n) && Spread(s, picks)
    ensures forall x :: Requester(s, x) && s.Pm(x).AllConfirmed() ==> Distinct(s.store[x].placement)
  {
    forall x | Requester(s, x) && s.Pm(x).AllConfirmed() ensures Distinct(s.store[x].placement) {
      assert MetaOk(s, n, x);
      CountBound(s.Pm(x).confirmed);
      CompleteSpread(s.store[x], x, picks, |s.instances|);
    }
  }
}
