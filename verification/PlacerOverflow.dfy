/** The 64-bit counters of the placer: when the capacity check can be trusted, and why no addition wraps then. */
module PlacerOverflow {
  import opened Basics
  import opened PlacerModel
  import opened PlacerClock
  import opened PlacerEviction
  import opened PlacerSteps
  import opened PlacerRun
  import opened PlacerAccounting

  /** The capacity check is right for every fill level if and only if capacity and chunk fit a word together. */
  lemma FitsExactIff(capacity: nat, chunk: nat)
    requires 0 < capacity < WORD && chunk < WORD
    ensures (forall size: nat | size < capacity :: Fits(Instance(size, capacity), chunk) <==> size + chunk < capacity)
       <==> capacity + chunk <= WORD
  {
    if capacity + chunk > WORD {
      assert Wrap(capacity - 1 + chunk) == capacity - 1 + chunk - WORD;
      assert Fits(Instance(capacity - 1, capacity), chunk);
    }
  }

  // ---- a run that overflows -------------------------------------------------------

  const FIRST: Key := "a"

  function Fill(chunk: nat): seq<Step> {
    [SetBegins(FIRST, 0, 0, 1, chunk), SetSettles(FIRST, 0, 0)]
  }

  lemma FillBegins(capacity: nat, chunk: nat) returns (s: State)
    requires 0 < capacity < WORD && chunk < WORD < capacity + chunk
    ensures Inv(Init([Instance(capacity - 1, capacity)]), 1)
    ensures Allowed(Init([Instance(capacity - 1, capacity)]), Fill(chunk)[0], 1)
    ensures s == Apply(Init([Instance(capacity - 1, capacity)]), Fill(chunk)[0], 1) && Inv(s, 1)
    ensures Listing(s) == [] && s.instances == [Instance(capacity - 1, capacity)]
    ensures Allowed(s, Fill(chunk)[1], 1) && Change(s, Fill(chunk)[1], 1, 0) == chunk
  {
    var init := Init([Instance(capacity - 1, capacity)]);
    InitInv(init.instances, 1);
    s := Apply(init, Fill(chunk)[0], 1);
    StepKeeps(init, Fill(chunk)[0], 1);
    assert Wrap(capacity - 1 + chunk) == capacity - 1 + chunk - WORD;
    assert RouteOf(s, FIRST, 0) == Placed;
  }

  /**
   For every capacity and chunk size that do not fit a word together there is a run that fills an
   instance beyond its capacity: its counter wraps.
   */
  lemma Overflows(capacity: nat, chunk: nat) returns (trace: seq<State>)
    requires 0 < capacity < WORD && chunk < WORD < capacity + chunk
    ensures IsRun(trace, Fill(chunk), 1) && trace[0].instances == [Instance(capacity - 1, capacity)]
    ensures capacity - 1 + Load(trace[2], Listing(trace[2]), 0) == capacity - 1 + chunk >= capacity
    ensures |trace[2].instances| == 1 && trace[2].instances[0].size == capacity - 1 + chunk - WORD
  {
    var init := Init([Instance(capacity - 1, capacity)]);
    var s := FillBegins(capacity, chunk);
    var t := Apply(s, Fill(chunk)[1], 1);
    trace := [init] + [s] + [t];
    assert IsRun([init], [], 1);
    RunExtends([init], [], 1, Fill(chunk)[0]);
    RunExtends([init] + [s], [Fill(chunk)[0]], 1, Fill(chunk)[1]);
    assert Fill(chunk) == [Fill(chunk)[0]] + [Fill(chunk)[1]];
    StepLoad(s, Fill(chunk)[1], 1, 0);
  }

  // ---- partial sums ---------------------------------------------------------------

  lemma {:induction false} NetFalls(
    swapMap: seq<nat>, confirmed: seq<bool>, size: nat, evicted: nat, i: nat, c: nat, d: nat)
    requires c <= d <= |swapMap| == |confirmed| && size <= evicted
    ensures Net(swapMap, confirmed, size, evicted, i, d) <= Net(swapMap, confirmed, size, evicted, i, c)
    decreases d - c
  {
    if c < d {
      NetFalls(swapMap, confirmed, size, evicted, i, c, d - 1);
    }
  }

  /** While a swap map is charged, a counter only falls, and not below what it ends at: no step of the loop wraps. */
  lemma ChargeExact(
    instances: seq<Instance>, swapMap: seq<nat>, confirmed: seq<bool>, size: nat, evicted: nat, i: nat, c: nat)
    requires c <= |swapMap| == |confirmed| && i < |instances| && size <= evicted
    requires forall j :: 0 <= j < |swapMap| ==> swapMap[j] < |instances|
    requires instances[i].size < WORD && instances[i].size + Net(swapMap, confirmed, size, evicted, i, |swapMap|) >= 0
    ensures Charge(instances, swapMap, confirmed, size, evicted, c)[i].size
         == instances[i].size + Net(swapMap, confirmed, size, evicted, i, c) <= instances[i].size
  {
    NetFalls(swapMap, confirmed, size, evicted, i, c, |swapMap|);
    NetFalls(swapMap, confirmed, size, evicted, i, 0, c);
    ChargeNet(instances, swapMap, confirmed, size, evicted, i, c);
  }

  /** Every partial sum of the accounting of key's eviction is exact on instance i. */
  ghost predicate ChargesExactly(s: State, key: Key, n: nat, size: nat, i: nat)
    requires Evictable(s, key, n)
  {
    var v := VictimOf(s, key, n);
    var placement, confirmed := s.store[v].placement, s.Pm(key).confirmed;
    && i < |s.instances| && |placement| == |confirmed| == n
    && (forall j :: 0 <= j < n ==> placement[j] < |s.instances|)
    && forall c :: 0 <= c <= n ==>
         Charge(s.instances, placement, confirmed, size, size, c)[i].size
           == s.instances[i].size + Net(placement, confirmed, size, size, i, c) <= s.instances[i].size
  }

  lemma PlacementOk(s: State, key: Key, n: nat)
    requires Evictable(s, key, n)
    ensures var placement := s.store[VictimOf(s, key, n)].placement;
            |placement| == |s.Pm(key).confirmed| == n && forall j :: 0 <= j < n ==> placement[j] < |s.instances|
  {
    assert MetaOk(s, n, VictimOf(s, key, n)) && MetaOk(s, n, key);
    VictimComplete(s, key, n);
  }

  lemma ChargesFrom(s: State, key: Key, n: nat, size: nat, i: nat)
    requires Evictable(s, key, n) && OneSize(s, size)
    requires i < |s.instances| && s.instances[i].size < WORD && s.instances[i].size + NetFor(s, key, n, i) >= 0
    ensures ChargesExactly(s, key, n, size, i)
  {
    PlacementOk(s, key, n);
    forall c | 0 <= c <= n
      ensures Charge(s.instances, s.store[VictimOf(s, key, n)].placement, s.Pm(key).confirmed, size, size, c)[i].size
           == s.instances[i].size
              + Net(s.store[VictimOf(s, key, n)].placement, s.Pm(key).confirmed, size, size, i, c)
           <= s.instances[i].size
    {
      ChargeExact(s.instances, s.store[VictimOf(s, key, n)].placement, s.Pm(key).confirmed, size, size, i, c);
    }
  }

  lemma NetStays(s: State, step: Step, n: nat, i: nat, t: State)
    requires StepTo(s, step, t, n) && step.SetSettles? && RouteOf(s, step.key, step.lambdaId) == Evicting
    requires i < |s.instances| && s.instances[i].size < WORD
    ensures Evictable(s, step.key, n)
    ensures Load(t, Listing(t), i) == Load(s, Listing(s), i) + NetFor(s, step.key, n, i)
  {
    StepLoad(s, step, n, i);
  }

  /** The last step of a run is an eviction for key. */
  ghost predicate EndsEvicting(trace: seq<State>, steps: seq<Step>, n: nat, key: Key) {
    && steps != [] && |trace| > |steps|
    && var m := |steps| - 1;
    && StepTo(trace[m], steps[m], trace[m + 1], n)
    && steps[m].SetSettles? && steps[m].key == key && RouteOf(trace[m], key, steps[m].lambdaId) == Evicting
  }

  lemma SizesBefore(trace: seq<State>, steps: seq<Step>, n: nat, size: nat, i: nat)
    requires IsRun(trace, steps, n) && steps != [] && i < |trace[0].instances|
    requires forall m :: 0 <= m < |steps| && steps[m].SetBegins? ==> steps[m].chunkSize == size
    requires forall j :: 0 <= j < |trace[0].instances| ==> trace[0].instances[j].size < trace[0].instances[j].capacity
    requires Sized(trace[0].instances, size)
    ensures var s := trace[|steps| - 1];
            && OneSize(s, size) && i < |s.instances| && s.instances[i].size < WORD
            && s.instances[i].size == trace[0].instances[i].size + Load(s, Listing(s), i)
  {
    RunLast(trace, steps, n);
    RunWithin(trace[..|steps|], steps[..|steps| - 1], n, size);
    RunConserves(trace[..|steps|], steps[..|steps| - 1], n);
  }

  /**
   In every run with one chunk size in which capacities leave room for a chunk, every partial sum
   of every eviction's accounting is exact.
   */
  lemma RunChargesExactly(trace: seq<State>, steps: seq<Step>, n: nat, size: nat, key: Key, i: nat)
    requires IsRun(trace, steps, n) && EndsEvicting(trace, steps, n, key) && i < |trace[0].instances|
    requires forall m :: 0 <= m < |steps| && steps[m].SetBegins? ==> steps[m].chunkSize == size
    requires forall j :: 0 <= j < |trace[0].instances| ==> trace[0].instances[j].size < trace[0].instances[j].capacity
    requires Sized(trace[0].instances, size)
    ensures Evictable(trace[|steps| - 1], key, n) && ChargesExactly(trace[|steps| - 1], key, n, size, i)
  {
    var m := |steps| - 1;
    SizesBefore(trace, steps, n, size, i);
    NetStays(trace[m], steps[m], n, i, trace[m + 1]);
    ChargesFrom(trace[m], key, n, size, i);
  }
}
