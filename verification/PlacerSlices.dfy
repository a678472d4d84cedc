/**
 Slice bases over whole runs: each object draws its base once, and the slices that have been
 drawn lie end to end around the group.
 */
module PlacerSlices {
  import opened Basics
  import opened PlacerModel
  import opened PlacerClock
  import opened PlacerEviction
  import opened PlacerSteps
  import opened PlacerRun

  /** Settling this chunk draws the slice base of its object. */
  predicate Draws(s: State, step: Step) {
    && step.SetSettles? && s.Known(step.key) && |s.instances| > 0
    && (RouteOf(s, step.key, step.lambdaId).Placed? || RouteOf(s, step.key, step.lambdaId).Evicting?)
    && s.store[step.key].slice.base.None?
  }

  function Drawn(s: State, step: Step): nat {
    if Draws(s, step) then s.store[step.key].slice.size else 0
  }

  /** Slices drawn before are kept, and so is the counter. */
  ghost predicate SlicesKept(s: State, t: State) {
    && t.sliceBase == s.sliceBase && |t.instances| == |s.instances|
    && forall x :: x in s.store ==> x in t.store && t.store[x].slice == s.store[x].slice
  }

  lemma EvictSlices(s: State, k: Key)
    requires s.Sound() && s.Known(k) && s.cursor < |s.P()| && AtTarget(s, k) && s.Pm(k).pos.At(s.primary) < |s.P()|
    ensures SlicesKept(s, Evict(s, k))
  {
  }

  lemma RetrySlices(s: State, k: Key, n: nat)
    requires Evictable(s, k, n)
    ensures SlicesKept(s, Retry(s, k, n))
  {
    ChosenSpec(s, k, n);
    var t := Chosen(s, k, n);
    RequesterSlot(t, k, n);
    EvictSlices(t, k);
    SameSlices(s, t, Evict(t, k));
  }

  lemma SameSlices(s: State, t: State, u: State)
    requires SameObjects(s, t) && SlicesKept(t, u)
    ensures SlicesKept(s, u)
  {
  }

  lemma InheritSlices(s: State, key: Key, chunk: nat, n: nat)
    requires Evictable(s, key, n) && chunk < n
    ensures SlicesKept(s, Inherited(s, key, chunk, n))
  {
    InheritOk(s, key, n);
    RetrySlices(s, key, n);
  }

  lemma PlaceSlices(s: State, key: Key, chunk: nat, i: nat)
    requires s.Known(key) && chunk < |s.Pm(key).confirmed| && chunk < |s.store[key].placement| && i < |s.instances|
    ensures SlicesKept(s, Place(s, key, chunk, i))
  {
  }

  /** Everything but the drawing itself keeps slices. */
  lemma SettleSlices(s: State, key: Key, chunk: nat, lambdaId: nat, n: nat)
    requires Inv(s, n) && CanSettle(s, key, chunk, lambdaId, n)
    ensures var step := SetSettles(key, chunk, lambdaId);
            SlicesKept(if Draws(s, step) then WithSlice(s, key) else s, Settle(s, key, chunk, lambdaId, n))
  {
    assert MetaOk(s, n, key);
    match RouteOf(s, key, lambdaId)
    case Gone =>
    case Swapped =>
    case Placed =>
      PlaceSlices(WithSlice(s, key), key, chunk, Assigned(s, key, lambdaId));
    case Evicting =>
      SliceReady(s, key, chunk, lambdaId, n);
      InheritSlices(WithSlice(s, key), key, chunk, n);
  }

  /** What a step does to the counter and to the bases. */
  ghost predicate BaseStep(s: State, step: Step, t: State) {
    && |t.instances| == |s.instances| > 0
    && (s.sliceBase < WORD ==> t.sliceBase == Wrap(s.sliceBase + Drawn(s, step)))
    && (Draws(s, step) ==>
          step.key in t.store && t.store[step.key].slice.base == Some(s.sliceBase % |s.instances|))
    && (forall x :: x in s.store ==>
          x in t.store && (t.store[x].slice == s.store[x].slice || (Draws(s, step) && x == step.key)))
  }

  lemma BaseFrom(s: State, step: Step, t: State)
    requires |s.instances| > 0
    requires SlicesKept(if Draws(s, step) then WithSlice(s, step.key) else s, t)
    ensures BaseStep(s, step, t)
  {
  }

  lemma AdmitSlices(s: State, key: Key, chunk: nat, offered: Meta)
    requires var m := Revived(s, key, offered);
             m.placerMeta.Some? ==> chunk < |m.placerMeta.value.confirmed|
    ensures SlicesKept(s, Admit(s, key, chunk, offered))
  {
  }

  lemma StepBase(s: State, step: Step, n: nat)
    requires Inv(s, n) && Allowed(s, step, n)
    ensures BaseStep(s, step, Apply(s, step, n))
  {
    match step
    case SetBegins(key, chunk, lambdaId, sliceSize, chunkSize) =>
      assert key in s.store ==> MetaOk(s, n, key);
      AdmitSlices(s, key, chunk, NewMeta(n, chunk, lambdaId, sliceSize, chunkSize));
      BaseFrom(s, step, Apply(s, step, n));
    case SetSettles(key, chunk, lambdaId) =>
      SettleSlices(s, key, chunk, lambdaId, n);
      BaseFrom(s, step, Apply(s, step, n));
    case Gets(_, _) =>
      BaseFrom(s, step, Apply(s, step, n));
  }

  lemma LastBase(trace: seq<State>, steps: seq<Step>, n: nat)
    requires IsRun(trace, steps, n) && steps != []
    ensures BaseStep(trace[|steps| - 1], steps[|steps| - 1], trace[|steps|])
    ensures IsRun(trace[..|steps|], steps[..|steps| - 1], n)
  {
    RunLast(trace, steps, n);
    StepBase(trace[|steps| - 1], steps[|steps| - 1], n);
  }

  lemma CounterStep(s: State, step: Step, t: State, before: nat, after: nat)
    requires BaseStep(s, step, t) && s.sliceBase == Wrap(before) && after == before + Drawn(s, step)
    ensures t.sliceBase == Wrap(after)
  {
  }

  /** The sizes of all slices drawn in a run. */
  function Total(trace: seq<State>, steps: seq<Step>): nat
    requires |trace| > |steps|
  {
    if steps == [] then 0
    else
      var m := |steps| - 1;
      Total(trace[..m + 1], steps[..m]) + Drawn(trace[m], steps[m])
  }

  /** The counter is the sum of the slices drawn so far, as a 64-bit word. */
  lemma {:induction false} RunCounter(trace: seq<State>, steps: seq<Step>, n: nat)
    requires IsRun(trace, steps, n)
    ensures trace[|steps|].sliceBase == Wrap(Total(trace, steps))
    ensures |trace[|steps|].instances| == |trace[0].instances|
    decreases |steps|
  {
    if steps != [] {
      var m := |steps| - 1;
      RunCounter(trace[..m + 1], steps[..m], n);
      LastBase(trace, steps, n);
      CounterStep(trace[m], steps[m], trace[m + 1], Total(trace[..m + 1], steps[..m]), Total(trace, steps));
    }
  }

  /** The base that a run's last step draws is the sum of all slices drawn before it, around the group. */
  lemma RunBases(trace: seq<State>, steps: seq<Step>, n: nat)
    requires IsRun(trace, steps, n) && steps != []
    requires Draws(trace[|steps| - 1], steps[|steps| - 1]) && Total(trace[..|steps|], steps[..|steps| - 1]) < WORD
    ensures |trace[0].instances| > 0
    ensures var m := |steps| - 1;
            var before := Total(trace[..m + 1], steps[..m]);
            && steps[m].key in trace[m + 1].store
            && trace[m + 1].store[steps[m].key].slice.base == Some(before % |trace[0].instances|)
  {
    var m := |steps| - 1;
    LastBase(trace, steps, n);
    RunCounter(trace[..m + 1], steps[..m], n);
  }

  /** A base, once drawn, never changes, not even when its object is evicted and set again. */
  lemma {:induction false} RunBaseStays(trace: seq<State>, steps: seq<Step>, n: nat, i: nat, j: nat, x: Key)
    requires IsRun(trace, steps, n) && i <= j <= |steps|
    requires x in trace[i].store && trace[i].store[x].slice.base.Some?
    ensures x in trace[j].store && trace[j].store[x].slice == trace[i].store[x].slice
    decreases j - i
  {
    if i < j {
      RunBaseStays(trace, steps, n, i, j - 1, x);
      RunAt(trace, steps, n, j - 1);
      StepBase(trace[j - 1], steps[j - 1], n);
    }
  }
}
