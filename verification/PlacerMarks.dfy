/** Second chances: who is marked, who clears marks, and who is evicted, over whole runs of the placer. */
module PlacerMarks {
  import opened Basics
  import opened PlacerModel
  import opened PlacerClock
  import opened PlacerEviction
  import opened PlacerSteps
  import opened PlacerRun

  // ---- one call -------------------------------------------------------------------

  /** A sweep never evicts an object that was marked when the sweep began. */
  lemma SweepSparesMarked(s: State, k: Key, n: nat)
    requires WellFormed(s, n) && Requester(s, k)
    ensures CanSweep(s, k)
    ensures Pass(s, k).1 ==>
              exists m :: m in Open(s, k) && GaveWay(s, Pass(s, k).0, k, m)
  {
    var c := View(s, k, n);
    PassFinds(s, k, n, c);
    if Pass(s, k).1 {
      OpenIs(s, k, c.list[c.Stop()]);
      assert c.list[c.Stop()] in c.complete;
      StopsHere(s, k, n, c);
      var t := Skip(Begin(s), k);
      EvictGives(t, k);
      GaveWayFrom(s, t, Evict(t, k), k, c.list[c.Stop()]);
    }
  }

  /**
   Evicting a marked object takes more than one sweep: no unmarked object was left ahead
   of the hand. If it even takes a third sweep, every complete listed object was marked.
   */
  lemma SecondChance(s: State, k: Key, n: nat)
    requires Evictable(s, k, n) && s.Pm(VictimOf(s, k, n)).visited
    ensures View(s, k, n).Sweeps() > 1
    ensures forall x :: x in Listing(s)[Hand(s)..Limit(s)] && x != k ==> s.Known(x) && s.Pm(x).visited
    ensures View(s, k, n).Sweeps() > 2 ==> Open(s, k) == {}
  {
    var c := View(s, k, n);
    OpenIs(s, k, VictimOf(s, k, n));
    forall x | x in c.list[c.hand..c.limit] && x != k ensures s.Known(x) && s.Pm(x).visited {
      InWindow(c.list, c.hand, c.limit, x);
      MarkedUnlessOpen(s, k, x);
    }
  }

  lemma InWindow(list: seq<Key>, lo: nat, hi: nat, x: Key)
    requires lo <= hi <= |list| && x in list[lo..hi]
    ensures exists j :: lo <= j < hi && list[j] == x
  {
  }

  lemma MarkedUnlessOpen(s: State, k: Key, x: Key)
    requires s.Sound() && x in Listing(s) && x != k && x !in Open(s, k)
    ensures s.Known(x) && s.Pm(x).visited
  {
    OpenIs(s, k, x);
    LiveIn(s.P(), x);
  }

  // ---- one step -------------------------------------------------------------------

  /** x is listed and marked. */
  predicate Marked(s: State, x: Key) {
    Requester(s, x) && Some(x) in s.P() && s.Pm(x).visited
  }

  /** The step evicts an object. */
  predicate Evicts(s: State, step: Step, n: nat)
    requires WellFormed(s, n) && |s.instances| > 0 && Allowed(s, step, n)
  {
    step.SetSettles? && RouteOf(s, step.key, step.lambdaId) == Evicting
  }

  /** The objects whose marks the hand clears in this step. */
  function ClearedBy(s: State, step: Step, n: nat): set<Key>
    requires WellFormed(s, n) && |s.instances| > 0 && Allowed(s, step, n)
  {
    if Evicts(s, step, n) then View(s, step.key, n).Cleared() else {}
  }

  /** x keeps its place on the list, and its mark unless it is one of `cleared`. */
  predicate MarkKept(t: State, x: Key, cleared: set<Key>) {
    Requester(t, x) && Some(x) in t.P() && (t.Pm(x).visited <==> x !in cleared)
  }

  lemma SameListed(s: State, t: State, x: Key)
    requires Listing(t) == Listing(s) && Some(x) in s.P()
    ensures Some(x) in t.P()
  {
    LiveIn(s.P(), x);
    LiveIn(t.P(), x);
  }

  /** Marks in front of the victim. */
  lemma ChosenMarks(s: State, k: Key, n: nat, x: Key)
    requires Evictable(s, k, n) && Marked(s, x) && x != k
    ensures MarkKept(Chosen(s, k, n), x, View(s, k, n).Cleared())
  {
    var t := Chosen(s, k, n);
    ChosenSpec(s, k, n);
    ChosenView(s, k, n);
    SameListed(s, t, x);
    StillRequester(s, t, x);
    CandidateIs(s, k, x);
    CandidateIs(t, k, x);
  }

  lemma EvictOthers(t: State, k: Key, n: nat, x: Key, cleared: set<Key>)
    requires WellFormed(t, n) && Requester(t, k) && MarkKept(t, x, cleared) && x != k
    requires t.cursor < |t.P()| && AtTarget(t, k) && t.Pm(k).pos.At(t.primary) < |t.P()|
    requires x != t.P()[t.cursor].value
    ensures MarkKept(Evict(t, k), x, cleared)
  {
    EvictMarks(t, k);
    RequesterSlot(t, k, n);
    EvictSlots(t, k);
    OthersStay(t.P(), t.cursor, t.Pm(k).pos.At(t.primary), k, x);
  }

  /** The whole retry loop: the victim is gone, and others lose their marks exactly if the list clock clears them. */
  lemma RetryMarks(s: State, k: Key, n: nat, x: Key)
    requires Evictable(s, k, n) && Marked(s, x) && x != k && x != VictimOf(s, k, n)
    ensures MarkKept(Retry(s, k, n), x, View(s, k, n).Cleared())
  {
    ChosenMarks(s, k, n, x);
    ChosenSpec(s, k, n);
    RequesterSlot(Chosen(s, k, n), k, n);
    EvictOthers(Chosen(s, k, n), k, n, x, View(s, k, n).Cleared());
  }

  /** The requester itself ends up marked and listed, and its victim evicted. */
  lemma RequesterMarked(s: State, k: Key, n: nat)
    requires Evictable(s, k, n)
    ensures Marked(Retry(s, k, n), k) && k !in View(s, k, n).Cleared()
    ensures VictimOf(s, k, n) in Retry(s, k, n).store && Retry(s, k, n).store[VictimOf(s, k, n)].deleted
  {
    ChosenSpec(s, k, n);
    var t := Chosen(s, k, n);
    RequesterSlot(t, k, n);
    EvictMarks(t, k);
    EvictSlots(t, k);
    assert Evict(t, k).P()[t.cursor] == Some(k);
    assert k !in View(s, k, n).complete by {
      CandidateIs(s, k, k);
    }
    RetryGives(s, k, n);
  }

  /** The marks after settling by eviction are those after the retry loop. */
  lemma InheritMarks(s: State, key: Key, chunk: nat, n: nat, x: Key, cleared: set<Key>)
    requires Evictable(s, key, n) && chunk < n && MarkKept(Retry(s, key, n), x, cleared)
    ensures MarkKept(Inherited(s, key, chunk, n), x, cleared)
  {
    InheritFrame(s, key, chunk, n);
    var r := Retry(s, key, n);
    ConfirmMarks(r, Inherited(s, key, chunk, n), key, chunk, r.Pm(key).swapMap[chunk], x, cleared);
  }

  lemma ConfirmMarks(r: State, e: State, key: Key, chunk: nat, i: nat, x: Key, cleared: set<Key>)
    requires r.Known(key) && chunk < |r.Pm(key).confirmed| && chunk < |r.store[key].placement|
    requires e.objects == r.objects && e.primary == r.primary && e.store == Confirmed(r, key, chunk, i).store
    requires MarkKept(r, x, cleared)
    ensures MarkKept(e, x, cleared)
  {
  }

  lemma InheritedMarks(s: State, key: Key, chunk: nat, n: nat, x: Key)
    requires Evictable(s, key, n) && chunk < n && Marked(s, x)
    ensures x == VictimOf(s, key, n) ==>
              x in Inherited(s, key, chunk, n).store && Inherited(s, key, chunk, n).store[x].deleted
    ensures x != VictimOf(s, key, n) ==> MarkKept(Inherited(s, key, chunk, n), x, View(s, key, n).Cleared())
  {
    RequesterMarked(s, key, n);
    if x == VictimOf(s, key, n) {
      InheritFrame(s, key, chunk, n);
    } else {
      if x != key {
        RetryMarks(s, key, n, x);
      }
      InheritMarks(s, key, chunk, n, x, View(s, key, n).Cleared());
    }
  }

  lemma SliceMarks(s: State, key: Key, x: Key)
    requires key in s.store && |s.instances| > 0 && Marked(s, x)
    ensures Marked(WithSlice(s, key), x)
  {
  }

  lemma EvictingMarks(s: State, step: Step, n: nat, x: Key)
    requires Inv(s, n) && Allowed(s, step, n) && Evicts(s, step, n) && Marked(s, x)
    ensures var t := Apply(s, step, n);
            x in t.store && (t.store[x].deleted || MarkKept(t, x, ClearedBy(s, step, n)))
  {
    EvictingIs(s, step.key, step.chunk, step.lambdaId, n);
    SliceMarks(s, step.key, x);
    InheritedMarks(WithSlice(s, step.key), step.key, step.chunk, n, x);
  }

  lemma QuietMarks(s: State, step: Step, n: nat, x: Key)
    requires Inv(s, n) && Allowed(s, step, n) && !Evicts(s, step, n) && Marked(s, x)
    ensures MarkKept(Apply(s, step, n), x, {})
  {
    assert MetaOk(s, n, x);
    if step.SetSettles? && RouteOf(s, step.key, step.lambdaId).Placed? {
      PlacedMarks(s, step, n, x);
    }
  }

  lemma PlaceMarks(s: State, key: Key, chunk: nat, i: nat, x: Key)
    requires s.Known(key) && chunk < |s.Pm(key).confirmed| && chunk < |s.store[key].placement| && i < |s.instances|
    requires Marked(s, x)
    ensures MarkKept(Place(s, key, chunk, i), x, {})
  {
    var j :| 0 <= j < |s.P()| && s.P()[j] == Some(x);
    assert Place(s, key, chunk, i).P()[j] == Some(x);
  }

  lemma PlacedMarks(s: State, step: Step, n: nat, x: Key)
    requires Inv(s, n) && Allowed(s, step, n) && Marked(s, x)
    requires step.SetSettles? && RouteOf(s, step.key, step.lambdaId).Placed?
    ensures MarkKept(Apply(s, step, n), x, {})
  {
    assert MetaOk(s, n, step.key);
    SliceMarks(s, step.key, x);
    PlaceMarks(WithSlice(s, step.key), step.key, step.chunk, Assigned(s, step.key, step.lambdaId), x);
  }

  /** A step evicts a marked object, or clears its mark as the list clock says, or leaves it marked. */
  lemma StepMarks(s: State, step: Step, n: nat, x: Key)
    requires Inv(s, n) && Allowed(s, step, n) && Marked(s, x)
    ensures var t := Apply(s, step, n);
            x in t.store && (t.store[x].deleted || MarkKept(t, x, ClearedBy(s, step, n)))
  {
    if Evicts(s, step, n) {
      EvictingMarks(s, step, n, x);
    } else {
      QuietMarks(s, step, n, x);
    }
  }

  // ---- whole runs -----------------------------------------------------------------

  /** Using an object marks it: a get of a placed chunk, its first chunk placed, or an eviction on its behalf. */
  predicate Uses(s: State, step: Step, n: nat, x: Key)
    requires WellFormed(s, n) && |s.instances| > 0 && Allowed(s, step, n)
  {
    match step
    case SetBegins(_, _, _, _, _) => false
    case SetSettles(key, _, lambdaId) =>
      x == key && ((RouteOf(s, key, lambdaId).Placed? && s.Pm(key).numConfirmed == 0)
                   || RouteOf(s, key, lambdaId).Evicting?)
    case Gets(key, chunk) =>
      x == key && Requester(s, key) && (assert MetaOk(s, n, key); s.Pm(key).confirmed[chunk])
  }

  lemma {:induction false} CountPositive(flags: seq<bool>, c: nat)
    requires c < |flags| && flags[c]
    ensures Count(flags) > 0
  {
    if c < |flags| - 1 {
      CountPositive(flags[..|flags| - 1], c);
    }
  }

  lemma GetMarks(s: State, key: Key, chunk: nat, n: nat)
    requires Inv(s, n) && Requester(s, key) && MetaOk(s, n, key) && chunk < n && s.Pm(key).confirmed[chunk]
    ensures Marked(Touch(s, key, chunk), key)
  {
    CountPositive(s.Pm(key).confirmed, chunk);
  }

  lemma EnlistMarks(s: State, key: Key, chunk: nat, i: nat)
    requires s.Known(key) && chunk < |s.Pm(key).confirmed| && chunk < |s.store[key].placement| && i < |s.instances|
    requires s.Pm(key).pos.At(s.primary) == 0 && !s.store[key].deleted
    ensures Marked(Place(s, key, chunk, i), key)
  {
    var t := Place(s, key, chunk, i);
    assert t.P()[|s.P()|] == Some(key);
  }

  lemma FirstMarks(s: State, step: Step, n: nat)
    requires Inv(s, n) && Allowed(s, step, n) && step.SetSettles?
    requires RouteOf(s, step.key, step.lambdaId).Placed? && s.Pm(step.key).numConfirmed == 0
    ensures Marked(Apply(s, step, n), step.key)
  {
    assert MetaOk(s, n, step.key);
    RequesterSlot(s, step.key, n);
    EnlistMarks(WithSlice(s, step.key), step.key, step.chunk, Assigned(s, step.key, step.lambdaId));
  }

  lemma RequestMarks(s: State, step: Step, n: nat)
    requires Inv(s, n) && Allowed(s, step, n) && Evicts(s, step, n)
    ensures Marked(Apply(s, step, n), step.key)
  {
    var w := WithSlice(s, step.key);
    EvictingIs(s, step.key, step.chunk, step.lambdaId, n);
    RequesterMarked(w, step.key, n);
    InheritMarks(w, step.key, step.chunk, n, step.key, {});
  }

  lemma UseMarks(s: State, step: Step, n: nat, x: Key)
    requires Inv(s, n) && Allowed(s, step, n) && Uses(s, step, n, x)
    ensures Marked(Apply(s, step, n), x)
  {
    if step.Gets? {
      assert MetaOk(s, n, x);
      GetMarks(s, x, step.chunk, n);
    } else if Evicts(s, step, n) {
      RequestMarks(s, step, n);
    } else {
      FirstMarks(s, step, n);
    }
  }

  /** What a step means for marks: whom it uses, whose marks the hand clears, who is evicted, in how many sweeps. */
  datatype Account = Account(used: Option<Key>, cleared: set<Key>, victim: Option<Key>, sweeps: nat)

  ghost function AccountOf(s: State, step: Step, n: nat): Account
    requires WellFormed(s, n) && |s.instances| > 0 && Allowed(s, step, n)
  {
    Account(
      if Uses(s, step, n, step.key) then Some(step.key) else None,
      ClearedBy(s, step, n),
      if Evicts(s, step, n) then Some(VictimOf(s, step.key, n)) else None,
      if Evicts(s, step, n) then View(s, step.key, n).Sweeps() else 0)
  }

  /** The account of step m of a run; nothing is accounted to what is not a step. */
  ghost function At(trace: seq<State>, steps: seq<Step>, n: nat, m: nat): Account {
    if m < |steps| < |trace| && StepTo(trace[m], steps[m], trace[m + 1], n)
    then AccountOf(trace[m], steps[m], n)
    else Account(None, {}, None, 0)
  }

  /** A marked object that is evicted was cleared by an earlier sweep of the same call. */
  lemma VictimCleared(s: State, k: Key, n: nat)
    requires Evictable(s, k, n) && s.Pm(VictimOf(s, k, n)).visited
    ensures VictimOf(s, k, n) in View(s, k, n).Cleared() && View(s, k, n).Sweeps() > 1
  {
    var c := View(s, k, n);
    SecondChance(s, k, n);
    CandidateIs(s, k, VictimOf(s, k, n));
    assert c.list[c.Last().Stop()] in c.Last().open;
  }

  /** Only marked objects are cleared. */
  lemma ClearedWereMarked(s: State, step: Step, n: nat, x: Key)
    requires Inv(s, n) && Allowed(s, step, n) && x in ClearedBy(s, step, n)
    ensures Marked(s, x)
  {
    CandidateIs(s, step.key, x);
    assert x in View(s, step.key, n).complete;
  }

  /** A step from one state of a run to the next. */
  lemma MarkStep(s: State, step: Step, t: State, n: nat, x: Key)
    requires StepTo(s, step, t, n) && Marked(s, x) && (x in t.store ==> !t.store[x].deleted)
    ensures Marked(t, x) || x in AccountOf(s, step, n).cleared
  {
    StepMarks(s, step, n, x);
  }

  lemma MarkStepAt(trace: seq<State>, steps: seq<Step>, n: nat, m: nat, x: Key)
    requires IsRun(trace, steps, n) && m < |steps| && Marked(trace[m], x)
    requires x in trace[m + 1].store ==> !trace[m + 1].store[x].deleted
    ensures Marked(trace[m + 1], x) || x in At(trace, steps, n, m).cleared
  {
    RunAt(trace, steps, n, m);
    MarkStep(trace[m], steps[m], trace[m + 1], n, x);
  }

  /** x is not evicted in the states from i to j. */
  ghost predicate Stays(trace: seq<State>, i: nat, j: nat, x: Key)
    requires i <= j < |trace|
  {
    forall m :: i <= m <= j && x in trace[m].store ==> !trace[m].store[x].deleted
  }

  /** As long as it is not evicted, an object stays marked until the hand clears it, at step m, or up to step j. */
  lemma {:induction false} RunMarks(trace: seq<State>, steps: seq<Step>, n: nat, i: nat, j: nat, x: Key)
    returns (m: nat)
    requires IsRun(trace, steps, n) && i <= j <= |steps| && Marked(trace[i], x) && Stays(trace, i, j, x)
    ensures i <= m <= j && if m < j then x in At(trace, steps, n, m).cleared else Marked(trace[j], x)
    decreases j - i
  {
    if i == j || x in At(trace, steps, n, i).cleared {
      m := i;
    } else {
      MarkStepAt(trace, steps, n, i, x);
      m := RunMarks(trace, steps, n, i + 1, j, x);
    }
  }

  lemma VictimClearedAt(trace: seq<State>, steps: seq<Step>, n: nat, j: nat, x: Key)
    requires At(trace, steps, n, j).victim == Some(x) && j < |trace| && Marked(trace[j], x)
    ensures x in At(trace, steps, n, j).cleared && At(trace, steps, n, j).sweeps > 1
  {
    VictimCleared(trace[j], steps[j].key, n);
  }

  /**
   Second chance over whole runs: between any moment at which an object is marked and its
   eviction, the hand clears its mark, in a sweep before the one that evicts it.
   */
  lemma RunSecondChance(trace: seq<State>, steps: seq<Step>, n: nat, i: nat, j: nat, x: Key) returns (m: nat)
    requires IsRun(trace, steps, n) && i <= j < |steps| && Marked(trace[i], x) && Stays(trace, i, j, x)
    requires At(trace, steps, n, j).victim == Some(x)
    ensures i <= m <= j && x in At(trace, steps, n, m).cleared && (m < j || At(trace, steps, n, j).sweeps > 1)
  {
    m := RunMarks(trace, steps, n, i, j, x);
    if m == j {
      VictimClearedAt(trace, steps, n, j, x);
    }
  }

  /** The step uses x and leads to t. */
  ghost predicate UsedTo(s: State, step: Step, t: State, n: nat, x: Key) {
    StepTo(s, step, t, n) && AccountOf(s, step, n).used == Some(x)
  }

  lemma UsedMarks(s: State, step: Step, t: State, n: nat, x: Key)
    requires UsedTo(s, step, t, n, x)
    ensures Marked(t, x)
  {
    UseMarks(s, step, n, x);
  }

  /** In particular for an object that was used by the step that led to state i. */
  lemma UsedGetsSecondChance(
    s: State, step: Step, trace: seq<State>, steps: seq<Step>, n: nat, i: nat, j: nat, x: Key) returns (m: nat)
    requires IsRun(trace, steps, n) && i <= j < |steps| && Stays(trace, i, j, x)
    requires UsedTo(s, step, trace[i], n, x) && At(trace, steps, n, j).victim == Some(x)
    ensures i <= m <= j && x in At(trace, steps, n, m).cleared && (m < j || At(trace, steps, n, j).sweeps > 1)
  {
    UsedMarks(s, step, trace[i], n, x);
    m := RunSecondChance(trace, steps, n, i, j, x);
  }
}
