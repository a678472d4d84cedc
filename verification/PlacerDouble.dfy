/** What comes of an eviction for an object that is listed ahead of its victim: the object ends up listed twice. */
module PlacerDouble {
  import opened Basics
  import opened PlacerModel
  import opened PlacerClock
  import opened PlacerEviction
  import opened PlacerSteps
  import opened PlacerRun

  predicate Twice<T(==)>(items: seq<T>, x: T) {
    exists i, j :: 0 <= i < j < |items| && items[i] == items[j] == x
  }

  /** The sweep is under way and has compacted k twice. */
  predicate TwiceCompacted(s: State, k: Key) {
    s.cursor != 0 && Twice(s.S(), Some(k))
  }

  lemma TwiceLonger<T>(items: seq<T>, longer: seq<T>, x: T)
    requires items <= longer && Twice(items, x)
    ensures Twice(longer, x)
  {
    var i, j :| 0 <= i < j < |items| && items[i] == items[j] == x;
    assert longer[i] == longer[j] == x;
  }

  lemma TwiceLive(slots: seq<Option<Key>>, x: Key)
    requires Twice(slots, Some(x))
    ensures Twice(Live(slots), x)
  {
    var i, j :| 0 <= i < j < |slots| && slots[i] == slots[j] == Some(x);
    LiveAt(slots, i);
    LiveAt(slots, j);
    LiveMonotone(slots, i, j);
    assert Live(slots)[|Live(slots[..i])|] == Live(slots)[|Live(slots[..j])|] == x;
  }

  lemma {:induction false} SkipAppends(s: State, q: Key)
    requires s.Sound() && s.cursor <= s.cursorBound <= |s.P()|
    ensures s.S() <= Skip(s, q).S()
    decreases s.cursorBound - s.cursor
  {
    if s.cursor < s.cursorBound && !AtTarget(s, q) {
      assert s.S() <= Visit(s, q).S();
      SkipAppends(Visit(s, q), q);
    }
  }

  lemma {:induction false} TailAppends(s: State)
    requires s.Sound() && s.cursor <= |s.P()|
    ensures s.S() <= Tail(s).S()
    decreases |s.P()| - s.cursor
  {
    if s.cursor < |s.P()| {
      assert s.S() <= Copy(s).S();
      TailAppends(Copy(s));
    }
  }

  lemma EvictAppends(s: State, q: Key)
    requires s.Sound() && s.Known(q) && s.cursor < |s.P()| && AtTarget(s, q) && s.Pm(q).pos.At(s.primary) < |s.P()|
    ensures s.S() <= Evict(s, q).S() && Evict(s, q).cursor != 0
  {
  }

  /** The rest of the sweep keeps it so, whoever it is run for, and its end puts the object on the list twice. */
  lemma PassKeepsTwice(s: State, q: Key, k: Key)
    requires CanSweep(s, q) && TwiceCompacted(s, k)
    ensures if Pass(s, q).1 then TwiceCompacted(Pass(s, q).0, k) else Twice(Listing(Pass(s, q).0), k)
  {
    PassUnfolds(s, q);
    var t := Skip(s, q);
    SkipAppends(s, q);
    if t.cursor < t.cursorBound {
      EvictAppends(t, q);
      TwiceLonger(s.S(), Evict(t, q).S(), Some(k));
    } else {
      TailAppends(t);
      TwiceLonger(s.S(), Tail(t).S(), Some(k));
      TwiceLive(Tail(t).S(), k);
    }
  }

  lemma RetryTwice(s: State, k: Key, n: nat)
    requires Evictable(s, k, n) && ListedBeforeVictim(s, k, n)
    ensures TwiceCompacted(Retry(s, k, n), k)
  {
    CompactedTwice(s, k, n);
  }

  lemma EvictSweeps(t: State, k: Key)
    requires t.Sound() && t.Known(k) && t.cursor < t.cursorBound <= |t.P()| && AtTarget(t, k)
    requires t.Pm(k).pos.At(t.primary) < |t.P()|
    ensures CanSweep(Evict(t, k), k)
  {
    var e := Evict(t, k);
    EvictSlots(t, k);
    EvictMarks(t, k);
    assert forall i :: 0 <= i < |e.P()| ==> e.P()[i].None? || e.P()[i] == Some(k) || e.P()[i] == t.P()[i];
  }

  lemma RetrySweeps(s: State, k: Key, n: nat)
    requires Evictable(s, k, n)
    ensures CanSweep(Retry(s, k, n), k)
  {
    ChosenSpec(s, k, n);
    RequesterSlot(Chosen(s, k, n), k, n);
    EvictSweeps(Chosen(s, k, n), k);
  }

  lemma SameArrays(r: State, e: State, k: Key)
    requires TwiceCompacted(r, k) && CanSweep(r, k) && e.objects == r.objects && e.primary == r.primary
    requires e.cursor == r.cursor && e.cursorBound == r.cursorBound
    requires forall x :: r.Known(x) ==> e.Known(x) && e.Pm(x).pos == r.Pm(x).pos
    ensures TwiceCompacted(e, k) && CanSweep(e, k)
  {
  }

  lemma InheritTwice(s: State, key: Key, chunk: nat, n: nat)
    requires Evictable(s, key, n) && ListedBeforeVictim(s, key, n) && chunk < n
    ensures TwiceCompacted(Inherited(s, key, chunk, n), key) && CanSweep(Inherited(s, key, chunk, n), key)
  {
    RetryTwice(s, key, n);
    RetrySweeps(s, key, n);
    InheritFrame(s, key, chunk, n);
    SameArrays(Retry(s, key, n), Inherited(s, key, chunk, n), key);
  }

  /** Settling a chunk that lists its object twice: from then on, no end of the sweep leaves a proper list. */
  lemma SettleTwice(s: State, key: Key, chunk: nat, lambdaId: nat, n: nat)
    requires Inv(s, n) && CanSettle(s, key, chunk, lambdaId, n) && DoubleLists(s, key, chunk, lambdaId, n)
    ensures TwiceCompacted(Settle(s, key, chunk, lambdaId, n), key)
    ensures CanSweep(Settle(s, key, chunk, lambdaId, n), key)
  {
    EvictingIs(s, key, chunk, lambdaId, n);
    InheritTwice(WithSlice(s, key), key, chunk, n);
  }
}
