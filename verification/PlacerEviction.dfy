/**
 The eviction loop of the placer: one sweep as a step of the single-list clock, the
 object the repeated sweeps settle on, and exactly when they settle at all.
 */
module PlacerEviction {
  import opened Basics
  import opened PlacerModel
  import opened PlacerClock

  // ---- the single-list clock, seen by one requester -------------------------------

  /**
   The list, the part of it that is still ahead of the hand in this sweep, the
   unmarked objects and the complete ones; the requester is in neither set.
   */
  datatype Clock = Clock(list: seq<Key>, hand: nat, limit: nat, open: set<Key>, complete: set<Key>) {
    predicate Valid() {
      hand <= limit <= |list| && open <= complete <= Keys(list)
    }

    /** The index at which this sweep finds a victim, or the end of the sweep. */
    function Stop(): (j: nat)
      requires Valid()
      ensures hand <= j <= limit
    {
      First(list, hand, limit, open)
    }

    /** The unmarked objects after this sweep, if it finds nothing. */
    function OpenNext(): set<Key>
      requires Valid()
    {
      open + complete * Keys(list[hand..limit])
    }

    /** The clock after this sweep, if it finds nothing. */
    function Rewound(): (c: Clock)
      requires Valid()
      ensures c.Valid()
    {
      Clock(list, 0, |list|, OpenNext(), complete)
    }

    /** How many sweeps are needed, if any number is enough. */
    function Sweeps(): (r: nat)
      requires Valid()
      ensures 1 <= r <= 3
    {
      if Stop() < limit then 1 else if OpenNext() != {} then 2 else 3
    }

    predicate EndsWithin(sweeps: nat)
      requires Valid()
    {
      complete != {} && Sweeps() <= sweeps
    }

    /** The object that gives way: three preferences, in order. */
    function Victim(): (v: nat)
      requires Valid()
      ensures v <= |list|
    {
      if Stop() < limit then Stop()
      else if OpenNext() != {} then First(list, 0, |list|, OpenNext())
      else First(list, 0, |list|, complete)
    }

    /** The clock of the sweep that finds the victim. */
    function Last(): (c: Clock)
      requires Valid() && complete != {}
      ensures c.Valid() && c.list == list && c.complete == complete && open <= c.open
      ensures c.Stop() < c.limit && c.Stop() == Victim()
      decreases Sweeps()
    {
      if Stop() < limit then this
      else
        RewoundSpec(this);
        Rewound().Last()
    }

    /** The clock with the hand stopped in front of what this sweep finds. */
    function Stopped(): (c: Clock)
      requires Valid()
      ensures c.Valid()
    {
      Clock(list, Stop(), limit, open + complete * Keys(list[hand..Stop()]), complete)
    }

    /** The objects whose marks are cleared before the victim is found. */
    function Cleared(): set<Key>
      requires Valid() && complete != {}
    {
      Last().Stopped().open - open
    }

    /** The clock after the victim has given its place to k, which was not listed ahead of it. */
    function Evicted(k: Key): Clock
      requires Valid() && complete != {}
    {
      var c, v := Last().Stopped(), Victim();
      Clock(list[..v] + [k] + Without(list[v + 1..], k), v + 1, v + 1 + |Without(list[v + 1..c.limit], k)|,
            c.open - {list[v]}, complete - {list[v]})
    }
  }

  lemma Whole(c: Clock)
    requires c.Valid() && c.hand == 0 && c.limit == |c.list|
    ensures c.Stop() < |c.list| <==> c.open != {}
    ensures c.OpenNext() == c.complete
  {
  }

  /** A sweep without a victim leaves one sweep fewer to go and the same preferred victim. */
  lemma RewoundSpec(c: Clock)
    requires c.Valid() && c.Stop() == c.limit && c.complete != {}
    ensures c.Rewound().Sweeps() == c.Sweeps() - 1
    ensures c.Rewound().Victim() == c.Victim()
  {
  }

  lemma EndsLater(c: Clock, sweeps: nat)
    requires c.Valid() && c.Stop() == c.limit && sweeps > 0
    ensures c.EndsWithin(sweeps) <==> c.Rewound().EndsWithin(sweeps - 1)
  {
  }

  lemma VictimIn(c: Clock)
    requires c.Valid() && c.complete != {}
    ensures c.Victim() < |c.list| && c.list[c.Victim()] in c.complete
  {
  }

  // ---- a placer state as a clock --------------------------------------------------

  predicate HandOk(s: State) {
    s.Sound() && s.cursor <= |s.P()| && (s.cursor != 0 ==> s.cursor <= s.cursorBound <= |s.P()|)
  }

  function ClockOf(s: State, k: Key): Clock
    requires HandOk(s)
  {
    Clock(Listing(s), Hand(s), Limit(s), Open(s, k), Complete(s, k))
  }

  /** The view is a valid clock: unmarked listed objects are complete. */
  lemma ClockValid(s: State, k: Key, n: nat)
    requires WellFormed(s, n)
    ensures HandOk(s) && ClockOf(s, k).Valid()
  {
    LiveMonotone(s.P(), s.cursor, if s.cursor == 0 then 0 else s.cursorBound);
    forall x | x in Open(s, k) ensures x in Complete(s, k) {
      OpenIs(s, k, x);
      LiveIn(s.P(), x);
      assert MetaOk(s, n, x);
    }
    forall x | x in Complete(s, k) ensures x in Listing(s) {
      OpenIs(s, k, x);
    }
  }

  lemma BeginSpec(s: State, k: Key, n: nat)
    requires WellFormed(s, n)
    ensures WellFormed(Begin(s), n) && Begin(s).cursor != 0
    ensures Begin(s).P() == s.P() && Begin(s).store == s.store && SameObjects(s, Begin(s))
    ensures ClockOf(Begin(s), k) == ClockOf(s, k)
  {
    if s.cursor == 0 {
      var b := Begin(s);
      assert s.P()[..1] == [None];
      assert s.P()[..|s.P()|] == s.P();
      assert b.S() == [None] + Slots(Live(s.P()[..1]));
      forall y | y in b.store ensures MetaOk(b, n, y) {
        assert MetaOk(s, n, y);
      }
    }
  }

  /** A sweep runs to the first unmarked object ahead of the hand and unmarks the complete ones it passes. */
  lemma SweepSpec(s: State, k: Key, n: nat, c: Clock)
    requires WellFormed(s, n) && HandOk(s) && c == ClockOf(s, k) && c.Valid()
    ensures var t := Skip(Begin(s), k);
            && WellFormed(t, n)
            && t.cursor != 0
            && SameObjects(s, t)
            && Hand(t) == c.Stop()
            && (t.cursor < t.cursorBound <==> c.Stop() < c.limit)
            && Marks(s, t, c.complete * Keys(c.list[c.hand..c.Stop()]))
  {
    var b := Begin(s);
    BeginSpec(s, k, n);
    SkipSpec(b, k, n);
    SkipWell(b, k, n);
    SkipSame(b, k);
  }

  lemma Chain(s: State, t: State, f: State, cleared: set<Key>)
    requires SameObjects(s, t) && SameObjects(t, f)
    requires Marks(s, t, cleared) && Marks(t, f, {})
    ensures SameObjects(s, f) && Marks(s, f, cleared)
  {
    forall x | x in s.store ensures Unclocked(f.store[x]) == Unclocked(s.store[x]) {
      assert Unclocked(t.store[x]) == Unclocked(s.store[x]);
    }
  }

  lemma StillRequester(s: State, t: State, k: Key)
    requires SameObjects(s, t) && Requester(s, k)
    ensures Requester(t, k)
  {
  }

  /** A sweep finds a victim exactly when the clock does. */
  lemma PassFinds(s: State, k: Key, n: nat, c: Clock)
    requires WellFormed(s, n) && Requester(s, k)
    requires HandOk(s) && c == ClockOf(s, k) && c.Valid()
    ensures CanSweep(s, k)
    ensures Pass(s, k).1 <==> c.Stop() < c.limit
  {
    RequesterSlot(s, k, n);
    SweepSpec(s, k, n, c);
  }

  /** A sweep without a victim rewinds the clock: same list, same order, covered complete objects unmarked. */
  lemma PassMisses(s: State, k: Key, n: nat, c: Clock)
    requires WellFormed(s, n) && Requester(s, k)
    requires HandOk(s) && c == ClockOf(s, k) && c.Valid() && c.Stop() == c.limit
    ensures CanSweep(s, k) && !Pass(s, k).1
    ensures WellFormed(Pass(s, k).0, n) && SameObjects(s, Pass(s, k).0) && Requester(Pass(s, k).0, k)
    ensures HandOk(Pass(s, k).0) && ClockOf(Pass(s, k).0, k) == c.Rewound()
  {
    PassFinds(s, k, n, c);
    var cleared := c.complete * Keys(c.list[c.hand..c.limit]);
    MissEffect(s, k, n, c);
    var f := Pass(s, k).0;
    CandidatesMove(s, f, k, cleared);
    StillRequester(s, f, k);
  }

  lemma MissEffect(s: State, k: Key, n: nat, c: Clock)
    requires WellFormed(s, n) && CanSweep(s, k) && !Pass(s, k).1
    requires HandOk(s) && c == ClockOf(s, k) && c.Valid()
    ensures WellFormed(Pass(s, k).0, n) && Pass(s, k).0.cursor == 0
    ensures SameObjects(s, Pass(s, k).0)
    ensures Marks(s, Pass(s, k).0, c.complete * Keys(c.list[c.hand..c.limit]))
  {
    SweepSpec(s, k, n, c);
    var t := Skip(Begin(s), k);
    FinishSpec(t, n);
    assert c.Stop() == c.limit;
    Chain(s, t, Finish(t), c.complete * Keys(c.list[c.hand..c.Stop()]));
  }

  // ---- the retry loop -------------------------------------------------------------

  /** k can be given a victim eventually. */
  predicate Evictable(s: State, k: Key, n: nat) {
    WellFormed(s, n) && Requester(s, k) && Complete(s, k) != {}
  }

  function View(s: State, k: Key, n: nat): (c: Clock)
    requires WellFormed(s, n)
    ensures c.Valid() && HandOk(s) && c == ClockOf(s, k)
  {
    ClockValid(s, k, n);
    ClockOf(s, k)
  }

  /** The state in which the retry loop stops in front of its victim. */
  function Chosen(s: State, k: Key, n: nat): (t: State)
    requires Evictable(s, k, n)
    decreases View(s, k, n).Sweeps()
  {
    var c := View(s, k, n);
    if c.Stop() < c.limit then Skip(Begin(s), k)
    else
      PassMisses(s, k, n, c);
      RewoundSpec(c);
      Chosen(Pass(s, k).0, k, n)
  }

  /** t is s with the hand stopped in front of list index v, apart from marks and arrays. */
  predicate StoppedAt(s: State, t: State, k: Key, n: nat, v: nat) {
    && WellFormed(t, n) && SameObjects(s, t) && Requester(t, k)
    && 0 < t.cursor < t.cursorBound && AtTarget(t, k)
    && v < |Listing(s)|
    && Hand(t) == v
    && t.P()[t.cursor] == Some(Listing(s)[v])
  }

  lemma StopsHere(s: State, k: Key, n: nat, c: Clock)
    requires WellFormed(s, n) && Requester(s, k)
    requires HandOk(s) && c == ClockOf(s, k) && c.Valid() && c.Stop() < c.limit
    ensures StoppedAt(s, Skip(Begin(s), k), k, n, c.Stop())
  {
    SweepSpec(s, k, n, c);
    BeginBounds(s);
    SkipStops(Begin(s), k);
    StoppedIf(s, Skip(Begin(s), k), k, n);
  }

  lemma BeginBounds(s: State)
    requires HandOk(s)
    ensures Begin(s).Sound() && Begin(s).cursor <= Begin(s).cursorBound <= |Begin(s).P()|
  {
  }

  lemma StoppedIf(s: State, t: State, k: Key, n: nat)
    requires WellFormed(t, n) && SameObjects(s, t) && Requester(s, k)
    requires 0 < t.cursor < t.cursorBound && AtTarget(t, k)
    ensures StoppedAt(s, t, k, n, Hand(t))
  {
    StillRequester(s, t, k);
    AtHand(s, t);
  }

  /** A sweep that ends early has reached a target. */
  lemma SkipStops(s: State, k: Key)
    requires s.Sound() && s.cursor <= s.cursorBound <= |s.P()|
    ensures Skip(s, k).Sound() && Skip(s, k).cursorBound <= |Skip(s, k).P()|
    ensures Skip(s, k).cursor < Skip(s, k).cursorBound ==> AtTarget(Skip(s, k), k)
  {
  }

  lemma AtHand(s: State, t: State)
    requires SameObjects(s, t) && 0 < t.cursor < |t.P()| && t.P()[t.cursor].Some?
    ensures Hand(t) < |Listing(s)| && t.P()[t.cursor] == Some(Listing(s)[Hand(t)])
  {
    LiveAt(t.P(), t.cursor);
  }

  lemma StopsLater(s: State, f: State, t: State, k: Key, n: nat, v: nat)
    requires SameObjects(s, f) && StoppedAt(f, t, k, n, v)
    ensures StoppedAt(s, t, k, n, v)
  {
  }

  /** The repeated sweeps stop in front of the preferred victim and touch nothing but marks and arrays. */
  lemma {:induction false} ChosenSpec(s: State, k: Key, n: nat)
    requires Evictable(s, k, n)
    ensures StoppedAt(s, Chosen(s, k, n), k, n, View(s, k, n).Victim())
    decreases View(s, k, n).Sweeps()
  {
    var c := View(s, k, n);
    if c.Stop() < c.limit {
      StopsHere(s, k, n, c);
    } else {
      PassMisses(s, k, n, c);
      RewoundSpec(c);
      ChosenSpec(Pass(s, k).0, k, n);
      StopsLater(s, Pass(s, k).0, Chosen(s, k, n), k, n, c.Victim());
    }
  }

  /** The retry loop as a whole: it gives the preferred victim's slot and placement to k. */
  function Retry(s: State, k: Key, n: nat): State
    requires Evictable(s, k, n)
  {
    ChosenSpec(s, k, n);
    RequesterSlot(Chosen(s, k, n), k, n);
    Evict(Chosen(s, k, n), k)
  }

  /** The state after a sweep without a victim. */
  function Missed(s: State, k: Key, n: nat): (f: State)
    requires WellFormed(s, n) && Requester(s, k)
    requires View(s, k, n).Stop() == View(s, k, n).limit
    ensures WellFormed(f, n) && Requester(f, k)
    ensures View(f, k, n) == View(s, k, n).Rewound()
  {
    PassMisses(s, k, n, View(s, k, n));
    Pass(s, k).0
  }

  /** The loop ends within the given number of sweeps. */
  predicate FoundWithin(s: State, k: Key, n: nat, sweeps: nat)
    requires WellFormed(s, n) && Requester(s, k)
    decreases sweeps
  {
    PassFinds(s, k, n, View(s, k, n));
    sweeps > 0 && (Pass(s, k).1 || FoundWithin(Missed(s, k, n), k, n, sweeps - 1))
  }

  lemma FoundLater(s: State, k: Key, n: nat, sweeps: nat)
    requires WellFormed(s, n) && Requester(s, k) && sweeps > 0
    requires View(s, k, n).Stop() == View(s, k, n).limit
    ensures FoundWithin(s, k, n, sweeps) == FoundWithin(Missed(s, k, n), k, n, sweeps - 1)
  {
    PassFinds(s, k, n, View(s, k, n));
  }

  lemma FoundNow(s: State, k: Key, n: nat, sweeps: nat)
    requires WellFormed(s, n) && Requester(s, k) && sweeps > 0
    requires View(s, k, n).Stop() < View(s, k, n).limit
    ensures FoundWithin(s, k, n, sweeps) && View(s, k, n).EndsWithin(sweeps)
  {
    var c := View(s, k, n);
    PassFinds(s, k, n, c);
    assert c.list[c.Stop()] in c.complete;
  }

  /** The loop ends exactly when some complete object other than k is listed, after `Sweeps` <= 3 sweeps. */
  lemma {:induction false} RetryEnds(s: State, k: Key, n: nat, sweeps: nat)
    requires WellFormed(s, n) && Requester(s, k)
    ensures FoundWithin(s, k, n, sweeps) <==> View(s, k, n).EndsWithin(sweeps)
    decreases sweeps
  {
    var c := View(s, k, n);
    if sweeps == 0 {
    } else if c.Stop() < c.limit {
      FoundNow(s, k, n, sweeps);
    } else {
      FoundLater(s, k, n, sweeps);
      RetryEnds(Missed(s, k, n), k, n, sweeps - 1);
      EndsLater(c, sweeps);
    }
  }

  /** k is listed ahead of the object that gives way to it. */
  predicate ListedBeforeVictim(s: State, k: Key, n: nat)
    requires Evictable(s, k, n)
  {
    k in Listing(s)[..View(s, k, n).Victim()]
  }

  /** The eviction keeps the clock well-formed exactly when k is not listed ahead of its victim. */
  lemma RetryKeepsIff(s: State, k: Key, n: nat)
    requires Evictable(s, k, n)
    ensures WellFormed(Retry(s, k, n), n) <==> !ListedBeforeVictim(s, k, n)
    ensures !ListedBeforeVictim(s, k, n) ==>
              var v := View(s, k, n).Victim();
              && v < |Listing(s)|
              && Listing(Retry(s, k, n)) == Listing(s)[..v] + [k] + Without(Listing(s)[v + 1..], k)
              && Hand(Retry(s, k, n)) == v + 1
  {
    ChosenSpec(s, k, n);
    var t := Chosen(s, k, n);
    RequesterSlot(t, k, n);
    LiveAt(t.P(), t.cursor);
    LiveIn(t.P()[..t.cursor], k);
    if ListedBeforeVictim(s, k, n) {
      EvictBreaks(t, k, n);
    } else {
      EvictKeeps(t, k, n);
      EvictListing(t, k, n);
      EvictCompacted(t, k, n);
    }
  }

  /** The object that gives way when key's chunk is settled by an eviction. */
  function VictimOf(s: State, key: Key, n: nat): (m: Key)
    requires Evictable(s, key, n)
    ensures m in s.store && s.Known(m) && m != key && m in Listing(s)
  {
    var c := View(s, key, n);
    VictimIn(c);
    OpenIs(s, key, c.list[c.Victim()]);
    c.list[c.Victim()]
  }

  // ---- the clock after an eviction ------------------------------------------------

  lemma StopsView(s: State, k: Key, n: nat, c: Clock)
    requires WellFormed(s, n) && HandOk(s) && c == ClockOf(s, k) && c.Valid() && c.Stop() < c.limit
    ensures HandOk(Skip(Begin(s), k)) && ClockOf(Skip(Begin(s), k), k) == c.Stopped()
  {
    SweepSpec(s, k, n, c);
    BeginSpec(s, k, n);
    CandidatesMove(s, Skip(Begin(s), k), k, c.complete * Keys(c.list[c.hand..c.Stop()]));
  }

  /** The view in which the repeated sweeps stop, with exactly the marks cleared that the list clock clears. */
  lemma {:induction false} ChosenView(s: State, k: Key, n: nat)
    requires Evictable(s, k, n)
    ensures HandOk(Chosen(s, k, n)) && ClockOf(Chosen(s, k, n), k) == View(s, k, n).Last().Stopped()
    decreases View(s, k, n).Sweeps()
  {
    var c := View(s, k, n);
    if c.Stop() < c.limit {
      StopsView(s, k, n, c);
    } else {
      PassMisses(s, k, n, c);
      RewoundSpec(c);
      ChosenView(Pass(s, k).0, k, n);
    }
  }

  lemma EvictView(t: State, k: Key, n: nat, c: Clock)
    requires WellFormed(t, n) && Requester(t, k) && HandOk(t) && c == ClockOf(t, k)
    requires 0 < t.cursor < t.cursorBound && AtTarget(t, k) && Some(k) !in t.P()[..t.cursor]
    requires t.Pm(k).pos.At(t.primary) < |t.P()|
    ensures var e := Evict(t, k);
            && HandOk(e) && c.hand < c.limit <= |c.list|
            && ClockOf(e, k) == Clock(c.list[..c.hand] + [k] + Without(c.list[c.hand + 1..], k), c.hand + 1,
                                      c.hand + 1 + |Without(c.list[c.hand + 1..c.limit], k)|,
                                      c.open - {c.list[c.hand]}, c.complete - {c.list[c.hand]})
  {
    EvictKeeps(t, k, n);
    EvictListing(t, k, n);
    EvictCompacted(t, k, n);
    EvictLimit(t, k, n);
    EvictCandidates(t, k, n);
    LiveAt(t.P(), t.cursor);
  }

  /** After an eviction that keeps the clock, the view is the list clock's: list, hand, limit and marks. */
  lemma RetryView(s: State, k: Key, n: nat)
    requires Evictable(s, k, n) && !ListedBeforeVictim(s, k, n)
    ensures WellFormed(Retry(s, k, n), n)
    ensures View(Retry(s, k, n), k, n) == View(s, k, n).Evicted(k)
  {
    RetryKeepsIff(s, k, n);
    ChosenSpec(s, k, n);
    ChosenView(s, k, n);
    var t := Chosen(s, k, n);
    RequesterSlot(t, k, n);
    LiveAt(t.P(), t.cursor);
    LiveIn(t.P()[..t.cursor], k);
    EvictView(t, k, n, View(s, k, n).Last().Stopped());
  }
}
