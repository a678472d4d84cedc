/**
 The two-array sweep refines a plain single-list clock. The list is the occupied
 slots of the primary array; the hand and the end of the sweep are indices into it.
 */
module PlacerClock {
  import opened Basics
  import opened PlacerModel

  /** The clock list: the listed objects, in order. */
  function Listing(s: State): seq<Key> {
    Live(s.P())
  }

  /** How many listed objects the hand has passed in this sweep. */
  function Hand(s: State): nat
    requires s.cursor <= |s.P()|
  {
    if s.cursor == 0 then 0 else |Live(s.P()[..s.cursor])|
  }

  /** How many listed objects this sweep covers. */
  function Limit(s: State): nat
    requires s.cursor != 0 ==> s.cursorBound <= |s.P()|
  {
    if s.cursor == 0 then |Listing(s)| else |Live(s.P()[..s.cursorBound])|
  }

  /** The compacted array is the occupied swept slots, in order, behind the reserved slot. */
  predicate Compacted(s: State) {
    s.cursor != 0 ==>
      && s.cursor <= |s.P()|
      && s.S() == [None] + Slots(Live(s.P()[..s.cursor]))
  }

  predicate BackPointers(s: State) {
    && (forall i :: 0 <= i < |s.P()| && s.P()[i].Some? ==>
          var x := s.P()[i].value;
          s.Known(x) && !s.store[x].deleted && s.Pm(x).pos.At(s.primary) == i)
    && (s.cursor != 0 ==>
          forall j :: 0 <= j < |s.S()| && s.S()[j].Some? ==>
            s.Known(s.S()[j].value) && s.Pm(s.S()[j].value).pos.At(s.Secondary()) == j)
  }

  function Count(flags: seq<bool>): nat {
    if flags == [] then 0
    else Count(flags[..|flags| - 1]) + if flags[|flags| - 1] then 1 else 0
  }

  predicate MetaOk(s: State, n: nat, x: Key)
    requires x in s.store
  {
    var meta := s.store[x];
    && |meta.placement| == n
    && (meta.placerMeta.Some? ==>
          var pm := meta.placerMeta.value;
          && |pm.confirmed| == n
          && pm.numConfirmed == Count(pm.confirmed)
          && (|pm.swapMap| == 0 || |pm.swapMap| == n)
          && (forall c :: 0 <= c < |pm.swapMap| ==> pm.swapMap[c] < |s.instances|)
          && (forall c :: 0 <= c < n && pm.confirmed[c] ==> meta.placement[c] < |s.instances|)
          && (!meta.deleted && Some(x) !in s.P() ==> pm.pos == Two(0, 0) && pm.swapMap == [])
          && (!meta.deleted && Some(x) in s.P() && !pm.visited ==> pm.AllConfirmed()))
  }

  /** Well-formedness apart from the end of the sweep. */
  predicate Clean(s: State, n: nat) {
    && |s.P()| >= 1 && s.P()[0].None?
    && Compacted(s)
    && BackPointers(s)
    && forall x :: x in s.store ==> MetaOk(s, n, x)
  }

  /** Well-formedness of the clock with n chunks per object. */
  predicate WellFormed(s: State, n: nat) {
    && Clean(s, n)
    && (s.cursor != 0 ==> s.cursor <= s.cursorBound <= |s.P()|)
  }

  /** Listed objects other than k that are not marked visited. */
  function Open(s: State, k: Key): set<Key>
    requires s.Sound()
  {
    set slot | slot in s.P() && slot.Some? && slot.value != k && !s.Pm(slot.value).visited :: slot.value
  }

  /** Listed objects other than k whose chunks are all confirmed. */
  function Complete(s: State, k: Key): set<Key>
    requires s.Sound()
  {
    set slot | slot in s.P() && slot.Some? && slot.value != k && s.Pm(slot.value).AllConfirmed() :: slot.value
  }

  function Keys(items: seq<Key>): set<Key> {
    set x | x in items
  }

  /** A metadata record up to its clock mark and its array positions. */
  function Unclocked(meta: Meta): Meta {
    if meta.placerMeta.None? then meta
    else meta.(placerMeta := Some(meta.placerMeta.value.(visited := false, pos := Two(0, 0))))
  }

  /** t differs from s at most in marks, positions, the arrays and the hand, and lists the same objects. */
  predicate SameObjects(s: State, t: State) {
    && t.store.Keys == s.store.Keys
    && (forall x :: x in s.store ==> Unclocked(t.store[x]) == Unclocked(s.store[x]))
    && t.instances == s.instances && t.sliceBase == s.sliceBase
    && Listing(t) == Listing(s)
  }

  /** Marks of t are those of s, cleared for exactly the objects of `cleared`. */
  ghost predicate Marks(s: State, t: State, cleared: set<Key>) {
    forall x :: s.Known(x) && t.Known(x) ==> t.Pm(x).visited == (s.Pm(x).visited && x !in cleared)
  }

  // ---- one slot -------------------------------------------------------------------

  /** The object under the hand has not been compacted yet. */
  lemma NotKeptYet(s: State)
    requires Compacted(s) && BackPointers(s) && 0 < s.cursor < |s.P()| && s.P()[s.cursor].Some?
    ensures s.P()[s.cursor] !in s.S()
  {
    var x, live := s.P()[s.cursor].value, Live(s.P()[..s.cursor]);
    LiveIn(s.P()[..s.cursor], x);
    assert x !in live;
    assert forall j :: 0 < j < |s.S()| ==> s.S()[j] == Some(live[j - 1]);
  }

  /** Keeping the object under the hand extends the compacted prefix by it. */
  lemma KeepClean(s: State, n: nat)
    requires Clean(s, n) && 0 < s.cursor < |s.P()| && s.P()[s.cursor].Some?
    ensures Clean(Keep(s, s.P()[s.cursor].value), n)
    ensures Hand(Keep(s, s.P()[s.cursor].value)) == Hand(s) + 1
  {
    var x := s.P()[s.cursor].value;
    var t := Keep(s, x);
    LiveSnoc(s.P(), s.cursor);
    assert t.P() == s.P() && t.S() == s.S() + [Some(x)];
    assert t.S() == [None] + Slots(Live(s.P()[..s.cursor]) + [x]);
    NotKeptYet(s);
    forall y | y in t.store ensures MetaOk(t, n, y) {
      assert MetaOk(s, n, y);
    }
  }

  lemma ListingDistinct(s: State)
    requires BackPointers(s)
    ensures Distinct(Listing(s))
  {
    LiveDistinct(s.P());
  }

  /** What the hand clears at the slot under it. */
  function Clears(s: State, k: Key): set<Key>
    requires s.Sound() && s.cursor < |s.P()|
  {
    var slot := s.P()[s.cursor];
    if slot.Some? && slot.value != k && s.Pm(slot.value).AllConfirmed() then {slot.value} else {}
  }

  /** Clearing the mark of a complete listed object keeps well-formedness. */
  lemma UnmarkClean(s: State, n: nat, x: Key)
    requires Clean(s, n) && s.Known(x) && s.Pm(x).AllConfirmed()
    ensures Clean(s.WithPm(x, s.Pm(x).(visited := false)), n)
  {
    var t := s.WithPm(x, s.Pm(x).(visited := false));
    assert t.P() == s.P() && t.S() == s.S();
    forall y | y in t.store ensures MetaOk(t, n, y) {
      assert MetaOk(s, n, y);
    }
  }

  /** Stepping over an empty slot keeps well-formedness. */
  lemma HoleClean(s: State, n: nat)
    requires Clean(s, n) && 0 < s.cursor < |s.P()| && s.P()[s.cursor].None?
    ensures Clean(s.(cursor := s.cursor + 1), n)
  {
    var t := s.(cursor := s.cursor + 1);
    LiveSnoc(s.P(), s.cursor);
    assert t.P() == s.P() && t.S() == s.S();
    forall y | y in t.store ensures MetaOk(t, n, y) {
      assert MetaOk(s, n, y);
    }
  }

  lemma VisitClean(s: State, k: Key, n: nat)
    requires Clean(s, n) && 0 < s.cursor < |s.P()| && !AtTarget(s, k)
    ensures Clean(Visit(s, k), n)
    ensures Hand(Visit(s, k)) == Hand(s) + if s.P()[s.cursor].Some? then 1 else 0
  {
    LiveSnoc(s.P(), s.cursor);
    var slot := s.P()[s.cursor];
    var t := Visit(s, k);
    if slot.None? {
      HoleClean(s, n);
    } else if slot.value != k && s.Pm(slot.value).AllConfirmed() {
      UnmarkClean(s, n, slot.value);
      KeepClean(s.WithPm(slot.value, s.Pm(slot.value).(visited := false)), n);
    } else {
      KeepClean(s, n);
    }
  }

  lemma VisitEffect(s: State, k: Key)
    requires s.Sound() && s.cursor < |s.P()| && !AtTarget(s, k)
    ensures Visit(s, k).P() == s.P() && Visit(s, k).primary == s.primary
    ensures SameObjects(s, Visit(s, k))
    ensures Marks(s, Visit(s, k), Clears(s, k))
  {
  }

  lemma OpenIs(s: State, k: Key, x: Key)
    requires s.Sound()
    ensures x in Open(s, k) <==> x in Listing(s) && x != k && s.Known(x) && !s.Pm(x).visited
    ensures x in Complete(s, k) <==> x in Listing(s) && x != k && s.Known(x) && s.Pm(x).AllConfirmed()
  {
    LiveIn(s.P(), x);
    if x in Open(s, k) {
      var slot :| slot in s.P() && slot.Some? && slot.value != k && !s.Pm(slot.value).visited && slot.value == x;
      assert slot == Some(x);
    }
    if x in Complete(s, k) {
      var slot :| slot in s.P() && slot.Some? && slot.value != k && s.Pm(slot.value).AllConfirmed() && slot.value == x;
      assert slot == Some(x);
    }
  }

  /** How the candidate sets move with the marks. */
  lemma CandidatesMove(s: State, t: State, k: Key, cleared: set<Key>)
    requires s.Sound() && t.Sound() && SameObjects(s, t) && Marks(s, t, cleared)
    requires cleared <= Complete(s, k)
    ensures Complete(t, k) == Complete(s, k)
    ensures Open(t, k) == Open(s, k) + cleared
  {
    forall x ensures x in Complete(t, k) <==> x in Complete(s, k)
             ensures x in Open(t, k) <==> x in Open(s, k) + cleared
    {
      OpenIs(s, k, x);
      OpenIs(t, k, x);
      LiveIn(s.P(), x);
      if x in s.store {
        assert Unclocked(t.store[x]) == Unclocked(s.store[x]);
      }
    }
  }

  lemma LiveMonotone(slots: seq<Option<Key>>, i: nat, j: nat)
    requires i <= j <= |slots|
    ensures |Live(slots[..i])| <= |Live(slots[..j])| <= |Live(slots)|
    ensures i < j && slots[i].Some? ==> |Live(slots[..i])| < |Live(slots[..j])|
  {
    LiveSplit(slots[..j], i);
    assert slots[..j][..i] == slots[..i];
    LiveSplit(slots, j);
    if i < j {
      LiveAt(slots[..j], i);
    }
  }

  lemma {:induction false} SkipWell(s: State, k: Key, n: nat)
    requires WellFormed(s, n) && s.cursor != 0
    ensures WellFormed(Skip(s, k), n)
    decreases s.cursorBound - s.cursor
  {
    if s.cursor < s.cursorBound && !AtTarget(s, k) {
      VisitClean(s, k, n);
      SkipWell(Visit(s, k), k, n);
    }
  }

  lemma {:induction false} SkipSame(s: State, k: Key)
    requires s.Sound() && s.cursor <= s.cursorBound <= |s.P()|
    ensures SameObjects(s, Skip(s, k))
    decreases s.cursorBound - s.cursor
  {
    if s.cursor < s.cursorBound && !AtTarget(s, k) {
      VisitEffect(s, k);
      SkipSame(Visit(s, k), k);
    }
  }

  /** The sweep stops at the first open object from the hand on, clearing the complete ones it passes. */
  ghost predicate SkipsTo(s: State, k: Key, t: State) {
    && s.Sound() && s.cursor <= |s.P()| && (s.cursor != 0 ==> s.cursorBound <= |s.P()|) && t.cursor <= |t.P()|
    && Hand(s) <= Limit(s) <= |Listing(s)|
    && Hand(t) == First(Listing(s), Hand(s), Limit(s), Open(s, k))
    && (t.cursor < s.cursorBound <==> Hand(t) < Limit(s))
    && Marks(s, t, Complete(s, k) * Keys(Listing(s)[Hand(s)..Hand(t)]))
  }

  lemma {:induction false} SkipSpec(s: State, k: Key, n: nat)
    requires WellFormed(s, n) && s.cursor != 0
    ensures SkipsTo(s, k, Skip(s, k))
    decreases s.cursorBound - s.cursor
  {
    LiveMonotone(s.P(), s.cursor, s.cursorBound);
    if s.cursor < s.cursorBound && !AtTarget(s, k) {
      VisitClean(s, k, n);
      VisitEffect(s, k);
      SkipSpec(Visit(s, k), k, n);
      SkipStep(s, k, n, Hand(Skip(s, k)));
      SkipBack(s, Visit(s, k), Skip(s, k), k, Clears(s, k));
    } else {
      SkipEnds(s, k);
    }
  }

  lemma SkipEnds(s: State, k: Key)
    requires s.Sound() && 0 < s.cursor <= s.cursorBound <= |s.P()| && Hand(s) <= Limit(s) <= |Listing(s)|
    requires s.cursor < s.cursorBound ==> AtTarget(s, k)
    ensures SkipsTo(s, k, s)
  {
    if s.cursor < s.cursorBound {
      LiveMonotone(s.P(), s.cursor, s.cursorBound);
      LiveAt(s.P(), s.cursor);
      OpenIs(s, k, Listing(s)[Hand(s)]);
    }
  }

  /** What the rest of a sweep does from the next slot on, it does from here. */
  lemma SkipBack(s: State, v: State, t: State, k: Key, cleared: set<Key>)
    requires s.Sound() && s.cursor <= |s.P()| && (s.cursor != 0 ==> s.cursorBound <= |s.P()|)
    requires SameObjects(s, v) && Marks(s, v, cleared) && SkipsTo(v, k, t) && v.cursorBound == s.cursorBound
    requires Listing(v) == Listing(s) && Limit(v) == Limit(s) && Hand(s) <= Hand(t) && Complete(v, k) == Complete(s, k)
    requires First(Listing(s), Hand(s), Limit(s), Open(s, k)) == First(Listing(s), Hand(v), Limit(s), Open(v, k))
    requires cleared + Complete(s, k) * Keys(Listing(s)[Hand(v)..Hand(t)])
          == Complete(s, k) * Keys(Listing(s)[Hand(s)..Hand(t)])
    ensures SkipsTo(s, k, t)
  {
  }

  lemma KeysFront(list: seq<Key>, h: nat, end: nat)
    requires h < end <= |list|
    ensures Keys(list[h..end]) == {list[h]} + Keys(list[h + 1..end])
  {
  }

  /** Carries the effect of the rest of a sweep back over one slot. */
  lemma SkipStep(s: State, k: Key, n: nat, end: nat)
    requires WellFormed(s, n) && 0 < s.cursor < s.cursorBound && !AtTarget(s, k)
    requires WellFormed(Visit(s, k), n) && SameObjects(s, Visit(s, k)) && Marks(s, Visit(s, k), Clears(s, k))
    requires Hand(Visit(s, k)) <= end <= Limit(s) <= |Listing(s)|
    ensures Complete(Visit(s, k), k) == Complete(s, k)
    ensures First(Listing(s), Hand(s), Limit(s), Open(s, k))
         == First(Listing(s), Hand(Visit(s, k)), Limit(s), Open(Visit(s, k), k))
    ensures Hand(s) <= end
    ensures Clears(s, k) + Complete(s, k) * Keys(Listing(s)[Hand(Visit(s, k))..end])
         == Complete(s, k) * Keys(Listing(s)[Hand(s)..end])
  {
    var t := Visit(s, k);
    var list, h, limit := Listing(s), Hand(s), Limit(s);
    VisitClean(s, k, n);
    LiveAt(s.P(), s.cursor);
    ListingDistinct(s);
    var slot := s.P()[s.cursor];
    if slot.Some? {
      OpenIs(s, k, slot.value);
      KeysFront(list, h, end);
    }
    CandidatesMove(s, t, k, Clears(s, k));
    FirstAgrees(list, Hand(t), limit, Open(s, k), Open(t, k));
  }

  // ---- the end of a sweep ---------------------------------------------------------

  lemma {:induction false} TailClean(s: State, n: nat)
    requires Clean(s, n) && s.cursor != 0
    ensures Clean(Tail(s), n)
    ensures Tail(s).P() == s.P() && Tail(s).primary == s.primary && Tail(s).cursor == |s.P()|
    decreases |s.P()| - s.cursor
  {
    if s.cursor < |s.P()| {
      if s.P()[s.cursor].None? {
        HoleClean(s, n);
        TailClean(s.(cursor := s.cursor + 1), n);
      } else {
        KeepClean(s, n);
        TailClean(Keep(s, s.P()[s.cursor].value), n);
      }
    }
  }

  lemma {:induction false} TailSame(s: State)
    requires s.Sound() && s.cursor <= |s.P()|
    ensures SameObjects(s, Tail(s)) && Marks(s, Tail(s), {})
    decreases |s.P()| - s.cursor
  {
    if s.cursor < |s.P()| {
      CopySame(s);
      TailSame(Copy(s));
      SameThrough(s, Copy(s), Tail(s));
    }
  }

  lemma CopySame(s: State)
    requires s.Sound() && s.cursor < |s.P()|
    ensures SameObjects(s, Copy(s)) && Marks(s, Copy(s), {})
  {
  }

  lemma SameThrough(s: State, m: State, t: State)
    requires SameObjects(s, m) && Marks(s, m, {}) && SameObjects(m, t) && Marks(m, t, {})
    ensures SameObjects(s, t) && Marks(s, t, {})
  {
    forall x | x in s.store ensures Unclocked(t.store[x]) == Unclocked(s.store[x]) {
      assert Unclocked(m.store[x]) == Unclocked(s.store[x]);
    }
  }

  /** The end-of-sweep swap keeps the clock list and its order. */
  lemma FinishSpec(s: State, n: nat)
    requires Clean(s, n) && s.cursor != 0
    ensures WellFormed(Finish(s), n) && Finish(s).cursor == 0
    ensures SameObjects(s, Finish(s)) && Marks(s, Finish(s), {})
  {
    var t, f := Tail(s), Finish(s);
    TailClean(s, n);
    TailSame(s);
    assert t.P()[..t.cursor] == t.P();
    assert f.P() == t.S() == [None] + Slots(Listing(t));
    LiveConcat([None], Slots(Listing(t)));
    LiveSlots(Listing(t));
    forall x ensures Some(x) in f.P() <==> Some(x) in t.P() {
      LiveIn(f.P(), x);
      LiveIn(t.P(), x);
    }
    forall i | 0 <= i < |f.P()| && f.P()[i].Some?
      ensures f.Known(f.P()[i].value) && !f.store[f.P()[i].value].deleted
      ensures f.Pm(f.P()[i].value).pos.At(f.primary) == i
    {
      assert Some(f.P()[i].value) in t.P();
    }
    forall y | y in f.store ensures MetaOk(f, n, y) {
      assert MetaOk(t, n, y);
    }
  }

  // ---- the eviction ---------------------------------------------------------------

  lemma {:induction false} CountBound(flags: seq<bool>)
    ensures Count(flags) <= |flags|
    ensures Count(flags) == |flags| <==> forall c :: 0 <= c < |flags| ==> flags[c]
    ensures Count(flags) == 0 <==> forall c :: 0 <= c < |flags| ==> !flags[c]
  {
    if flags != [] {
      var init := flags[..|flags| - 1];
      CountBound(init);
      assert flags == init + [flags[|flags| - 1]];
    }
  }

  /** k may ask for a victim: it has placer metadata and is not evicted itself. */
  predicate Requester(s: State, k: Key) {
    s.Known(k) && !s.store[k].deleted
  }

  /** The slot k would give up: its position if listed, the reserved slot otherwise. */
  lemma RequesterSlot(s: State, k: Key, n: nat)
    requires WellFormed(s, n) && Requester(s, k)
    ensures s.Sound() && s.Pm(k).pos.At(s.primary) < |s.P()|
    ensures s.P()[s.Pm(k).pos.At(s.primary)] == if Some(k) in s.P() then Some(k) else None
    ensures Some(k) !in s.P() ==> s.Pm(k).pos.At(s.primary) == 0
  {
  }

  lemma VictimPlacement(s: State, k: Key, n: nat)
    requires WellFormed(s, n) && s.cursor < |s.P()| && AtTarget(s, k)
    ensures var m := s.P()[s.cursor].value;
            && s.Pm(m).AllConfirmed()
            && |s.store[m].placement| == n
            && forall c :: 0 <= c < n ==> s.Pm(m).confirmed[c] && s.store[m].placement[c] < |s.instances|
  {
    var m := s.P()[s.cursor].value;
    assert MetaOk(s, n, m);
    CountBound(s.Pm(m).confirmed);
  }

  /** The primary array after the eviction, and its clock list, when k is not among the swept slots. */
  lemma EvictListing(s: State, k: Key, n: nat)
    requires WellFormed(s, n) && Requester(s, k)
    requires 0 < s.cursor < s.cursorBound && AtTarget(s, k)
    requires Some(k) !in s.P()[..s.cursor]
    requires s.Pm(k).pos.At(s.primary) < |s.P()|
    ensures var e, h := Evict(s, k), Hand(s);
            && h < |Listing(s)|
            && |e.P()| == |s.P()|
            && e.P()[..s.cursor] == s.P()[..s.cursor]
            && e.P()[s.cursor] == Some(k)
            && Listing(e) == Listing(s)[..h] + [k] + Without(Listing(s)[h + 1..], k)
  {
    RequesterAlone(s, k, n);
    EvictSlots(s, k);
    Replaced(s.P(), s.cursor, s.Pm(k).pos.At(s.primary), k);
  }

  lemma EvictSlots(s: State, k: Key)
    requires s.Sound() && s.Known(k) && s.cursor < |s.P()| && AtTarget(s, k) && s.Pm(k).pos.At(s.primary) < |s.P()|
    ensures Evict(s, k).P() == s.P()[s.Pm(k).pos.At(s.primary) := None][s.cursor := Some(k)]
    ensures Evict(s, k).cursorBound == s.cursorBound && Evict(s, k).cursor == s.cursor + 1
  {
  }

  /** The only slot that k can have is the one it points back to, and that is ahead of the hand. */
  lemma RequesterAlone(s: State, k: Key, n: nat)
    requires WellFormed(s, n) && Requester(s, k) && 0 < s.cursor < |s.P()| && Some(k) !in s.P()[..s.cursor]
    requires s.P()[s.cursor] != Some(k)
    ensures s.Sound() && s.Pm(k).pos.At(s.primary) < |s.P()|
    ensures Replaceable(s.P(), s.cursor, s.Pm(k).pos.At(s.primary), k)
  {
  }

  predicate Replaceable(slots: seq<Option<Key>>, c: nat, p: nat, x: Key) {
    && 0 < c < |slots| && slots[c] != Some(x) && p < |slots|
    && ((p == 0 && slots[p].None? && Some(x) !in slots) || (c < p && slots[p] == Some(x)))
    && forall i :: 0 <= i < |slots| && slots[i] == Some(x) ==> i == p
  }

  lemma Replaced(slots: seq<Option<Key>>, c: nat, p: nat, x: Key)
    requires Replaceable(slots, c, p, x) && slots[c].Some?
    ensures var h, after := |Live(slots[..c])|, slots[p := None][c := Some(x)];
            && h < |Live(slots)|
            && after[..c] == slots[..c] && after[c] == Some(x)
            && Live(after) == Live(slots)[..h] + [x] + Without(Live(slots)[h + 1..], x)
  {
    LiveReplace(slots, c, p, x);
  }

  lemma EvictCompacted(s: State, k: Key, n: nat)
    requires WellFormed(s, n) && Requester(s, k)
    requires 0 < s.cursor < s.cursorBound && AtTarget(s, k)
    requires Some(k) !in s.P()[..s.cursor]
    requires s.Pm(k).pos.At(s.primary) < |s.P()|
    ensures Compacted(Evict(s, k)) && Some(k) !in s.S()
    ensures Hand(Evict(s, k)) == Hand(s) + 1
  {
    var e, c := Evict(s, k), s.cursor;
    EvictListing(s, k, n);
    LiveSnoc(e.P(), c);
    LiveIn(s.P()[..c], k);
    assert e.S() == [None] + Slots(Live(s.P()[..c]) + [k]);
  }

  lemma EvictPointers(s: State, k: Key, n: nat)
    requires WellFormed(s, n) && Requester(s, k)
    requires 0 < s.cursor < s.cursorBound && AtTarget(s, k)
    requires s.Pm(k).pos.At(s.primary) < |s.P()|
    requires Some(k) !in s.S()
    ensures BackPointers(Evict(s, k)) && Evict(s, k).P()[0].None?
  {
    var e, c, m := Evict(s, k), s.cursor, s.P()[s.cursor].value;
    RequesterSlot(s, k, n);
    forall i | 0 <= i < |e.P()| && e.P()[i].Some?
      ensures e.Known(e.P()[i].value) && !e.store[e.P()[i].value].deleted
      ensures e.Pm(e.P()[i].value).pos.At(e.primary) == i
    {
      assert i == c || e.P()[i] == s.P()[i];
    }
  }

  /** An eviction for a requester outside the swept slots keeps the clock well-formed. */
  lemma EvictKeeps(s: State, k: Key, n: nat)
    requires WellFormed(s, n) && Requester(s, k)
    requires 0 < s.cursor < s.cursorBound && AtTarget(s, k)
    requires Some(k) !in s.P()[..s.cursor]
    requires s.Pm(k).pos.At(s.primary) < |s.P()|
    ensures WellFormed(Evict(s, k), n)
  {
    EvictCompacted(s, k, n);
    EvictPointers(s, k, n);
    forall y | y in Evict(s, k).store ensures MetaOk(Evict(s, k), n, y) {
      EvictMeta(s, k, n, y);
    }
  }

  lemma EvictMeta(s: State, k: Key, n: nat, y: Key)
    requires WellFormed(s, n) && Requester(s, k) && y in s.store
    requires 0 < s.cursor < s.cursorBound && AtTarget(s, k)
    requires s.Pm(k).pos.At(s.primary) < |s.P()|
    ensures MetaOk(Evict(s, k), n, y)
  {
    var e, c := Evict(s, k), s.cursor;
    assert MetaOk(s, n, y);
    VictimPlacement(s, k, n);
    RequesterSlot(s, k, n);
    EvictSlots(s, k);
    assert e.P()[c] == Some(k);
    if y != k && y != s.P()[c].value && Some(y) in s.P() {
      var i :| 0 <= i < |s.P()| && s.P()[i] == Some(y);
      assert e.P()[i] == Some(y);
    }
  }

  lemma PrefixReplaced(slots: seq<Option<Key>>, c: nat, p: nat, b: nat, x: Key)
    requires Replaceable(slots, c, p, x) && slots[c].Some? && c < b <= |slots| && slots[0].None?
    ensures var h, l := |Live(slots[..c])|, |Live(slots[..b])|;
            && h < l <= |Live(slots)|
            && |Live(slots[p := None][c := Some(x)][..b])| == h + 1 + |Without(Live(slots)[h + 1..l], x)|
  {
    var front, q := slots[..b], if p < b then p else 0;
    assert front[..c] == slots[..c];
    assert slots[p := None][c := Some(x)][..b] == front[q := None][c := Some(x)];
    Replaced(front, c, q, x);
    LiveSplit(slots, b);
    var h, l := |Live(slots[..c])|, |Live(front)|;
    assert Live(slots)[h + 1..l] == Live(front)[h + 1..];
  }

  /** How much of the list this sweep still covers after an eviction. */
  lemma EvictLimit(s: State, k: Key, n: nat)
    requires WellFormed(s, n) && Requester(s, k)
    requires 0 < s.cursor < s.cursorBound && AtTarget(s, k)
    requires Some(k) !in s.P()[..s.cursor]
    requires s.Pm(k).pos.At(s.primary) < |s.P()|
    ensures Hand(s) < Limit(s) <= |Listing(s)|
    ensures Evict(s, k).cursorBound <= |Evict(s, k).P()|
    ensures Limit(Evict(s, k)) == Hand(s) + 1 + |Without(Listing(s)[Hand(s) + 1..Limit(s)], k)|
  {
    RequesterAlone(s, k, n);
    EvictSlotsLimit(s, k);
  }

  lemma EvictSlotsLimit(s: State, k: Key)
    requires s.Sound() && s.Known(k) && 0 < s.cursor < s.cursorBound <= |s.P()| && s.P()[0].None? && AtTarget(s, k)
    requires s.Pm(k).pos.At(s.primary) < |s.P()| && Replaceable(s.P(), s.cursor, s.Pm(k).pos.At(s.primary), k)
    ensures Hand(s) < Limit(s) <= |Listing(s)|
    ensures Evict(s, k).cursorBound <= |Evict(s, k).P()|
    ensures Limit(Evict(s, k)) == Hand(s) + 1 + |Without(Listing(s)[Hand(s) + 1..Limit(s)], k)|
  {
    EvictSlots(s, k);
    PrefixReplaced(s.P(), s.cursor, s.Pm(k).pos.At(s.primary), s.cursorBound, k);
  }

  lemma EvictMarks(s: State, k: Key)
    requires s.Sound() && s.Known(k) && s.cursor < |s.P()| && AtTarget(s, k) && s.Pm(k).pos.At(s.primary) < |s.P()|
    ensures var e := Evict(s, k);
            && e.Known(k) && e.Pm(k).visited
            && forall x :: s.Known(x) && x != k ==>
                 e.Known(x) && e.Pm(x).visited == s.Pm(x).visited && e.Pm(x).AllConfirmed() == s.Pm(x).AllConfirmed()
  {
  }

  /** An eviction takes the victim from the candidates, and nothing else changes for the requester. */
  lemma EvictCandidates(s: State, k: Key, n: nat)
    requires WellFormed(s, n) && Requester(s, k)
    requires 0 < s.cursor < s.cursorBound && AtTarget(s, k)
    requires s.Pm(k).pos.At(s.primary) < |s.P()| && Evict(s, k).Sound()
    ensures Open(Evict(s, k), k) == Open(s, k) - {s.P()[s.cursor].value}
    ensures Complete(Evict(s, k), k) == Complete(s, k) - {s.P()[s.cursor].value}
  {
    var e, m := Evict(s, k), s.P()[s.cursor].value;
    EvictMarks(s, k);
    RequesterSlot(s, k, n);
    EvictSlots(s, k);
    forall x | x != k ensures Some(x) in e.P() <==> Some(x) in s.P() && x != m {
      OthersStay(s.P(), s.cursor, s.Pm(k).pos.At(s.primary), k, x);
    }
    forall x ensures x in Open(e, k) <==> x in Open(s, k) && x != m
             ensures x in Complete(e, k) <==> x in Complete(s, k) && x != m
    {
      CandidateIs(e, k, x);
      CandidateIs(s, k, x);
    }
  }

  lemma OthersStay(slots: seq<Option<Key>>, c: nat, p: nat, k: Key, x: Key)
    requires c < |slots| && p < |slots| && x != k && slots[c].Some? && (slots[p].None? || slots[p] == Some(k))
    requires forall i :: 0 <= i < |slots| && slots[i] == slots[c] ==> i == c
    ensures Some(x) in slots[p := None][c := Some(k)] <==> Some(x) in slots && x != slots[c].value
  {
    var after := slots[p := None][c := Some(k)];
    if Some(x) in slots && x != slots[c].value {
      var i :| 0 <= i < |slots| && slots[i] == Some(x);
      assert after[i] == Some(x);
    }
  }

  lemma CandidateIs(s: State, k: Key, x: Key)
    requires s.Sound()
    ensures x in Open(s, k) <==> Some(x) in s.P() && x != k && !s.Pm(x).visited
    ensures x in Complete(s, k) <==> Some(x) in s.P() && x != k && s.Pm(x).AllConfirmed()
  {
    OpenIs(s, k, x);
    LiveIn(s.P(), x);
  }

  /** An eviction for a requester among the swept slots leaves it compacted twice. */
  lemma EvictBreaks(s: State, k: Key, n: nat)
    requires WellFormed(s, n) && Requester(s, k)
    requires 0 < s.cursor < s.cursorBound && AtTarget(s, k)
    requires Some(k) in s.P()[..s.cursor]
    requires s.Pm(k).pos.At(s.primary) < |s.P()|
    ensures !Compacted(Evict(s, k))
    ensures Some(k) in s.S() && Evict(s, k).S() == s.S() + [Some(k)]
  {
    var e, c, p := Evict(s, k), s.cursor, s.Pm(k).pos.At(s.primary);
    var i :| 0 <= i < c && s.P()[..c][i] == Some(k);
    assert s.P()[i] == Some(k);
    LiveIn(s.P()[..c], k);
    var live := Live(s.P()[..c]);
    var j :| 0 <= j < |live| && live[j] == k;
    assert s.S()[j + 1] == Some(k);
    var before := s.P()[..c];
    RequesterSlot(s, k, n);
    assert e.P()[..c] == before[p := None];
    LiveShrinks(before, p);
    LiveSnoc(e.P(), c);
  }
}
