/**
 Whole runs of the placer: every interleaving of the atomic steps of any number of
 clients, from a freshly created placer.
 */
module PlacerRun {
  import opened Basics
  import opened PlacerModel
  import opened PlacerClock
  import opened PlacerEviction
  import opened PlacerSteps

  /** An object that is not evicted is listed exactly when it has a confirmed chunk. */
  ghost predicate Counted(s: State) {
    forall x :: Requester(s, x) ==> (s.Pm(x).numConfirmed > 0 <==> Some(x) in s.P())
  }

  ghost predicate Inv(s: State, n: nat) {
    WellFormed(s, n) && Counted(s) && |s.instances| > 0
  }

  // ---- admitting a chunk ----------------------------------------------------------

  /** Filing a record for an unlisted object keeps well-formedness. */
  lemma UnlistedKeeps(s: State, key: Key, meta: Meta, n: nat)
    requires WellFormed(s, n) && Some(key) !in s.P()
    requires MetaOk(Refile(s, key, meta), n, key)
    ensures WellFormed(Refile(s, key, meta), n)
  {
    var t := Refile(s, key, meta);
    assert t.P() == s.P() && t.S() == s.S();
    if s.cursor != 0 {
      LiveIn(s.P()[..s.cursor], key);
      assert Some(key) !in s.S();
    }
    forall y | y in t.store ensures MetaOk(t, n, y) {
      assert y != key ==> MetaOk(s, n, y);
    }
  }

  lemma NewOk(s: State, key: Key, meta: Meta, n: nat)
    requires WellFormed(s, n) && |meta.placement| == n && meta.placerMeta == Some(NewPlacerMeta(n))
    requires Some(key) !in s.P()
    ensures WellFormed(Refile(s, key, meta), n)
  {
    CountBound(NewPlacerMeta(n).confirmed);
    UnlistedKeeps(s, key, meta, n);
  }

  /** An object without placer metadata, or evicted, is not listed. */
  lemma AdmitFresh(s: State, key: Key, chunk: nat, offered: Meta, n: nat)
    requires Inv(s, n) && |offered.placement| == n
    requires Revived(s, key, offered).placerMeta.None?
    ensures Some(key) !in s.P()
    ensures Inv(Admit(s, key, chunk, offered), n)
  {
    if key in s.store {
      assert MetaOk(s, n, key);
    }
    var t := Admit(s, key, chunk, offered);
    NewOk(s, key, t.store[key], n);
    assert t.P() == s.P();
  }

  lemma AdmitKeeps(s: State, key: Key, chunk: nat, offered: Meta, n: nat)
    requires Inv(s, n) && chunk < n
    requires |offered.placement| == n && offered.placerMeta.None?
    ensures var m := Revived(s, key, offered);
            m.placerMeta.Some? ==> chunk < |m.placerMeta.value.confirmed|
    ensures Inv(Admit(s, key, chunk, offered), n)
  {
    var m := Revived(s, key, offered);
    if m.placerMeta.None? {
      AdmitFresh(s, key, chunk, offered, n);
    } else {
      AdmitKnown(s, key, chunk, offered, n);
    }
  }

  /** An object that has placer metadata and is not evicted. */
  lemma AdmitKnown(s: State, key: Key, chunk: nat, offered: Meta, n: nat)
    requires Inv(s, n) && chunk < n && Revived(s, key, offered).placerMeta.Some? && offered.placerMeta.None?
    ensures chunk < |Revived(s, key, offered).placerMeta.value.confirmed|
    ensures Inv(Admit(s, key, chunk, offered), n)
  {
    assert MetaOk(s, n, key);
    var t := Admit(s, key, chunk, offered);
    assert t.store[key] == s.store[key].(reset := t.store[key].reset) && t.P() == s.P();
    assert MetaOk(t, n, key);
    RefileKeeps(s, t, key, n);
  }

  /**
   What admitting a chunk does to the records: a chunk that was set before flags its object; an object
   that is new or was evicted starts over with nothing confirmed and nothing inherited; otherwise, and
   to other objects, nothing happens.
   */
  lemma AdmitEffect(s: State, key: Key, chunk: nat, offered: Meta, n: nat)
    requires Inv(s, n) && chunk < n && Unplaced(offered, n)
    ensures var t := Admitted(s, key, chunk, offered, n);
            && t.store.Keys == s.store.Keys + {key}
            && (forall x :: x in s.store && x != key ==> t.store[x] == s.store[x])
            && t.objects == s.objects && t.instances == s.instances && t.sliceBase == s.sliceBase
            && t.Known(key) && !t.store[key].deleted && |t.Pm(key).confirmed| == n
            && (SetBefore(s, key, chunk, offered) ==>
                  key in s.store && t.store[key] == s.store[key].(reset := true) && t.Pm(key).confirmed[chunk])
            && (key !in s.store || s.store[key].deleted || s.store[key].placerMeta.None? ==>
                  && t.Pm(key).numConfirmed == 0 && t.Pm(key).swapMap == []
                  && (forall c :: 0 <= c < n ==> !t.Pm(key).confirmed[c])
                  && Unclocked(t.store[key]).(placerMeta := None) ==
                       (if key in s.store then s.store[key] else offered).(placerMeta := None, deleted := false))
            && (Requester(s, key) && !SetBefore(s, key, chunk, offered) ==> t == s)
  {
    if key in s.store {
      assert MetaOk(s, n, key);
    }
  }

  // ---- settling a chunk -----------------------------------------------------------

  lemma {:induction false} CountSet(flags: seq<bool>, c: nat)
    requires c < |flags| && !flags[c]
    ensures Count(flags[c := true]) == Count(flags) + 1
  {
    var last := |flags| - 1;
    if c < last {
      CountSet(flags[..last], c);
      assert flags[c := true][..last] == flags[..last][c := true];
    } else {
      assert flags[c := true][..last] == flags[..last];
    }
  }

  lemma ConfirmedKeeps(s: State, key: Key, chunk: nat, i: nat, n: nat)
    requires WellFormed(s, n) && s.Known(key) && MetaOk(s, n, key)
    requires chunk < n && !s.Pm(key).confirmed[chunk] && i < |s.instances|
    ensures WellFormed(Confirmed(s, key, chunk, i), n)
    ensures Confirmed(s, key, chunk, i).Pm(key).numConfirmed == s.Pm(key).numConfirmed + 1
  {
    var t := Confirmed(s, key, chunk, i);
    CountSet(s.Pm(key).confirmed, chunk);
    CountBound(t.Pm(key).confirmed);
    assert MetaOk(t, n, key);
    RefileKeeps(s, t, key, n);
  }

  lemma AddKeeps(s: State, key: Key, n: nat)
    requires WellFormed(s, n) && Requester(s, key) && Some(key) !in s.P()
    ensures WellFormed(AddObject(s, key), n)
    ensures Listing(AddObject(s, key)) == Listing(s) + [key]
  {
    var t := AddObject(s, key);
    assert t.P() == s.P() + [Some(key)] && t.S() == s.S();
    assert t.P()[..|s.P()|] == s.P();
    if s.cursor != 0 {
      assert t.P()[..s.cursor] == s.P()[..s.cursor];
      LiveIn(s.P()[..s.cursor], key);
      assert Some(key) !in s.S();
    }
    forall y | y in t.store ensures MetaOk(t, n, y) {
      assert MetaOk(s, n, y);
    }
  }

  lemma EnlistKeeps(s: State, key: Key, chunk: nat, i: nat, n: nat)
    requires Inv(s, n) && Requester(s, key) && MetaOk(s, n, key)
    requires chunk < n && !s.Pm(key).confirmed[chunk] && i < |s.instances|
    ensures Inv(Enlist(s, key, chunk, i), n)
    ensures Listing(Enlist(s, key, chunk, i)) == Listing(s) + if Some(key) in s.P() then [] else [key]
  {
    var s1 := Confirmed(s, key, chunk, i);
    ConfirmedKeeps(s, key, chunk, i, n);
    RequesterSlot(s, key, n);
    assert s1.P() == s.P();
    if Some(key) !in s.P() {
      AddKeeps(s1, key, n);
      assert AddObject(s1, key).P() == s.P() + [Some(key)];
    }
  }

  lemma PlaceKeeps(s: State, key: Key, chunk: nat, i: nat, n: nat)
    requires Inv(s, n) && Requester(s, key) && MetaOk(s, n, key)
    requires chunk < n && !s.Pm(key).confirmed[chunk] && i < |s.instances|
    ensures Inv(Place(s, key, chunk, i), n)
    ensures Listing(Place(s, key, chunk, i)) == Listing(s) + if Some(key) in s.P() then [] else [key]
  {
    EnlistKeeps(s, key, chunk, i, n);
    BytesKeep(Enlist(s, key, chunk, i), Place(s, key, chunk, i), n);
  }

  /** Settling through an eviction, after the eviction itself. */
  lemma InheritKeeps(s: State, key: Key, chunk: nat, n: nat)
    requires Evictable(s, key, n) && Counted(s) && MetaOk(s, n, key)
    requires chunk < n && !s.Pm(key).confirmed[chunk] && |s.instances| > 0
    requires WellFormed(Retry(s, key, n), n)
    ensures Retry(s, key, n).Known(key) && chunk < |Retry(s, key, n).Pm(key).swapMap|
    ensures Inv(Confirmed(Retry(s, key, n), key, chunk, Retry(s, key, n).Pm(key).swapMap[chunk]), n)
  {
    var r := Retry(s, key, n);
    InheritOk(s, key, n);
    RetryCounts(s, key, n);
    ConfirmedKeeps(r, key, chunk, r.Pm(key).swapMap[chunk], n);
  }

  lemma CountedMoves(s: State, t: State)
    requires SameObjects(s, t) && Counted(s)
    ensures Counted(t)
  {
    forall x | Requester(t, x) ensures t.Pm(x).numConfirmed > 0 <==> Some(x) in t.P() {
      assert Unclocked(t.store[x]) == Unclocked(s.store[x]);
      LiveIn(t.P(), x);
      LiveIn(s.P(), x);
    }
  }

  lemma EvictCounts(t: State, k: Key, n: nat)
    requires WellFormed(t, n) && Requester(t, k) && Counted(t)
    requires 0 < t.cursor < |t.P()| && AtTarget(t, k)
    requires t.Pm(k).pos.At(t.primary) < |t.P()|
    ensures var r := Evict(t, k);
            && Some(k) in r.P() && !r.store[k].deleted
            && forall x :: Requester(r, x) && x != k ==> (r.Pm(x).numConfirmed > 0 <==> Some(x) in r.P())
  {
    var r := Evict(t, k);
    RequesterSlot(t, k, n);
    assert r.P()[t.cursor] == Some(k);
    forall x | Requester(r, x) && x != k
      ensures r.Pm(x).numConfirmed > 0 <==> Some(x) in r.P()
    {
      if Some(x) in t.P() {
        var i :| 0 <= i < |t.P()| && t.P()[i] == Some(x);
        assert r.P()[i] == Some(x);
      }
    }
  }

  /** The eviction changes neither who is listed nor any confirmation, apart from k and its victim. */
  lemma RetryCounts(s: State, k: Key, n: nat)
    requires Evictable(s, k, n) && Counted(s)
    ensures var r := Retry(s, k, n);
            && r.Known(k) && r.Pm(k).confirmed == s.Pm(k).confirmed && r.Pm(k).numConfirmed == s.Pm(k).numConfirmed
            && Some(k) in r.P() && !r.store[k].deleted
            && r.instances == s.instances
            && forall x :: Requester(r, x) && x != k ==> (r.Pm(x).numConfirmed > 0 <==> Some(x) in r.P())
  {
    ChosenSpec(s, k, n);
    var t := Chosen(s, k, n);
    RequesterSlot(t, k, n);
    CountedMoves(s, t);
    EvictCounts(t, k, n);
    assert Unclocked(t.store[k]) == Unclocked(s.store[k]);
  }

  lemma SliceView(s: State, key: Key, n: nat)
    requires WellFormed(s, n) && s.Known(key) && |s.instances| > 0
    ensures WellFormed(WithSlice(s, key), n)
    ensures View(WithSlice(s, key), key, n) == View(s, key, n)
    ensures Requester(s, key) ==> Requester(WithSlice(s, key), key)
  {
    SliceKeeps(s, key, n);
  }

  /** The chunk needs an eviction while its object is already listed ahead of the victim. */
  predicate DoubleLists(s: State, key: Key, chunk: nat, lambdaId: nat, n: nat)
    requires WellFormed(s, n) && |s.instances| > 0 && CanSettle(s, key, chunk, lambdaId, n)
  {
    RouteOf(s, key, lambdaId) == Evicting && ListedBeforeVictim(s, key, n)
  }

  lemma InheritFrame(s: State, key: Key, chunk: nat, n: nat)
    requires Evictable(s, key, n) && chunk < n
    ensures var r, e := Retry(s, key, n), Inherited(s, key, chunk, n);
            && e.objects == r.objects && e.primary == r.primary
            && e.cursor == r.cursor && e.cursorBound == r.cursorBound && |e.instances| == |r.instances|
            && r.Known(key) && chunk < |r.Pm(key).swapMap|
            && chunk < |r.Pm(key).confirmed| && chunk < |r.store[key].placement|
            && e.store == Confirmed(r, key, chunk, r.Pm(key).swapMap[chunk]).store
  {
    InheritOk(s, key, n);
  }

  /** States that differ in the bytes of their instances only. */
  lemma BytesKeep(c: State, e: State, n: nat)
    requires Inv(c, n) && e == c.(instances := e.instances) && |e.instances| == |c.instances|
    ensures Inv(e, n)
  {
  }

  lemma InheritKeepsIff(s: State, key: Key, chunk: nat, n: nat)
    requires Evictable(s, key, n) && Counted(s) && MetaOk(s, n, key)
    requires chunk < n && !s.Pm(key).confirmed[chunk] && |s.instances| > 0
    ensures Inv(Inherited(s, key, chunk, n), n) <==> !ListedBeforeVictim(s, key, n)
    ensures !ListedBeforeVictim(s, key, n) ==>
              var v, list := View(s, key, n).Victim(), Listing(s);
              && v < |list|
              && Listing(Inherited(s, key, chunk, n)) == list[..v] + [key] + Without(list[v + 1..], key)
  {
    InheritFrame(s, key, chunk, n);
    RetryKeepsIff(s, key, n);
    if ListedBeforeVictim(s, key, n) {
      CompactedTwice(s, key, n);
    } else {
      InheritKeeps(s, key, chunk, n);
      var r := Retry(s, key, n);
      BytesKeep(Confirmed(r, key, chunk, r.Pm(key).swapMap[chunk]), Inherited(s, key, chunk, n), n);
    }
  }

  lemma EvictingKeepsIff(s: State, key: Key, chunk: nat, lambdaId: nat, n: nat)
    requires Inv(s, n) && CanSettle(s, key, chunk, lambdaId, n) && RouteOf(s, key, lambdaId) == Evicting
    ensures Inv(Settle(s, key, chunk, lambdaId, n), n) <==> !ListedBeforeVictim(s, key, n)
    ensures !ListedBeforeVictim(s, key, n) ==>
              var v := View(s, key, n).Victim();
              && v < |Listing(s)|
              && Listing(Settle(s, key, chunk, lambdaId, n)) ==
                   Listing(s)[..v] + [key] + Without(Listing(s)[v + 1..], key)
  {
    EvictingIs(s, key, chunk, lambdaId, n);
    SliceReady(s, key, chunk, lambdaId, n);
    SliceCounted(s, key);
    InheritKeepsIff(WithSlice(s, key), key, chunk, n);
  }

  lemma SliceCounted(s: State, key: Key)
    requires key in s.store && |s.instances| > 0 && Counted(s)
    ensures Counted(WithSlice(s, key)) && WithSlice(s, key).instances == s.instances
    ensures Listing(WithSlice(s, key)) == Listing(s)
  {
  }

  /** An eviction for an object listed ahead of its victim leaves it twice in the array being compacted. */
  lemma CompactedTwice(s: State, k: Key, n: nat)
    requires Evictable(s, k, n) && ListedBeforeVictim(s, k, n)
    ensures !Compacted(Retry(s, k, n))
    ensures var slots := Retry(s, k, n).S();
            exists i, j :: 0 <= i < j < |slots| && slots[i] == slots[j] == Some(k)
  {
    ChosenSpec(s, k, n);
    var t := Chosen(s, k, n);
    RequesterSlot(t, k, n);
    LiveAt(t.P(), t.cursor);
    LiveIn(t.P()[..t.cursor], k);
    EvictBreaks(t, k, n);
    var i :| 0 <= i < |t.S()| && t.S()[i] == Some(k);
    var slots := Retry(s, k, n).S();
    assert slots[i] == slots[|slots| - 1] == Some(k);
  }

  /** Settling a chunk keeps the invariant exactly when it does not list its object twice. */
  lemma SettleKeepsIff(s: State, key: Key, chunk: nat, lambdaId: nat, n: nat)
    requires Inv(s, n) && CanSettle(s, key, chunk, lambdaId, n)
    ensures Inv(Settle(s, key, chunk, lambdaId, n), n) <==> !DoubleLists(s, key, chunk, lambdaId, n)
  {
    match RouteOf(s, key, lambdaId)
    case Gone =>
    case Swapped =>
      ConfirmedKeeps(s, key, chunk, s.Pm(key).swapMap[chunk], n);
    case Placed =>
      var w := WithSlice(s, key);
      SliceKeeps(s, key, n);
      assert Counted(w);
      assert MetaOk(w, n, key);
      PlaceKeeps(w, key, chunk, Assigned(s, key, lambdaId), n);
    case Evicting =>
      EvictingKeepsIff(s, key, chunk, lambdaId, n);
  }

  lemma TouchKeeps(s: State, key: Key, chunk: nat, n: nat)
    requires Inv(s, n) && chunk < n
    ensures s.Known(key) ==> chunk < |s.Pm(key).confirmed|
    ensures Inv(Touch(s, key, chunk), n)
  {
    if s.Known(key) {
      assert MetaOk(s, n, key);
      RefileKeeps(s, Touch(s, key, chunk), key, n);
    }
  }

  /** r is s after m gave way to k: records of others are untouched, marks and positions aside. */
  predicate GaveWay(s: State, r: State, k: Key, m: Key) {
    && s.Known(k) && m in s.store && r.store.Keys == s.store.Keys
    && (forall x :: x in s.store && x != k && x != m ==> Unclocked(r.store[x]) == Unclocked(s.store[x]))
    && Unclocked(r.store[m]) == Unclocked(s.store[m].(deleted := true))
    && r.Known(k) && r.store[k].deleted == s.store[k].deleted
    && r.store[k].placement == s.store[k].placement
    && r.store[k].chunkSize == s.store[k].chunkSize
    && r.store[k].slice == s.store[k].slice
    && r.Pm(k).confirmed == s.Pm(k).confirmed
    && r.Pm(k).swapMap == s.store[m].placement
    && r.Pm(k).evicts == Some(m)
  }

  lemma EvictGives(t: State, k: Key)
    requires t.Sound() && t.Known(k) && t.cursor < |t.P()| && AtTarget(t, k)
    requires t.Pm(k).pos.At(t.primary) < |t.P()|
    ensures GaveWay(t, Evict(t, k), k, t.P()[t.cursor].value)
  {
  }

  lemma GaveWayFrom(s: State, t: State, r: State, k: Key, m: Key)
    requires SameObjects(s, t) && GaveWay(t, r, k, m)
    ensures GaveWay(s, r, k, m)
  {
    assert Unclocked(t.store[k]) == Unclocked(s.store[k]);
    assert Unclocked(t.store[m]) == Unclocked(s.store[m]);
    forall x | x in s.store && x != k && x != m ensures Unclocked(r.store[x]) == Unclocked(s.store[x]) {
      assert Unclocked(t.store[x]) == Unclocked(s.store[x]);
    }
  }

  lemma RetryGives(s: State, k: Key, n: nat)
    requires Evictable(s, k, n)
    ensures GaveWay(s, Retry(s, k, n), k, VictimOf(s, k, n))
  {
    ChosenSpec(s, k, n);
    var t := Chosen(s, k, n);
    RequesterSlot(t, k, n);
    EvictGives(t, k);
    GaveWayFrom(s, t, Evict(t, k), k, VictimOf(s, k, n));
  }

  /** The object that gives way is complete. */
  lemma VictimComplete(s: State, key: Key, n: nat)
    requires Evictable(s, key, n)
    ensures var m := VictimOf(s, key, n);
            && !s.store[m].deleted
            && forall c :: 0 <= c < |s.Pm(m).confirmed| ==> s.Pm(m).confirmed[c]
  {
    var m, view := VictimOf(s, key, n), View(s, key, n);
    VictimIn(view);
    OpenIs(s, key, m);
    LiveIn(s.P(), m);
    assert MetaOk(s, n, m);
    CountBound(s.Pm(m).confirmed);
  }

  /** What settling by eviction does to the records. */
  ghost predicate Took(s: State, t: State, key: Key, chunk: nat, m: Key, n: nat) {
    && s.Known(key) && m in s.store && t.store.Keys == s.store.Keys && key != m && chunk < n
    && (forall x :: x in s.store && x != key && x != m ==> Unclocked(t.store[x]) == Unclocked(s.store[x]))
    && Unclocked(t.store[m]) == Unclocked(s.store[m].(deleted := true))
    && t.Known(key) && !t.store[key].deleted
    && |s.store[m].placement| == |s.store[key].placement| == |s.Pm(key).confirmed| == n
    && t.store[key].placement == s.store[key].placement[chunk := s.store[m].placement[chunk]]
    && t.store[key].chunkSize == s.store[key].chunkSize
    && t.Pm(key).swapMap == s.store[m].placement
    && t.Pm(key).confirmed == s.Pm(key).confirmed[chunk := true]
  }

  lemma InheritTakes(s: State, key: Key, chunk: nat, n: nat)
    requires Evictable(s, key, n) && MetaOk(s, n, key) && chunk < n && !s.Pm(key).confirmed[chunk]
    ensures Took(s, Inherited(s, key, chunk, n), key, chunk, VictimOf(s, key, n), n)
  {
    InheritOk(s, key, n);
    RetryGives(s, key, n);
    assert MetaOk(s, n, VictimOf(s, key, n));
  }

  lemma TookFrom(s: State, w: State, t: State, key: Key, chunk: nat, m: Key, n: nat)
    requires w.store.Keys == s.store.Keys && key in s.store && Took(w, t, key, chunk, m, n)
    requires forall x :: x in s.store && x != key ==> w.store[x] == s.store[x]
    requires w.store[key] == s.store[key].(slice := w.store[key].slice)
    ensures Took(s, t, key, chunk, m, n)
  {
  }

  /** Drawing the slice base first changes neither the victim nor what is confirmed. */
  lemma SliceReady(s: State, key: Key, chunk: nat, lambdaId: nat, n: nat)
    requires Inv(s, n) && CanSettle(s, key, chunk, lambdaId, n) && RouteOf(s, key, lambdaId) == Evicting
    ensures Evictable(s, key, n) && Evictable(WithSlice(s, key), key, n)
    ensures MetaOk(WithSlice(s, key), n, key) && !WithSlice(s, key).Pm(key).confirmed[chunk]
    ensures VictimOf(WithSlice(s, key), key, n) == VictimOf(s, key, n)
  {
    SliceKeeps(s, key, n);
    SliceView(s, key, n);
    assert MetaOk(s, n, key) && MetaOk(WithSlice(s, key), n, key);
  }

  /** Settling by eviction, once the slice base is drawn, seen by the same clock. */
  lemma EvictingIs(s: State, key: Key, chunk: nat, lambdaId: nat, n: nat)
    requires Inv(s, n) && CanSettle(s, key, chunk, lambdaId, n) && RouteOf(s, key, lambdaId) == Evicting
    ensures var w := WithSlice(s, key);
            && Evictable(w, key, n) && View(w, key, n) == View(s, key, n)
            && Settle(s, key, chunk, lambdaId, n) == Inherited(w, key, chunk, n)
            && ListedBeforeVictim(w, key, n) == ListedBeforeVictim(s, key, n)
  {
    SliceReady(s, key, chunk, lambdaId, n);
    SliceView(s, key, n);
  }

  lemma SliceBase(s: State, key: Key, lambdaId: nat)
    requires key in s.store && |s.instances| > 0
    ensures var base := WithSlice(s, key).store[key].slice.base;
            && base.Some? && (s.store[key].slice.base.Some? ==> base == s.store[key].slice.base)
            && Assigned(s, key, lambdaId) == (base.value + lambdaId) % |s.instances|
  {
  }

  lemma SliceRecord(s: State, key: Key)
    requires key in s.store && |s.instances| > 0
    ensures var w := WithSlice(s, key);
            && w.store.Keys == s.store.Keys
            && (forall x :: x in s.store && x != key ==> w.store[x] == s.store[x])
            && w.store[key] == s.store[key].(slice := w.store[key].slice)
  {
  }

  lemma SettleTakes(s: State, key: Key, chunk: nat, lambdaId: nat, n: nat)
    requires Inv(s, n) && CanSettle(s, key, chunk, lambdaId, n) && RouteOf(s, key, lambdaId) == Evicting
    ensures Took(s, Settle(s, key, chunk, lambdaId, n), key, chunk, VictimOf(s, key, n), n)
  {
    var w := WithSlice(s, key);
    SliceReady(s, key, chunk, lambdaId, n);
    InheritTakes(w, key, chunk, n);
    SliceRecord(s, key);
    TookFrom(s, w, Inherited(w, key, chunk, n), key, chunk, VictimOf(s, key, n), n);
  }

  /** What settling without an eviction does to the records: chunk is confirmed on instance i. */
  ghost predicate Filed(s: State, t: State, key: Key, chunk: nat, i: nat) {
    && s.Known(key) && t.Known(key) && t.store.Keys == s.store.Keys
    && chunk < |s.Pm(key).confirmed| && chunk < |s.store[key].placement|
    && (forall x :: x in s.store && x != key ==> t.store[x] == s.store[x])
    && t.store[key].deleted == s.store[key].deleted
    && t.store[key].placement == s.store[key].placement[chunk := i]
    && t.Pm(key).confirmed == s.Pm(key).confirmed[chunk := true]
    && t.Pm(key).swapMap == s.Pm(key).swapMap
  }

  lemma PlaceFiles(s: State, key: Key, chunk: nat, i: nat)
    requires s.Known(key) && chunk < |s.Pm(key).confirmed| && chunk < |s.store[key].placement|
    requires i < |s.instances| && !s.Pm(key).confirmed[chunk]
    ensures Filed(s, Place(s, key, chunk, i), key, chunk, i)
    ensures Place(s, key, chunk, i).store[key].slice == s.store[key].slice
  {
  }

  lemma PlacedFiles(s: State, key: Key, chunk: nat, lambdaId: nat, n: nat)
    requires WellFormed(s, n) && |s.instances| > 0 && CanSettle(s, key, chunk, lambdaId, n)
    requires RouteOf(s, key, lambdaId).Placed?
    ensures Filed(s, Settle(s, key, chunk, lambdaId, n), key, chunk, Assigned(s, key, lambdaId))
    ensures Settle(s, key, chunk, lambdaId, n).store[key].slice == WithSlice(s, key).store[key].slice
  {
    assert MetaOk(s, n, key);
    SliceRecord(s, key);
    PlaceFiles(WithSlice(s, key), key, chunk, Assigned(s, key, lambdaId));
  }

  lemma SwappedFiles(s: State, key: Key, chunk: nat, lambdaId: nat, n: nat)
    requires WellFormed(s, n) && |s.instances| > 0 && CanSettle(s, key, chunk, lambdaId, n)
    requires RouteOf(s, key, lambdaId).Swapped?
    ensures chunk < |s.Pm(key).swapMap| == n
    ensures Filed(s, Settle(s, key, chunk, lambdaId, n), key, chunk, s.Pm(key).swapMap[chunk])
  {
    assert MetaOk(s, n, key);
  }

  // ---- a whole set operation ------------------------------------------------------

  /** A new object as `NewMeta` makes it. */
  predicate Unplaced(offered: Meta, n: nat) {
    |offered.placement| == n && offered.placerMeta.None? && !offered.deleted
  }

  function Admitted(s: State, key: Key, chunk: nat, offered: Meta, n: nat): (t: State)
    requires WellFormed(s, n) && |s.instances| > 0 && chunk < n && Unplaced(offered, n)
    ensures |t.instances| > 0
  {
    assert key in s.store ==> MetaOk(s, n, key);
    Admit(s, key, chunk, offered)
  }

  /** `GetOrInsert` returns: the chunk was set before, or it can be settled. */
  ghost predicate CanSet(s: State, key: Key, chunk: nat, lambdaId: nat, offered: Meta, n: nat)
    requires Inv(s, n) && chunk < n && Unplaced(offered, n)
  {
    AdmitKeeps(s, key, chunk, offered, n);
    SetBefore(s, key, chunk, offered) || CanSettle(Admitted(s, key, chunk, offered, n), key, chunk, lambdaId, n)
  }

  /** `GetOrInsert` without interference between its two locked parts. */
  ghost function SetChunk(s: State, key: Key, chunk: nat, lambdaId: nat, offered: Meta, n: nat): State
    requires Inv(s, n) && chunk < n && Unplaced(offered, n) && CanSet(s, key, chunk, lambdaId, offered, n)
  {
    AdmitKeeps(s, key, chunk, offered, n);
    var t := Admitted(s, key, chunk, offered, n);
    if SetBefore(s, key, chunk, offered) then t else Settle(t, key, chunk, lambdaId, n)
  }

  /**
   Where settling a chunk puts it: on the instance its lambda id means within the slice of its object
   if it fits there, on the instance it inherited, or on that of the same chunk of the victim.
   */
  lemma SettleEffect(s: State, key: Key, chunk: nat, lambdaId: nat, n: nat)
    requires Inv(s, n) && CanSettle(s, key, chunk, lambdaId, n)
    ensures var t := Settle(s, key, chunk, lambdaId, n);
            && t.Known(key) && chunk < |t.store[key].placement| && chunk < |t.Pm(key).confirmed|
            && (match RouteOf(s, key, lambdaId)
                case Gone => t == s
                case Swapped =>
                  t.Pm(key).confirmed[chunk] && chunk < |s.Pm(key).swapMap|
                  && t.store[key].placement[chunk] == s.Pm(key).swapMap[chunk]
                case Placed =>
                  t.Pm(key).confirmed[chunk] && t.store[key].slice.base.Some?
                  && t.store[key].placement[chunk] == (t.store[key].slice.base.value + lambdaId) % |s.instances|
                case Evicting =>
                  t.Pm(key).confirmed[chunk] && chunk < |s.store[VictimOf(s, key, n)].placement|
                  && t.store[key].placement[chunk] == s.store[VictimOf(s, key, n)].placement[chunk])
  {
    assert MetaOk(s, n, key);
    match RouteOf(s, key, lambdaId)
    case Gone =>
    case Swapped =>
      SwappedFiles(s, key, chunk, lambdaId, n);
    case Placed =>
      PlacedFiles(s, key, chunk, lambdaId, n);
      SliceBase(s, key, lambdaId);
    case Evicting =>
      SettleTakes(s, key, chunk, lambdaId, n);
  }

  /** A set operation is admitting the chunk and, unless it was set before, settling it. */
  lemma SetUnfolds(s: State, key: Key, chunk: nat, lambdaId: nat, offered: Meta, n: nat)
    requires Inv(s, n) && chunk < n && Unplaced(offered, n) && CanSet(s, key, chunk, lambdaId, offered, n)
    ensures key in s.store ==> MetaOk(s, n, key)
    ensures var t := Admitted(s, key, chunk, offered, n);
            if SetBefore(s, key, chunk, offered) then SetChunk(s, key, chunk, lambdaId, offered, n) == t
            else
              && WellFormed(t, n) && |t.instances| > 0 && CanSettle(t, key, chunk, lambdaId, n)
              && SetChunk(s, key, chunk, lambdaId, offered, n) == Settle(t, key, chunk, lambdaId, n)
  {
    AdmitKeeps(s, key, chunk, offered, n);
    assert key in s.store ==> MetaOk(s, n, key);
  }

  // ---- runs -----------------------------------------------------------------------

  datatype Step =
    | SetBegins(key: Key, chunk: nat, lambdaId: nat, sliceSize: nat, chunkSize: nat)
    | SetSettles(key: Key, chunk: nat, lambdaId: nat)
    | Gets(key: Key, chunk: nat)

  /** The step can be taken, and does not list an object twice. */
  predicate Allowed(s: State, step: Step, n: nat)
    requires WellFormed(s, n) && |s.instances| > 0
  {
    match step
    case SetBegins(_, chunk, _, _, _) => chunk < n
    case SetSettles(key, chunk, lambdaId) =>
      CanSettle(s, key, chunk, lambdaId, n) && !DoubleLists(s, key, chunk, lambdaId, n)
    case Gets(_, chunk) => chunk < n
  }

  function Apply(s: State, step: Step, n: nat): State
    requires WellFormed(s, n) && |s.instances| > 0 && Allowed(s, step, n)
  {
    match step
    case SetBegins(key, chunk, lambdaId, sliceSize, chunkSize) =>
      assert key in s.store ==> MetaOk(s, n, key);
      Admit(s, key, chunk, NewMeta(n, chunk, lambdaId, sliceSize, chunkSize))
    case SetSettles(key, chunk, lambdaId) => Settle(s, key, chunk, lambdaId, n)
    case Gets(key, chunk) =>
      assert s.Known(key) ==> MetaOk(s, n, key);
      Touch(s, key, chunk)
  }

  /** Every step keeps the invariant. */
  lemma StepKeeps(s: State, step: Step, n: nat)
    requires Inv(s, n) && Allowed(s, step, n)
    ensures Inv(Apply(s, step, n), n)
  {
    match step
    case SetBegins(key, chunk, lambdaId, sliceSize, chunkSize) =>
      AdmitKeeps(s, key, chunk, NewMeta(n, chunk, lambdaId, sliceSize, chunkSize), n);
    case SetSettles(key, chunk, lambdaId) =>
      SettleKeepsIff(s, key, chunk, lambdaId, n);
    case Gets(key, chunk) =>
      TouchKeeps(s, key, chunk, n);
  }

  /** A newly created placer over the given instances. */
  function Init(instances: seq<Instance>): State {
    State(map[], Two([None], []), 0, 0, 0, instances, 0)
  }

  lemma InitInv(instances: seq<Instance>, n: nat)
    requires |instances| > 0
    ensures Inv(Init(instances), n) && Listing(Init(instances)) == []
  {
  }

  /** The states a run passes through: from a new placer, each step taken in the state before it. */
  ghost predicate IsRun(trace: seq<State>, steps: seq<Step>, n: nat)
    decreases |steps|, 0
  {
    && |trace| == |steps| + 1
    && if steps == [] then |trace[0].instances| > 0 && trace[0] == Init(trace[0].instances)
       else
         var m := |steps| - 1;
         && IsRun(trace[..m + 1], steps[..m], n)
         && (RunInv(trace[..m + 1], steps[..m], n);
             Allowed(trace[m], steps[m], n) && trace[m + 1] == Apply(trace[m], steps[m], n))
  }

  /** The clock is well-formed at the end of every run. */
  lemma {:induction false} RunInv(trace: seq<State>, steps: seq<Step>, n: nat)
    requires IsRun(trace, steps, n)
    ensures Inv(trace[|steps|], n)
    decreases |steps|, 1
  {
    if steps == [] {
      InitInv(trace[0].instances, n);
    } else {
      var m := |steps| - 1;
      RunInv(trace[..m + 1], steps[..m], n);
      StepKeeps(trace[m], steps[m], n);
    }
  }

  lemma RunExtends(trace: seq<State>, steps: seq<Step>, n: nat, step: Step)
    requires IsRun(trace, steps, n) && Inv(trace[|steps|], n) && Allowed(trace[|steps|], step, n)
    ensures IsRun(trace + [Apply(trace[|steps|], step, n)], steps + [step], n)
  {
  }

  /** One step of a run. */
  ghost predicate StepTo(s: State, step: Step, t: State, n: nat) {
    Inv(s, n) && Allowed(s, step, n) && t == Apply(s, step, n)
  }

  lemma RunLast(trace: seq<State>, steps: seq<Step>, n: nat)
    requires IsRun(trace, steps, n) && steps != []
    ensures StepTo(trace[|steps| - 1], steps[|steps| - 1], trace[|steps|], n)
    ensures IsRun(trace[..|steps|], steps[..|steps| - 1], n)
  {
    var m := |steps| - 1;
    RunInv(trace[..m + 1], steps[..m], n);
  }

  /** Every step of a run leads from a state that satisfies the invariant to the next state. */
  lemma {:induction false} RunAt(trace: seq<State>, steps: seq<Step>, n: nat, i: nat)
    requires IsRun(trace, steps, n) && i < |steps|
    ensures StepTo(trace[i], steps[i], trace[i + 1], n)
    decreases |steps|
  {
    RunLast(trace, steps, n);
    if i < |steps| - 1 {
      RunAt(trace[..|steps|], steps[..|steps| - 1], n, i);
    }
  }

  /** The invariant holds in every state of a run. */
  lemma RunHolds(trace: seq<State>, steps: seq<Step>, n: nat, i: nat)
    requires IsRun(trace, steps, n) && i <= |steps|
    ensures Inv(trace[i], n)
  {
    if i < |steps| {
      RunAt(trace, steps, n, i);
    } else {
      RunInv(trace, steps, n);
    }
  }
}
