/**
 A run that ends in front of a double listing: object "r" has placed one chunk, object "a"
 both of its chunks, and the second chunk of "r" needs an eviction. "a" is the only object
 that can give way, and "r" is listed ahead of it.
 */
module PlacerWitness {
  import opened Basics
  import opened PlacerModel
  import opened PlacerClock
  import opened PlacerEviction
  import opened PlacerSteps
  import opened PlacerRun

  function Pm(at: nat, visited: bool, first: bool, second: bool): PlacerMeta {
    PlacerMeta(Two(at, 0), visited, [first, second], (if first then 1 else 0) + if second then 1 else 0, [], None)
  }

  function Record(placement: seq<nat>, base: Option<nat>, pm: PlacerMeta): Meta {
    Meta(placement, 1, false, false, Slice(2, base), Some(pm))
  }

  function Group(first: nat, second: nat): seq<Instance> {
    [Instance(first, 3), Instance(second, 2)]
  }

  const STEPS: seq<Step> := [
    SetBegins("r", 0, 0, 2, 1),
    SetSettles("r", 0, 0),
    SetBegins("a", 0, 1, 2, 1),
    SetSettles("a", 0, 1),
    SetSettles("a", 1, 0)]

  const STATES: seq<State> := [
    State(map[], Two([None], []), 0, 0, 0, Group(0, 0), 0),
    State(map["r" := Record([0, 0], None, Pm(0, false, false, false))], Two([None], []), 0, 0, 0, Group(0, 0), 0),
    State(map["r" := Record([0, 0], Some(0), Pm(1, true, true, false))],
          Two([None, Some("r")], []), 0, 0, 0, Group(1, 0), 2),
    State(map["r" := Record([0, 0], Some(0), Pm(1, true, true, false)),
              "a" := Record([1, 0], None, Pm(0, false, false, false))],
          Two([None, Some("r")], []), 0, 0, 0, Group(1, 0), 2),
    State(map["r" := Record([0, 0], Some(0), Pm(1, true, true, false)),
              "a" := Record([1, 0], Some(0), Pm(2, true, true, false))],
          Two([None, Some("r"), Some("a")], []), 0, 0, 0, Group(1, 1), 4),
    State(map["r" := Record([0, 0], Some(0), Pm(1, true, true, false)),
              "a" := Record([1, 0], Some(0), Pm(2, true, true, true))],
          Two([None, Some("r"), Some("a")], []), 0, 0, 0, Group(2, 1), 4)]

  lemma Begin0()
    requires Inv(STATES[0], 2)
    ensures Allowed(STATES[0], STEPS[0], 2) && Apply(STATES[0], STEPS[0], 2) == STATES[1]
  {
    var t := Apply(STATES[0], STEPS[0], 2);
    assert t.store["r"].placement == [0, 0];
    assert t.store["r"].placerMeta.value.confirmed == [false, false];
    assert t.store == STATES[1].store;
  }

  /** Settling a chunk that fits, seen on the record of its object. */
  lemma SettlePlaced(s: State, key: Key, chunk: nat, lambdaId: nat, record: Meta, t: State)
    requires Inv(s, 2) && CanSettle(s, key, chunk, lambdaId, 2) && RouteOf(s, key, lambdaId) == Placed
    requires var w, a := WithSlice(s, key), Assigned(s, key, lambdaId);
             var listed := w.Pm(key).pos.At(w.primary) != 0;
             && chunk < |w.Pm(key).confirmed| && chunk < |w.store[key].placement|
             && record == w.store[key].(
                            placement := w.store[key].placement[chunk := a],
                            placerMeta := Some(w.Pm(key).Confirm(chunk).(
                              pos := if listed then w.Pm(key).pos else w.Pm(key).pos.Put(w.primary, |w.P()|),
                              visited := if listed then w.Pm(key).visited else true)))
             && t == w.(store := w.store[key := record],
                        objects := if listed then w.objects else w.objects.Put(w.primary, w.P() + [Some(key)]),
                        instances := AddBytes(w.instances, a, record.chunkSize))
    ensures Settle(s, key, chunk, lambdaId, 2) == t
  {
    assert MetaOk(s, 2, key);
    PlaceIs(WithSlice(s, key), key, chunk, Assigned(s, key, lambdaId), record, t);
  }

  lemma PlaceIs(w: State, key: Key, chunk: nat, a: nat, record: Meta, t: State)
    requires w.Known(key) && chunk < |w.Pm(key).confirmed| && chunk < |w.store[key].placement| && a < |w.instances|
    requires var listed := w.Pm(key).pos.At(w.primary) != 0;
             && record == w.store[key].(
                            placement := w.store[key].placement[chunk := a],
                            placerMeta := Some(w.Pm(key).Confirm(chunk).(
                              pos := if listed then w.Pm(key).pos else w.Pm(key).pos.Put(w.primary, |w.P()|),
                              visited := if listed then w.Pm(key).visited else true)))
             && t == w.(store := w.store[key := record],
                        objects := if listed then w.objects else w.objects.Put(w.primary, w.P() + [Some(key)]),
                        instances := AddBytes(w.instances, a, record.chunkSize))
    ensures Place(w, key, chunk, a) == t
  {
    assert Enlist(w, key, chunk, a).store == t.store;
  }

  lemma Settle1()
    requires Inv(STATES[1], 2)
    ensures Allowed(STATES[1], STEPS[1], 2) && Apply(STATES[1], STEPS[1], 2) == STATES[2]
  {
    var s, t := STATES[1], STATES[2];
    assert RouteOf(s, "r", 0) == Placed;
    assert [false, false][0 := true] == [true, false];
    assert t.store == WithSlice(s, "r").store["r" := t.store["r"]];
    assert t.instances == AddBytes(s.instances, 0, 1);
    assert t.P() == s.P() + [Some("r")] && t.store["r"].placement == s.store["r"].placement[0 := 0];
    SettlePlaced(s, "r", 0, 0, t.store["r"], t);
  }

  lemma Begin2()
    requires Inv(STATES[2], 2)
    ensures Allowed(STATES[2], STEPS[2], 2) && Apply(STATES[2], STEPS[2], 2) == STATES[3]
  {
    var t := Apply(STATES[2], STEPS[2], 2);
    assert t.store["a"].placement == [1, 0];
    assert t.store["a"].placerMeta.value.confirmed == [false, false];
    assert t.store == STATES[3].store;
  }

  /** "a" draws the slice base 0, so that lambda id 1 means the second instance, which has room. */
  lemma Slice3()
    ensures Assigned(STATES[3], "a", 1) == 1 && RouteOf(STATES[3], "a", 1) == Placed
    ensures WithSlice(STATES[3], "a") == STATES[3].(
              store := STATES[3].store["a" := Record([1, 0], Some(0), Pm(0, false, false, false))], sliceBase := 4)
  {
  }

  lemma Settle3()
    requires Inv(STATES[3], 2)
    ensures Allowed(STATES[3], STEPS[3], 2) && Apply(STATES[3], STEPS[3], 2) == STATES[4]
  {
    var s, t := STATES[3], STATES[4];
    Slice3();
    assert [false, false][0 := true] == [true, false];
    assert t.store == WithSlice(s, "a").store["a" := t.store["a"]];
    assert t.instances == AddBytes(s.instances, 1, 1);
    assert t.P() == s.P() + [Some("a")] && t.store["a"].placement == s.store["a"].placement[0 := 1];
    SettlePlaced(s, "a", 0, 1, t.store["a"], t);
  }

  lemma Settle4()
    requires Inv(STATES[4], 2)
    ensures Allowed(STATES[4], STEPS[4], 2) && Apply(STATES[4], STEPS[4], 2) == STATES[5]
  {
    var s, t := STATES[4], STATES[5];
    assert RouteOf(s, "a", 0) == Placed;
    assert [true, false][1 := true] == [true, true];
    assert t.store == WithSlice(s, "a").store["a" := t.store["a"]];
    assert t.instances == AddBytes(s.instances, 0, 1);
    SettlePlaced(s, "a", 1, 0, t.store["a"], t);
  }

  lemma Listed()
    ensures Listing(STATES[5]) == ["r", "a"]
  {
    var p: seq<Option<Key>> := [None, Some("r"), Some("a")];
    LiveSnoc(p, 0);
    LiveSnoc(p, 1);
    LiveSnoc(p, 2);
    assert p[..3] == p && p[..0] == [];
  }

  lemma Extend(i: nat)
    requires i < 5 && IsRun(STATES[..i + 1], STEPS[..i], 2) && Inv(STATES[i], 2)
    requires Allowed(STATES[i], STEPS[i], 2) && Apply(STATES[i], STEPS[i], 2) == STATES[i + 1]
    ensures IsRun(STATES[..i + 2], STEPS[..i + 1], 2)
  {
    TakeSnoc(STATES, i + 1);
    TakeSnoc(STEPS, i);
    RunExtends(STATES[..i + 1], STEPS[..i], 2, STEPS[i]);
  }

  /** The first i steps are a run. */
  ghost predicate Reached(i: nat)
    requires i <= 5
  {
    IsRun(STATES[..i + 1], STEPS[..i], 2) && Inv(STATES[i], 2)
  }

  lemma ReachNext(i: nat)
    requires i < 5 && Reached(i) && Allowed(STATES[i], STEPS[i], 2) && Apply(STATES[i], STEPS[i], 2) == STATES[i + 1]
    ensures Reached(i + 1)
  {
    Extend(i);
    RunInv(STATES[..i + 2], STEPS[..i + 1], 2);
  }

  lemma Reach1()
    requires Reached(0)
    ensures Reached(1)
  {
    Begin0();
    ReachNext(0);
  }

  lemma Reach2()
    requires Reached(1)
    ensures Reached(2)
  {
    Settle1();
    ReachNext(1);
  }

  lemma Reach3()
    requires Reached(2)
    ensures Reached(3)
  {
    Begin2();
    ReachNext(2);
  }

  lemma Reach4()
    requires Reached(3)
    ensures Reached(4)
  {
    Settle3();
    ReachNext(3);
  }

  lemma Reach5()
    requires Reached(4)
    ensures Reached(5)
  {
    Settle4();
    ReachNext(4);
  }

  lemma ReachAll()
    ensures Reached(5)
  {
    InitInv(Group(0, 0), 2);
    assert IsRun(STATES[..1], STEPS[..0], 2);
    Reach1();
    Reach2();
    Reach3();
    Reach4();
    Reach5();
  }

  lemma Candidates()
    ensures STATES[5].Sound() && Open(STATES[5], "r") == {} && Complete(STATES[5], "r") == {"a"}
  {
  }

  lemma BehindRequester()
    requires Inv(STATES[5], 2)
    ensures Evictable(STATES[5], "r", 2) && ListedBeforeVictim(STATES[5], "r", 2)
  {
    Listed();
    Candidates();
    var c := View(STATES[5], "r", 2);
    Whole(c);
    assert c.list[0] !in c.complete;
    assert c.list[..c.Victim()][0] == "r";
  }

  lemma NeedsEviction()
    requires Inv(STATES[5], 2) && Complete(STATES[5], "r") != {}
    ensures CanSettle(STATES[5], "r", 1, 1, 2) && RouteOf(STATES[5], "r", 1) == Evicting
  {
  }

  /** At the end of this run, settling the second chunk of "r" lists "r" twice and breaks the invariant. */
  lemma DoubleListingReachable()
    ensures IsRun(STATES, STEPS, 2) && Inv(STATES[5], 2)
    ensures CanSettle(STATES[5], "r", 1, 1, 2) && DoubleLists(STATES[5], "r", 1, 1, 2)
    ensures !Inv(Settle(STATES[5], "r", 1, 1, 2), 2)
  {
    assert STATES[..6] == STATES && STEPS[..5] == STEPS;
    ReachAll();
    BehindRequester();
    NeedsEviction();
    SettleKeepsIff(STATES[5], "r", 1, 1, 2);
  }
}
