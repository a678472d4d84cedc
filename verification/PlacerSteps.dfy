/**
 The operations of the placer as atomic steps. `GetOrInsert` is two of them, because
 the object lock is taken first and the placer lock later, and other objects' evictions
 may run in between.
 */
module PlacerSteps {
  import opened Basics
  import opened PlacerModel
  import opened PlacerClock
  import opened PlacerEviction

  const WORD: nat := 0x1_0000_0000_0000_0000

  /** The value of a 64-bit unsigned counter after arithmetic that would give x. */
  function Wrap(x: int): (r: nat)
    ensures r < WORD
    ensures 0 <= x < WORD ==> r == x
    decreases if x < 0 then WORD - x else x
  {
    if x < 0 then Wrap(x + WORD) else if x >= WORD then Wrap(x - WORD) else x
  }

  /** Wrapping is reduction modulo 2^64. */
  lemma {:induction false} WrapIsMod(x: int)
    ensures Wrap(x) == x % WORD
    decreases if x < 0 then WORD - x else x
  {
    if x < 0 {
      WrapIsMod(x + WORD);
    } else if x >= WORD {
      WrapIsMod(x - WORD);
    }
  }

  /** `NewMeta`: metadata of an object that was never placed, with the lambda id asked for under its chunk. */
  function NewMeta(n: nat, chunk: nat, lambdaId: nat, sliceSize: nat, chunkSize: nat): (m: Meta)
    requires chunk < n
    ensures |m.placement| == n && forall c :: 0 <= c < n ==> m.placement[c] == if c == chunk then lambdaId else 0
    ensures m.chunkSize == chunkSize && m.slice.size == sliceSize && m.slice.base.None?
    ensures m.placerMeta.None? && !m.reset && !m.deleted
  {
    Meta(seq(n, i => 0)[chunk := lambdaId], chunkSize, false, false, Slice(sliceSize, None), None)
  }

  function NewPlacerMeta(n: nat): PlacerMeta {
    PlacerMeta(Two(0, 0), false, seq(n, i => false), 0, [], None)
  }

  function Refile(s: State, key: Key, meta: Meta): State {
    s.(store := s.store[key := meta])
  }

  /** The metadata a set operation works on: the stored one, revived if evicted, or the new one. */
  function Revived(s: State, key: Key, offered: Meta): Meta {
    if key !in s.store then offered
    else if s.store[key].deleted then s.store[key].(placerMeta := None, deleted := false)
    else s.store[key]
  }

  /** The chunk was set before, since its object was last evicted. */
  predicate SetBefore(s: State, key: Key, chunk: nat, offered: Meta) {
    var m := Revived(s, key, offered);
    m.placerMeta.Some? && chunk < |m.placerMeta.value.confirmed| && m.placerMeta.value.confirmed[chunk]
  }

  /** The part of `GetOrInsert` under the object lock alone. */
  function Admit(s: State, key: Key, chunk: nat, offered: Meta): State
    requires var m := Revived(s, key, offered);
             m.placerMeta.Some? ==> chunk < |m.placerMeta.value.confirmed|
  {
    var m := Revived(s, key, offered);
    if m.placerMeta.None? then Refile(s, key, m.(placerMeta := Some(NewPlacerMeta(|m.placement|))))
    else if m.placerMeta.value.confirmed[chunk] then Refile(s, key, m.(reset := true))
    else Refile(s, key, m)
  }

  /** `Slice.GetIndex`'s side effect: the slice base is drawn from the group on first use. */
  function WithSlice(s: State, key: Key): (t: State)
    requires key in s.store && |s.instances| > 0
    ensures key in t.store && t.store[key].slice.base.Some?
  {
    var meta := s.store[key];
    if meta.slice.base.Some? then s
    else
      Refile(s, key, meta.(slice := meta.slice.(base := Some(s.sliceBase % |s.instances|))))
      .(sliceBase := Wrap(s.sliceBase + meta.slice.size))
  }

  /** The instance a chunk is meant for. */
  function Assigned(s: State, key: Key, lambdaId: nat): (i: nat)
    requires key in s.store && |s.instances| > 0
    ensures i < |s.instances|
  {
    (WithSlice(s, key).store[key].slice.base.value + lambdaId) % |s.instances|
  }

  /** The instance has room for one more chunk of this size. */
  predicate Fits(instance: Instance, chunkSize: nat) {
    Wrap(instance.size + chunkSize) < instance.capacity
  }

  function AddBytes(instances: seq<Instance>, i: nat, delta: int): seq<Instance>
    requires i < |instances|
  {
    instances[i := instances[i].(size := Wrap(instances[i].size + delta))]
  }

  /** Puts the chunk on an instance and confirms it. */
  function Confirmed(s: State, key: Key, chunk: nat, i: nat): State
    requires s.Known(key) && chunk < |s.Pm(key).confirmed| && chunk < |s.store[key].placement|
  {
    Refile(s, key, s.store[key].(placement := s.store[key].placement[chunk := i],
                                 placerMeta := Some(s.Pm(key).Confirm(chunk))))
  }

  /** `AddObject`: the object is appended to the clock list, marked. */
  function AddObject(s: State, key: Key): State
    requires s.Known(key)
  {
    var pm := s.Pm(key);
    s.WithPm(key, pm.(pos := pm.pos.Put(s.primary, |s.P()|), visited := true))
     .(objects := s.objects.Put(s.primary, s.P() + [Some(key)]))
  }

  /** Confirming a chunk and listing its object if it is new. */
  function Enlist(s: State, key: Key, chunk: nat, i: nat): State
    requires s.Known(key) && chunk < |s.Pm(key).confirmed| && chunk < |s.store[key].placement|
  {
    var s1 := Confirmed(s, key, chunk, i);
    if s1.Pm(key).pos.At(s1.primary) == 0 then AddObject(s1, key) else s1
  }

  /** The chunk goes where it was meant to. */
  function Place(s: State, key: Key, chunk: nat, i: nat): State
    requires s.Known(key) && chunk < |s.Pm(key).confirmed| && chunk < |s.store[key].placement|
    requires i < |s.instances|
  {
    var t := Enlist(s, key, chunk, i);
    t.(instances := AddBytes(t.instances, i, t.store[key].chunkSize))
  }

  /** The change of one instance's bytes for chunk c when `size` replaces `evicted`. */
  function Delta(confirmed: bool, size: nat, evicted: nat): int {
    if confirmed then -(evicted as int) else size - evicted
  }

  /** The first c entries of a swap map are charged to their instances. */
  function Charge(instances: seq<Instance>, swapMap: seq<nat>, confirmed: seq<bool>, size: nat, evicted: nat, c: nat)
    : (r: seq<Instance>)
    requires c <= |swapMap| == |confirmed|
    requires forall i :: 0 <= i < |swapMap| ==> swapMap[i] < |instances|
    ensures |r| == |instances|
  {
    if c == 0 then instances
    else
      var rest := Charge(instances, swapMap, confirmed, size, evicted, c - 1);
      AddBytes(rest, swapMap[c - 1], Delta(confirmed[c - 1], size, evicted))
  }

  /** The accounting after an eviction for key, and the confirmation of its chunk. */
  function Inherit(s: State, key: Key, chunk: nat, n: nat): State
    requires s.Known(key) && |s.Pm(key).swapMap| == |s.Pm(key).confirmed| == |s.store[key].placement| == n
    requires chunk < n
    requires s.Pm(key).evicts.Some? && s.Pm(key).evicts.value in s.store
    requires forall c :: 0 <= c < n ==> s.Pm(key).swapMap[c] < |s.instances|
  {
    var pm := s.Pm(key);
    var charged := Charge(s.instances, pm.swapMap, pm.confirmed, s.store[key].chunkSize,
                          s.store[pm.evicts.value].chunkSize, n);
    Confirmed(s.(instances := charged), key, chunk, pm.swapMap[chunk])
  }

  /** Settling by eviction: the retry loop, then the accounting. */
  function Inherited(s: State, key: Key, chunk: nat, n: nat): State
    requires Evictable(s, key, n) && chunk < n
  {
    InheritOk(s, key, n);
    Inherit(Retry(s, key, n), key, chunk, n)
  }

  /** What the rest of `GetOrInsert` does with a chunk. */
  datatype Route = Gone | Swapped | Placed | Evicting

  function RouteOf(s: State, key: Key, lambdaId: nat): Route
    requires s.Known(key) && |s.instances| > 0
  {
    if s.store[key].deleted then Gone
    else if s.Pm(key).swapMap != [] then Swapped
    else if Fits(s.instances[Assigned(s, key, lambdaId)], s.store[key].chunkSize) then Placed
    else Evicting
  }

  /** The chunk may be settled: it is not confirmed, and the eviction loop ends if it is needed. */
  predicate CanSettle(s: State, key: Key, chunk: nat, lambdaId: nat, n: nat)
    requires WellFormed(s, n) && |s.instances| > 0
  {
    && s.Known(key) && chunk < n
    && (assert MetaOk(s, n, key); !s.Pm(key).confirmed[chunk])
    && (RouteOf(s, key, lambdaId) == Evicting ==> Complete(s, key) != {})
  }

  /** The part of `GetOrInsert` under the placer lock. */
  function Settle(s: State, key: Key, chunk: nat, lambdaId: nat, n: nat): State
    requires WellFormed(s, n) && |s.instances| > 0 && CanSettle(s, key, chunk, lambdaId, n)
  {
    assert MetaOk(s, n, key);
    match RouteOf(s, key, lambdaId)
    case Gone => s
    case Swapped => Confirmed(s, key, chunk, s.Pm(key).swapMap[chunk])
    case Placed => Place(WithSlice(s, key), key, chunk, Assigned(s, key, lambdaId))
    case Evicting =>
      SliceKeeps(s, key, n);
      Inherited(WithSlice(s, key), key, chunk, n)
  }

  /** `Get`, as far as the placer is concerned: a placed chunk marks its object. */
  function Touch(s: State, key: Key, chunk: nat): State
    requires s.Known(key) ==> chunk < |s.Pm(key).confirmed|
  {
    if !s.Known(key) || s.store[key].deleted || !s.Pm(key).confirmed[chunk] then s
    else s.WithPm(key, s.Pm(key).(visited := true))
  }

  // ---- well-formedness of the pieces ----------------------------------------------

  /** Changing what is stored about one object, its positions and mark aside, keeps well-formedness. */
  lemma RefileKeeps(s: State, t: State, key: Key, n: nat)
    requires WellFormed(s, n) && s.Known(key)
    requires t.store.Keys == s.store.Keys && t.Known(key)
    requires forall x :: x in s.store && x != key ==> t.store[x] == s.store[x]
    requires t.objects == s.objects && t.cursor == s.cursor && t.cursorBound == s.cursorBound
    requires t.primary == s.primary && |t.instances| == |s.instances|
    requires t.store[key].deleted == s.store[key].deleted && t.Pm(key).pos == s.Pm(key).pos
    requires MetaOk(t, n, key)
    ensures WellFormed(t, n)
  {
    assert t.P() == s.P() && t.S() == s.S();
    forall y | y in t.store ensures MetaOk(t, n, y) {
      assert MetaOk(s, n, y);
    }
  }

  lemma SliceKeeps(s: State, key: Key, n: nat)
    requires WellFormed(s, n) && s.Known(key) && |s.instances| > 0
    ensures WellFormed(WithSlice(s, key), n)
    ensures WithSlice(s, key).Known(key) && WithSlice(s, key).instances == s.instances
    ensures s.store[key].deleted == WithSlice(s, key).store[key].deleted
    ensures Open(WithSlice(s, key), key) == Open(s, key)
    ensures Complete(WithSlice(s, key), key) == Complete(s, key)
    ensures WithSlice(s, key).P() == s.P()
  {
    var t := WithSlice(s, key);
    assert MetaOk(s, n, key);
    assert MetaOk(t, n, key);
    RefileKeeps(s, t, key, n);
  }

  /** After the retry loop, k holds a full swap map of valid instances. */
  lemma InheritOk(s: State, k: Key, n: nat)
    requires Evictable(s, k, n)
    ensures var r, v := Retry(s, k, n), View(s, k, n).Victim();
            && v < |Listing(s)|
            && var m := Listing(s)[v];
            && m in s.store && m in r.store
            && r.Known(k) && r.Pm(k).evicts == Some(m)
            && r.Pm(k).swapMap == s.store[m].placement == r.store[m].placement
            && |r.Pm(k).swapMap| == |r.Pm(k).confirmed| == |r.store[k].placement| == n
            && (forall c :: 0 <= c < n ==> r.Pm(k).swapMap[c] < |r.instances|)
  {
    ChosenSpec(s, k, n);
    var t := Chosen(s, k, n);
    VictimPlacement(t, k, n);
    var m := t.P()[t.cursor].value;
    assert Unclocked(t.store[m]) == Unclocked(s.store[m]);
    assert MetaOk(t, n, k);
  }
}
