/**
 The placer as it is written: metadata objects on the heap, two slot arrays of pointers,
 back-pointers, a sweep loop and a retry loop. Every method is proved against the
 corresponding step of the value model.
 */
module PlacerHeap {
  import opened Basics
  import opened PlacerClock
  import opened PlacerEviction
  import opened PlacerSteps
  import opened PlacerRun
  import PlacerAccounting
  import M = PlacerModel
  import Steps = PlacerSteps

  type Key = M.Key

  /** Byte accounting of one instance, on a 64-bit unsigned counter. */
  class InstanceMeta {
    var size: nat
    var capacity: nat

    function View(): M.Instance
      reads this
    {
      M.Instance(size, capacity)
    }

    /** Adds a signed amount; a negative one arrives as its two's complement. */
    method IncreaseSize(inc: int) returns (r: nat)
      modifies this`size
      ensures r == size == Wrap(old(size) + inc)
    {
      size := Wrap(size + Wrap(inc));
      PlacerAccounting.WrapAdd(inc, old(size));
      r := size;
    }

    /** Subtracts by adding the complement of dec - 1. */
    method DecreaseSize(dec: nat) returns (r: nat)
      modifies this`size
      ensures r == size == Wrap(old(size) - dec)
    {
      var complement := WORD - 1 - Wrap(dec - 1);
      size := Wrap(size + complement);
      PlacerAccounting.ComplementIs(dec);
      PlacerAccounting.WrapAdd(-(dec as int), old(size));
      r := size;
    }
  }

  /** Metadata of one object; its placer metadata is a record that only this object refers to. */
  class Meta {
    const key: Key
    const chunkSize: nat
    const lastChunk: nat
    var placement: seq<nat>
    var reset: bool
    var deleted: bool
    var slice: M.Slice
    var placerMeta: Option<M.PlacerMeta>

    function View(): M.Meta
      reads this
    {
      M.Meta(placement, chunkSize, reset, deleted, slice, placerMeta)
    }

    constructor (key: Key, sliceSize: nat, numChunks: nat, chunk: nat, lambdaId: nat, chunkSize: nat)
      requires chunk < numChunks
      ensures this.key == key && lastChunk == chunk
      ensures View() == NewMeta(numChunks, chunk, lambdaId, sliceSize, chunkSize)
      ensures |placement| == numChunks && placement[chunk] == lambdaId && this.chunkSize == chunkSize
      ensures forall c :: 0 <= c < numChunks && c != chunk ==> placement[c] == 0
      ensures slice == M.Slice(sliceSize, None) && placerMeta.None? && !reset && !deleted
    {
      this.key, this.chunkSize, lastChunk := key, chunkSize, chunk;
      placement := seq(numChunks, i => 0)[chunk := lambdaId];
      reset, deleted := false, false;
      slice, placerMeta := M.Slice(sliceSize, None), None;
    }
  }

  /** The instances of the proxy, and the counter that slice bases are drawn from. */
  class Group {
    var all: seq<InstanceMeta>
    var sliceBase: nat

    constructor (all: seq<InstanceMeta>)
      ensures this.all == all && sliceBase == 0
    {
      this.all, sliceBase := all, 0;
    }

    function Views(): (r: seq<M.Instance>)
      reads this, all
      ensures |r| == |all|
    {
      seq(|all|, i requires 0 <= i < |all| reads this, all => all[i].View())
    }

    /** The base of the next slice: the counter before this slice was added to it. */
    method NextSlice(sliceSize: nat) returns (base: nat)
      requires |all| > 0 && sliceBase < WORD
      modifies this`sliceBase
      ensures base == old(sliceBase) % |all|
      ensures sliceBase == Wrap(old(sliceBase) + sliceSize)
    {
      sliceBase := Wrap(sliceBase + sliceSize);
      base := Wrap(sliceBase - sliceSize) % |all|;
      PlacerAccounting.WrapAdd(old(sliceBase) + sliceSize, -(sliceSize as int));
    }
  }

  /** The keys behind an array of pointers. */
  function Names(slots: seq<Meta?>): (r: seq<Option<Key>>)
    ensures |r| == |slots|
  {
    seq(|slots|, i requires 0 <= i < |slots| => if slots[i] == null then None else Some(slots[i].key))
  }

  class Placer {
    var store: map<Key, Meta>
    const group: Group
    var objects: Two<seq<Meta?>>
    var cursor: nat
    var cursorBound: nat
    var primary: Side

    /** The state of the value model that this placer is in. */
    ghost var model: M.State

    /** Keys name objects, slots point into the store, instances are distinct, and `model` is what the fields say. */
    ghost predicate Valid()
      reads this, store.Values, group, group.all
    {
      && model.store.Keys == store.Keys
      && (forall k :: k in store ==> store[k].key == k && store[k].View() == model.store[k])
      && SlotsOk(objects.zero) && SlotsOk(objects.one)
      && model.objects == Two(Names(objects.zero), Names(objects.one))
      && model.cursor == cursor && model.cursorBound == cursorBound && model.primary == primary
      && model.instances == group.Views() && model.sliceBase == group.sliceBase
      && (forall i, j :: 0 <= i < j < |group.all| ==> group.all[i] != group.all[j])
      && group.sliceBase < WORD
    }

    ghost predicate SlotsOk(slots: seq<Meta?>)
      reads this
    {
      forall i :: 0 <= i < |slots| && slots[i] != null ==> Stored(slots[i])
    }

    ghost predicate Stored(m: Meta)
      reads this
    {
      m.key in store && store[m.key] == m
    }

    constructor (group: Group)
      requires group.sliceBase == 0
      requires forall i, j :: 0 <= i < j < |group.all| ==> group.all[i] != group.all[j]
      ensures Valid() && this.group == group && store == map[]
      ensures model == Init(group.Views())
    {
      this.group := group;
      store := map[];
      objects := Two([null], []);
      cursor, cursorBound, primary := 0, 0, 0;
      model := Init(group.Views());
      new;
      assert Names([null]) == [None] && Names([]) == [];
    }

    /** Writes the placer metadata of one stored object. */
    method SetPlacerMeta(m: Meta, pm: M.PlacerMeta)
      requires Valid() && Stored(m)
      modifies m`placerMeta, this`model
      ensures Valid() && model == old(model).WithPm(m.key, pm)
    {
      m.placerMeta := Some(pm);
      model := model.WithPm(m.key, pm);
    }

    /** `AddObject`: lines up a new object behind the listed ones, marked. */
    method AddObject(meta: Meta)
      requires Valid() && Stored(meta) && meta.placerMeta.Some?
      modifies this`objects, this`model, meta`placerMeta
      ensures Valid() && model == Steps.AddObject(old(model), meta.key)
    {
      var pm := meta.placerMeta.value;
      SetPlacerMeta(meta, pm.(pos := pm.pos.Put(primary, |objects.At(primary)|), visited := true));
      Append(primary, meta);
    }

    /** Appends a pointer to one of the arrays. */
    method Append(side: Side, m: Meta)
      requires Valid() && Stored(m)
      modifies this`objects, this`model
      ensures Valid()
      ensures model == old(model).(objects := old(model).objects.Put(side, old(model).objects.At(side) + [Some(m.key)]))
    {
      var slots := objects.At(side) + [m];
      assert Names(slots) == Names(objects.At(side)) + [Some(m.key)];
      objects := objects.Put(side, slots);
      model := model.(objects := model.objects.Put(side, model.objects.At(side) + [Some(m.key)]));
    }

    /** `TouchObject`. */
    method TouchObject(meta: Meta)
      requires Valid() && Stored(meta) && meta.placerMeta.Some?
      modifies meta`placerMeta, this`model
      ensures Valid() && model == old(model).WithPm(meta.key, old(model).Pm(meta.key).(visited := true))
    {
      SetPlacerMeta(meta, meta.placerMeta.value.(visited := true));
    }

    /** Appends an object to the array being compacted and advances the hand. */
    method Compact(m: Meta)
      requires Valid() && Stored(m) && m.placerMeta.Some?
      modifies this`objects, this`cursor, this`model, m`placerMeta
      ensures Valid() && model == M.Keep(old(model), m.key)
    {
      var pm := m.placerMeta.value;
      var secondary := Other(primary);
      SetPlacerMeta(m, pm.(pos := pm.pos.Put(secondary, |objects.At(secondary)|)));
      Append(secondary, m);
      Advance();
    }

    /** Moves the hand on. */
    method Advance()
      requires Valid()
      modifies this`cursor, this`model
      ensures Valid() && model == old(model).(cursor := old(cursor) + 1)
    {
      cursor := cursor + 1;
      model := model.(cursor := cursor);
    }

    /** Flags an object as evicted. */
    method Drop(m: Meta)
      requires Valid() && Stored(m)
      modifies m`deleted, this`model
      ensures Valid() && model == Refile(old(model), m.key, old(model).store[m.key].(deleted := true))
    {
      m.deleted := true;
      model := Refile(model, m.key, model.store[m.key].(deleted := true));
    }

    /** Moves `meta` from its old slot, if any, to the slot under the hand. */
    method Relocate(meta: Meta, at: nat)
      requires Valid() && Stored(meta) && at < |objects.At(primary)| && cursor < |objects.At(primary)|
      modifies this`objects, this`model
      ensures Valid()
      ensures model == old(model).(
                objects := old(model).objects.Put(primary, old(model).P()[at := None][cursor := Some(meta.key)]))
    {
      var slots := objects.At(primary)[at := null][cursor := meta];
      ghost var names := model.P()[at := None][cursor := Some(meta.key)];
      assert Names(slots) == names;
      objects := objects.Put(primary, slots);
      model := model.(objects := model.objects.Put(primary, names));
    }

    /** Evicts the object under the hand and puts `meta` in its slot. */
    method Displace(meta: Meta, m: Meta, at: nat)
      requires Valid() && Stored(meta) && Stored(m) && at < |objects.At(primary)| && cursor < |objects.At(primary)|
      modifies this`objects, this`model, m`deleted
      ensures Valid()
      ensures var s := old(model);
              model == s.(store := s.store[m.key := s.store[m.key].(deleted := true)],
                          objects := s.objects.Put(s.primary, s.P()[at := None][s.cursor := Some(meta.key)]))
    {
      Drop(m);
      Relocate(meta, at);
    }

    /** Lets `meta` inherit the placement and the slot of the object under the hand. */
    method Claim(meta: Meta, m: Meta)
      requires Valid() && Stored(meta) && Stored(m)
      requires model.Sound() && model.Known(meta.key) && cursor < |model.P()| && M.AtTarget(model, meta.key)
      requires objects.At(primary)[cursor] == m && model.Pm(meta.key).pos.At(primary) < |model.P()|
      modifies this`objects, this`model, meta`placerMeta, m`deleted
      ensures Valid() && model == M.Claimed(old(model), meta.key)
    {
      var pm := meta.placerMeta.value;
      Displace(meta, m, pm.pos.At(primary));
      SetPlacerMeta(meta, pm.(swapMap := m.placement, evicts := Some(m.key), pos := pm.pos.Put(primary, cursor),
                              visited := true));
    }

    /** Gives the object under the hand up for `meta` and moves on. */
    method TakeSlot(meta: Meta, m: Meta)
      requires Valid() && Stored(meta) && Stored(m)
      requires model.Sound() && model.Known(meta.key) && cursor < |model.P()| && M.AtTarget(model, meta.key)
      requires objects.At(primary)[cursor] == m && model.Pm(meta.key).pos.At(primary) < |model.P()|
      modifies this`objects, this`cursor, this`model, meta`placerMeta, m`deleted
      ensures Valid() && model == M.Evict(old(model), meta.key)
    {
      Claim(meta, m);
      Compact(meta);
    }

    /** One iteration of the sweep. */
    method VisitSlot(meta: Meta) returns (found: bool)
      requires Valid() && Stored(meta) && model.Sound() && model.Known(meta.key)
      requires cursor < |model.P()| && model.Pm(meta.key).pos.At(primary) < |model.P()|
      modifies this`objects, this`cursor, this`model, store.Values
      ensures Valid()
      ensures found == M.AtTarget(old(model), meta.key)
      ensures model == if found then M.Evict(old(model), meta.key) else M.Visit(old(model), meta.key)
    {
      var m := objects.At(primary)[cursor];
      assert model.P()[cursor] == if m == null then None else Some(m.key);
      found := false;
      if m == null {
        Advance();
      } else if m != meta && !m.placerMeta.value.visited {
        TakeSlot(meta, m);
        found := true;
      } else {
        if m != meta && m.placerMeta.value.AllConfirmed() {
          SetPlacerMeta(m, m.placerMeta.value.(visited := false));
        }
        Compact(m);
      }
    }

    /** The sweep loop: runs to the first target or to the end of the sweep. */
    method Sweep(meta: Meta) returns (found: bool)
      requires Valid() && Stored(meta) && M.CanSweep(model, meta.key) && cursor != 0
      modifies this`objects, this`cursor, this`model, store.Values
      ensures Valid()
      ensures var t := M.Skip(old(model), meta.key);
              && found == (t.cursor < t.cursorBound)
              && model == if found then M.Evict(t, meta.key) else t
    {
      ghost var k := meta.key;
      ghost var end := M.Skip(model, k);
      found := false;
      while cursor < cursorBound && !found
        invariant Valid()
        invariant !found ==> M.CanSweep(model, k) && cursor != 0 && M.Skip(model, k) == end
        invariant found ==> end.cursor < end.cursorBound && model == M.Evict(end, k)
        decreases cursorBound - cursor, !found
      {
        M.SkipUnfolds(model, k);
        found := VisitSlot(meta);
      }
    }

    /** `NextAvailableObject`: one sweep on behalf of `meta`. */
    method NextAvailableObject(meta: Meta) returns (found: bool)
      requires Valid() && Stored(meta) && M.CanSweep(model, meta.key)
      modifies this`objects, this`cursor, this`cursorBound, this`primary, this`model, store.Values
      ensures Valid()
      ensures (model, found) == M.Pass(old(model), meta.key)
    {
      M.PassUnfolds(model, meta.key);
      StartSweep();
      found := Sweep(meta);
      if !found {
        FinishSweep();
      }
    }

    /** The start of a sweep, unless one is under way. */
    method StartSweep()
      requires Valid() && |model.P()| >= 1
      modifies this`objects, this`cursor, this`cursorBound, this`model
      ensures Valid() && model == M.Begin(old(model))
    {
      if cursor == 0 {
        objects := objects.Put(Other(primary), [null]);
        cursorBound := |objects.At(primary)|;
        cursor := 1;
        model := M.Begin(model);
        assert Names([null]) == [None];
      }
    }

    /** Copies one slot behind the end of the sweep. */
    method CopySlot()
      requires Valid() && model.Sound() && cursor < |model.P()|
      modifies this`objects, this`cursor, this`model, store.Values
      ensures Valid() && model == M.Copy(old(model))
    {
      var m := objects.At(primary)[cursor];
      assert model.P()[cursor] == if m == null then None else Some(m.key);
      if m == null {
        Advance();
      } else {
        Compact(m);
      }
    }

    /** The end of a sweep without a victim: copies the rest and switches the arrays. */
    method FinishSweep()
      requires Valid() && model.Sound() && cursor <= |model.P()|
      modifies this`objects, this`cursor, this`primary, this`model, store.Values
      ensures Valid() && model == M.Finish(old(model))
    {
      ghost var end := M.Tail(model);
      while cursor < |objects.At(primary)|
        invariant Valid() && cursor <= |model.P()| && model.Sound()
        invariant M.Tail(model) == end
      {
        CopySlot();
      }
      SwitchArrays();
    }

    method SwitchArrays()
      requires Valid()
      modifies this`cursor, this`primary, this`model
      ensures Valid() && model == old(model).(cursor := 0, primary := Other(old(primary)))
    {
      cursor, primary := 0, Other(primary);
      model := model.(cursor := 0, primary := primary);
    }

    /** The retry loop: sweeps until a victim is found. It ends because some complete object is listed. */
    method FindVictim(meta: Meta, ghost n: nat)
      requires Valid() && Stored(meta) && Evictable(model, meta.key, n)
      modifies this`objects, this`cursor, this`cursorBound, this`primary, this`model, store.Values
      ensures Valid() && model == Retry(old(model), meta.key, n)
    {
      ghost var k := meta.key;
      ghost var end := Retry(model, k, n);
      var found := false;
      while !found
        invariant Valid()
        invariant found ==> model == end
        invariant !found ==> Evictable(model, k, n) && Retry(model, k, n) == end
        decreases if found then 0 else View(model, k, n).Sweeps()
      {
        RetryUnfolds(model, k, n);
        found := NextAvailableObject(meta);
      }
    }

    /** Puts a chunk on an instance and confirms it. */
    method Confirm(meta: Meta, chunk: nat, i: nat)
      requires Valid() && Stored(meta) && meta.placerMeta.Some?
      requires chunk < |meta.placerMeta.value.confirmed| && chunk < |meta.placement|
      modifies meta`placement, meta`placerMeta, this`model
      ensures Valid() && model == Confirmed(old(model), meta.key, chunk, i)
    {
      ConfirmedIs(model, meta.key, chunk, i);
      SetPlacement(meta, meta.placement[chunk := i]);
      SetPlacerMeta(meta, meta.placerMeta.value.Confirm(chunk));
    }

    method SetPlacement(meta: Meta, placement: seq<nat>)
      requires Valid() && Stored(meta)
      modifies meta`placement, this`model
      ensures Valid() && model == Refile(old(model), meta.key, old(model).store[meta.key].(placement := placement))
    {
      meta.placement := placement;
      model := Refile(model, meta.key, model.store[meta.key].(placement := placement));
    }

    /** Adds a signed number of bytes to those accounted to one instance. */
    method AddSize(i: nat, delta: int)
      requires Valid() && i < |group.all|
      modifies group.all, this`model
      ensures Valid() && model == old(model).(instances := AddBytes(old(model).instances, i, delta))
    {
      var _ := group.all[i].IncreaseSize(delta);
      model := model.(instances := AddBytes(model.instances, i, delta));
      assert model.instances == group.Views();
    }

    /** Takes bytes away from those accounted to one instance. */
    method TakeSize(i: nat, bytes: nat)
      requires Valid() && i < |group.all|
      modifies group.all, this`model
      ensures Valid() && model == old(model).(instances := AddBytes(old(model).instances, i, -(bytes as int)))
    {
      var _ := group.all[i].DecreaseSize(bytes);
      model := model.(instances := AddBytes(model.instances, i, -(bytes as int)));
      assert model.instances == group.Views();
    }

    /** Draws a slice base from the group. */
    method NextBase(sliceSize: nat) returns (base: nat)
      requires Valid() && |group.all| > 0
      modifies group`sliceBase, this`model
      ensures Valid() && model == old(model).(sliceBase := Wrap(old(model).sliceBase + sliceSize))
      ensures base == old(model).sliceBase % |group.all|
    {
      base := group.NextSlice(sliceSize);
      model := model.(sliceBase := group.sliceBase);
    }

    method SetBase(meta: Meta, base: nat)
      requires Valid() && Stored(meta)
      modifies meta`slice, this`model
      ensures Valid()
      ensures var m := old(model).store[meta.key];
              model == Refile(old(model), meta.key, m.(slice := m.slice.(base := Some(base))))
    {
      meta.slice := meta.slice.(base := Some(base));
      model := Refile(model, meta.key, meta.View());
    }

    /** Fixes the slice base of an object on first use. */
    method DrawBase(meta: Meta)
      requires Valid() && Stored(meta) && |group.all| > 0
      modifies meta`slice, group`sliceBase, this`model
      ensures Valid() && model == WithSlice(old(model), meta.key)
    {
      if meta.slice.base.None? {
        var base := NextBase(meta.slice.size);
        SetBase(meta, base);
      }
    }

    /** `Slice.GetIndex`: the instance meant by a lambda id. */
    method GetIndex(meta: Meta, lambdaId: nat) returns (target: nat)
      requires Valid() && Stored(meta) && |group.all| > 0
      modifies meta`slice, group`sliceBase, this`model
      ensures Valid() && model == WithSlice(old(model), meta.key)
      ensures target == Assigned(old(model), meta.key, lambdaId) && target < |group.all|
    {
      DrawBase(meta);
      target := (meta.slice.base.value + lambdaId) % |group.all|;
    }

    /** Charges a swap map to its instances: the evicted chunks leave, unconfirmed chunks of `meta` come. */
    method ChargeSwap(swapMap: seq<nat>, confirmed: seq<bool>, size: nat, evicted: nat)
      requires Valid() && |swapMap| == |confirmed|
      requires forall c :: 0 <= c < |swapMap| ==> swapMap[c] < |group.all|
      modifies group.all, this`model
      ensures Valid()
      ensures model == old(model).(
                instances := Charge(old(model).instances, swapMap, confirmed, size, evicted, |swapMap|))
    {
      ghost var s := model;
      for i := 0 to |swapMap|
        invariant Valid()
        invariant model == s.(instances := Charge(s.instances, swapMap, confirmed, size, evicted, i))
      {
        if !confirmed[i] {
          AddSize(swapMap[i], size - evicted);
        } else {
          TakeSize(swapMap[i], evicted);
        }
      }
    }

    /** The accounting after an eviction, and the confirmation of the chunk. */
    method InheritPlacement(meta: Meta, chunk: nat, ghost n: nat)
      requires Valid() && Stored(meta) && model.Known(meta.key) && chunk < n
      requires |model.Pm(meta.key).swapMap| == |model.Pm(meta.key).confirmed| == |model.store[meta.key].placement| == n
      requires model.Pm(meta.key).evicts.Some? && model.Pm(meta.key).evicts.value in model.store
      requires forall c :: 0 <= c < n ==> model.Pm(meta.key).swapMap[c] < |model.instances|
      modifies this`model, meta, group.all
      ensures Valid() && model == Inherit(old(model), meta.key, chunk, n)
    {
      var pm := meta.placerMeta.value;
      var victim := store[pm.evicts.value];
      ChargeSwap(pm.swapMap, pm.confirmed, meta.chunkSize, victim.chunkSize);
      Confirm(meta, chunk, pm.swapMap[chunk]);
    }

    /** Settles a chunk by evicting another object. */
    method SettleByEviction(meta: Meta, chunk: nat, ghost n: nat)
      requires Valid() && Stored(meta) && Evictable(model, meta.key, n) && chunk < n
      modifies this`objects, this`cursor, this`cursorBound, this`primary, this`model, store.Values, group.all
      ensures Valid() && model == Inherited(old(model), meta.key, chunk, n)
    {
      InheritOk(model, meta.key, n);
      FindVictim(meta, n);
      InheritPlacement(meta, chunk, n);
    }

    /** Settles a chunk on the instance it is meant for. */
    method SettleInPlace(meta: Meta, chunk: nat, target: nat)
      requires Valid() && Stored(meta) && meta.placerMeta.Some? && target < |group.all|
      requires chunk < |meta.placerMeta.value.confirmed| && chunk < |meta.placement|
      modifies this`objects, this`model, meta, group.all
      ensures Valid() && model == Place(old(model), meta.key, chunk, target)
    {
      Confirm(meta, chunk, target);
      if meta.placerMeta.value.pos.At(primary) == 0 {
        AddObject(meta);
      }
      AddSize(target, meta.chunkSize);
    }

    /** Whether the instance has room for one more chunk of this object. */
    method HasRoom(meta: Meta, target: nat) returns (fits: bool)
      requires Valid() && Stored(meta) && target < |group.all|
      ensures fits == Fits(model.instances[target], model.store[meta.key].chunkSize)
    {
      var instance := group.all[target];
      assert instance.View() == model.instances[target];
      fits := Wrap(instance.size + meta.chunkSize) < instance.capacity;
    }

    /** Settles a chunk whose slice base is drawn: in place if it fits, by eviction otherwise. */
    method SettleAt(meta: Meta, chunk: nat, target: nat, ghost n: nat) returns (fits: bool)
      requires Valid() && Stored(meta) && target < |group.all| && model.Known(meta.key)
      requires chunk < n && chunk < |model.Pm(meta.key).confirmed| && chunk < |model.store[meta.key].placement|
      requires !Fits(model.instances[target], model.store[meta.key].chunkSize) ==> Evictable(model, meta.key, n)
      modifies this`objects, this`cursor, this`cursorBound, this`primary, this`model, store.Values, group.all
      ensures Valid() && fits == Fits(old(model).instances[target], old(model).store[meta.key].chunkSize)
      ensures model == if fits then Place(old(model), meta.key, chunk, target)
                       else Inherited(old(model), meta.key, chunk, n)
    {
      fits := HasRoom(meta, target);
      if fits {
        SettleInPlace(meta, chunk, target);
      } else {
        SettleByEviction(meta, chunk, n);
      }
    }

    /** Settles a chunk of an object that has no swap map. */
    method SettleAnew(meta: Meta, chunk: nat, lambdaId: nat, ghost n: nat) returns (evicting: bool)
      requires Valid() && Stored(meta) && WellFormed(model, n) && |group.all| > 0
      requires CanSettle(model, meta.key, chunk, lambdaId, n)
      requires RouteOf(model, meta.key, lambdaId).Placed? || RouteOf(model, meta.key, lambdaId).Evicting?
      modifies this`objects, this`cursor, this`cursorBound, this`primary, this`model, store.Values,
               group`sliceBase, group.all
      ensures Valid() && model == Steps.Settle(old(model), meta.key, chunk, lambdaId, n)
      ensures evicting == RouteOf(old(model), meta.key, lambdaId).Evicting?
    {
      SettleUnfolds(model, meta.key, chunk, lambdaId, n);
      var target := GetIndex(meta, lambdaId);
      var fits := SettleAt(meta, chunk, target, n);
      evicting := !fits;
    }

    /** The part of `GetOrInsert` under the placer lock. */
    method Settle(meta: Meta, chunk: nat, lambdaId: nat, ghost n: nat) returns (evicting: bool)
      requires Valid() && Stored(meta) && WellFormed(model, n) && |group.all| > 0
      requires CanSettle(model, meta.key, chunk, lambdaId, n)
      modifies this`objects, this`cursor, this`cursorBound, this`primary, this`model, store.Values,
               group`sliceBase, group.all
      ensures Valid() && model == Steps.Settle(old(model), meta.key, chunk, lambdaId, n)
      ensures evicting == RouteOf(old(model), meta.key, lambdaId).Evicting?
    {
      assert MetaOk(model, n, meta.key);
      if meta.deleted {
        evicting := false;
      } else if meta.placerMeta.value.swapMap != [] {
        Confirm(meta, chunk, meta.placerMeta.value.swapMap[chunk]);
        evicting := false;
      } else {
        evicting := SettleAnew(meta, chunk, lambdaId, n);
      }
    }

    method SettleUnless(done: bool, meta: Meta, chunk: nat, lambdaId: nat, ghost n: nat) returns (evicting: bool)
      requires Valid() && Stored(meta)
      requires done || (WellFormed(model, n) && |model.instances| > 0 && CanSettle(model, meta.key, chunk, lambdaId, n))
      modifies this`objects, this`cursor, this`cursorBound, this`primary, this`model, store.Values,
               group`sliceBase, group.all
      ensures Valid() && Stored(meta)
      ensures model == if done then old(model) else Steps.Settle(old(model), meta.key, chunk, lambdaId, n)
      ensures evicting == (!done && RouteOf(old(model), meta.key, lambdaId).Evicting?)
    {
      evicting := false;
      if !done {
        evicting := Settle(meta, chunk, lambdaId, n);
      }
    }

    /** `MetaStore.GetOrInsert`: the stored object, or the new one if there is none. */
    method Lookup(key: Key, newMeta: Meta) returns (meta: Meta, got: bool)
      requires Valid() && newMeta.key == key && newMeta !in store.Values
      modifies this`store, this`model
      ensures Valid() && Stored(meta) && meta.key == key
      ensures got <==> key in old(store)
      ensures store == if got then old(store) else old(store)[key := newMeta]
      ensures model == if got then old(model) else Refile(old(model), key, newMeta.View())
    {
      got := key in store;
      if !got {
        store := store[key := newMeta];
        model := Refile(model, key, newMeta.View());
      }
      meta := store[key];
    }

    /** Forgets the placer metadata of an evicted object that is set again. */
    method Revive(meta: Meta)
      requires Valid() && Stored(meta)
      modifies meta`placerMeta, meta`deleted, this`model
      ensures Valid()
      ensures model == Refile(old(model), meta.key, Revived(old(model), meta.key, old(model).store[meta.key]))
    {
      if meta.deleted {
        meta.placerMeta := None;
        meta.deleted := false;
      }
      model := Refile(model, meta.key, Revived(model, meta.key, model.store[meta.key]));
    }

    /** Flags a chunk that is set again, or prepares the placer metadata of a new object. */
    method Prepare(meta: Meta, chunk: nat) returns (done: bool)
      requires Valid() && Stored(meta) && !meta.deleted
      requires meta.placerMeta.Some? ==> chunk < |meta.placerMeta.value.confirmed|
      modifies meta`placerMeta, meta`reset, this`model
      ensures Valid() && model == Steps.Admit(old(model), meta.key, chunk, old(model).store[meta.key])
      ensures done == SetBefore(old(model), meta.key, chunk, old(model).store[meta.key])
    {
      done := meta.placerMeta.Some? && meta.placerMeta.value.confirmed[chunk];
      if done {
        FlagReset(meta);
      } else if meta.placerMeta.None? {
        SetPlacerMeta(meta, NewPlacerMeta(|meta.placement|));
      } else {
        assert model.store == model.store[meta.key := model.store[meta.key]];
      }
    }

    method FlagReset(meta: Meta)
      requires Valid() && Stored(meta)
      modifies meta`reset, this`model
      ensures Valid() && model == Refile(old(model), meta.key, old(model).store[meta.key].(reset := true))
    {
      meta.reset := true;
      model := Refile(model, meta.key, model.store[meta.key].(reset := true));
    }

    /** The part of `GetOrInsert` under the object lock alone; tells whether the chunk was set before. */
    method Admit(key: Key, newMeta: Meta, ghost n: nat) returns (meta: Meta, got: bool, done: bool)
      requires Valid() && newMeta.key == key && newMeta !in store.Values
      requires newMeta.placerMeta.None? && !newMeta.deleted
      requires newMeta.lastChunk < n && (key in store ==> MetaOk(model, n, key))
      modifies this`store, this`model, store.Values, newMeta
      ensures Valid() && Stored(meta) && meta.key == key && store.Values <= old(store.Values) + {newMeta}
      ensures got <==> key in old(store)
      ensures store == if got then old(store) else old(store)[key := newMeta]
      ensures model == Steps.Admit(old(model), key, newMeta.lastChunk, old(newMeta.View()))
      ensures done == SetBefore(old(model), key, newMeta.lastChunk, old(newMeta.View()))
    {
      AdmitUnfolds(model, key, newMeta.lastChunk, newMeta.View(), n);
      meta, got := Lookup(key, newMeta);
      Revive(meta);
      done := Prepare(meta, newMeta.lastChunk);
    }

    /** Both parts of `GetOrInsert`; a chunk that was set before is not settled again. */
    method AdmitAndSettle(key: Key, newMeta: Meta, ghost n: nat) returns (meta: Meta, got: bool, evicting: bool)
      requires Valid() && newMeta.key == key && newMeta !in store.Values
      requires newMeta.placerMeta.None? && !newMeta.deleted && |newMeta.placement| == n
      requires newMeta.lastChunk < n && (key in store ==> MetaOk(model, n, key))
      requires var t := Steps.Admit(model, key, newMeta.lastChunk, newMeta.View());
               SetBefore(model, key, newMeta.lastChunk, newMeta.View())
               || (&& WellFormed(t, n) && |t.instances| > 0
                   && CanSettle(t, key, newMeta.lastChunk, newMeta.placement[newMeta.lastChunk], n))
      modifies this`store, this`objects, this`cursor, this`cursorBound, this`primary, this`model,
               store.Values, newMeta, group`sliceBase, group.all
      ensures Valid() && Stored(meta) && meta.key == key && (got <==> key in old(store))
      ensures var t := Steps.Admit(old(model), key, newMeta.lastChunk, old(newMeta.View()));
              model == if SetBefore(old(model), key, newMeta.lastChunk, old(newMeta.View())) then t
                       else Steps.Settle(t, key, newMeta.lastChunk, old(newMeta.placement)[newMeta.lastChunk], n)
      ensures evicting == SetEvicts(old(model), key, newMeta.lastChunk, old(newMeta.placement)[newMeta.lastChunk],
                                 old(newMeta.View()))
    {
      var chunk := newMeta.lastChunk;
      var lambdaId := newMeta.placement[chunk];
      var done;
      meta, got, done := Admit(key, newMeta, n);
      evicting := SettleUnless(done, meta, chunk, lambdaId, n);
    }

    /** `GetOrInsert`: places one chunk of an object, evicting another object if need be. */
    method GetOrInsert(key: Key, newMeta: Meta, ghost n: nat) returns (meta: Meta, got: bool, evicting: bool)
      requires Valid() && Inv(model, n) && newMeta.key == key && newMeta !in store.Values
      requires newMeta.lastChunk < n && Unplaced(newMeta.View(), n)
      requires CanSet(model, key, newMeta.lastChunk, newMeta.placement[newMeta.lastChunk], newMeta.View(), n)
      modifies this`store, this`objects, this`cursor, this`cursorBound, this`primary, this`model,
               store.Values, newMeta, group`sliceBase, group.all
      ensures Valid() && key in store && meta == store[key] && (got <==> key in old(store))
      ensures model == SetChunk(old(model), key, newMeta.lastChunk, old(newMeta.placement)[newMeta.lastChunk],
                                old(newMeta.View()), n)
      ensures evicting == SetEvicts(old(model), key, newMeta.lastChunk, old(newMeta.placement)[newMeta.lastChunk],
                                 old(newMeta.View()))
      ensures SetWhere(old(model), model, key, newMeta.lastChunk, old(newMeta.placement)[newMeta.lastChunk],
                       old(newMeta.View()))
    {
      SetUnfolds(model, key, newMeta.lastChunk, newMeta.placement[newMeta.lastChunk], newMeta.View(), n);
      SetEffect(model, key, newMeta.lastChunk, newMeta.placement[newMeta.lastChunk], newMeta.View(), n);
      meta, got, evicting := AdmitAndSettle(key, newMeta, n);
    }

    /** What the fields of a stored object and of the group are in the model. */
    lemma Reads(meta: Meta)
      requires Valid() && Stored(meta)
      ensures meta.key in model.store && model.store[meta.key].placement == meta.placement
      ensures model.store[meta.key].slice == meta.slice && |model.instances| == |group.all|
    {
    }

    /** A client's set of one chunk: new metadata for what it asks for, and `GetOrInsert`. */
    method Insert(key: Key, sliceSize: nat, numChunks: nat, chunk: nat, lambdaId: nat, chunkSize: nat)
      returns (meta: Meta, got: bool, evicting: bool)
      requires Valid() && Inv(model, numChunks) && chunk < numChunks
      requires CanSet(model, key, chunk, lambdaId, NewMeta(numChunks, chunk, lambdaId, sliceSize, chunkSize), numChunks)
      modifies this`store, this`objects, this`cursor, this`cursorBound, this`primary, this`model,
               store.Values, group`sliceBase, group.all
      ensures Valid() && Stored(meta) && meta.key == key && (got <==> key in old(store))
      ensures SetWhere(old(model), model, key, chunk, lambdaId,
                       NewMeta(numChunks, chunk, lambdaId, sliceSize, chunkSize))
    {
      var newMeta := new Meta(key, sliceSize, numChunks, chunk, lambdaId, chunkSize);
      meta, got, evicting := GetOrInsert(key, newMeta, numChunks);
    }

    /** Where a client finds a chunk that fits: the instance that the lambda id it gave means in the object's slice. */
    method InsertFitting(key: Key, sliceSize: nat, numChunks: nat, chunk: nat, lambdaId: nat, chunkSize: nat)
      returns (meta: Meta)
      requires Valid() && Inv(model, numChunks) && chunk < numChunks
      requires CanSet(model, key, chunk, lambdaId, NewMeta(numChunks, chunk, lambdaId, sliceSize, chunkSize), numChunks)
      requires SetFits(model, key, chunk, lambdaId, NewMeta(numChunks, chunk, lambdaId, sliceSize, chunkSize))
      modifies this`store, this`objects, this`cursor, this`cursorBound, this`primary, this`model,
               store.Values, group`sliceBase, group.all
      ensures Valid() && Stored(meta) && meta.key == key && meta.slice.base.Some? && chunk < |meta.placement|
      ensures |group.all| > 0 && meta.placement[chunk] == (meta.slice.base.value + lambdaId) % |group.all|
    {
      var got, evicting;
      meta, got, evicting := Insert(key, sliceSize, numChunks, chunk, lambdaId, chunkSize);
      Reads(meta);
    }

    /** `Get`: finds a placed chunk and marks its object. */
    method Get(key: Key, chunk: nat) returns (meta: Meta?, ok: bool)
      requires Valid() && (model.Known(key) ==> chunk < |model.Pm(key).confirmed|)
      modifies store.Values, this`model
      ensures Valid() && model == Touch(old(model), key, chunk)
      ensures ok <==> key in store
                      && (old(model).store[key].deleted
                          || (old(model).Known(key) && old(model).Pm(key).confirmed[chunk]))
      ensures meta == if ok then store[key] else null
    {
      if key !in store {
        return null, false;
      }
      var found := store[key];
      if found.deleted {
        return found, true;
      }
      if found.placerMeta.None? || !found.placerMeta.value.confirmed[chunk] {
        return null, false;
      }
      TouchObject(found);
      return found, true;
    }
  }

  /** Confirming a chunk is placing it and noting that. */
  lemma ConfirmedIs(s: M.State, key: Key, chunk: nat, i: nat)
    requires s.Known(key) && chunk < |s.Pm(key).confirmed| && chunk < |s.store[key].placement|
    ensures Refile(s, key, s.store[key].(placement := s.store[key].placement[chunk := i]))
            .WithPm(key, s.Pm(key).Confirm(chunk)) == Confirmed(s, key, chunk, i)
  {
  }

  /** A set operation places its chunk where it was meant to go: it was not set before, and it fits there. */
  predicate SetFits(s: M.State, key: Key, chunk: nat, lambdaId: nat, offered: M.Meta) {
    && !SetBefore(s, key, chunk, offered)
    && (var m := Revived(s, key, offered); m.placerMeta.Some? ==> chunk < |m.placerMeta.value.confirmed|)
    && var t := Steps.Admit(s, key, chunk, offered);
    && t.Known(key) && |t.instances| > 0 && RouteOf(t, key, lambdaId).Placed?
  }

  /** What a set operation does for its chunk, in the cases that need no eviction. */
  predicate SetWhere(s: M.State, t: M.State, key: Key, chunk: nat, lambdaId: nat, offered: M.Meta) {
    && (SetBefore(s, key, chunk, offered) ==>
          key in s.store && key in t.store && t.store[key] == s.store[key].(reset := true))
    && (SetFits(s, key, chunk, lambdaId, offered) ==>
          && key in t.store && t.store[key].slice.base.Some? && chunk < |t.store[key].placement| && |t.instances| > 0
          && t.store[key].placement[chunk] == (t.store[key].slice.base.value + lambdaId) % |t.instances|)
  }

  lemma SetEffect(s: M.State, key: Key, chunk: nat, lambdaId: nat, offered: M.Meta, n: nat)
    requires Inv(s, n) && chunk < n && Unplaced(offered, n) && CanSet(s, key, chunk, lambdaId, offered, n)
    ensures SetWhere(s, SetChunk(s, key, chunk, lambdaId, offered, n), key, chunk, lambdaId, offered)
  {
    AdmitKeeps(s, key, chunk, offered, n);
    AdmitEffect(s, key, chunk, offered, n);
    if !SetBefore(s, key, chunk, offered) {
      var t := Admitted(s, key, chunk, offered, n);
      SettleEffect(t, key, chunk, lambdaId, n);
      if RouteOf(t, key, lambdaId).Placed? {
        SettleSize(t, key, chunk, lambdaId, n);
      }
    }
  }

  lemma SettleSize(s: M.State, key: Key, chunk: nat, lambdaId: nat, n: nat)
    requires Inv(s, n) && CanSettle(s, key, chunk, lambdaId, n) && RouteOf(s, key, lambdaId).Placed?
    ensures |Steps.Settle(s, key, chunk, lambdaId, n).instances| == |s.instances|
  {
  }

  /** A set operation evicts: its chunk was not set before, has no inherited place, and does not fit. */
  predicate SetEvicts(s: M.State, key: Key, chunk: nat, lambdaId: nat, offered: M.Meta) {
    && !SetBefore(s, key, chunk, offered)
    && (var m := Revived(s, key, offered); m.placerMeta.Some? ==> chunk < |m.placerMeta.value.confirmed|)
    && var t := Steps.Admit(s, key, chunk, offered);
    && t.Known(key) && |t.instances| > 0 && RouteOf(t, key, lambdaId).Evicting?
  }

  /** Admitting a chunk is looking its object up, reviving it and preparing it. */
  lemma AdmitUnfolds(s: M.State, key: Key, chunk: nat, offered: M.Meta, n: nat)
    requires chunk < n && (key in s.store ==> MetaOk(s, n, key))
    requires offered.placerMeta.None? && !offered.deleted
    ensures var s1 := if key in s.store then s else Refile(s, key, offered);
            var s2 := Refile(s1, key, Revived(s1, key, s1.store[key]));
            && !s2.store[key].deleted
            && (s2.store[key].placerMeta.Some? ==> chunk < |s2.store[key].placerMeta.value.confirmed|)
            && Steps.Admit(s2, key, chunk, s2.store[key]) == Steps.Admit(s, key, chunk, offered)
            && SetBefore(s2, key, chunk, s2.store[key]) == SetBefore(s, key, chunk, offered)
  {
    var s1 := if key in s.store then s else Refile(s, key, offered);
    var s2 := Refile(s1, key, Revived(s1, key, s1.store[key]));
    assert Steps.Admit(s2, key, chunk, s2.store[key]).store == Steps.Admit(s, key, chunk, offered).store;
  }

  /** How a chunk without an inherited place is settled, once its slice base is drawn. */
  lemma SettleUnfolds(s: M.State, key: Key, chunk: nat, lambdaId: nat, n: nat)
    requires WellFormed(s, n) && |s.instances| > 0 && CanSettle(s, key, chunk, lambdaId, n)
    requires RouteOf(s, key, lambdaId).Placed? || RouteOf(s, key, lambdaId).Evicting?
    ensures var w, a := WithSlice(s, key), Assigned(s, key, lambdaId);
            && w.Known(key) && chunk < n && chunk < |w.Pm(key).confirmed| && chunk < |w.store[key].placement|
            && (RouteOf(s, key, lambdaId).Placed? <==> Fits(w.instances[a], w.store[key].chunkSize))
            && (RouteOf(s, key, lambdaId).Placed? ==>
                  Steps.Settle(s, key, chunk, lambdaId, n) == Place(w, key, chunk, a))
            && (RouteOf(s, key, lambdaId).Evicting? ==>
                  && Evictable(w, key, n)
                  && Steps.Settle(s, key, chunk, lambdaId, n) == Inherited(w, key, chunk, n))
  {
    assert MetaOk(s, n, key);
    SliceKeeps(s, key, n);
  }

  /** One sweep of the retry loop. */
  lemma RetryUnfolds(s: M.State, k: Key, n: nat)
    requires Evictable(s, k, n)
    ensures M.CanSweep(s, k)
    ensures var (t, found) := M.Pass(s, k);
            if found then t == Retry(s, k, n)
            else
              && Evictable(t, k, n) && Retry(t, k, n) == Retry(s, k, n)
              && View(t, k, n).Sweeps() < View(s, k, n).Sweeps()
  {
    var c := View(s, k, n);
    PassFinds(s, k, n, c);
    M.PassUnfolds(s, k);
    if c.Stop() == c.limit {
      PassMisses(s, k, n, c);
      RewoundSpec(c);
    }
  }
}
