/**
 The placer of the proxy on values: object metadata keyed by object key, the two
 slot arrays of the clock LRU, and the hand that sweeps and compacts them.
 Slots hold keys where the program holds pointers; the meta store never drops a
 key, so a key names one metadata object for good.
 */
module PlacerModel {
  import opened Basics

  type Key = string

  datatype PlacerMeta = PlacerMeta(
    pos: Two<nat>,
    visited: bool,
    confirmed: seq<bool>,
    numConfirmed: nat,
    swapMap: seq<nat>,
    evicts: Option<Key>)
  {
    predicate AllConfirmed() {
      numConfirmed == |confirmed|
    }

    function Confirm(chunk: nat): PlacerMeta
      requires chunk < |confirmed|
    {
      if confirmed[chunk] then this
      else this.(confirmed := confirmed[chunk := true], numConfirmed := numConfirmed + 1)
    }
  }

  /** The slice of the group an object draws its instances from; the base is fixed on first use. */
  datatype Slice = Slice(size: nat, base: Option<nat>)

  datatype Meta = Meta(
    placement: seq<nat>,
    chunkSize: nat,
    reset: bool,
    deleted: bool,
    slice: Slice,
    placerMeta: Option<PlacerMeta>)

  /** The byte accounting of one instance: 64-bit unsigned counters. */
  datatype Instance = Instance(size: nat, capacity: nat)

  datatype State = State(
    store: map<Key, Meta>,
    objects: Two<seq<Option<Key>>>,
    cursor: nat,
    cursorBound: nat,
    primary: Side,
    instances: seq<Instance>,
    sliceBase: nat)
  {
    function Secondary(): Side {
      Other(primary)
    }

    /** The array the hand sweeps. */
    function P(): seq<Option<Key>> {
      objects.At(primary)
    }

    /** The array being compacted into. */
    function S(): seq<Option<Key>> {
      objects.At(Secondary())
    }

    predicate Known(x: Key) {
      x in store && store[x].placerMeta.Some?
    }

    function Pm(x: Key): PlacerMeta
      requires Known(x)
    {
      store[x].placerMeta.value
    }

    function WithPm(x: Key, pm: PlacerMeta): State
      requires x in store
    {
      this.(store := store[x := store[x].(placerMeta := Some(pm))])
    }

    /** Every listed object has placer metadata. */
    predicate Sound() {
      && |P()| >= 1
      && forall i :: 0 <= i < |P()| && P()[i].Some? ==> Known(P()[i].value)
    }
  }

  /** The slot under the hand holds an object the sweep would evict for k. */
  predicate AtTarget(s: State, k: Key)
    requires s.Sound()
    requires s.cursor < |s.P()|
  {
    var slot := s.P()[s.cursor];
    slot.Some? && slot.value != k && !s.Pm(slot.value).visited
  }

  /** Appends x to the array being compacted and advances the hand. */
  function Keep(s: State, x: Key): State
    requires s.Known(x)
  {
    var pm := s.Pm(x);
    s.WithPm(x, pm.(pos := pm.pos.Put(s.Secondary(), |s.S()|)))
     .(objects := s.objects.Put(s.Secondary(), s.S() + [Some(x)]), cursor := s.cursor + 1)
  }

  /** One iteration of the sweep at a slot that is not a target. */
  function Visit(s: State, k: Key): State
    requires s.Sound()
    requires s.cursor < |s.P()| && !AtTarget(s, k)
  {
    var slot := s.P()[s.cursor];
    if slot.None? then s.(cursor := s.cursor + 1)
    else
      var pm := s.Pm(slot.value);
      if slot.value != k && pm.AllConfirmed()
      then Keep(s.WithPm(slot.value, pm.(visited := false)), slot.value)
      else Keep(s, slot.value)
  }

  /** Sweeps up to the first target, or to the end of the sweep. */
  function Skip(s: State, k: Key): (t: State)
    requires s.Sound()
    requires s.cursor <= s.cursorBound <= |s.P()|
    ensures t.P() == s.P() && t.primary == s.primary && t.Sound()
    ensures s.cursor <= t.cursor <= t.cursorBound == s.cursorBound
    ensures t.store.Keys == s.store.Keys
    ensures forall x :: s.Known(x) ==> t.Known(x) && t.Pm(x).pos.At(s.primary) == s.Pm(x).pos.At(s.primary)
    ensures t.cursor < t.cursorBound ==> AtTarget(t, k)
    decreases s.cursorBound - s.cursor
  {
    if s.cursor == s.cursorBound || AtTarget(s, k) then s else Skip(Visit(s, k), k)
  }

  /** The target under the hand gives way to k, which inherits its placement and takes its slot. */
  function Claimed(s: State, k: Key): (t: State)
    requires s.Sound() && s.Known(k)
    requires s.cursor < |s.P()| && AtTarget(s, k)
    requires s.Pm(k).pos.At(s.primary) < |s.P()|
    ensures t.Known(k)
  {
    var m := s.P()[s.cursor].value;
    var pm := s.Pm(k);
    var slots := s.P()[pm.pos.At(s.primary) := None][s.cursor := Some(k)];
    var s1 := s.(store := s.store[m := s.store[m].(deleted := true)],
                 objects := s.objects.Put(s.primary, slots));
    var pm1 := pm.(swapMap := s.store[m].placement,
                   evicts := Some(m),
                   pos := pm.pos.Put(s.primary, s.cursor),
                   visited := true);
    s1.WithPm(k, pm1)
  }

  /** Gives the target under the hand up for k and moves on. */
  function Evict(s: State, k: Key): State
    requires s.Sound() && s.Known(k)
    requires s.cursor < |s.P()| && AtTarget(s, k)
    requires s.Pm(k).pos.At(s.primary) < |s.P()|
  {
    Keep(Claimed(s, k), k)
  }

  /** Copies the slot under the hand, if it is occupied. */
  function Copy(s: State): (t: State)
    requires s.Sound() && s.cursor < |s.P()|
    ensures t.Sound() && t.P() == s.P() && t.primary == s.primary && t.cursor == s.cursor + 1
  {
    if s.P()[s.cursor].None? then s.(cursor := s.cursor + 1) else Keep(s, s.P()[s.cursor].value)
  }

  /** Copies the slots from the hand to the end of the array, for compaction. */
  function Tail(s: State): (t: State)
    requires s.Sound() && s.cursor <= |s.P()|
    ensures t.primary == s.primary
    decreases |s.P()| - s.cursor
  {
    if s.cursor == |s.P()| then s else Tail(Copy(s))
  }

  /** Starts a sweep: position 0 is reserved and the end of the sweep is fixed here. */
  function Begin(s: State): State {
    if s.cursor != 0 then s
    else s.(objects := s.objects.Put(s.Secondary(), [None]), cursorBound := |s.P()|, cursor := 1)
  }

  /** Ends a sweep that found nothing: the compacted array becomes the primary one. */
  function Finish(s: State): State
    requires s.Sound() && s.cursor <= |s.P()|
  {
    var t := Tail(s);
    t.(cursor := 0, primary := Other(t.primary))
  }

  /** The hand may sweep on behalf of k. */
  predicate CanSweep(s: State, k: Key) {
    && s.Sound() && s.Known(k)
    && s.Pm(k).pos.At(s.primary) < |s.P()|
    && (s.cursor != 0 ==> s.cursor <= s.cursorBound <= |s.P()|)
  }

  /** `NextAvailableObject`: one sweep on behalf of k, and whether it found a victim. */
  function Pass(s: State, k: Key): (State, bool)
    requires CanSweep(s, k)
  {
    var t := Skip(Begin(s), k);
    if t.cursor < t.cursorBound then (Evict(t, k), true) else (Finish(t), false)
  }

  /** A slot that is not a target is one step of the sweep. */
  lemma SkipUnfolds(s: State, k: Key)
    requires CanSweep(s, k) && 0 < s.cursor < s.cursorBound
    ensures AtTarget(s, k) ==> Skip(s, k) == s
    ensures !AtTarget(s, k) ==>
              var t := Visit(s, k);
              && CanSweep(t, k) && t.cursor == s.cursor + 1 && t.cursorBound == s.cursorBound
              && Skip(t, k) == Skip(s, k)
  {
  }

  /** A sweep is its start, the run to the first target, and the eviction or the end of the sweep. */
  lemma PassUnfolds(s: State, k: Key)
    requires CanSweep(s, k)
    ensures CanSweep(Begin(s), k) && Begin(s).cursor != 0
    ensures var t := Skip(Begin(s), k);
            && t.Sound() && t.cursor <= |t.P()|
            && Pass(s, k) == if t.cursor < t.cursorBound then (Evict(t, k), true) else (Finish(t), false)
  {
  }
}
