/** Byte accounting of the placer: conservation over whole runs, and capacity safety. */
module PlacerAccounting {
  import opened Basics
  import opened PlacerModel
  import opened PlacerClock
  import opened PlacerEviction
  import opened PlacerSteps
  import opened PlacerRun

  // ---- what is reserved where -----------------------------------------------------

  /** The record has placer metadata whose sequences fit together. */
  predicate Shaped(meta: Meta) {
    && meta.placerMeta.Some?
    && |meta.placerMeta.value.confirmed| == |meta.placement|
    && (meta.placerMeta.value.swapMap == [] || |meta.placerMeta.value.swapMap| == |meta.placement|)
  }

  /** The instance that chunk c has a reservation on, if any: its own once confirmed, else an inherited one. */
  function Reserved(meta: Meta, c: nat): Option<nat>
    requires Shaped(meta) && c < |meta.placement|
  {
    var pm := meta.placerMeta.value;
    if pm.confirmed[c] then Some(meta.placement[c])
    else if pm.swapMap != [] then Some(pm.swapMap[c])
    else None
  }

  /** Bytes the first c chunks of an object reserve on instance i. */
  function ChunkLoad(meta: Meta, i: nat, c: nat): nat
    requires Shaped(meta) && c <= |meta.placement|
  {
    if c == 0 then 0
    else ChunkLoad(meta, i, c - 1) + if Reserved(meta, c - 1) == Some(i) then meta.chunkSize else 0
  }

  /** Bytes an object reserves on instance i. */
  function KeyLoad(s: State, x: Key, i: nat): nat {
    if x in s.store && Shaped(s.store[x]) then ChunkLoad(s.store[x], i, |s.store[x].placement|) else 0
  }

  /** Bytes the given objects reserve on instance i. */
  function Load(s: State, list: seq<Key>, i: nat): nat {
    if list == [] then 0 else Load(s, list[..|list| - 1], i) + KeyLoad(s, list[|list| - 1], i)
  }

  lemma {:induction false} LoadConcat(s: State, a: seq<Key>, b: seq<Key>, i: nat)
    ensures Load(s, a + b, i) == Load(s, a, i) + Load(s, b, i)
  {
    if b == [] {
      assert a + b == a;
    } else {
      LoadConcat(s, a, b[..|b| - 1], i);
      assert (a + b)[..|a + b| - 1] == a + b[..|b| - 1];
    }
  }

  lemma {:induction false} LoadSame(s: State, t: State, list: seq<Key>, i: nat)
    requires forall x :: x in list ==> KeyLoad(t, x, i) == KeyLoad(s, x, i)
    ensures Load(t, list, i) == Load(s, list, i)
  {
    if list != [] {
      LoadSame(s, t, list[..|list| - 1], i);
    }
  }

  lemma LoadOne(s: State, x: Key, i: nat)
    ensures Load(s, [x], i) == KeyLoad(s, x, i)
  {
  }

  lemma {:induction false} LoadWithout(s: State, list: seq<Key>, k: Key, i: nat)
    requires Distinct(list)
    ensures Load(s, Without(list, k), i) + (if k in list then KeyLoad(s, k, i) else 0) == Load(s, list, i)
  {
    if list != [] {
      var init, last := list[..|list| - 1], list[|list| - 1];
      assert list == init + [last];
      LoadWithout(s, init, k, i);
      if last == k {
        assert Without(list, k) == Without(init, k);
      } else {
        LoadConcat(s, Without(init, k), [last], i);
        LoadOne(s, last, i);
      }
    }
  }

  lemma {:induction false} ChunkLoadSame(a: Meta, b: Meta, i: nat, c: nat)
    requires Shaped(a) && Shaped(b) && a.chunkSize == b.chunkSize && c <= |a.placement| == |b.placement|
    requires forall j :: 0 <= j < c ==> Reserved(a, j) == Reserved(b, j)
    ensures ChunkLoad(a, i, c) == ChunkLoad(b, i, c)
  {
    if c > 0 {
      ChunkLoadSame(a, b, i, c - 1);
    }
  }

  /** Marks and positions do not count. */
  lemma UnclockedLoad(s: State, t: State, x: Key, i: nat)
    requires x in s.store && x in t.store && Unclocked(s.store[x]) == Unclocked(t.store[x])
    ensures KeyLoad(s, x, i) == KeyLoad(t, x, i)
  {
    if Shaped(s.store[x]) {
      ChunkLoadSame(s.store[x], t.store[x], i, |s.store[x].placement|);
    }
  }

  // ---- conservation ---------------------------------------------------------------

  /** Each counter is its initial value plus the reservations of the listed objects, as a 64-bit word. */
  ghost predicate Conserved(s: State, initial: seq<Instance>) {
    && |s.instances| == |initial|
    && forall i :: 0 <= i < |initial| ==>
         && s.instances[i].capacity == initial[i].capacity
         && s.instances[i].size == Wrap(initial[i].size + Load(s, Listing(s), i))
  }

  /** The two's complement of dec, as it is computed: all bits of dec - 1 flipped. */
  lemma {:induction false} ComplementIs(dec: nat)
    ensures WORD - 1 - Wrap(dec - 1) == Wrap(-(dec as int))
  {
    if dec > WORD {
      ComplementIs(dec - WORD);
    }
  }

  lemma WrapAdd(x: int, y: int)
    ensures Wrap(Wrap(x) + y) == Wrap(x + y)
  {
    WrapIsMod(x);
    WrapIsMod(x % WORD + y);
    WrapIsMod(x + y);
  }

  /** Net change of instance i's bytes over the first c charged chunks. */
  function Net(swapMap: seq<nat>, confirmed: seq<bool>, size: nat, evicted: nat, i: nat, c: nat): int
    requires c <= |swapMap| == |confirmed|
  {
    if c == 0 then 0
    else
      Net(swapMap, confirmed, size, evicted, i, c - 1)
      + if swapMap[c - 1] == i then Delta(confirmed[c - 1], size, evicted) else 0
  }

  lemma {:induction false} ChargeNet(
    instances: seq<Instance>, swapMap: seq<nat>, confirmed: seq<bool>, size: nat, evicted: nat, i: nat, c: nat)
    requires c <= |swapMap| == |confirmed| && i < |instances|
    requires forall j :: 0 <= j < |swapMap| ==> swapMap[j] < |instances|
    requires instances[i].size < WORD
    ensures var r := Charge(instances, swapMap, confirmed, size, evicted, c)[i];
            && r.size == Wrap(instances[i].size + Net(swapMap, confirmed, size, evicted, i, c))
            && r.capacity == instances[i].capacity
  {
    if c > 0 {
      ChargeNet(instances, swapMap, confirmed, size, evicted, i, c - 1);
      var before, delta := Net(swapMap, confirmed, size, evicted, i, c - 1), Delta(confirmed[c - 1], size, evicted);
      if swapMap[c - 1] == i {
        WrapSum(instances[i].size + before, delta, instances[i].size + Net(swapMap, confirmed, size, evicted, i, c));
      }
    }
  }

  lemma WrapSum(x: int, y: int, sum: int)
    requires sum == x + y
    ensures Wrap(Wrap(x) + y) == Wrap(sum)
  {
    WrapAdd(x, y);
  }

  /** Inheriting a complete victim's placement: new reservations = own + victim's + net charge. */
  lemma {:induction false} InheritLoad(before: Meta, after: Meta, victim: Meta, i: nat, c: nat)
    requires Shaped(before) && Shaped(after) && Shaped(victim)
    requires c <= |before.placement| == |after.placement| == |victim.placement|
    requires before.placerMeta.value.swapMap == [] && after.placerMeta.value.swapMap == victim.placement
    requires after.placerMeta.value.confirmed == before.placerMeta.value.confirmed
    requires after.placement == before.placement && after.chunkSize == before.chunkSize
    requires forall j :: 0 <= j < |victim.placement| ==> victim.placerMeta.value.confirmed[j]
    ensures ChunkLoad(after, i, c) == ChunkLoad(before, i, c) + ChunkLoad(victim, i, c)
              + Net(victim.placement, before.placerMeta.value.confirmed, before.chunkSize, victim.chunkSize, i, c)
  {
    if c > 0 {
      InheritLoad(before, after, victim, i, c - 1);
    }
  }

  lemma {:induction false} NoLoad(meta: Meta, i: nat, c: nat)
    requires Shaped(meta) && c <= |meta.placement|
    requires forall j :: 0 <= j < c ==> Reserved(meta, j).None?
    ensures ChunkLoad(meta, i, c) == 0
  {
    if c > 0 {
      NoLoad(meta, i, c - 1);
    }
  }

  /** An object that is neither listed nor evicted reserves nothing. */
  lemma UnlistedLoad(s: State, key: Key, n: nat, i: nat)
    requires Inv(s, n) && Requester(s, key) && Some(key) !in s.P()
    ensures KeyLoad(s, key, i) == 0
  {
    assert MetaOk(s, n, key);
    CountBound(s.Pm(key).confirmed);
    NoLoad(s.store[key], i, n);
  }

  /** Confirming one more chunk of an object without a swap map adds its bytes there and nowhere else. */
  lemma {:induction false} ConfirmLoad(before: Meta, after: Meta, chunk: nat, i: nat, c: nat)
    requires Shaped(before) && Shaped(after) && before.chunkSize == after.chunkSize
    requires c <= |before.placement| == |after.placement| && chunk < |before.placement|
    requires Reserved(before, chunk).None?
    requires forall j :: 0 <= j < |before.placement| && j != chunk ==> Reserved(after, j) == Reserved(before, j)
    ensures ChunkLoad(after, i, c) == ChunkLoad(before, i, c)
              + if chunk < c && Reserved(after, chunk) == Some(i) then before.chunkSize else 0
  {
    if c > 0 {
      ConfirmLoad(before, after, chunk, i, c - 1);
    }
  }

  // ---- the change each step makes -------------------------------------------------

  /** By how much the step changes the bytes reserved on instance i. */
  function Change(s: State, step: Step, n: nat, i: nat): int
    requires WellFormed(s, n) && |s.instances| > 0 && Allowed(s, step, n)
  {
    if !step.SetSettles? then 0
    else
      match RouteOf(s, step.key, step.lambdaId)
      case Gone => 0
      case Swapped => 0
      case Placed => if Assigned(s, step.key, step.lambdaId) == i then s.store[step.key].chunkSize else 0
      case Evicting =>
        NetFor(s, step.key, n, i)
  }

  lemma SameReserved(s: State, t: State, x: Key, i: nat)
    requires x in s.store && x in t.store && Shaped(s.store[x]) && Shaped(t.store[x])
    requires s.store[x].chunkSize == t.store[x].chunkSize && |s.store[x].placement| == |t.store[x].placement|
    requires forall j :: 0 <= j < |s.store[x].placement| ==> Reserved(s.store[x], j) == Reserved(t.store[x], j)
    ensures KeyLoad(s, x, i) == KeyLoad(t, x, i)
  {
    ChunkLoadSame(s.store[x], t.store[x], i, |s.store[x].placement|);
  }

  lemma ListedKnown(s: State, x: Key, n: nat)
    requires WellFormed(s, n) && x in Listing(s)
    ensures Requester(s, x) && MetaOk(s, n, x) && Shaped(s.store[x])
  {
    LiveIn(s.P(), x);
    assert MetaOk(s, n, x);
  }

  /** Changing one object's record without changing its reservations. */
  lemma QuietLoad(s: State, t: State, key: Key, n: nat, i: nat)
    requires WellFormed(s, n) && Listing(t) == Listing(s)
    requires forall x :: x in s.store && x != key ==> x in t.store && t.store[x] == s.store[x]
    requires key in Listing(s) ==> KeyLoad(t, key, i) == KeyLoad(s, key, i)
    ensures Load(t, Listing(t), i) == Load(s, Listing(s), i)
  {
    forall x | x in Listing(s) ensures KeyLoad(t, x, i) == KeyLoad(s, x, i) {
      ListedKnown(s, x, n);
    }
    LoadSame(s, t, Listing(s), i);
  }

  lemma AdmitLoad(s: State, key: Key, chunk: nat, offered: Meta, n: nat, i: nat)
    requires Inv(s, n) && chunk < n
    requires |offered.placement| == n && offered.placerMeta.None?
    ensures var m := Revived(s, key, offered);
            m.placerMeta.Some? ==> chunk < |m.placerMeta.value.confirmed|
    ensures Load(Admit(s, key, chunk, offered), Listing(Admit(s, key, chunk, offered)), i) == Load(s, Listing(s), i)
  {
    AdmitKeeps(s, key, chunk, offered, n);
    var t := Admit(s, key, chunk, offered);
    if key in Listing(s) {
      ListedKnown(s, key, n);
      SameReserved(s, t, key, i);
    }
    QuietLoad(s, t, key, n, i);
  }

  lemma TouchLoad(s: State, key: Key, chunk: nat, n: nat, i: nat)
    requires Inv(s, n) && (s.Known(key) ==> chunk < |s.Pm(key).confirmed|)
    ensures Load(Touch(s, key, chunk), Listing(Touch(s, key, chunk)), i) == Load(s, Listing(s), i)
  {
    var t := Touch(s, key, chunk);
    if key in s.store {
      UnclockedLoad(s, t, key, i);
    }
    QuietLoad(s, t, key, n, i);
  }

  /** Confirming a chunk on the instance it already had reserved. */
  lemma SwappedLoad(s: State, key: Key, chunk: nat, n: nat, i: nat)
    requires Inv(s, n) && s.Known(key) && MetaOk(s, n, key) && chunk < n && !s.Pm(key).confirmed[chunk]
    requires s.Pm(key).swapMap != []
    ensures var t := Confirmed(s, key, chunk, s.Pm(key).swapMap[chunk]);
            Load(t, Listing(t), i) == Load(s, Listing(s), i)
  {
    var t := Confirmed(s, key, chunk, s.Pm(key).swapMap[chunk]);
    SameReserved(s, t, key, i);
    QuietLoad(s, t, key, n, i);
  }

  /** Only key's reservations change. */
  lemma LoadMoves(s: State, t: State, key: Key, list: seq<Key>, i: nat)
    requires Distinct(list)
    requires forall x :: x in list && x != key ==> KeyLoad(t, x, i) == KeyLoad(s, x, i)
    ensures Load(t, list, i) - Load(s, list, i) == if key in list then KeyLoad(t, key, i) - KeyLoad(s, key, i) else 0
  {
  }

  lemma PlacedKeyLoad(s: State, key: Key, chunk: nat, a: nat, n: nat, i: nat)
    requires s.Known(key) && MetaOk(s, n, key) && chunk < n && !s.Pm(key).confirmed[chunk]
    requires s.Pm(key).swapMap == [] && a < |s.instances|
    ensures var t := Place(s, key, chunk, a);
            && KeyLoad(t, key, i) == KeyLoad(s, key, i) + (if a == i then s.store[key].chunkSize else 0)
            && forall x :: x in s.store && x != key ==> x in t.store && t.store[x] == s.store[x]
  {
    var t := Place(s, key, chunk, a);
    ConfirmLoad(s.store[key], t.store[key], chunk, i, n);
  }

  lemma PlacedLoad(s: State, key: Key, chunk: nat, a: nat, n: nat, i: nat)
    requires Inv(s, n) && Requester(s, key) && MetaOk(s, n, key) && chunk < n && !s.Pm(key).confirmed[chunk]
    requires s.Pm(key).swapMap == [] && a < |s.instances|
    ensures var t := Place(s, key, chunk, a);
            Load(t, Listing(t), i) == Load(s, Listing(s), i) + if a == i then s.store[key].chunkSize else 0
  {
    var t, list := Place(s, key, chunk, a), Listing(s);
    PlaceKeeps(s, key, chunk, a, n);
    PlacedKeyLoad(s, key, chunk, a, n, i);
    ListingDistinct(s);
    LiveIn(s.P(), key);
    forall x | x in list && x != key ensures KeyLoad(t, x, i) == KeyLoad(s, x, i) {
      ListedKnown(s, x, n);
    }
    LoadMoves(s, t, key, list, i);
    if key !in list {
      UnlistedLoad(s, key, n, i);
      LoadConcat(t, list, [key], i);
      LoadOne(t, key, i);
    } else {
      assert Listing(t) == list;
    }
  }

  // ---- the eviction ---------------------------------------------------------------

  /** The reservations of key after m gave way to it, against its own and those of m before. */
  lemma GaveKeyLoad(s: State, r: State, key: Key, m: Key, n: nat, i: nat)
    requires GaveWay(s, r, key, m) && MetaOk(s, n, key) && MetaOk(s, n, m) && s.Pm(key).swapMap == []
    requires s.Known(m) && forall c :: 0 <= c < n ==> s.Pm(m).confirmed[c]
    ensures KeyLoad(r, key, i) == KeyLoad(s, key, i) + KeyLoad(s, m, i)
              + Net(s.store[m].placement, s.Pm(key).confirmed, s.store[key].chunkSize, s.store[m].chunkSize, i, n)
  {
    assert s.Pm(m) == s.store[m].placerMeta.value;
    InheritLoad(s.store[key], r.store[key], s.store[m], i, n);
  }

  lemma RetryKeyLoad(s: State, key: Key, n: nat, i: nat)
    requires Evictable(s, key, n) && MetaOk(s, n, key) && s.Pm(key).swapMap == []
    ensures var r, m := Retry(s, key, n), VictimOf(s, key, n);
            && MetaOk(s, n, m)
            && KeyLoad(r, key, i) == KeyLoad(s, key, i) + KeyLoad(s, m, i)
                 + Net(s.store[m].placement, s.Pm(key).confirmed, s.store[key].chunkSize, s.store[m].chunkSize, i, n)
  {
    var m := VictimOf(s, key, n);
    RetryGives(s, key, n);
    VictimComplete(s, key, n);
    assert MetaOk(s, n, m);
    GaveKeyLoad(s, Retry(s, key, n), key, m, n, i);
  }

  lemma RetryOthers(s: State, key: Key, n: nat, x: Key, i: nat)
    requires Evictable(s, key, n) && x in s.store && x != key && x != VictimOf(s, key, n)
    ensures KeyLoad(Retry(s, key, n), x, i) == KeyLoad(s, x, i)
  {
    RetryGives(s, key, n);
    UnclockedLoad(s, Retry(s, key, n), x, i);
  }

  /** Replacing list entry v by key and dropping key's old entry. */
  lemma ReplacedLoad(s: State, list: seq<Key>, v: nat, key: Key, i: nat)
    requires Distinct(list) && v < |list| && key !in list[..v] && list[v] != key
    ensures Load(s, list[..v] + [key] + Without(list[v + 1..], key), i)
              == Load(s, list, i) - KeyLoad(s, list[v], i)
                 + if key in list then 0 else KeyLoad(s, key, i)
  {
    var a, b := list[..v], list[v + 1..];
    assert list == a + [list[v]] + b;
    LoadConcat(s, a + [list[v]], b, i);
    LoadConcat(s, a, [list[v]], i);
    LoadConcat(s, a + [key], Without(b, key), i);
    LoadConcat(s, a, [key], i);
    LoadOne(s, key, i);
    LoadOne(s, list[v], i);
    LoadWithout(s, b, key, i);
    assert key in list <==> key in b;
  }

  lemma RetryVictimLoad(s: State, key: Key, n: nat, i: nat)
    requires Evictable(s, key, n)
    ensures KeyLoad(Retry(s, key, n), VictimOf(s, key, n), i) == KeyLoad(s, VictimOf(s, key, n), i)
  {
    var m := VictimOf(s, key, n);
    RetryGives(s, key, n);
    assert MetaOk(s, n, m);
    SameReserved(s, Retry(s, key, n), m, i);
  }

  /** An eviction changes the reservations on each instance by exactly its net charge. */
  lemma RetryLoad(s: State, key: Key, n: nat, i: nat)
    requires Inv(s, n) && Evictable(s, key, n) && MetaOk(s, n, key) && s.Pm(key).swapMap == []
    requires !ListedBeforeVictim(s, key, n)
    ensures var r, m := Retry(s, key, n), VictimOf(s, key, n);
            && MetaOk(s, n, m)
            && Load(r, Listing(r), i) == Load(s, Listing(s), i)
                 + Net(s.store[m].placement, s.Pm(key).confirmed, s.store[key].chunkSize, s.store[m].chunkSize, i, n)
  {
    var r, m, list, v := Retry(s, key, n), VictimOf(s, key, n), Listing(s), View(s, key, n).Victim();
    RetryKeepsIff(s, key, n);
    RetryKeyLoad(s, key, n, i);
    ListingDistinct(s);
    forall x | x in list && x != key ensures KeyLoad(r, x, i) == KeyLoad(s, x, i) {
      if x == m {
        RetryVictimLoad(s, key, n, i);
      } else {
        ListedKnown(s, x, n);
        RetryOthers(s, key, n, x, i);
      }
    }
    LoadMoves(s, r, key, list, i);
    ReplacedLoad(r, list, v, key, i);
    if key !in list {
      LiveIn(s.P(), key);
      UnlistedLoad(s, key, n, i);
    }
  }

  /** The net charge of instance i when key's chunk is settled by an eviction. */
  function NetFor(s: State, key: Key, n: nat, i: nat): int
    requires Evictable(s, key, n)
  {
    var m := VictimOf(s, key, n);
    assert MetaOk(s, n, m) && MetaOk(s, n, key);
    Net(s.store[m].placement, s.Pm(key).confirmed, s.store[key].chunkSize, s.store[m].chunkSize, i, n)
  }

  /** A counter takes a charge, and the capacity stays. */
  predicate Charged(before: Instance, after: Instance, net: int) {
    after.size == Wrap(before.size + net) && after.capacity == before.capacity
  }

  lemma InheritBytes(r: State, key: Key, chunk: nat, n: nat, i: nat, net: int)
    requires r.Known(key) && |r.Pm(key).swapMap| == |r.Pm(key).confirmed| == |r.store[key].placement| == n && chunk < n
    requires r.Pm(key).evicts.Some? && r.Pm(key).evicts.value in r.store
    requires forall c :: 0 <= c < n ==> r.Pm(key).swapMap[c] < |r.instances|
    requires i < |r.instances| && r.instances[i].size < WORD
    requires net == Net(r.Pm(key).swapMap, r.Pm(key).confirmed, r.store[key].chunkSize,
                        r.store[r.Pm(key).evicts.value].chunkSize, i, n)
    ensures var e := Inherit(r, key, chunk, n);
            |e.instances| == |r.instances| && Charged(r.instances[i], e.instances[i], net)
  {
    var v := r.store[r.Pm(key).evicts.value];
    ChargeNet(r.instances, r.Pm(key).swapMap, r.Pm(key).confirmed, r.store[key].chunkSize, v.chunkSize, i, n);
  }

  /** The net charge, seen from the state after the eviction. */
  lemma InheritedNet(s: State, key: Key, n: nat, i: nat)
    requires Evictable(s, key, n) && Counted(s)
    ensures var r, m := Retry(s, key, n), VictimOf(s, key, n);
            && r.instances == s.instances
            && r.Known(key) && |r.Pm(key).swapMap| == |r.Pm(key).confirmed| == n
            && r.Pm(key).evicts == Some(m) && m in r.store
            && NetFor(s, key, n, i) == Net(r.Pm(key).swapMap, r.Pm(key).confirmed, r.store[key].chunkSize,
                                           r.store[m].chunkSize, i, n)
  {
    InheritOk(s, key, n);
    RetryCounts(s, key, n);
    InheritedSizes(s, key, n);
  }

  lemma InheritedBytes(s: State, key: Key, chunk: nat, n: nat, i: nat)
    requires Evictable(s, key, n) && Counted(s) && chunk < n
    requires i < |s.instances| && s.instances[i].size < WORD
    ensures var e := Inherited(s, key, chunk, n);
            |e.instances| == |s.instances| && Charged(s.instances[i], e.instances[i], NetFor(s, key, n, i))
  {
    InheritOk(s, key, n);
    InheritedNet(s, key, n, i);
    InheritBytes(Retry(s, key, n), key, chunk, n, i, NetFor(s, key, n, i));
  }

  lemma InheritedReservations(s: State, key: Key, chunk: nat, n: nat, i: nat)
    requires Evictable(s, key, n) && Counted(s) && MetaOk(s, n, key) && chunk < n && !s.Pm(key).confirmed[chunk]
    requires !ListedBeforeVictim(s, key, n)
    ensures var r, e := Retry(s, key, n), Inherited(s, key, chunk, n);
            Load(e, Listing(e), i) == Load(r, Listing(r), i)
  {
    InheritOk(s, key, n);
    RetryCounts(s, key, n);
    RetryKeepsIff(s, key, n);
    var r, e := Retry(s, key, n), Inherited(s, key, chunk, n);
    SameReserved(r, e, key, i);
    QuietLoad(r, e, key, n, i);
  }

  lemma InheritedLoad(s: State, key: Key, chunk: nat, n: nat, i: nat)
    requires Inv(s, n) && Evictable(s, key, n) && MetaOk(s, n, key) && s.Pm(key).swapMap == []
    requires chunk < n && !s.Pm(key).confirmed[chunk] && !ListedBeforeVictim(s, key, n)
    ensures var e := Inherited(s, key, chunk, n);
            Load(e, Listing(e), i) == Load(s, Listing(s), i) + NetFor(s, key, n, i)
  {
    RetryLoad(s, key, n, i);
    InheritedReservations(s, key, chunk, n, i);
  }

  lemma InheritedSizes(s: State, key: Key, n: nat)
    requires Evictable(s, key, n)
    ensures var r, m := Retry(s, key, n), VictimOf(s, key, n);
            && key in r.store && m in r.store
            && r.store[key].chunkSize == s.store[key].chunkSize && r.store[m].chunkSize == s.store[m].chunkSize
  {
    InheritOk(s, key, n);
    ChosenSpec(s, key, n);
    var t, m := Chosen(s, key, n), VictimOf(s, key, n);
    assert Unclocked(t.store[key]) == Unclocked(s.store[key]);
    assert Unclocked(t.store[m]) == Unclocked(s.store[m]);
  }

  /** Drawing a slice base changes no reservation and not the victim. */
  lemma SliceLoad(s: State, key: Key, n: nat, i: nat)
    requires Inv(s, n) && Requester(s, key)
    ensures var w := WithSlice(s, key);
            && Inv(w, n) && Requester(w, key) && MetaOk(w, n, key) && w.instances == s.instances
            && View(w, key, n) == View(s, key, n)
            && Load(w, Listing(w), i) == Load(s, Listing(s), i)
            && w.store[key].chunkSize == s.store[key].chunkSize && w.Pm(key) == s.Pm(key)
  {
    var w := WithSlice(s, key);
    SliceKeeps(s, key, n);
    SliceView(s, key, n);
    assert MetaOk(s, n, key) && MetaOk(w, n, key);
    assert Counted(w);
    SameReserved(s, w, key, i);
    QuietLoad(s, w, key, n, i);
  }

  /** Every step changes each counter and the reservations behind it by the same amount. */
  lemma StepLoad(s: State, step: Step, n: nat, i: nat)
    requires Inv(s, n) && Allowed(s, step, n)
    requires i < |s.instances| && s.instances[i].size < WORD
    ensures Moves(s, Apply(s, step, n), i, Change(s, step, n, i))
  {
    match step
    case SetBegins(key, chunk, lambdaId, sliceSize, chunkSize) =>
      AdmitLoad(s, key, chunk, NewMeta(n, chunk, lambdaId, sliceSize, chunkSize), n, i);
    case Gets(key, chunk) =>
      assert s.Known(key) ==> MetaOk(s, n, key);
      TouchLoad(s, key, chunk, n, i);
    case SetSettles(key, chunk, lambdaId) =>
      SettleLoad(s, key, chunk, lambdaId, n, i);
  }

  /** A step's effect on instance i: counter and reservations move together by the given amount. */
  ghost predicate Moves(s: State, t: State, i: nat, amount: int)
    requires i < |s.instances|
  {
    && |t.instances| == |s.instances|
    && t.instances[i].capacity == s.instances[i].capacity
    && t.instances[i].size == Wrap(s.instances[i].size + amount)
    && Load(t, Listing(t), i) == Load(s, Listing(s), i) + amount
  }

  lemma MovesFrom(s: State, w: State, t: State, i: nat, amount: int)
    requires i < |s.instances| && w.instances == s.instances
    requires Load(w, Listing(w), i) == Load(s, Listing(s), i)
    requires Moves(w, t, i, amount)
    ensures Moves(s, t, i, amount)
  {
  }

  lemma InheritedMoves(s: State, key: Key, chunk: nat, n: nat, i: nat)
    requires Inv(s, n) && Evictable(s, key, n) && MetaOk(s, n, key) && s.Pm(key).swapMap == []
    requires chunk < n && !s.Pm(key).confirmed[chunk] && !ListedBeforeVictim(s, key, n)
    requires i < |s.instances| && s.instances[i].size < WORD
    ensures Moves(s, Inherited(s, key, chunk, n), i, NetFor(s, key, n, i))
  {
    InheritedBytes(s, key, chunk, n, i);
    InheritedLoad(s, key, chunk, n, i);
  }

  lemma EvictingLoad(s: State, key: Key, chunk: nat, lambdaId: nat, n: nat, i: nat)
    requires Inv(s, n) && Allowed(s, SetSettles(key, chunk, lambdaId), n)
    requires RouteOf(s, key, lambdaId) == Evicting
    requires i < |s.instances| && s.instances[i].size < WORD
    ensures Moves(s, Settle(s, key, chunk, lambdaId, n), i, NetFor(s, key, n, i))
  {
    var w := WithSlice(s, key);
    SliceLoad(s, key, n, i);
    SliceVictim(s, key, n, i);
    InheritedMoves(w, key, chunk, n, i);
    MovesFrom(s, w, Inherited(w, key, chunk, n), i, NetFor(s, key, n, i));
  }

  lemma PlacedBytes(s: State, key: Key, chunk: nat, a: nat, i: nat)
    requires s.Known(key) && chunk < |s.Pm(key).confirmed| && chunk < |s.store[key].placement|
    requires a < |s.instances| && i < |s.instances| && s.instances[i].size < WORD
    ensures var t := Place(s, key, chunk, a);
            && |t.instances| == |s.instances|
            && t.instances[i].capacity == s.instances[i].capacity
            && t.instances[i].size == Wrap(s.instances[i].size + if a == i then s.store[key].chunkSize else 0)
  {
  }

  lemma PlacedMoves(s: State, key: Key, chunk: nat, a: nat, n: nat, i: nat)
    requires Inv(s, n) && Requester(s, key) && MetaOk(s, n, key) && chunk < n && !s.Pm(key).confirmed[chunk]
    requires s.Pm(key).swapMap == [] && a < |s.instances|
    requires i < |s.instances| && s.instances[i].size < WORD
    ensures Moves(s, Place(s, key, chunk, a), i, if a == i then s.store[key].chunkSize else 0)
  {
    PlacedBytes(s, key, chunk, a, i);
    PlacedLoad(s, key, chunk, a, n, i);
  }

  lemma PlacingLoad(s: State, key: Key, chunk: nat, lambdaId: nat, n: nat, i: nat)
    requires Inv(s, n) && Allowed(s, SetSettles(key, chunk, lambdaId), n)
    requires RouteOf(s, key, lambdaId) == Placed
    requires i < |s.instances| && s.instances[i].size < WORD
    ensures Moves(s, Settle(s, key, chunk, lambdaId, n), i,
                  if Assigned(s, key, lambdaId) == i then s.store[key].chunkSize else 0)
  {
    var w, a := WithSlice(s, key), Assigned(s, key, lambdaId);
    SliceLoad(s, key, n, i);
    PlacedMoves(w, key, chunk, a, n, i);
    MovesFrom(s, w, Place(w, key, chunk, a), i, if a == i then s.store[key].chunkSize else 0);
  }

  lemma SliceVictim(s: State, key: Key, n: nat, i: nat)
    requires Inv(s, n) && Evictable(s, key, n)
    ensures Evictable(WithSlice(s, key), key, n)
    ensures NetFor(WithSlice(s, key), key, n, i) == NetFor(s, key, n, i)
    ensures ListedBeforeVictim(WithSlice(s, key), key, n) == ListedBeforeVictim(s, key, n)
  {
    SliceLoad(s, key, n, i);
    var w := WithSlice(s, key);
    assert VictimOf(w, key, n) == VictimOf(s, key, n);
  }

  lemma SettleLoad(s: State, key: Key, chunk: nat, lambdaId: nat, n: nat, i: nat)
    requires Inv(s, n) && Allowed(s, SetSettles(key, chunk, lambdaId), n)
    requires i < |s.instances| && s.instances[i].size < WORD
    ensures Moves(s, Settle(s, key, chunk, lambdaId, n), i, Change(s, SetSettles(key, chunk, lambdaId), n, i))
  {
    assert MetaOk(s, n, key);
    match RouteOf(s, key, lambdaId)
    case Gone =>
    case Swapped =>
      SwappedLoad(s, key, chunk, n, i);
    case Placed =>
      PlacingLoad(s, key, chunk, lambdaId, n, i);
    case Evicting =>
      EvictingLoad(s, key, chunk, lambdaId, n, i);
  }

  lemma ConservedAt(s: State, t: State, initial: seq<Instance>, i: nat, amount: int)
    requires i < |initial| == |s.instances| && Moves(s, t, i, amount)
    requires s.instances[i].size == Wrap(initial[i].size + Load(s, Listing(s), i))
    ensures t.instances[i].size == Wrap(initial[i].size + Load(t, Listing(t), i))
  {
    WrapAdd(initial[i].size + Load(s, Listing(s), i), amount);
  }

  /** Counters and reservations move together on every instance. */
  ghost predicate AllMove(s: State, t: State, amounts: seq<int>) {
    && |amounts| == |s.instances| == |t.instances|
    && forall i :: 0 <= i < |s.instances| ==> Moves(s, t, i, amounts[i])
  }

  lemma ConservedFrom(s: State, t: State, initial: seq<Instance>, amounts: seq<int>)
    requires Conserved(s, initial) && AllMove(s, t, amounts)
    ensures Conserved(t, initial)
  {
    forall i | 0 <= i < |initial|
      ensures t.instances[i].capacity == initial[i].capacity
      ensures t.instances[i].size == Wrap(initial[i].size + Load(t, Listing(t), i))
    {
      assert Moves(s, t, i, amounts[i]);
      ConservedAt(s, t, initial, i, amounts[i]);
    }
  }

  lemma ConservedStep(s: State, step: Step, n: nat, initial: seq<Instance>)
    requires Inv(s, n) && Allowed(s, step, n) && Conserved(s, initial)
    ensures Conserved(Apply(s, step, n), initial)
  {
    StepLoad(s, step, n, 0);
    var t, amounts := Apply(s, step, n), seq(|s.instances|, i requires 0 <= i < |s.instances| => Change(s, step, n, i));
    forall i | 0 <= i < |s.instances| ensures Moves(s, t, i, amounts[i]) {
      StepLoad(s, step, n, i);
    }
    ConservedFrom(s, t, initial, amounts);
  }

  /** Conservation: in every state of every run, each counter equals its initial value plus all reservations. */
  lemma {:induction false} RunConserves(trace: seq<State>, steps: seq<Step>, n: nat)
    requires IsRun(trace, steps, n)
    requires forall i :: 0 <= i < |trace[0].instances| ==> trace[0].instances[i].size < WORD
    ensures Conserved(trace[|steps|], trace[0].instances)
    decreases |steps|
  {
    if steps != [] {
      var m := |steps| - 1;
      RunConserves(trace[..m + 1], steps[..m], n);
      RunInv(trace[..m + 1], steps[..m], n);
      ConservedStep(trace[m], steps[m], n, trace[0].instances);
    }
  }

  // ---- capacity -------------------------------------------------------------------

  /** Initial bytes and reservations together stay below capacity on every instance. */
  ghost predicate Within(s: State, initial: seq<Instance>) {
    |s.instances| == |initial|
    && forall i :: 0 <= i < |initial| ==> initial[i].size + Load(s, Listing(s), i) < initial[i].capacity
  }

  lemma {:induction false} NetShrinks(swapMap: seq<nat>, confirmed: seq<bool>, size: nat, evicted: nat, i: nat, c: nat)
    requires c <= |swapMap| == |confirmed| && size <= evicted
    ensures Net(swapMap, confirmed, size, evicted, i, c) <= 0
  {
    if c > 0 {
      NetShrinks(swapMap, confirmed, size, evicted, i, c - 1);
    }
  }

  /** The step evicts nothing with smaller chunks than the object it evicts for. */
  predicate NoGrowth(s: State, step: Step, n: nat)
    requires WellFormed(s, n) && |s.instances| > 0 && Allowed(s, step, n)
  {
    step.SetSettles? && RouteOf(s, step.key, step.lambdaId) == Evicting ==>
      s.store[step.key].chunkSize <= s.store[VictimOf(s, step.key, n)].chunkSize
  }

  /** Capacities and chunk sizes are small enough for the capacity check itself not to wrap. */
  predicate Sized(initial: seq<Instance>, limit: nat) {
    forall i :: 0 <= i < |initial| ==> initial[i].capacity + limit <= WORD
  }

  lemma WithinAt(s: State, step: Step, n: nat, initial: seq<Instance>, limit: nat, i: nat)
    requires Inv(s, n) && Allowed(s, step, n) && NoGrowth(s, step, n)
    requires Conserved(s, initial) && Within(s, initial) && Sized(initial, limit) && i < |initial|
    requires step.SetSettles? ==> s.store[step.key].chunkSize <= limit
    ensures initial[i].size + Load(s, Listing(s), i) + Change(s, step, n, i) < initial[i].capacity
  {
    if step.SetSettles? && RouteOf(s, step.key, step.lambdaId) == Evicting {
      var m := VictimOf(s, step.key, n);
      assert MetaOk(s, n, m) && MetaOk(s, n, step.key);
      NetShrinks(s.store[m].placement, s.Pm(step.key).confirmed,
                 s.store[step.key].chunkSize, s.store[m].chunkSize, i, n);
    }
  }

  lemma WithinStep(s: State, step: Step, n: nat, initial: seq<Instance>, limit: nat)
    requires Inv(s, n) && Allowed(s, step, n) && NoGrowth(s, step, n)
    requires Conserved(s, initial) && Within(s, initial) && Sized(initial, limit)
    requires step.SetSettles? ==> s.store[step.key].chunkSize <= limit
    ensures Within(Apply(s, step, n), initial)
  {
    var t := Apply(s, step, n);
    StepLoad(s, step, n, 0);
    forall i | 0 <= i < |initial|
      ensures initial[i].size + Load(t, Listing(t), i) < initial[i].capacity
    {
      StepLoad(s, step, n, i);
      WithinAt(s, step, n, initial, limit, i);
    }
  }

  /** Every object ever stored has chunks of the given size. */
  ghost predicate OneSize(s: State, size: nat) {
    forall x :: x in s.store ==> s.store[x].chunkSize == size
  }

  lemma OneSizeTakes(s: State, t: State, key: Key, chunk: nat, m: Key, n: nat, size: nat)
    requires Took(s, t, key, chunk, m, n) && OneSize(s, size)
    ensures OneSize(t, size)
  {
  }

  lemma OneSizeStep(s: State, step: Step, n: nat, size: nat)
    requires Inv(s, n) && Allowed(s, step, n) && OneSize(s, size)
    requires step.SetBegins? ==> step.chunkSize == size
    ensures OneSize(Apply(s, step, n), size)
  {
    if step.SetSettles? {
      OneSizeSettles(s, step.key, step.chunk, step.lambdaId, n, size);
    }
  }

  lemma OneSizeSettles(s: State, key: Key, chunk: nat, lambdaId: nat, n: nat, size: nat)
    requires Inv(s, n) && CanSettle(s, key, chunk, lambdaId, n) && OneSize(s, size)
    ensures OneSize(Settle(s, key, chunk, lambdaId, n), size)
  {
    match RouteOf(s, key, lambdaId)
    case Gone =>
    case Swapped =>
    case Placed =>
      assert MetaOk(s, n, key);
      OneSizePlaces(s, key, chunk, Assigned(s, key, lambdaId), size);
    case Evicting =>
      SettleTakes(s, key, chunk, lambdaId, n);
      OneSizeTakes(s, Settle(s, key, chunk, lambdaId, n), key, chunk, VictimOf(s, key, n), n, size);
  }

  lemma OneSizePlaces(s: State, key: Key, chunk: nat, i: nat, size: nat)
    requires s.Known(key) && chunk < |s.Pm(key).confirmed| && chunk < |s.store[key].placement| && i < |s.instances|
    requires OneSize(s, size)
    ensures OneSize(Place(WithSlice(s, key), key, chunk, i), size)
  {
  }

  lemma OneSizeGrowth(s: State, step: Step, n: nat, size: nat)
    requires Inv(s, n) && Allowed(s, step, n) && OneSize(s, size)
    ensures NoGrowth(s, step, n)
  {
  }

  /**
   Capacity safety: with one chunk size and initial sizes below capacity, every state of
   every run has every instance below capacity, and no counter has ever wrapped.
   */
  lemma {:induction false} RunWithin(trace: seq<State>, steps: seq<Step>, n: nat, size: nat)
    requires IsRun(trace, steps, n)
    requires forall m :: 0 <= m < |steps| && steps[m].SetBegins? ==> steps[m].chunkSize == size
    requires forall i :: 0 <= i < |trace[0].instances| ==> trace[0].instances[i].size < trace[0].instances[i].capacity
    requires Sized(trace[0].instances, size)
    ensures var s, initial := trace[|steps|], trace[0].instances;
            && OneSize(s, size) && Within(s, initial)
            && forall i :: 0 <= i < |initial| ==>
                 s.instances[i].size == initial[i].size + Load(s, Listing(s), i) < s.instances[i].capacity
    decreases |steps|
  {
    var initial := trace[0].instances;
    RunConserves(trace, steps, n);
    if steps != [] {
      var m := |steps| - 1;
      RunWithin(trace[..m + 1], steps[..m], n, size);
      RunConserves(trace[..m + 1], steps[..m], n);
      RunInv(trace[..m + 1], steps[..m], n);
      OneSizeStep(trace[m], steps[m], n, size);
      OneSizeGrowth(trace[m], steps[m], n, size);
      WithinStep(trace[m], steps[m], n, initial, size);
    }
  }
}
