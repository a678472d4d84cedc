/**
 The allocator of lambda deployments: a pool of spare ones, a table of active ones keyed by
 deployment id, group slots, and lookups that exchange the identities of two deployments in
 place. This module has the objects and what the calls do to them as values; a state refers to
 deployments and table entries by identity.
 */
module Scheduler {
  import opened Basics

  class Deployment {
    var name: string
    var id: nat

    constructor (prefix: string, id: nat)
      ensures this.id == id && name == Named(prefix, id)
    {
      this.id, name := id, Named(prefix, id);
    }

    constructor Blank()
    {
      id, name := 0, "";
    }

    /** Takes over another deployment's identity, after handing the present one to `keeper`. */
    method Reset(other: Deployment, keeper: Deployment?)
      requires keeper != null ==> keeper != this && keeper != other
      modifies this, keeper
      ensures name == old(other.name) && id == old(other.id)
      ensures keeper != null ==> keeper.name == old(name) && keeper.id == old(id)
      decreases keeper != null
    {
      if keeper != null {
        keeper.Reset(this, null);
      }
      name := other.name;
      id := other.id;
    }

    /** Exchanges identities with another deployment. */
    method Switch(to: Deployment)
      modifies this, to
      ensures name == old(to.name) && id == old(to.id)
      ensures to.name == old(name) && to.id == old(id)
    {
      var temp := new Deployment.Blank();
      Reset(to, temp);
      to.Reset(temp, null);
    }
  }

  function Named(prefix: string, id: nat): string {
    prefix + Itoa(id)
  }

  class Group {
    const all: array<GroupInstance?>

    constructor (size: nat)
      ensures all.Length == size && fresh(all) && forall i :: 0 <= i < size ==> all[i] == null
    {
      all := new GroupInstance?[size](i => null);
    }
  }

  /** A deployment reserved for one slot of a group. */
  class GroupInstance {
    const deployment: Deployment
    const group: Group
    const idx: nat

    constructor (deployment: Deployment, group: Group, idx: nat)
      ensures this.deployment == deployment && this.group == group && this.idx == idx
    {
      this.deployment, this.group, this.idx := deployment, group, idx;
    }
  }

  // ---- states ---------------------------------------------------------------------

  /** The identity of a deployment. */
  datatype Ident = Ident(id: nat, name: string)

  type Slot = (Group, nat)

  function SlotOf(ins: GroupInstance): Slot {
    (ins.group, ins.idx)
  }

  predicate InRange(slot: Slot) {
    slot.1 < slot.0.all.Length
  }

  predicate Injective(ident: map<Deployment, Ident>) {
    forall d <- ident, e <- ident :: ident[d].id == ident[e].id ==> d == e
  }

  /** Spare deployments in order, table entries by key, who has which identity, and the filled slots. */
  datatype State = State(
    pool: seq<Deployment>, table: map<nat, GroupInstance>,
    ident: map<Deployment, Ident>, slots: map<Slot, GroupInstance>)
  {
    predicate Active(d: Deployment)
      requires d in ident
    {
      ident[d].id in table && table[ident[d].id].deployment == d
    }

    /** n deployments have n different identities below n, with names paired. */
    predicate Paired(prefix: string, n: nat) {
      && |ident| == n
      && (forall d <- ident :: ident[d].id < n && ident[d].name == Named(prefix, ident[d].id))
      && Injective(ident)
    }

    /** Every deployment is in the pool, once, or active under its current id, and not both. */
    predicate Split() {
      && Distinct(pool)
      && (forall d <- pool :: d in ident)
      && (forall d <- ident :: d in pool || Active(d))
      && (forall k <- table :: table[k].deployment in ident && ident[table[k].deployment].id == k
                               && table[k].deployment !in pool)
    }

    /** Slots are filled with entries that were made for them. */
    predicate Filled() {
      forall x <- slots :: slots[x].deployment in ident && SlotOf(slots[x]) == x && InRange(x)
    }

    predicate Inv(prefix: string, n: nat) {
      Paired(prefix, n) && Split() && Filled()
    }

    /** The first spare deployment becomes active with a new entry. */
    function Take(ins: GroupInstance): State
      requires pool != [] && pool[0] in ident
    {
      this.(pool := pool[1..], table := table[ident[pool[0]].id := ins])
    }

    /** `Recycle`: whatever is under the deployment's id leaves the table, and the deployment joins the pool. */
    function Recycled(d: Deployment): State
      requires d in ident
    {
      this.(pool := pool + [d], table := table - {ident[d].id})
    }

    /** `Switch`, and the table entries under the exchanged ids. */
    function Switched(ins: GroupInstance, holder: GroupInstance): State
      requires ins.deployment in ident && holder.deployment in ident
    {
      var a, b := ident[ins.deployment], ident[holder.deployment];
      this.(ident := ident[holder.deployment := a][ins.deployment := b], table := table[a.id := holder][b.id := ins])
    }

    /** `Instance`: the holder of the slot takes over the id, and the looked-up deployment is recycled. */
    function LookedUp(id: nat): State
      requires id in table ==> table[id].deployment in ident
      requires Filled()
    {
      if id !in table || !InRange(SlotOf(table[id])) then this
      else
        var ins, slot := table[id], SlotOf(table[id]);
        if slot !in slots then this.(slots := slots[slot := ins])
        else if slots[slot] == ins then this
        else Switched(ins, slots[slot]).Recycled(ins.deployment)
    }

    /** Recycles the entries under the given keys, one after the other. */
    function RecycledAll(keys: seq<nat>): State
    {
      if keys == [] then this
      else
        var s, k := RecycledAll(keys[..|keys| - 1]), keys[|keys| - 1];
        if k in s.table && s.table[k].deployment in s.ident then s.Recycled(s.table[k].deployment) else s
    }

    /** The id is looked up while its slot is held by another entry, whose deployment is spare. */
    predicate SpareHolder(id: nat) {
      && id in table && SlotOf(table[id]) in slots && slots[SlotOf(table[id])] != table[id]
      && slots[SlotOf(table[id])].deployment in pool
    }

    /** The id's slot is held by its own entry, or by one with another deployment that is not spare. */
    predicate Serves(id: nat) {
      && id in table && SlotOf(table[id]) in slots
      && var ins, holder := table[id], slots[SlotOf(table[id])];
      holder == ins || (holder.deployment !in pool && holder.deployment != ins.deployment)
    }
  }

  // ---- calls ----------------------------------------------------------------------

  datatype Step =
    | Get(ins: GroupInstance)
    | Reserve(ins: GroupInstance)
    | Recycle(d: Deployment)
    | Lookup(id: nat)
    | Clear(keys: seq<nat>)

  /** Different keys of a table, in some order. */
  predicate Lists(keys: seq<nat>, table: map<nat, GroupInstance>) {
    Distinct(keys) && forall k <- keys :: k in table
  }

  predicate Enabled(s: State, step: Step) {
    match step
    case Get(ins) => s.pool != [] && s.pool[0] in s.ident && ins.deployment == s.pool[0] && InRange(SlotOf(ins))
    case Reserve(ins) => s.pool != [] && s.pool[0] in s.ident && ins.deployment == s.pool[0]
    case Recycle(d) => d in s.ident
    case Lookup(id) => (id in s.table ==> s.table[id].deployment in s.ident) && s.Filled()
    case Clear(keys) => Lists(keys, s.table)
  }

  function Next(s: State, step: Step): State
    requires Enabled(s, step)
  {
    match step
    case Get(ins) => s.Take(ins).(slots := s.slots[SlotOf(ins) := ins])
    case Reserve(ins) => s.Take(ins)
    case Recycle(d) => s.Recycled(d)
    case Lookup(id) => s.LookedUp(id)
    case Clear(keys) => s.RecycledAll(keys)
  }

  /** Only active deployments are recycled, and no slot that is looked up is held by a spare deployment. */
  predicate Orderly(s: State, step: Step)
    requires Enabled(s, step)
  {
    match step
    case Recycle(d) => s.Active(d)
    case Lookup(id) => !s.SpareHolder(id)
    case _ => true
  }

  // ---- conservation ---------------------------------------------------------------

  lemma TakeSplits(s: State, ins: GroupInstance)
    requires s.Split() && Injective(s.ident) && s.pool != [] && ins.deployment == s.pool[0]
    ensures s.Take(ins).Split()
  {
    var t, d := s.Take(ins), s.pool[0];
    assert s.pool == [d] + s.pool[1..];
    assert d !in t.pool;
    forall e <- t.ident ensures e in t.pool || t.Active(e) {
      assert e == d || e in t.pool || s.Active(e);
    }
    forall k <- t.table ensures t.table[k].deployment in t.ident && t.ident[t.table[k].deployment].id == k
                        ensures t.table[k].deployment !in t.pool
    {
      assert k == t.ident[d].id || t.table[k] == s.table[k];
    }
  }

  lemma TakeKeeps(s: State, ins: GroupInstance, prefix: string, n: nat)
    requires s.Inv(prefix, n) && s.pool != [] && ins.deployment == s.pool[0]
    ensures s.Take(ins).Inv(prefix, n)
  {
    TakeSplits(s, ins);
  }

  lemma GetKeeps(s: State, ins: GroupInstance, prefix: string, n: nat)
    requires s.Inv(prefix, n) && s.pool != [] && ins.deployment == s.pool[0] && InRange(SlotOf(ins))
    ensures s.Take(ins).(slots := s.slots[SlotOf(ins) := ins]).Inv(prefix, n)
  {
    TakeSplits(s, ins);
  }

  lemma RecycleSplits(s: State, d: Deployment)
    requires s.Split() && Injective(s.ident) && d in s.ident && s.Active(d)
    ensures s.Recycled(d).Split()
  {
    var t := s.Recycled(d);
    assert d !in s.pool;
    forall e <- t.ident ensures e in t.pool || t.Active(e) {
      if e in s.pool || e == d {
        InLonger(s.pool, d, e);
      } else {
        assert s.Active(e);
      }
    }
    forall k <- t.table ensures t.table[k].deployment !in t.pool {
      assert s.table[k].deployment != d;
    }
  }

  /** Recycling keeps the allocation exactly if the deployment was active. */
  lemma RecycleKeepsIff(s: State, d: Deployment, prefix: string, n: nat)
    requires s.Inv(prefix, n) && d in s.ident
    ensures s.Recycled(d).Inv(prefix, n) <==> s.Active(d)
  {
    if s.Active(d) {
      RecycleSplits(s, d);
    } else {
      RecycledTwice(s, d);
    }
  }

  lemma RecycledTwice(s: State, d: Deployment)
    requires d in s.pool && d in s.ident
    ensures !s.Recycled(d).Split()
  {
    var t := s.Recycled(d);
    var i :| 0 <= i < |s.pool| && s.pool[i] == d;
    assert t.pool[i] == t.pool[|s.pool|];
  }

  function Swap(d: Deployment, a: Deployment, b: Deployment): Deployment {
    if d == a then b else if d == b then a else d
  }

  /** Exchanging two identities permutes them. */
  lemma SwappedAt(ident: map<Deployment, Ident>, a: Deployment, b: Deployment, d: Deployment)
    requires a in ident && b in ident && d in ident
    ensures ident[b := ident[a]][a := ident[b]][d] == ident[Swap(d, a, b)]
  {
  }

  lemma SwappedKeys(ident: map<Deployment, Ident>, a: Deployment, b: Deployment)
    requires a in ident && b in ident
    ensures ident[b := ident[a]][a := ident[b]].Keys == ident.Keys && |ident[b := ident[a]][a := ident[b]]| == |ident|
  {
    var swapped := ident[b := ident[a]][a := ident[b]];
    assert swapped.Keys == ident.Keys;
    assert |swapped| == |swapped.Keys| && |ident| == |ident.Keys|;
  }

  lemma SwappedInjective(ident: map<Deployment, Ident>, a: Deployment, b: Deployment)
    requires a in ident && b in ident && Injective(ident)
    ensures Injective(ident[b := ident[a]][a := ident[b]])
  {
    var swapped := ident[b := ident[a]][a := ident[b]];
    forall d <- swapped, e <- swapped | swapped[d].id == swapped[e].id ensures d == e {
      SwappedAt(ident, a, b, d);
      SwappedAt(ident, a, b, e);
    }
  }

  lemma SwitchedPaired(s: State, ins: GroupInstance, holder: GroupInstance, prefix: string, n: nat)
    requires s.Paired(prefix, n) && ins.deployment in s.ident && holder.deployment in s.ident
    ensures s.Switched(ins, holder).Paired(prefix, n)
  {
    SwappedKeys(s.ident, ins.deployment, holder.deployment);
    SwappedInjective(s.ident, ins.deployment, holder.deployment);
  }

  /** The table and the pool after a lookup that exchanges two identities. */
  lemma ExchangedParts(s: State, ins: GroupInstance, holder: GroupInstance)
    requires ins.deployment in s.ident && holder.deployment in s.ident
    ensures var a, b := s.ident[ins.deployment], s.ident[holder.deployment];
            var u := s.Switched(ins, holder).Recycled(ins.deployment);
            && u.pool == s.pool + [ins.deployment] && u.slots == s.slots
            && u.ident == s.ident[holder.deployment := a][ins.deployment := b]
            && u.table == s.table[a.id := holder] - {b.id}
  {
  }

  lemma ExchangedEntries(s: State, id: nat, holder: GroupInstance)
    requires s.Split() && Injective(s.ident)
    requires id in s.table && holder.deployment in s.ident && holder.deployment !in s.pool
    ensures var u := s.Switched(s.table[id], holder).Recycled(s.table[id].deployment);
            forall k <- u.table :: u.table[k].deployment in u.ident && u.ident[u.table[k].deployment].id == k
                                   && u.table[k].deployment !in u.pool
  {
    ExchangedParts(s, s.table[id], holder);
  }

  lemma ExchangedDeployments(s: State, id: nat, holder: GroupInstance)
    requires s.Split() && Injective(s.ident)
    requires id in s.table && holder.deployment in s.ident && holder.deployment !in s.pool
    ensures var u := s.Switched(s.table[id], holder).Recycled(s.table[id].deployment);
            forall d <- u.ident :: d in u.pool || u.Active(d)
  {
    var ins := s.table[id];
    ExchangedParts(s, ins, holder);
    var u := s.Switched(ins, holder).Recycled(ins.deployment);
    forall d <- u.ident ensures d in u.pool || u.Active(d) {
      if d in s.pool || d == ins.deployment {
        InLonger(s.pool, ins.deployment, d);
      } else {
        assert s.Active(d);
      }
    }
  }

  lemma InLonger(pool: seq<Deployment>, last: Deployment, d: Deployment)
    requires d in pool || d == last
    ensures d in pool + [last]
  {
  }

  lemma ExchangeKeeps(s: State, id: nat, holder: GroupInstance, prefix: string, n: nat)
    requires s.Inv(prefix, n) && id in s.table && holder.deployment in s.ident && holder.deployment !in s.pool
    ensures s.Switched(s.table[id], holder).Recycled(s.table[id].deployment).Inv(prefix, n)
  {
    SwitchedPaired(s, s.table[id], holder, prefix, n);
    ExchangedParts(s, s.table[id], holder);
    ExchangedEntries(s, id, holder);
    ExchangedDeployments(s, id, holder);
  }

  /** The exchange with a spare holder: the looked-up id is then spare and active at once. */
  lemma SpareExchange(s: State, id: nat, prefix: string, n: nat)
    requires s.Inv(prefix, n) && s.SpareHolder(id)
    ensures var t, h := s.LookedUp(id), s.slots[SlotOf(s.table[id])].deployment;
            h in t.pool && h in t.ident && t.ident[h].id == id && id in t.table && t.table[id].deployment == h
  {
    var ins, holder := s.table[id], s.slots[SlotOf(s.table[id])];
    var i :| 0 <= i < |s.pool| && s.pool[i] == holder.deployment;
    assert s.LookedUp(id).pool[i] == holder.deployment;
  }

  /** A lookup keeps the allocation exactly if the slot is not held by a spare deployment. */
  lemma LookupKeepsIff(s: State, id: nat, prefix: string, n: nat)
    requires s.Inv(prefix, n)
    ensures s.LookedUp(id).Inv(prefix, n) <==> !s.SpareHolder(id)
  {
    if s.SpareHolder(id) {
      SpareExchange(s, id, prefix, n);
    } else if id in s.table && SlotOf(s.table[id]) in s.slots && s.slots[SlotOf(s.table[id])] != s.table[id] {
      ExchangeKeeps(s, id, s.slots[SlotOf(s.table[id])], prefix, n);
    }
  }

  function Keys(keys: seq<nat>): set<nat> {
    set k | k in keys
  }

  /** A lookup returns a deployment under the id; it is active and not spare if and only if the slot serves the id. */
  lemma LookupReturns(s: State, id: nat, prefix: string, n: nat)
    requires s.Inv(prefix, n) && id in s.table && SlotOf(s.table[id]) in s.slots
    ensures var t, d := s.LookedUp(id), s.slots[SlotOf(s.table[id])].deployment;
            d in t.ident && t.ident[d].id == id && (t.Active(d) && d !in t.pool <==> s.Serves(id))
  {
    var ins, holder := s.table[id], s.slots[SlotOf(s.table[id])];
    if holder != ins {
      ExchangedParts(s, ins, holder);
      if holder.deployment in s.pool {
        InLonger(s.pool, ins.deployment, holder.deployment);
      }
    }
  }

  /**
   What a lookup does, case by case. With a slot that another entry holds, the two deployments
   exchange their identities, the holder's entry replaces the looked-up one, the holder's old id
   leaves the table, and the looked-up deployment is recycled to the end of the pool.
   */
  lemma LookupEffect(s: State, id: nat, prefix: string, n: nat)
    requires s.Inv(prefix, n)
    ensures id !in s.table || !InRange(SlotOf(s.table[id])) ==> s.LookedUp(id) == s
    ensures id in s.table && InRange(SlotOf(s.table[id])) && SlotOf(s.table[id]) !in s.slots ==>
              s.LookedUp(id) == s.(slots := s.slots[SlotOf(s.table[id]) := s.table[id]])
    ensures id in s.table && SlotOf(s.table[id]) in s.slots ==>
              var t, ins, holder := s.LookedUp(id), s.table[id], s.slots[SlotOf(s.table[id])];
              if holder == ins then t == s
              else
                var d, h := ins.deployment, holder.deployment;
                && t.pool == s.pool + [d] && t.slots == s.slots
                && t.table == s.table[id := holder] - {s.ident[h].id} && s.ident[h].id !in t.table
                && t.ident.Keys == s.ident.Keys && t.ident[h] == s.ident[d] && t.ident[d] == s.ident[h]
                && forall e <- s.ident :: e != d && e != h ==> t.ident[e] == s.ident[e]
  {
    if id in s.table && SlotOf(s.table[id]) in s.slots && s.slots[SlotOf(s.table[id])] != s.table[id] {
      ExchangedParts(s, s.table[id], s.slots[SlotOf(s.table[id])]);
    }
  }

  lemma ReturnOne(s: State, k: nat, prefix: string, n: nat)
    requires s.Inv(prefix, n) && k in s.table
    ensures s.table[k].deployment in s.ident && s.Recycled(s.table[k].deployment).Inv(prefix, n)
    ensures s.Recycled(s.table[k].deployment) == s.(pool := s.pool + [s.table[k].deployment], table := s.table - {k})
  {
    RecycleKeepsIff(s, s.table[k].deployment, prefix, n);
  }

  lemma WithoutKeys(table: map<nat, GroupInstance>, init: seq<nat>, k: nat)
    ensures table - Keys(init) - {k} == table - Keys(init + [k])
    ensures k in table && k !in init ==> k in table - Keys(init)
  {
  }

  function Deployments(table: map<nat, GroupInstance>, keys: seq<nat>): (r: seq<Deployment>)
    requires forall k <- keys :: k in table
    ensures |r| == |keys|
  {
    seq(|keys|, i requires 0 <= i < |keys| => table[keys[i]].deployment)
  }

  lemma DeploymentsSnoc(table: map<nat, GroupInstance>, init: seq<nat>, k: nat)
    requires k in table && forall x <- init :: x in table
    ensures Deployments(table, init + [k]) == Deployments(table, init) + [table[k].deployment]
  {
  }

  /** Clearing keeps the allocation, and takes exactly the given keys from the table. */
  lemma {:induction false} ClearKeeps(s: State, keys: seq<nat>, prefix: string, n: nat)
    requires s.Inv(prefix, n) && Lists(keys, s.table)
    ensures var t := s.RecycledAll(keys);
            && t.Inv(prefix, n) && t.ident == s.ident && t.slots == s.slots
            && t.table == s.table - Keys(keys)
            && t.pool == s.pool + Deployments(s.table, keys)
  {
    if keys == [] {
      assert s.table == s.table - Keys(keys);
    } else {
      var init, k := keys[..|keys| - 1], keys[|keys| - 1];
      assert keys == init + [k];
      ClearKeeps(s, init, prefix, n);
      WithoutKeys(s.table, init, k);
      DeploymentsSnoc(s.table, init, k);
      ReturnOne(s.RecycledAll(init), k, prefix, n);
    }
  }

  /** Every call keeps the allocation exactly if it is orderly. */
  lemma StepKeepsIff(s: State, step: Step, prefix: string, n: nat)
    requires s.Inv(prefix, n) && Enabled(s, step)
    ensures Next(s, step).Inv(prefix, n) <==> Orderly(s, step)
  {
    match step
    case Get(ins) => GetKeeps(s, ins, prefix, n);
    case Reserve(ins) => TakeKeeps(s, ins, prefix, n);
    case Recycle(d) => RecycleKeepsIff(s, d, prefix, n);
    case Lookup(id) => LookupKeepsIff(s, id, prefix, n);
    case Clear(keys) => ClearKeeps(s, keys, prefix, n);
  }

  // ---- runs -----------------------------------------------------------------------

  /** A new scheduler: every deployment is spare, and no slot is filled. */
  predicate Initial(s: State, prefix: string, n: nat) {
    s.Inv(prefix, n) && s.table == map[] && s.slots == map[]
  }

  ghost predicate IsRun(trace: seq<State>, steps: seq<Step>, prefix: string, n: nat) {
    && |trace| == |steps| + 1 && Initial(trace[0], prefix, n)
    && forall i :: 0 <= i < |steps| ==> Enabled(trace[i], steps[i]) && trace[i + 1] == Next(trace[i], steps[i])
  }

  ghost predicate InvUpTo(trace: seq<State>, i: nat, prefix: string, n: nat)
    requires i < |trace|
  {
    forall j :: 0 <= j <= i ==> trace[j].Inv(prefix, n)
  }

  ghost predicate OrderlyUpTo(trace: seq<State>, steps: seq<Step>, i: nat)
    requires i <= |steps| < |trace|
  {
    forall j :: 0 <= j < i ==> Enabled(trace[j], steps[j]) && Orderly(trace[j], steps[j])
  }

  /**
   Conservation over any sequence of calls, and exactly when it holds: the allocation is
   consistent in every state up to i if and only if every call before i was orderly.
   */
  lemma RunKeepsIff(trace: seq<State>, steps: seq<Step>, prefix: string, n: nat, i: nat)
    requires IsRun(trace, steps, prefix, n) && i <= |steps|
    ensures InvUpTo(trace, i, prefix, n) <==> OrderlyUpTo(trace, steps, i)
  {
    var holds := seq(|trace|, j requires 0 <= j < |trace| => trace[j].Inv(prefix, n));
    var good := seq(|steps|, j requires 0 <= j < |steps| => Enabled(trace[j], steps[j]) && Orderly(trace[j], steps[j]));
    forall j | 0 <= j < |steps| && holds[j] ensures holds[j + 1] == good[j] {
      RunStep(trace, steps, prefix, n, j);
    }
    HoldsUpTo(holds, good, i);
    if UpTo(holds, i + 1) {
      forall j | 0 <= j <= i ensures trace[j].Inv(prefix, n) {
        assert holds[j];
      }
      forall j | 0 <= j < i ensures Enabled(trace[j], steps[j]) && Orderly(trace[j], steps[j]) {
        assert good[j];
      }
    } else {
      var j :| 0 <= j <= i && !holds[j];
      assert !trace[j].Inv(prefix, n);
      var k :| 0 <= k < i && !good[k];
      assert !(Enabled(trace[k], steps[k]) && Orderly(trace[k], steps[k]));
    }
  }

  lemma RunStep(trace: seq<State>, steps: seq<Step>, prefix: string, n: nat, i: nat)
    requires IsRun(trace, steps, prefix, n) && i < |steps| && trace[i].Inv(prefix, n)
    ensures Enabled(trace[i], steps[i])
    ensures trace[i + 1].Inv(prefix, n) <==> Orderly(trace[i], steps[i])
  {
    StepKeepsIff(trace[i], steps[i], prefix, n);
  }

  lemma {:induction false} Below(n: nat, s: set<nat>)
    requires forall k <- s :: k < n
    ensures |s| <= n
    ensures |s| == n ==> forall k :: 0 <= k < n ==> k in s
  {
    if n == 0 {
      assert s == {};
    } else {
      Below(n - 1, s - {n - 1});
      if n - 1 in s {
        assert s == (s - {n - 1}) + {n - 1};
      } else {
        assert s == s - {n - 1};
      }
    }
  }

  function IdsOf(ident: map<Deployment, Ident>): set<nat> {
    set d <- ident :: ident[d].id
  }

  lemma IdsWithout(ident: map<Deployment, Ident>, d: Deployment)
    requires Injective(ident)
    requires d in ident
    ensures |ident - {d}| == |ident| - 1
    ensures IdsOf(ident - {d}) == IdsOf(ident) - {ident[d].id}
  {
    var rest := ident - {d};
    assert rest.Keys == ident.Keys - {d} && |ident| == |ident.Keys| && |rest| == |rest.Keys|;
    forall k ensures k in IdsOf(rest) <==> k in IdsOf(ident) && k != ident[d].id {
      if k in IdsOf(ident) && k != ident[d].id {
        var e :| e in ident && ident[e].id == k;
        assert e in rest;
      }
    }
  }

  lemma {:induction false} IdsCount(ident: map<Deployment, Ident>)
    requires Injective(ident)
    ensures |IdsOf(ident)| == |ident|
    decreases |ident|
  {
    if ident != map[] {
      var d :| d in ident;
      IdsWithout(ident, d);
      IdsCount(ident - {d});
      assert ident[d].id in IdsOf(ident);
    }
  }

  /** Id k belongs to a deployment of the pool. */
  predicate Spare(s: State, k: nat) {
    exists d <- s.pool :: d in s.ident && s.ident[d].id == k
  }

  /** Every id below n is either spare or active, and the pool never outgrows its channel. */
  lemma Partition(s: State, k: nat, prefix: string, n: nat)
    requires s.Inv(prefix, n) && k < n
    ensures k in s.table <==> !Spare(s, k)
    ensures |s.pool| <= n
  {
    IdsCount(s.ident);
    Below(n, IdsOf(s.ident));
    assert k in IdsOf(s.ident);
    var d :| d in s.ident && s.ident[d].id == k;
    assert d in s.pool || s.Active(d);
    PoolCount(s.pool, s.ident.Keys);
  }

  lemma {:induction false} PoolCount(pool: seq<Deployment>, all: set<Deployment>)
    requires Distinct(pool) && forall d <- pool :: d in all
    ensures |pool| <= |all|
  {
    if pool != [] {
      var init, last := pool[..|pool| - 1], pool[|pool| - 1];
      assert pool == init + [last];
      PoolCount(init, all - {last});
    }
  }

  /** Conservation, for callers: over orderly runs ids stay partitioned, keys are current ids, names stay paired. */
  lemma RunConserves(trace: seq<State>, steps: seq<Step>, prefix: string, n: nat, i: nat, k: nat)
    requires IsRun(trace, steps, prefix, n) && i <= |steps| && OrderlyUpTo(trace, steps, i) && k < n
    ensures var s := trace[i];
            && (k in s.table <==> !Spare(s, k)) && |s.pool| <= n
            && (k in s.table ==> s.table[k].deployment in s.ident
                                 && s.ident[s.table[k].deployment] == Ident(k, Named(prefix, k)))
  {
    RunKeepsIff(trace, steps, prefix, n, i);
    Partition(trace[i], k, prefix, n);
  }

  function FourCalls(first: GroupInstance, second: GroupInstance, id: nat): seq<Step> {
    [Get(first), Recycle(first.deployment), Reserve(second), Lookup(id)]
  }

  lemma ThirdState(s: State, first: GroupInstance, second: GroupInstance, id: nat, prefix: string, n: nat)
    returns (t: State)
    requires Initial(s, prefix, n) && |s.pool| >= 2 && InRange(SlotOf(first)) && SlotOf(second) == SlotOf(first)
    requires first.deployment == s.pool[0] && second.deployment == s.pool[1] && s.ident[s.pool[1]].id == id
    ensures t == State(s.pool[2..] + [s.pool[0]], map[id := second], s.ident, map[SlotOf(first) := first])
    ensures var a := Next(s, Get(first));
            && Enabled(a, Recycle(first.deployment)) && a.Active(first.deployment)
            && var b := Next(a, Recycle(first.deployment));
            && Enabled(b, Reserve(second)) && t == Next(b, Reserve(second))
  {
    var d := s.pool[0];
    t := State(s.pool[2..] + [d], map[id := second], s.ident, map[SlotOf(first) := first]);
    var a := Next(s, Get(first));
    var b := Next(a, Recycle(d));
    assert b.pool == s.pool[1..] + [d] && b.table == map[];
    assert b.pool[1..] == t.pool;
  }

  lemma FourSteps(s: State, a: State, b: State, t: State, u: State, steps: seq<Step>, prefix: string, n: nat)
    requires |steps| == 4 && Initial(s, prefix, n)
    requires Enabled(s, steps[0]) && Orderly(s, steps[0]) && a == Next(s, steps[0])
    requires Enabled(a, steps[1]) && Orderly(a, steps[1]) && b == Next(a, steps[1])
    requires Enabled(b, steps[2]) && Orderly(b, steps[2]) && t == Next(b, steps[2])
    requires Enabled(t, steps[3]) && u == Next(t, steps[3])
    ensures IsRun([s, a, b, t, u], steps, prefix, n) && OrderlyUpTo([s, a, b, t, u], steps, 3)
  {
  }

  lemma SpareThird(s: State, first: GroupInstance, second: GroupInstance, id: nat, t: State)
    requires |s.pool| >= 2 && first.deployment == s.pool[0] && first != second && SlotOf(second) == SlotOf(first)
    requires t == State(s.pool[2..] + [s.pool[0]], map[id := second], s.ident, map[SlotOf(first) := first])
    ensures t.SpareHolder(id)
  {
    assert t.pool[|s.pool| - 2] == s.pool[0];
  }

  /** Get, recycle, reserve for the same slot, look up: a run whose last call makes an id spare and active at once. */
  lemma DoubleRun(s: State, first: GroupInstance, second: GroupInstance, id: nat, prefix: string, n: nat)
    returns (trace: seq<State>)
    requires Initial(s, prefix, n) && |s.pool| >= 2 && InRange(SlotOf(first)) && SlotOf(second) == SlotOf(first)
    requires first.deployment == s.pool[0] && second.deployment == s.pool[1] && s.ident[s.pool[1]].id == id
    ensures IsRun(trace, FourCalls(first, second, id), prefix, n) && trace[0] == s
    ensures OrderlyUpTo(trace, FourCalls(first, second, id), 3) && InvUpTo(trace, 3, prefix, n)
    ensures trace[3].SpareHolder(id) && Spare(trace[4], id) && id in trace[4].table
  {
    var t := ThirdState(s, first, second, id, prefix, n);
    var steps, a := FourCalls(first, second, id), Next(s, Get(first));
    var b := Next(a, Recycle(first.deployment));
    assert first.deployment != second.deployment;
    SpareThird(s, first, second, id, t);
    var u := Next(t, Lookup(id));
    FourSteps(s, a, b, t, u, steps, prefix, n);
    trace := [s, a, b, t, u];
    RunKeepsIff(trace, steps, prefix, n, 3);
    assert trace[3].Inv(prefix, n);
    SpareExchange(t, id, prefix, n);
  }

  lemma ThirdStateSame(s: State, first: GroupInstance, second: GroupInstance, id: nat, prefix: string, n: nat)
    returns (t: State)
    requires Initial(s, prefix, n) && |s.pool| == 1 && InRange(SlotOf(first)) && SlotOf(second) == SlotOf(first)
    requires first.deployment == second.deployment == s.pool[0] && s.ident[s.pool[0]].id == id
    ensures t == State([], map[id := second], s.ident, map[SlotOf(first) := first])
    ensures var a := Next(s, Get(first));
            && Enabled(a, Recycle(first.deployment)) && a.Active(first.deployment)
            && var b := Next(a, Recycle(first.deployment));
            && Enabled(b, Reserve(second)) && t == Next(b, Reserve(second))
  {
    var d := s.pool[0];
    t := State([], map[id := second], s.ident, map[SlotOf(first) := first]);
    var b := Next(Next(s, Get(first)), Recycle(d));
    assert b.pool == [d] && b.table == map[];
    assert b.pool[1..] == [];
  }

  lemma OrderlyNext(trace: seq<State>, steps: seq<Step>, i: nat)
    requires i < |steps| < |trace| && OrderlyUpTo(trace, steps, i)
    requires Enabled(trace[i], steps[i]) && Orderly(trace[i], steps[i])
    ensures OrderlyUpTo(trace, steps, i + 1)
  {
  }

  lemma LookedUpSame(t: State, first: GroupInstance, second: GroupInstance, id: nat)
    requires first != second && first.deployment == second.deployment && SlotOf(first) == SlotOf(second)
    requires InRange(SlotOf(first)) && first.deployment in t.ident && t.ident[first.deployment].id == id
    requires t == State([], map[id := second], t.ident, map[SlotOf(first) := first])
    ensures t.Filled() && !t.SpareHolder(id) && !t.Serves(id)
    ensures t.LookedUp(id).table == map[] && t.LookedUp(id).pool == [first.deployment]
  {
    ExchangedParts(t, second, first);
  }

  /**
   The same four calls when the pool hands the same deployment out again: every call is orderly, but
   the lookup recycles the deployment it returns.
   */
  lemma SpareReturned(s: State, first: GroupInstance, second: GroupInstance, id: nat, prefix: string, n: nat)
    returns (trace: seq<State>)
    requires Initial(s, prefix, n) && |s.pool| == 1 && first != second
    requires InRange(SlotOf(first)) && SlotOf(second) == SlotOf(first)
    requires first.deployment == second.deployment == s.pool[0] && s.ident[s.pool[0]].id == id
    ensures IsRun(trace, FourCalls(first, second, id), prefix, n) && trace[0] == s
    ensures OrderlyUpTo(trace, FourCalls(first, second, id), 4) && InvUpTo(trace, 4, prefix, n)
    ensures id in trace[3].table && !trace[3].Serves(id) && id !in trace[4].table
    ensures trace[4].pool == [first.deployment]
  {
    var t := ThirdStateSame(s, first, second, id, prefix, n);
    var steps, a := FourCalls(first, second, id), Next(s, Get(first));
    var b, u := Next(a, Recycle(first.deployment)), Next(t, Lookup(id));
    FourSteps(s, a, b, t, u, steps, prefix, n);
    trace := [s, a, b, t, u];
    LookedUpSame(t, first, second, id);
    OrderlyNext(trace, steps, 3);
    RunKeepsIff(trace, steps, prefix, n, 4);
  }
}
