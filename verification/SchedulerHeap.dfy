/** The scheduler as it is written: a pool channel, an active table and group slots that the calls update in place. */
module SchedulerHeap {
  import opened Basics
  import opened S = Scheduler

  class Scheduler {
    const prefix: string
    const n: nat
    var pool: seq<Deployment>
    var actives: map<nat, GroupInstance>

    /** The groups whose slots this scheduler fills. */
    ghost var groups: set<Group>

    /** The state that the fields, the deployments and the slots are in. */
    ghost var model: State

    ghost function Arrays(): set<object>
      reads this
    {
      set g <- groups :: g.all
    }

    ghost function Content(g: Group, i: nat): GroupInstance?
      reads this
    {
      if (g, i) in model.slots then model.slots[(g, i)] else null
    }

    /** The model is what the fields, the deployments and the slots say. */
    ghost predicate Linked()
      reads this, model.ident.Keys, Arrays()
    {
      && pool == model.pool && actives == model.table
      && (forall d <- model.ident :: model.ident[d] == Ident(d.id, d.name))
      && (forall k <- actives :: actives[k].group in groups)
      && (forall x <- model.slots :: x.0 in groups)
      && (forall g <- groups, i: nat | i < g.all.Length :: g.all[i] == Content(g, i))
      && (forall g <- groups, h <- groups :: g.all == h.all ==> g == h)
    }

    ghost predicate Valid()
      reads this, model.ident.Keys, Arrays()
    {
      Linked() && model.Inv(prefix, n)
    }

    constructor (prefix: string, n: nat)
      ensures Valid() && this.prefix == prefix && this.n == n && groups == {}
      ensures Initial(model, prefix, n) && |pool| == n && forall i :: 0 <= i < n ==> pool[i].id == i
      ensures forall d <- model.ident :: fresh(d)
    {
      this.prefix, this.n, actives, pool := prefix, n, map[], [];
      groups, model := {}, State([], map[], map[], map[]);
      new;
      for i := 0 to n
        invariant actives == map[] && groups == {} && |pool| == i
        invariant forall j :: 0 <= j < i ==> fresh(pool[j]) && pool[j].id == j && pool[j].name == Named(prefix, j)
      {
        var d := new Deployment(prefix, i);
        pool := pool + [d];
      }
      model := State(pool, map[], map d <- pool :: Ident(d.id, d.name), map[]);
      NewState(model, prefix, n);
    }

    /** `NewGroup`: a group with empty slots. */
    method NewGroup(num: nat) returns (g: Group)
      requires Valid()
      modifies this`groups
      ensures Valid() && groups == old(groups) + {g} && fresh(g) && fresh(g.all) && g.all.Length == num
    {
      g := new Group(num);
      groups := groups + {g};
    }

    /** Moves the first spare deployment to the table. */
    method Activate(ins: GroupInstance)
      requires Linked() && pool != [] && pool[0] in model.ident && ins.deployment == pool[0] && ins.group in groups
      modifies this`pool, this`actives, this`model
      ensures Linked() && model == old(model).Take(ins)
    {
      actives := actives[pool[0].id := ins];
      pool := pool[1..];
      model := model.Take(ins);
    }

    /** `ReserveForGroup`: takes the first spare deployment for a slot without filling it; fails when there is none. */
    method ReserveForGroup(g: Group, idx: nat) returns (d: Deployment?)
      requires Valid() && g in groups
      modifies this`pool, this`actives, this`model
      ensures Valid() && (d == null <==> old(pool) == [])
      ensures d == null ==> model == old(model) && pool == old(pool) && actives == old(actives)
      ensures d != null ==>
                && d == old(pool)[0] && d.id in actives && fresh(actives[d.id])
                && actives[d.id].deployment == d && SlotOf(actives[d.id]) == (g, idx)
                && pool == old(pool)[1..] && actives == old(actives)[d.id := actives[d.id]]
                && Enabled(old(model), Reserve(actives[d.id]))
                && model == Next(old(model), Reserve(actives[d.id]))
    {
      if pool == [] {
        return null;
      }
      d := pool[0];
      var ins := new GroupInstance(d, g, idx);
      TakeKeeps(model, ins, prefix, n);
      Activate(ins);
    }

    /** `Group.Set`. */
    method Fill(ins: GroupInstance)
      requires Linked() && ins.group in groups && InRange(SlotOf(ins))
      modifies ins.group.all, this`model
      ensures Linked() && model == old(model).(slots := old(model).slots[SlotOf(ins) := ins])
      ensures ins.group.all[ins.idx] == ins
    {
      ins.group.all[ins.idx] := ins;
      model := model.(slots := model.slots[SlotOf(ins) := ins]);
    }

    /**
     `GetForGroup`: takes the first spare deployment, enters it in the table and fills the slot. It
     waits, with nothing changed, while none is spare, and crashes at a slot that does not exist,
     after the deployment became active.
     */
    method GetForGroup(g: Group, idx: nat) returns (d: Deployment?, crashed: bool)
      requires Valid() && g in groups
      modifies this`pool, this`actives, this`model, g.all
      ensures Valid()
      ensures old(pool) == [] ==>
                d == null && !crashed && model == old(model) && pool == old(pool) && actives == old(actives)
      ensures old(pool) != [] ==>
                var taken := old(pool)[0];
                && taken.id in actives && fresh(actives[taken.id])
                && actives[taken.id].deployment == taken && SlotOf(actives[taken.id]) == (g, idx)
                && pool == old(pool)[1..] && actives == old(actives)[taken.id := actives[taken.id]]
                && (!crashed ==> idx < g.all.Length && g.all[idx] == actives[taken.id])
                && (crashed <==> idx >= g.all.Length) && d == (if crashed then null else taken)
                && var step := if crashed then Reserve(actives[taken.id]) else Get(actives[taken.id]);
                Enabled(old(model), step) && model == Next(old(model), step)
    {
      if pool == [] {
        return null, false;
      }
      d, crashed := pool[0], idx >= g.all.Length;
      var ins := new GroupInstance(d, g, idx);
      if crashed {
        TakeKeeps(model, ins, prefix, n);
        Activate(ins);
        d := null;
      } else {
        GetKeeps(model, ins, prefix, n);
        Install(ins);
      }
    }

    method Install(ins: GroupInstance)
      requires Linked() && pool != [] && pool[0] in model.ident && ins.deployment == pool[0]
      requires ins.group in groups && InRange(SlotOf(ins))
      modifies this`pool, this`actives, this`model, ins.group.all
      ensures Linked() && model == Next(old(model), Get(ins)) && ins.group.all[ins.idx] == ins
    {
      Activate(ins);
      Fill(ins);
    }

    /**
     `Recycle`: the allocation stays consistent exactly if the deployment was active. From a consistent
     one the pool channel, which holds n + 1 deployments, has room.
     */
    method Recycle(d: Deployment)
      requires Linked() && d in model.ident
      modifies this`pool, this`actives, this`model
      ensures Linked() && model == old(model).Recycled(d)
      ensures pool == old(pool) + [d] && actives == old(actives) - {old(d.id)}
      ensures old(model.Inv(prefix, n)) ==> (Valid() <==> old(model).Active(d)) && |pool| <= n + 1
    {
      if model.Inv(prefix, n) {
        RecycleKeepsIff(model, d, prefix, n);
        PoolCount(model.pool, model.ident.Keys);
        assert |model.ident.Keys| == |model.ident|;
      }
      Return(d);
    }

    /** The statements of `Recycle`. */
    method Return(d: Deployment)
      requires Linked() && d in model.ident
      modifies this`pool, this`actives, this`model
      ensures Linked() && model == old(model).Recycled(d)
    {
      actives := actives - {d.id};
      pool := pool + [d];
      model := model.Recycled(d);
    }

    /** The exchange of identities and the table entries under them. */
    method Exchange(ins: GroupInstance, holder: GroupInstance)
      requires Linked() && ins.deployment in model.ident && holder.deployment in model.ident
      requires ins.group in groups && holder.group in groups
      modifies this`actives, this`model, ins.deployment, holder.deployment
      ensures Linked() && model == old(model).Switched(ins, holder)
    {
      holder.deployment.Switch(ins.deployment);
      actives := actives[holder.deployment.id := holder];
      actives := actives[ins.deployment.id := ins];
      model := model.Switched(ins, holder);
    }

    /**
     `Instance`: nothing for an unknown id; a crash if the slot of the entry does not exist or is
     empty, in the second case after filling it; otherwise the deployment that holds the slot,
     under the looked-up id. The allocation stays consistent exactly if that one was not spare, and
     the deployment is active exactly if the slot serves the id.
     */
    method Instance(id: nat) returns (d: Deployment?, crashed: bool)
      requires Valid()
      modifies this`pool, this`actives, this`model, model.ident.Keys, Arrays()
      ensures Linked() && model == old(model).LookedUp(id)
      ensures Valid() <==> !old(model).SpareHolder(id)
      ensures crashed <==> id in old(actives) && SlotOf(old(actives)[id]) !in old(model.slots)
      ensures d != null <==> id in old(actives) && !crashed
      ensures d != null ==> d == old(model.slots)[SlotOf(old(actives)[id])].deployment && d.id == id
      ensures d != null ==>
                (id in actives && actives[id].deployment == d && d !in pool <==> old(model).Serves(id))
      ensures d == null ==> pool == old(pool) && actives == old(actives)
      ensures d != null ==>
                var ins := old(actives)[id];
                var holder := old(model.slots)[SlotOf(ins)];
                if holder == ins then pool == old(pool) && actives == old(actives)
                else pool == old(pool) + [ins.deployment] && actives == old(actives)[id := holder] - {ins.deployment.id}
      ensures crashed && InRange(SlotOf(old(actives)[id])) ==>
                var ins := old(actives)[id]; ins.group.all[ins.idx] == ins
    {
      LookupEffect(model, id, prefix, n);
      LookupKeepsIff(model, id, prefix, n);
      if id in actives && SlotOf(actives[id]) in model.slots {
        LookupReturns(model, id, prefix, n);
      }
      d, crashed := Resolve(id);
    }

    /** The statements of `Instance`. */
    method Resolve(id: nat) returns (d: Deployment?, crashed: bool)
      requires Linked() && model.Filled()
      requires id in actives ==> actives[id].deployment in model.ident && model.ident[actives[id].deployment].id == id
      modifies this`pool, this`actives, this`model, model.ident.Keys, Arrays()
      ensures Linked() && model == old(model).LookedUp(id)
      ensures crashed <==> id in old(actives) && SlotOf(old(actives)[id]) !in old(model.slots)
      ensures d != null <==> id in old(actives) && !crashed
      ensures d != null ==> d == old(model.slots)[SlotOf(old(actives)[id])].deployment && d.id == id
      ensures crashed && InRange(SlotOf(old(actives)[id])) ==>
                var ins := old(actives)[id]; ins.group.all[ins.idx] == ins
    {
      if id !in actives {
        return null, false;
      }
      var ins := actives[id];
      if ins.idx >= ins.group.all.Length {
        return null, true;
      }
      var holder := ins.group.all[ins.idx];
      if holder == null {
        Fill(ins);
        return null, true;
      }
      d, crashed := holder.deployment, false;
      if holder != ins {
        HandOver(ins, holder);
      }
    }

    method HandOver(ins: GroupInstance, holder: GroupInstance)
      requires Linked() && ins.deployment in model.ident && holder.deployment in model.ident
      requires ins.group in groups && holder.group in groups
      modifies this`pool, this`actives, this`model, ins.deployment, holder.deployment
      ensures Linked() && model == old(model).Switched(ins, holder).Recycled(ins.deployment)
      ensures holder.deployment.id == old(ins.deployment.id)
    {
      Exchange(ins, holder);
      Return(ins.deployment);
    }

    /** `Clear`: recycles every active deployment of a group. */
    method Clear(g: Group) returns (ghost keys: seq<nat>)
      requires Valid()
      modifies this`pool, this`actives, this`model
      ensures Valid() && Lists(keys, old(model.table)) && model == Next(old(model), Step.Clear(keys))
      ensures forall k :: k in keys <==> k in old(actives) && old(actives)[k].group == g
      ensures actives == old(actives) - Keys(keys) && pool == old(pool) + Deployments(old(actives), keys)
    {
      keys := RecycleEntries(g);
      ClearKeeps(old(model), keys, prefix, n);
    }

    /** `ClearAll`: recycles every active deployment. */
    method ClearAll() returns (ghost keys: seq<nat>)
      requires Valid()
      modifies this`pool, this`actives, this`model
      ensures Valid() && Lists(keys, old(model.table)) && model == Next(old(model), Step.Clear(keys))
      ensures actives == map[] && |pool| == n
    {
      keys := RecycleEntries(null);
      ClearKeeps(old(model), keys, prefix, n);
      assert model.table == map[];
      AllSpare(model, prefix, n);
    }

    /** The loop over a snapshot of the table: the entries of one group, or of all. */
    method RecycleEntries(g: Group?) returns (ghost keys: seq<nat>)
      requires Valid()
      modifies this`pool, this`actives, this`model
      ensures Linked() && Lists(keys, old(model.table)) && model == old(model).RecycledAll(keys)
      ensures forall k :: k in keys <==> k in old(actives) && (g == null || old(actives)[k].group == g)
    {
      var snapshot := actives;
      var rest := snapshot.Keys;
      ghost var s := model;
      keys := [];
      while rest != {}
        invariant Linked() && rest <= snapshot.Keys && Lists(keys, s.table) && model == s.RecycledAll(keys)
        invariant forall k :: k in keys <==> k in snapshot && k !in rest && (g == null || snapshot[k].group == g)
        decreases rest
      {
        var k :| k in rest;
        rest := rest - {k};
        if g == null || snapshot[k].group == g {
          ReturnEntry(snapshot[k], s, keys, k);
          keys := Longer(keys, k);
        }
      }
    }

    /** One entry of a table that is being cleared. */
    method ReturnEntry(ins: GroupInstance, ghost s: State, ghost keys: seq<nat>, ghost k: nat)
      requires Linked() && s.Inv(prefix, n) && Lists(keys, s.table) && model == s.RecycledAll(keys)
      requires k in s.table && k !in keys && s.table[k] == ins
      modifies this`pool, this`actives, this`model
      ensures Linked() && Lists(Longer(keys, k), s.table) && model == s.RecycledAll(Longer(keys, k))
    {
      ClearKeeps(s, keys, prefix, n);
      Return(ins.deployment);
    }
  }

  ghost function Longer(keys: seq<nat>, k: nat): (r: seq<nat>)
    ensures r == keys + [k] && r[..|r| - 1] == keys && forall x :: x in r <==> x in keys || x == k
  {
    keys + [k]
  }

  lemma AllSpare(s: State, prefix: string, n: nat)
    requires s.Inv(prefix, n) && s.table == map[]
    ensures |s.pool| == n
  {
    PoolSet(s.pool);
    assert s.ident.Keys == set d | d in s.pool;
    assert |s.ident| == |s.ident.Keys|;
  }

  /**
   Get, recycle, reserve for the same slot, look up: the slot is still held by the recycled
   deployment, which takes over the looked-up id while it is in the pool.
   */
  method DoubleAllocation(s: Scheduler, g: Group) returns (id: nat)
    requires s.Valid() && |s.pool| >= 2 && g in s.groups && g.all.Length > 0
    modifies s`pool, s`actives, s`model, s.model.ident.Keys, s.Arrays()
    ensures s.Linked() && id in s.actives && s.actives[id].deployment in s.pool && s.actives[id].deployment.id == id
    ensures !s.Valid()
  {
    id := HoldBySpare(s, g);
    SpareExchange(s.model, id, s.prefix, s.n);
    var _, _ := s.Instance(id);
  }

  /** The first three calls: an active id whose slot is held by a spare deployment. */
  method HoldBySpare(s: Scheduler, g: Group) returns (id: nat)
    requires s.Valid() && |s.pool| >= 2 && g in s.groups && g.all.Length > 0
    modifies s`pool, s`actives, s`model, g.all
    ensures s.Valid() && s.model.SpareHolder(id) && s.model.ident == old(s.model.ident)
  {
    var d := HoldSlot(s, g);
    ghost var before := s.model;
    var e := s.ReserveForGroup(g, 0);
    id := e.id;
    ReserveSpare(before, s.actives[id], d);
  }

  /** The first two calls: the slot is held by a deployment at the end of the pool. */
  method HoldSlot(s: Scheduler, g: Group) returns (d: Deployment)
    requires s.Valid() && |s.pool| >= 2 && g in s.groups && g.all.Length > 0
    modifies s`pool, s`actives, s`model, g.all
    ensures s.Valid() && HeldBySpare(s.model, (g, 0), d) && s.model.ident == old(s.model.ident)
  {
    d := s.pool[0];
    var _, _ := s.GetForGroup(g, 0);
    RecycleHeld(old(s.model), s.actives[d.id], s.prefix, s.n);
    s.Recycle(d);
  }

  /** The slot is held by a spare deployment that is not the next to be taken. */
  predicate HeldBySpare(s: State, slot: Slot, d: Deployment) {
    slot in s.slots && s.slots[slot].deployment == d && d in s.pool && s.pool[0] != d
  }

  lemma RecycleHeld(s: State, ins: GroupInstance, prefix: string, n: nat)
    requires s.Inv(prefix, n) && |s.pool| >= 2 && Enabled(s, Get(ins))
    ensures var t := Next(s, Get(ins));
            t.Active(ins.deployment) && HeldBySpare(t.Recycled(ins.deployment), SlotOf(ins), ins.deployment)
  {
    var t := Next(s, Get(ins));
    assert t.pool[0] == s.pool[1];
    assert t.Recycled(ins.deployment).pool[|t.pool|] == ins.deployment;
  }

  lemma ReserveSpare(s: State, ins: GroupInstance, d: Deployment)
    requires Enabled(s, Reserve(ins)) && HeldBySpare(s, SlotOf(ins), d)
    ensures Next(s, Reserve(ins)).SpareHolder(s.ident[ins.deployment].id)
  {
    assert s.pool == [s.pool[0]] + s.pool[1..];
  }

  lemma {:induction false} PoolSet(pool: seq<Deployment>)
    requires Distinct(pool)
    ensures |set d | d in pool| == |pool|
  {
    if pool != [] {
      var init, last := pool[..|pool| - 1], pool[|pool| - 1];
      assert pool == init + [last];
      PoolSet(init);
      assert (set d | d in pool) == (set d | d in init) + {last};
    }
  }

  /** Deployments with the ids 0 to n - 1 in order are a new scheduler. */
  lemma NewState(s: State, prefix: string, n: nat)
    requires s.table == map[] && s.slots == map[] && |s.pool| == n && s.ident.Keys == set d | d in s.pool
    requires forall j :: 0 <= j < n ==> s.ident[s.pool[j]] == Ident(j, Named(prefix, j))
    ensures Initial(s, prefix, n)
  {
    assert Distinct(s.pool);
    PoolSet(s.pool);
    assert |s.ident| == |s.ident.Keys|;
  }
}
