/**
 The two-level scheduler on the heap: the calls of the interface work on the schedulers of both
 levels, the storages of their ids, and the table of the sessions in flight, and do to the abstract
 state what the functions of Hierarchy say.
 */
module Schedulers {
  import opened Machine
  import opened Wfq
  import opened Pools
  import opened Flights
  import opened InFlights
  import opened Levels
  import opened Hierarchy

  datatype TenantRecord = TenantRecord(
    allocation: Allocation, level: Level, hasBacklog: bool, backlog: nat, flowBacklog: map<nat, nat>, era: nat)

  ghost function TenantOf(r: TenantRecord): Tenant
    requires r.level.Valid()
    reads r.level, r.level.repr
  {
    Tenant(r.allocation, r.level.View(), r.level.Pool(), r.hasBacklog, r.backlog, r.flowBacklog, r.era)
  }

  ghost predicate SameIds(h: Hier, k: Hier) {
    k.tenants.Keys == h.tenants.Keys && k.tenantPool == h.tenantPool
  }

  // No queued session starts at UINT64_MAX.
  ghost predicate StartsBelowMax(s: Sched) {
    forall x | x in s.queue :: x.start < U64_MAX
  }

  lemma TakeLeavesStarts(s: Sched, k: nat)
    requires StartsBelowMax(s) && k < |s.queue|
    ensures Take(s, k).queue == [] || MinStart(Take(s, k).queue) != U64_MAX
  {
    hide MinStart;
    var rest := Take(s, k).queue;
    MinStartIsLeast(rest);
    if rest != [] {
      assert rest[0] in s.queue;
    }
  }

  lemma SameTenant(h: Hier, t: nat)
    requires t in h.tenants
    ensures SetTenant(h, t, h.tenants[t]) == h
  {
    assert h.tenants[t := h.tenants[t]] == h.tenants;
  }

  // A flow is added in two steps: its id is taken, then it is configured.
  lemma AddFlowInSteps(h: Hier, t: nat, a: Allocation)
    requires t < h.config.maxTenants && ValidAllocation(a) && t in h.tenants
    requires !(h.config.maxTotalFlows > 0 && h.totalFlows >= h.config.maxTotalFlows)
    ensures var n := h.tenants[t]; var (pool, id) := Pools.Alloc(n.pool);
      var n1 := n.(pool := pool);
      var h1 := SetTenant(h, t, n1);
      && SameIds(h, h1) && h1.tenants[t] == n1 && SameIds(h, Hierarchy.AddFlow(h, t, a).0) &&
      if id.None? then pool == n.pool ==> Hierarchy.AddFlow(h, t, a) == (h1, NoMemory)
      else
        var c := Configure(n1.flows, id.value, a, true);
        Hierarchy.AddFlow(h, t, a) == (
          if c.1 != Success then SetTenant(h1, t, n1.(pool := Release(n1.pool, id.value), flows := c.0))
          else SetTenant(h1, t, n1.(flows := c.0)).(totalFlows := Wrap32(h1.totalFlows + 1)),
          c.1)
  {
    hide Configure, Pools.Alloc, Release;
    SameTenant(h, t);
    var n := h.tenants[t];
    var (pool, id) := Pools.Alloc(n.pool);
    if id.Some? {
      var c := Configure(n.flows, id.value, a, true);
      LastCounts(h.tenants, t, n.(pool := pool), n.(pool := Release(pool, id.value), flows := c.0));
      LastCounts(h.tenants, t, n.(pool := pool), n.(pool := pool, flows := c.0));
    }
  }

  lemma LastCounts(tenants: map<nat, Tenant>, t: nat, n: Tenant, n': Tenant)
    ensures tenants[t := n][t := n'] == tenants[t := n']
  {
  }

  // And a tenant is configured in three.
  lemma ConfigureTenantInSteps(h: Hier, t: nat, a: Allocation)
    requires t < h.config.maxTenants && ValidAllocation(a) && t in h.tenants
    requires !RateExceeds(h.allocatedRate, h.config.capacity, a, Some(h.tenants[t].allocation))
    ensures var n := h.tenants[t];
      var less := if n.allocation.Rate? then Wrap64(h.allocatedRate - n.allocation.rate) else h.allocatedRate;
      var h1 := h.(allocatedRate := if a.Rate? then Wrap64(less + a.rate) else less);
      var h2 := SetTenant(h1, t, n.(allocation := a));
      var h3 := h2.(system := Configure(h2.system, t, a, true).0);
      Hierarchy.ConfigureTenant(h, t, a) == (h3, Success) && h2.tenantPool == h.tenantPool && SameIds(h, h3)
  {
    hide Configure, RateExceeds, Wrap64;
  }

  lemma RefusedIsUnchanged(s: Sched, id: nat, a: Allocation)
    ensures Configure(s, id, a, true).1 != Success ==> Configure(s, id, a, true).0 == s
  {
  }

  lemma UnconfiguredIsGone(s: Sched, id: nat)
    requires id in s.entries ==> id < s.maxEntries
    ensures id !in Unconfigure(s, id).0.entries
  {
    hide RateFor, Without;
  }

  class Scheduler {
    const config: Config
    const binsPerGroup: nat
    const inFlight: InFlightTable
    const system: Level
    var tenants: map<nat, TenantRecord>
    var allocatedRate: nat
    var tenantCount: nat
    var totalFlows: nat
    // The contexts of all sessions accepted so far; a queued session holds its number.
    var contexts: seq<Context>
    // Tells apart the tenants that have had the same id.
    var eras: nat
    ghost var airborne: seq<Context>
    ghost var completed: set<nat>
    ghost var cancelled: set<nat>
    ghost var timedOut: seq<Context>
    // The objects of the table of the sessions in flight.
    ghost var air: set<object>

    // ---------- The objects of the scheduler ----------

    ghost function Footprint(): set<object>
      reads *
    {
      {this} + air + system.repr + set t, o | t in tenants && o in tenants[t].level.repr :: o
    }

    // What has come to the scheduler is new.
    twostate predicate Grown()
      reads *
    {
      forall o | o in Footprint() :: o in old(Footprint()) || fresh(o)
    }

    ghost predicate Aloft()
      reads this, inFlight
    {
      inFlight in air && inFlight.hash in air && forall n | n in inFlight.nodes :: n in air
    }

    // No object belongs to two of the parts.
    ghost predicate Apart()
      reads *
    {
      && this !in air && this !in system.repr && system in system.repr && system.repr !! air
      && (forall t | t in tenants ::
            && tenants[t].level in tenants[t].level.repr && this !in tenants[t].level.repr
            && tenants[t].level.repr !! air && tenants[t].level.repr !! system.repr)
      && forall t, u | t in tenants && u in tenants && t != u :: tenants[t].level.repr !! tenants[u].level.repr
    }

    // All of Valid but that the tenants are the live ids.
    ghost predicate Loose()
      reads *
    {
      && binsPerGroup > 0 && config.groups * binsPerGroup <= 32768
      && inFlight.Valid() && system.Valid() && (forall t | t in tenants :: tenants[t].level.Valid())
      && Aloft() && Apart() && |airborne| == |inFlight.nodes|
    }

    ghost predicate Valid()
      reads *
    {
      Loose() && tenants.Keys == Live(system.Pool())
    }

    ghost function TenantsView(): map<nat, Tenant>
      requires Loose()
      reads *
    {
      map t | t in tenants :: TenantOf(tenants[t])
    }

    ghost function View(): Hier
      requires Loose()
      reads *
    {
      Hier(config, TenantsView(), system.Pool(), system.View(), allocatedRate, tenantCount, totalFlows,
           inFlight.View(), inFlight.workSize, inFlight.count,
           eras, contexts, airborne, completed, cancelled, timedOut)
    }

    constructor (config: Config, binsPerGroup: nat)
      requires binsPerGroup > 0 && config.groups * binsPerGroup <= 32768
      ensures Valid() && fresh(Footprint()) && this.config == config && this.binsPerGroup == binsPerGroup
      ensures View() == Init(config)
    {
      hide InFlightTable.Valid, Level.Valid, Level.View, Level.Pool;
      this.config, this.binsPerGroup := config, binsPerGroup;
      inFlight := new InFlightTable();
      system := new Level(config.capacity, config.maxTenants, config.groups, binsPerGroup);
      tenants := map[];
      allocatedRate, tenantCount, totalFlows, contexts, eras := 0, 0, 0, [], 0;
      airborne, completed, cancelled, timedOut := [], {}, {}, [];
      new;
      air := {inFlight, inFlight.hash};
      FreshIsGood(config.maxTenants);
    }

    // ---------- When only one part changes ----------

    twostate lemma FlightsKept()
      requires old(inFlight.Valid()) && old(Aloft()) && forall o | o in old(air) :: unchanged(o)
      ensures inFlight.Valid() && inFlight.View() == old(inFlight.View()) && inFlight.nodes == old(inFlight.nodes)
    {
      hide InFlightTable.Valid, InFlightTable.View;
      assert forall i | 0 <= i < |inFlight.nodes| :: inFlight.nodes[i] in old(inFlight.nodes);
      inFlight.Undisturbed();
    }

    twostate lemma LevelsKept()
      requires old(Loose())
      ensures forall t | t in old(tenants) && (forall o | o in old(tenants[t].level.repr) :: unchanged(o)) ::
        var l := old(tenants[t]).level;
        l.repr == old(l.repr) && l.Valid() && l.View() == old(l.View()) && l.Pool() == old(l.Pool())
    {
      hide InFlightTable.Valid, Level.Valid, Level.View, Level.Pool;
    }

    twostate lemma SystemKept()
      requires old(Loose())
      requires forall o | o in old(system.repr) :: unchanged(o)
      ensures system.repr == old(system.repr) && system.Valid()
      ensures system.View() == old(system.View()) && system.Pool() == old(system.Pool())
    {
      hide InFlightTable.Valid, Level.Valid, Level.View, Level.Pool;
    }

    // Nothing but the level of tenant t has changed.
    twostate predicate Elsewhere(t: nat)
      requires old(Loose()) && t in old(tenants)
      reads *
    {
      && unchanged(this)
      && (forall o | o in old(air) :: unchanged(o))
      && (forall o | o in old(system.repr) :: unchanged(o))
      && forall u | u in old(tenants) && u != t :: forall o | o in old(tenants[u].level.repr) :: unchanged(o)
    }

    twostate lemma LevelStep(t: nat)
      requires old(Loose()) && t in old(tenants) && Elsewhere(t)
      requires tenants[t].level.Valid() && fresh(tenants[t].level.repr - old(tenants[t].level.repr))
      requires old(tenants[t].level.repr) <= tenants[t].level.repr
      ensures Loose() && Grown()
      ensures View() == SetTenant(old(View()), t, TenantOf(tenants[t]))
    {
      hide Level.Valid, Level.View, Level.Pool, InFlightTable.Valid, InFlightTable.View;
      FlightsKept();
      SystemKept();
      LevelsKept();
      assert TenantsView() == old(TenantsView())[t := TenantOf(tenants[t])];
    }

    // Nothing but the system level has changed.
    twostate predicate Below()
      requires old(Loose())
      reads *
    {
      && unchanged(this) && (forall o | o in old(air) :: unchanged(o))
      && forall u | u in old(tenants) :: forall o | o in old(tenants[u].level.repr) :: unchanged(o)
    }

    twostate lemma SystemStep()
      requires old(Loose()) && Below()
      requires system.Valid() && fresh(system.repr - old(system.repr)) && old(system.repr) <= system.repr
      ensures Loose() && Grown()
      ensures View() == old(View()).(system := system.View(), tenantPool := system.Pool())
    {
      hide Level.Valid, Level.View, Level.Pool, InFlightTable.Valid, InFlightTable.View;
      FlightsKept();
      LevelsKept();
      assert TenantsView() == old(TenantsView());
    }

    // Nothing but the table of the sessions in flight and the fields have changed.
    twostate predicate Grounded()
      requires old(Loose())
      reads *
    {
      && (forall o | o in old(system.repr) :: unchanged(o))
      && forall u | u in old(tenants) :: forall o | o in old(tenants[u].level.repr) :: unchanged(o)
    }

    // The fields of a tenant's record, with its flows as they are.
    function Recorded(n: Tenant, r: TenantRecord): Tenant {
      Tenant(r.allocation, n.flows, n.pool, r.hasBacklog, r.backlog, r.flowBacklog, r.era)
    }

    twostate lemma FieldStep()
      requires old(Loose()) && Grounded()
      requires inFlight.Valid() && Aloft() && fresh(air - old(air)) && old(air) <= air && |airborne| == |inFlight.nodes|
      requires forall t | t in tenants :: t in old(tenants) && tenants[t].level == old(tenants[t]).level
      ensures Loose() && Grown()
      ensures View().tenants.Keys == tenants.Keys && old(View()).tenants.Keys == old(tenants).Keys
      ensures forall t | t in old(tenants) ::
        old(View()).tenants[t] == Recorded(old(View()).tenants[t], old(tenants)[t])
      ensures forall t | t in tenants :: View().tenants[t] == Recorded(old(View()).tenants[t], tenants[t])
      ensures View() == Hier(config, View().tenants, old(View()).tenantPool, old(View()).system,
                             allocatedRate, tenantCount, totalFlows, inFlight.View(), inFlight.workSize, inFlight.count,
                             eras, contexts, airborne, completed, cancelled, timedOut)
    {
      hide Level.Valid, Level.View, Level.Pool, InFlightTable.Valid, InFlightTable.View;
      SystemKept();
      LevelsKept();
    }

    // Flights and fields have changed, but no tenant's record.
    twostate lemma FlightStep()
      requires old(Loose()) && Grounded() && tenants == old(tenants)
      requires inFlight.Valid() && Aloft() && fresh(air - old(air)) && old(air) <= air && |airborne| == |inFlight.nodes|
      ensures Loose() && Grown()
      ensures View() == Hier(config, old(View()).tenants, old(View()).tenantPool, old(View()).system,
                             allocatedRate, tenantCount, totalFlows, inFlight.View(), inFlight.workSize, inFlight.count,
                             eras, contexts, airborne, completed, cancelled, timedOut)
    {
      hide Grounded, Loose, TenantsView, Footprint, Aloft, InFlightTable.Valid;
      FieldStep();
      assert View().tenants == old(View()).tenants;
    }

    // Only the fields have changed.
    twostate lemma RecordStep()
      requires old(Loose()) && Grounded() && (forall o | o in old(air) :: unchanged(o))
      requires air == old(air) && airborne == old(airborne)
      requires forall t | t in tenants :: t in old(tenants) && tenants[t].level == old(tenants[t]).level
      ensures Loose() && Grown()
      ensures View().tenants.Keys == tenants.Keys && old(View()).tenants.Keys == old(tenants).Keys
      ensures forall t | t in old(tenants) ::
        old(View()).tenants[t] == Recorded(old(View()).tenants[t], old(tenants)[t])
      ensures forall t | t in tenants :: View().tenants[t] == Recorded(old(View()).tenants[t], tenants[t])
      ensures View() == old(View()).(tenants := View().tenants, allocatedRate := allocatedRate,
                                     tenantCount := tenantCount, totalFlows := totalFlows, eras := eras,
                                     contexts := contexts, completed := completed, cancelled := cancelled,
                                     timedOut := timedOut)
    {
      hide Grounded, Level.Valid, Level.View, Level.Pool, InFlightTable.Valid, InFlightTable.View;
      FlightsKept();
      FieldStep();
    }

    // Tenant t has left.
    twostate lemma DepartureStep(t: nat)
      requires old(Loose()) && Grounded() && (forall o | o in old(air) :: unchanged(o))
      requires unchanged(this`eras, this`contexts, this`completed, this`cancelled, this`timedOut, this`air,
                         this`airborne)
      requires tenants == old(tenants) - {t}
      ensures Loose() && Grown()
      ensures View() == old(View()).(tenants := old(View()).tenants - {t}, allocatedRate := allocatedRate,
                                     tenantCount := tenantCount, totalFlows := totalFlows)
    {
      hide Grounded, Loose, TenantsView, Footprint;
      RecordStep();
      assert View().tenants == old(View()).tenants - {t};
    }

    // Only the record of tenant t has changed.
    twostate lemma OneRecord(t: nat)
      requires old(Loose()) && Grounded() && (forall o | o in old(air) :: unchanged(o))
      requires unchanged(this`allocatedRate, this`tenantCount, this`totalFlows, this`eras, this`contexts,
                         this`completed, this`cancelled, this`timedOut, this`air, this`airborne)
      requires t in old(tenants) && t in tenants && tenants == old(tenants)[t := tenants[t]]
      requires tenants[t].level == old(tenants[t]).level
      ensures Loose() && Grown() && t in old(View()).tenants
      ensures View() == SetTenant(old(View()), t, Recorded(old(View()).tenants[t], tenants[t]))
    {
      hide Grounded, Loose, TenantsView, Footprint, Recorded;
      RecordStep();
      assert View().tenants == old(View()).tenants[t := Recorded(old(View()).tenants[t], tenants[t])];
    }

    // A tenant with a new level has come.
    twostate predicate Arrived(t: nat)
      requires old(Loose())
      reads *
    {
      && Grounded() && (forall o | o in old(air) :: unchanged(o))
      && unchanged(this`totalFlows, this`contexts, this`completed, this`cancelled, this`timedOut, this`air,
                   this`airborne)
      && t !in old(tenants) && t in tenants && tenants == old(tenants)[t := tenants[t]]
      && tenants[t].level.Valid() && tenants[t].level in tenants[t].level.repr && fresh(tenants[t].level.repr)
    }

    twostate lemma ArrivalKeeps(t: nat)
      requires old(Loose()) && Arrived(t)
      ensures Loose() && Grown()
    {
      hide Level.Valid, Level.View, Level.Pool, InFlightTable.Valid, InFlightTable.View;
      FlightsKept();
      SystemKept();
      LevelsKept();
    }

    twostate lemma ArrivalStep(t: nat)
      requires old(Loose()) && Arrived(t)
      ensures Loose() && Grown()
      ensures View() == old(View()).(tenants := old(View()).tenants[t := TenantOf(tenants[t])],
                                     allocatedRate := allocatedRate, tenantCount := tenantCount, eras := eras)
    {
      hide Footprint, Apart, Level.Valid, Level.View, Level.Pool, InFlightTable.Valid, InFlightTable.View;
      ArrivalKeeps(t);
      FlightsKept();
      SystemKept();
      LevelsKept();
      assert TenantsView() == old(TenantsView())[t := TenantOf(tenants[t])];
    }

    // What the fields say of the abstract state.
    lemma Fields()
      requires Loose()
      ensures View().config == config && View().contexts == contexts && View().airborne == airborne
      ensures View().inFlight == inFlight.View() && View().inFlightWork == inFlight.workSize
      ensures View().allocatedRate == allocatedRate && View().totalFlows == totalFlows
        && View().tenantCount == tenantCount
      ensures View().system == system.View() && View().tenantPool == system.Pool() && View().eras == eras
      ensures View().tenants.Keys == tenants.Keys && this in Footprint()
      ensures |inFlight.View()| == |airborne|
      ensures Valid() <==> View().tenants.Keys == Live(View().tenantPool)
    {
      hide InFlightTable.Valid, Level.Valid, Level.View, Level.Pool, Live;
    }

    // And what the tenants' records say.
    lemma Records()
      requires Loose()
      ensures View().tenants.Keys == tenants.Keys
      ensures forall t | t in tenants :: View().tenants[t] == Recorded(View().tenants[t], tenants[t])
    {
      hide InFlightTable.Valid, Level.Valid, Level.View, Level.Pool, Live;
    }

    // ---------- Calls of one level ----------

    method SystemEnqueue(t: nat) returns (status: Status)
      requires Loose()
      modifies Footprint()
      ensures Loose() && Grown()
      ensures status == EnqueueStatus(old(View()).system, t, TENANT_QUANTUM)
      ensures View() == if status == Success
        then old(View()).(system := Wfq.Enqueue(old(View()).system, t, TENANT_QUANTUM, t)) else old(View())
    {
      hide EnqueueStatus, Wfq.Enqueue, Level.Valid, Level.View, Level.Pool, InFlightTable.Valid, InFlightTable.View;
      status := system.Enqueue(t, TENANT_QUANTUM, t);
      SystemStep();
    }

    method SystemDequeue() returns (x: Option<Session>, ghost i: nat)
      requires Loose()
      modifies Footprint()
      ensures Loose() && Grown()
      ensures x.None? ==>
        CanServeNone(old(View()).system) && View() == old(View()).(system := TakeNone(old(View()).system))
      ensures x.Some? ==>
        && CanServe(old(View()).system, i) && i < |old(View()).system.queue| && x.value == old(View()).system.queue[i]
        && View() == old(View()).(system := Take(old(View()).system, i))
    {
      hide Take, TakeNone, CanServe, CanServeNone, Level.Valid, Level.View, Level.Pool, InFlightTable.Valid,
           InFlightTable.View;
      x, i := system.Dequeue();
      SystemStep();
    }

    method SystemUpdate(work: nat)
      requires Loose() && (View().system.queue == [] || MinStart(View().system.queue) != U64_MAX)
      modifies Footprint()
      ensures Loose() && Grown()
      ensures View() == old(View()).(system := Update(old(View()).system, work))
    {
      hide Update, MinStart, Level.Valid, Level.View, Level.Pool, InFlightTable.Valid, InFlightTable.View;
      system.Update(work);
      SystemStep();
    }

    method SystemConfigure(id: nat, a: Allocation) returns (status: Status)
      requires Loose() && id in Live(View().tenantPool)
      modifies Footprint()
      ensures Loose() && Grown()
      ensures (View(), status) == (old(View()).(system := Configure(old(View()).system, id, a, true).0),
                                   Configure(old(View()).system, id, a, true).1)
    {
      hide Configure, Live, Level.Valid, Level.View, Level.Pool, InFlightTable.Valid, InFlightTable.View;
      status := system.Configure(id, a);
      SystemStep();
    }

    method FlowEnqueue(t: nat, f: nat, work: nat, data: nat) returns (status: Status)
      requires Loose() && t in tenants
      modifies Footprint()
      ensures Loose() && Grown() && t in old(View()).tenants
      ensures var h, n := old(View()), old(View()).tenants[t];
        && status == EnqueueStatus(n.flows, f, work)
        && View() == if status == Success
          then SetTenant(h, t, n.(flows := Wfq.Enqueue(n.flows, f, work, data))) else h
    {
      hide EnqueueStatus, Wfq.Enqueue, Level.Valid, Level.View, Level.Pool, InFlightTable.Valid, InFlightTable.View;
      status := tenants[t].level.Enqueue(f, work, data);
      LevelStep(t);
    }

    method FlowDequeue(t: nat) returns (x: Option<Session>, ghost j: nat)
      requires Loose() && t in tenants
      modifies Footprint()
      ensures Loose() && Grown() && t in old(View()).tenants
      ensures var h, n := old(View()), old(View()).tenants[t];
        && (x.None? ==> CanServeNone(n.flows) && View() == SetTenant(h, t, n.(flows := TakeNone(n.flows))))
        && (x.Some? ==>
              && CanServe(n.flows, j) && j < |n.flows.queue| && x.value == n.flows.queue[j]
              && View() == SetTenant(h, t, n.(flows := Take(n.flows, j))))
    {
      hide Take, TakeNone, CanServe, CanServeNone, Level.Valid, Level.View, Level.Pool, InFlightTable.Valid,
           InFlightTable.View;
      x, j := tenants[t].level.Dequeue();
      LevelStep(t);
    }

    method SystemAlloc() returns (status: Status, id: nat)
      requires Loose()
      modifies Footprint()
      ensures Loose() && Grown()
      ensures var (pool, k) := Pools.Alloc(old(View()).tenantPool);
        View() == old(View()).(tenantPool := pool) && k == if status == Success then Some(id) else None
      ensures status == Success || status == NoMemory
    {
      hide Pools.Alloc, Level.Valid, Level.View, Level.Pool, InFlightTable.Valid, InFlightTable.View;
      status, id := system.Alloc();
      SystemStep();
    }

    method SystemFree(id: nat)
      requires Loose() && id in Live(View().tenantPool) && id !in View().system.entries
      modifies Footprint()
      ensures Loose() && Grown()
      ensures View() == old(View()).(tenantPool := Release(old(View()).tenantPool, id))
    {
      hide Live, Release, Level.Valid, Level.View, Level.Pool, InFlightTable.Valid, InFlightTable.View;
      system.Free(id);
      SystemStep();
    }

    method SystemRemove(id: nat) returns (status: Status)
      requires Loose()
      modifies Footprint()
      ensures Loose() && Grown()
      ensures View() == old(View()).(system := Unconfigure(old(View()).system, id).0)
    {
      hide Unconfigure, Level.Valid, Level.View, Level.Pool, InFlightTable.Valid, InFlightTable.View;
      status := system.Remove(id);
      SystemStep();
    }

    method FlowUpdate(t: nat, work: nat)
      requires Loose() && t in tenants && t in View().tenants
      requires View().tenants[t].flows.queue == [] || MinStart(View().tenants[t].flows.queue) != U64_MAX
      modifies Footprint()
      ensures Loose() && Grown()
      ensures var h, n := old(View()), old(View()).tenants[t];
        View() == SetTenant(h, t, n.(flows := Update(n.flows, work)))
    {
      hide Update, MinStart, Level.Valid, Level.View, Level.Pool, InFlightTable.Valid, InFlightTable.View;
      tenants[t].level.Update(work);
      LevelStep(t);
    }

    method FlowConfigure(t: nat, f: nat, a: Allocation) returns (status: Status)
      requires Loose() && t in tenants && t in View().tenants && f in Live(View().tenants[t].pool)
      modifies Footprint()
      ensures Loose() && Grown()
      ensures var h, n, c := old(View()), old(View()).tenants[t], Configure(old(View()).tenants[t].flows, f, a, true);
        View() == SetTenant(h, t, n.(flows := c.0)) && status == c.1
    {
      hide Configure, Live, Level.Valid, Level.View, Level.Pool, InFlightTable.Valid, InFlightTable.View;
      status := tenants[t].level.Configure(f, a);
      LevelStep(t);
    }

    method FlowRemove(t: nat, f: nat) returns (status: Status)
      requires Loose() && t in tenants && t in View().tenants
      modifies Footprint()
      ensures Loose() && Grown()
      ensures var h, n := old(View()), old(View()).tenants[t];
        View() == SetTenant(h, t, n.(flows := Unconfigure(n.flows, f).0))
    {
      hide Unconfigure, Level.Valid, Level.View, Level.Pool, InFlightTable.Valid, InFlightTable.View;
      status := tenants[t].level.Remove(f);
      LevelStep(t);
    }

    method FlowAlloc(t: nat) returns (status: Status, id: nat)
      requires Loose() && t in tenants && t in View().tenants
      modifies Footprint()
      ensures Loose() && Grown()
      ensures var h, n, c := old(View()), old(View()).tenants[t], Pools.Alloc(old(View()).tenants[t].pool);
        View() == SetTenant(h, t, n.(pool := c.0)) && c.1 == if status == Success then Some(id) else None
      ensures status == Success || status == NoMemory
    {
      hide Pools.Alloc, Level.Valid, Level.View, Level.Pool, InFlightTable.Valid, InFlightTable.View;
      status, id := tenants[t].level.Alloc();
      LevelStep(t);
    }

    method FlowFree(t: nat, f: nat)
      requires Loose() && t in tenants && t in View().tenants
      requires f in Live(View().tenants[t].pool) && f !in View().tenants[t].flows.entries
      modifies Footprint()
      ensures Loose() && Grown()
      ensures var h, n := old(View()), old(View()).tenants[t];
        View() == SetTenant(h, t, n.(pool := Release(n.pool, f)))
    {
      hide Live, Release, Level.Valid, Level.View, Level.Pool, InFlightTable.Valid, InFlightTable.View;
      tenants[t].level.Free(f);
      LevelStep(t);
    }

    // ---------- Questions about one level ----------

    method HasFlow(t: nat, f: nat) returns (found: bool)
      requires Loose() && t in tenants
      ensures t in View().tenants && found == (f in View().tenants[t].flows.entries)
    {
      hide Level.Valid, Level.View, Level.Pool, InFlightTable.Valid, InFlightTable.View;
      found := tenants[t].level.Has(f);
    }

    method NoSessions(t: nat) returns (empty: bool)
      requires Loose() && t in tenants
      ensures t in View().tenants && empty == (View().tenants[t].flows.queue == [])
    {
      hide Level.Valid, Level.View, Level.Pool, InFlightTable.Valid, InFlightTable.View;
      empty := tenants[t].level.IsEmpty();
    }

    method FlowCount(t: nat) returns (n: nat)
      requires Loose() && t in tenants
      ensures t in View().tenants && n == View().tenants[t].pool.configured
    {
      hide Level.Valid, Level.View, Level.Pool, InFlightTable.Valid, InFlightTable.View;
      n := tenants[t].level.Count();
    }

    lemma FlowsAreLive(t: nat)
      requires Loose() && t in tenants
      ensures t in View().tenants
      ensures var n := View().tenants[t];
        forall f | f in n.flows.entries :: f in Live(n.pool) && f < n.flows.maxEntries
    {
      hide Live, Level.Valid, Level.View, Level.Pool, InFlightTable.Valid, InFlightTable.View;
      tenants[t].level.EntriesAreLive();
    }

    // ---------- Fields ----------

    method SetRecord(t: nat, r: TenantRecord)
      requires Loose() && t in tenants && r.level == tenants[t].level
      modifies Footprint()
      ensures Loose() && Grown() && t in old(View()).tenants
      ensures View() == SetTenant(old(View()), t, Recorded(old(View()).tenants[t], r))
    {
      hide Recorded, Level.Valid, Level.View, Level.Pool, InFlightTable.Valid, InFlightTable.View;
      tenants := tenants[t := r];
      OneRecord(t);
    }

    method SetTotals(rate: nat, count: nat, flows: nat)
      requires Loose()
      modifies Footprint()
      ensures Loose() && Grown()
      ensures View() == old(View()).(allocatedRate := rate, tenantCount := count, totalFlows := flows)
    {
      hide Level.Valid, Level.View, Level.Pool, InFlightTable.Valid, InFlightTable.View;
      allocatedRate, tenantCount, totalFlows := rate, count, flows;
      FlightStep();
    }

    // Enters a session in the table.
    method TakeOff(x: Context, now: nat)
      requires Loose()
      modifies `airborne, `air, inFlight.hash, inFlight, inFlight.nodes
      ensures Grounded() && inFlight.Valid() && Aloft() && |airborne| == |inFlight.nodes|
      ensures fresh(air - old(air)) && old(air) <= air && airborne == old(airborne) + [x]
      ensures inFlight.View() == old(inFlight.View()) + [Flight(x.tenant, x.flow, x.work, x.data, now, x.timeout)]
      ensures inFlight.workSize == Wrap64(old(inFlight.workSize) + x.work)
      ensures inFlight.count == Wrap32(old(inFlight.count) + 1)
    {
      hide Wrap64, Wrap32, Level.Valid, Level.View, Level.Pool, InFlightTable.Valid, InFlightTable.View;
      inFlight.Insert(Flight(x.tenant, x.flow, x.work, x.data, now, x.timeout));
      airborne := airborne + [x];
      air := air + {inFlight.nodes[|inFlight.nodes| - 1]};
    }

    method Launch(x: Context, now: nat)
      requires Loose()
      modifies Footprint()
      ensures Loose() && Grown()
      ensures var h := old(View());
        View() == h.(inFlight := h.inFlight + [Flight(x.tenant, x.flow, x.work, x.data, now, x.timeout)],
                     inFlightWork := Wrap64(h.inFlightWork + x.work), inFlightCount := Wrap32(h.inFlightCount + 1),
                     airborne := h.airborne + [x])
    {
      hide Wrap64, Wrap32, Grounded, Level.Valid, Level.View, Level.Pool, InFlightTable.Valid, InFlightTable.View;
      Fields();
      TakeOff(x, now);
      FlightStep();
    }

    // ---------- Sessions ----------

    // Queues a tenant in the system scheduler, if it is not queued there already.
    method Register(t: nat)
      requires Loose() && t in tenants
      modifies Footprint()
      ensures Loose() && Grown()
      ensures t in old(View()).tenants && View() == Hierarchy.Register(old(View()), t)
      ensures SameIds(old(View()), View())
    {
      hide EnqueueStatus, Wfq.Enqueue, Loose, Footprint, View, TenantsView;
      Fields();
      Records();
      if !tenants[t].hasBacklog {
        var status := SystemEnqueue(t);
        if status == Success {
          Fields();
          Records();
          SetRecord(t, tenants[t].(hasBacklog := true));
        }
      }
    }

    // Counts in a session that its flow has queued.
    method CountIn(t: nat, x: Context)
      requires Loose() && t in tenants
      modifies Footprint()
      ensures Loose() && Grown()
      ensures t in old(View()).tenants && var h, n := old(View()), old(View()).tenants[t];
        View() == SetTenant(h, t, n.(backlog := Wrap32(n.backlog + 1),
                                     flowBacklog := n.flowBacklog[x.flow := Wrap32(FlowBacklog(n, x.flow) + 1)])).(
          contexts := h.contexts + [x])
    {
      hide Wrap32, Loose, Footprint, View, TenantsView;
      Fields();
      Records();
      var r := tenants[t];
      var count := if x.flow in r.flowBacklog then r.flowBacklog[x.flow] else 0;
      SetRecord(t, r.(backlog := Wrap32(r.backlog + 1), flowBacklog := r.flowBacklog[x.flow := Wrap32(count + 1)]));
      AddContext(x);
    }

    method AddContext(x: Context)
      requires Loose()
      modifies Footprint()
      ensures Loose() && Grown()
      ensures View() == old(View()).(contexts := old(View()).contexts + [x])
    {
      hide Level.Valid, Level.View, Level.Pool, InFlightTable.Valid, InFlightTable.View;
      contexts := contexts + [x];
      FlightStep();
    }

    // Queues a session with its flow and counts it in, if the scheduler of the flows accepts it.
    method Accept(t: nat, x: Context) returns (status: Status)
      requires Loose() && t in tenants
      modifies Footprint()
      ensures Loose() && Grown() && t in old(View()).tenants
      ensures var h, n := old(View()), old(View()).tenants[t];
        && status == EnqueueStatus(n.flows, x.flow, x.work)
        && View() == if status == Success
          then SetTenant(h, t, Submit(n, x.flow, x.work, x.serial)).(contexts := h.contexts + [x]) else h
    {
      hide EnqueueStatus, Wfq.Enqueue, Wrap32, Loose, Footprint, View, TenantsView;
      status := FlowEnqueue(t, x.flow, x.work, x.serial);
      Fields();
      if status == Success {
        CountIn(t, x);
      }
    }

    method Enqueue(t: nat, f: nat, work: nat, data: nat, timeout: nat) returns (status: Status)
      requires Valid()
      modifies Footprint()
      ensures Valid() && Grown()
      ensures (View(), status) == Hierarchy.Enqueue(old(View()), t, f, work, data, timeout)
    {
      hide EnqueueStatus, Submit, Hierarchy.Register, Loose, Footprint, View, TenantsView;
      Fields();
      Records();
      if work == 0 || t >= config.maxTenants || f == RESERVED_FLOW {
        status := InvalidArg;
      } else if t !in tenants {
        status := NotFound;
      } else {
        var found := HasFlow(t, f);
        if !found {
          status := NotFound;
        } else {
          var x := Context(|contexts|, t, tenants[t].era, f, work, data, timeout);
          status := Accept(t, x);
          Fields();
          if status == Success {
            Register(t);
            Fields();
          }
        }
      }
    }

    // ---------- Dequeue ----------

    // A session that does not fit goes back: first its tenant, then the session itself.
    method PutBack(t: nat, x: Context)
      requires Loose() && t in tenants
      modifies Footprint()
      ensures Loose() && Grown() && t in old(View()).tenants
      ensures View() == Hierarchy.PutBack(old(View()), t, x) && SameIds(old(View()), View())
    {
      hide EnqueueStatus, Wfq.Enqueue, Hierarchy.Register, Loose, Footprint, View, TenantsView;
      Fields();
      Register(t);
      Fields();
      var status := FlowEnqueue(t, x.flow, x.work, x.serial);
    }

    // A session leaves its flow for the table of the sessions in flight.
    method Depart(t: nat, x: Context, now: nat)
      requires Loose() && t in tenants && t in View().tenants
      requires View().tenants[t].flows.queue == [] || MinStart(View().tenants[t].flows.queue) != U64_MAX
      modifies Footprint()
      ensures Loose() && Grown() && SameIds(old(View()), View()) && t in tenants
      ensures var h := old(View());
        View() == SetTenant(h, t, h.tenants[t].(flows := Update(h.tenants[t].flows, x.work))).(
          inFlight := h.inFlight + [Flight(x.tenant, x.flow, x.work, x.data, now, x.timeout)],
          inFlightWork := Wrap64(h.inFlightWork + x.work),
          inFlightCount := Wrap32(h.inFlightCount + 1),
          airborne := h.airborne + [x])
    {
      hide Update, MinStart, Wrap64, Wrap32, Loose, Footprint, View, TenantsView;
      FlowUpdate(t, x.work);
      Launch(x, now);
      Fields();
    }

    // A session leaves for its caller.
    method HandOut(t: nat, x: Context, now: nat)
      requires Loose() && t in tenants && t in View().tenants
      requires View().tenants[t].flows.queue == [] || MinStart(View().tenants[t].flows.queue) != U64_MAX
      modifies Footprint()
      ensures Loose() && Grown()
      ensures View() == Hierarchy.HandOut(old(View()), t, x, now) && SameIds(old(View()), View())
    {
      hide Update, MinStart, Hierarchy.Register, Wrap64, Wrap32, Loose, Footprint, View, TenantsView;
      Depart(t, x, now);
      var empty := NoSessions(t);
      if !empty {
        Register(t);
      }
    }

    // The tenant's scheduler chooses; its session is handed out or put back.
    method ServeFlow(t: nat, now: nat) returns (answer: Answer, ghost j: Option<nat>)
      requires Loose() && t in tenants && t in View().tenants
      requires StartsBelowMax(View().tenants[t].flows)
      modifies Footprint()
      ensures Loose() && Grown()
      ensures MayChooseFlow(old(View()).tenants[t].flows, j)
      ensures j.Some? ==> j.value < |old(View()).tenants[t].flows.queue|
      ensures (View(), answer) == Hierarchy.ServeFlow(old(View()), t, j, now) && SameIds(old(View()), View())
    {
      hide Take, TakeNone, CanServe, CanServeNone, MinStart, Hierarchy.PutBack, Hierarchy.HandOut;
      hide StartsBelowMax, Loose, Footprint, View, TenantsView;
      ghost var s := View().tenants[t].flows;
      var x;
      ghost var k;
      x, k := FlowDequeue(t);
      Fields();
      answer := Answer(Internal, None);
      if x.None? {
        j := None;
      } else {
        j := Some(k);
        if x.value.data < |contexts| {
          TakeLeavesStarts(s, k);
          var c := contexts[x.value.data];
          if config.capacity > 0 && Wrap64(inFlight.workSize + c.work) > config.capacity {
            PutBack(t, c);
            answer := Answer(NoWork, None);
          } else {
            HandOut(t, c, now);
            answer := Answer(Success, Some(c));
          }
        }
      }
    }

    // Takes the next session: first the tenant, then its flow. No queued session may start at
    // UINT64_MAX, which the cached least start cannot tell from an empty queue.
    method Dequeue(now: nat) returns (answer: Answer, ghost i: Option<nat>, ghost j: Option<nat>)
      requires Valid() && StartsBelowMax(View().system)
      requires forall t | t in View().tenants :: StartsBelowMax(View().tenants[t].flows)
      modifies Footprint()
      ensures Valid() && Grown() && MayChoose(old(View()), i, j)
      ensures (View(), answer) == Hierarchy.Dequeue(old(View()), i, j, now)
    {
      hide Take, TakeNone, Update, CanServe, CanServeNone, MinStart, Hierarchy.ServeFlow;
      hide StartsBelowMax, MayChooseFlow, Loose, Footprint, View, TenantsView;
      ghost var s := View().system;
      Fields();
      i, j := None, None;
      var x;
      ghost var k;
      x, k := SystemDequeue();
      Fields();
      if x.None? {
        answer := Answer(NoWork, None);
      } else {
        i := Some(k);
        TakeLeavesStarts(s, k);
        answer := Answer(Internal, None);
        if x.value.data in tenants {
          answer, j := ServeTenant(x.value, now);
          Fields();
        }
      }
    }

    // The system scheduler has chosen session x, of a tenant.
    method ServeTenant(x: Session, now: nat) returns (answer: Answer, ghost j: Option<nat>)
      requires Loose() && x.data in tenants && x.data in View().tenants
      requires StartsBelowMax(View().tenants[x.data].flows)
      requires View().system.queue == [] || MinStart(View().system.queue) != U64_MAX
      modifies Footprint()
      ensures Loose() && Grown()
      ensures MayChooseFlow(old(View()).tenants[x.data].flows, j)
      ensures j.Some? ==> j.value < |old(View()).tenants[x.data].flows.queue|
      ensures SameIds(old(View()), View())
      ensures var h, t := old(View()), x.data;
        (View(), answer) == Hierarchy.ServeFlow(
          SetTenant(h, t, h.tenants[t].(hasBacklog := false)).(system := Update(h.system, x.work)), t, j, now)
    {
      hide Update, MinStart, Hierarchy.ServeFlow, StartsBelowMax, MayChooseFlow, Loose, Footprint, View, TenantsView;
      Fields();
      Records();
      SetRecord(x.data, tenants[x.data].(hasBacklog := false));
      SystemUpdate(x.work);
      Fields();
      answer, j := ServeFlow(x.data, now);
    }

    // ---------- Completion, cancellation and timeouts ----------

    // The flight that a completion or a cancellation means.
    method Lookup(data: nat, t: nat, f: nat) returns (found: FlightNode?)
      requires Loose()
      ensures |View().inFlight| == |View().airborne| == |inFlight.nodes|
      ensures var k := Find(View().inFlight, data, t, f);
        && (found == null <==> k.None?)
        && (k.Some? ==> k.value < |inFlight.nodes| && inFlight.nodes[k.value] == found)
    {
      hide Find, InFlightTable.Valid, Level.Valid, Level.View, Level.Pool;
      FoundInRange(View().inFlight, data, t, f);
      found := inFlight.Lookup(data, t, f);
    }

    lemma FoundInRange(fs: seq<Flight>, data: nat, t: nat, f: nat)
      ensures Find(fs, data, t, f).Some? ==> Find(fs, data, t, f).value < |fs|
    {
      LastMatchIs(fs, data, t, f);
      FirstOfIs(fs, t, f);
    }

    // Takes an entry out of the table.
    method TakeOut(entry: FlightNode, ghost k: nat)
      requires Loose() && k < |inFlight.nodes| && inFlight.nodes[k] == entry
      modifies `airborne, inFlight.hash, inFlight, inFlight.nodes
      ensures Grounded() && inFlight.Valid() && Aloft() && |airborne| == |inFlight.nodes|
      ensures k < |old(airborne)| && airborne == RemoveAt(old(airborne), k)
      ensures inFlight.View() == RemoveAt(old(inFlight.View()), k)
      ensures inFlight.workSize == Wrap64(old(inFlight.workSize) - entry.flight.work)
      ensures inFlight.count == Wrap32(old(inFlight.count) - 1)
    {
      hide Wrap64, Wrap32, Level.Valid, Level.View, Level.Pool, InFlightTable.Valid, InFlightTable.View;
      RemovedMembers(inFlight.nodes, k);
      inFlight.Remove(entry, k);
      airborne := RemoveAt(airborne, k);
    }

    lemma RemovedMembers(ns: seq<FlightNode>, k: nat)
      requires k < |ns|
      ensures forall n | n in RemoveAt(ns, k) :: n in ns
    {
    }

    // Takes the k-th flight out.
    method Land(entry: FlightNode, ghost k: nat)
      requires Loose() && k < |inFlight.nodes| && inFlight.nodes[k] == entry
      modifies Footprint()
      ensures Loose() && Grown() && k < |old(View()).inFlight| && k < |old(View()).airborne|
      ensures View() == Hierarchy.Land(old(View()), k)
    {
      hide Wrap64, Wrap32, Grounded, Level.Valid, Level.View, Level.Pool, InFlightTable.Valid;
      assert Flown(inFlight.nodes)[k] == entry.flight;
      Fields();
      TakeOut(entry, k);
      FlightStep();
    }

    // Counts a session out of the backlogs of its tenant and flow.
    method CountOutOf(t: nat, f: nat)
      requires Loose()
      modifies Footprint()
      ensures Loose() && Grown()
      ensures View() == Hierarchy.CountOutOf(old(View()), t, f) && SameIds(old(View()), View())
    {
      hide Loose, Footprint, View, TenantsView;
      Fields();
      Records();
      if t < config.maxTenants && t in tenants {
        var r := tenants[t];
        if r.backlog > 0 {
          r := r.(backlog := r.backlog - 1);
        }
        var found := HasFlow(t, f);
        if found {
          var count := if f in r.flowBacklog then r.flowBacklog[f] else 0;
          r := r.(flowBacklog := r.flowBacklog[f := Minus(count, 1)]);
        }
        SetRecord(t, r);
      }
    }

    method Completed(ghost serial: nat)
      requires Loose()
      modifies Footprint()
      ensures Loose() && Grown()
      ensures View() == old(View()).(completed := old(View()).completed + {serial})
    {
      hide Level.Valid, Level.View, Level.Pool, InFlightTable.Valid, InFlightTable.View;
      completed := completed + {serial};
      FlightStep();
    }

    method Cancelled(ghost serial: nat)
      requires Loose()
      modifies Footprint()
      ensures Loose() && Grown()
      ensures View() == old(View()).(cancelled := old(View()).cancelled + {serial})
    {
      hide Level.Valid, Level.View, Level.Pool, InFlightTable.Valid, InFlightTable.View;
      cancelled := cancelled + {serial};
      FlightStep();
    }

    method Complete(data: nat, t: nat, f: nat) returns (status: Status)
      requires Valid()
      modifies Footprint()
      ensures Valid() && Grown()
      ensures (View(), status) == Hierarchy.Complete(old(View()), data, t, f)
    {
      hide Find, Hierarchy.Register, CountOut, Loose, Footprint, View, TenantsView;
      Fields();
      ghost var k := Find(View().inFlight, data, t, f);
      var found := Lookup(data, t, f);
      if found == null {
        status := NotFound;
      } else {
        ghost var serial := airborne[k.value].serial;
        Land(found, k.value);
        CountOutOf(t, f);
        Completed(serial);
        Fields();
        if t < config.maxTenants && t in tenants {
          var empty := NoSessions(t);
          if !empty {
            Register(t);
            Fields();
          }
        }
        status := Success;
      }
    }

    method Cancel(data: nat, t: nat, f: nat) returns (status: Status)
      requires Valid()
      modifies Footprint()
      ensures Valid() && Grown()
      ensures (View(), status) == Hierarchy.Cancel(old(View()), data, t, f)
    {
      hide Find, CountOut, Loose, Footprint, View, TenantsView;
      Fields();
      ghost var k := Find(View().inFlight, data, t, f);
      var found := Lookup(data, t, f);
      if found == null {
        status := NotFound;
      } else {
        ghost var serial := airborne[k.value].serial;
        Land(found, k.value);
        CountOutOf(t, f);
        Cancelled(serial);
        Fields();
        status := Success;
      }
    }

    lemma InFlightCounters()
      requires inFlight.Valid()
      ensures inFlight.workSize == Wrap64(WorkOf(inFlight.View())) && inFlight.count == Wrap32(|inFlight.View()|)
    {
    }

    lemma {:induction false} SweepLengths(fs: seq<Flight>, xs: seq<Context>, now: nat)
      requires |fs| == |xs|
      ensures |Staying(fs, xs, now)| == |Kept(fs, now)| && |Kept(fs, now)| + |Expired(fs, now)| == |fs|
    {
      if fs != [] {
        SweepLengths(fs[..|fs| - 1], xs[..|xs| - 1], now);
      }
    }

    lemma SweepCounters(fs: seq<Flight>, xs: seq<Context>, now: nat)
      requires |fs| == |xs|
      ensures Wrap64(WorkOf(Kept(fs, now))) == Wrap64(Wrap64(WorkOf(fs)) - WorkOf(Expired(fs, now)))
      ensures Wrap32(|Kept(fs, now)|) == Wrap32(Wrap32(|fs|) - |Expired(fs, now)|)
    {
      hide Wrap64, Wrap32;
      SweepLengths(fs, xs, now);
      ExpiryPartitionsWork(fs, now);
      WrapAdd(WorkOf(fs), -(WorkOf(Expired(fs, now)) as int));
      WrapAdd(|fs|, -(|Expired(fs, now)| as int));
    }

    // Takes every entry that has timed out from the table.
    method SweepOut(now: nat) returns (timeouts: nat, ghost out: seq<FlightNode>)
      requires Loose()
      modifies `airborne, `timedOut, inFlight.hash, inFlight, inFlight.nodes
      ensures Grounded() && inFlight.Valid() && Aloft() && |airborne| == |inFlight.nodes|
      ensures |old(inFlight.View())| == |old(airborne)|
      ensures airborne == Staying(old(inFlight.View()), old(airborne), now)
      ensures timedOut == old(timedOut) + Leaving(old(inFlight.View()), old(airborne), now)
      ensures inFlight.View() == Kept(old(inFlight.View()), now)
      ensures timeouts == |out| && Flown(out) == Expired(old(inFlight.View()), now)
    {
      hide Wrap64, Wrap32, Kept, Expired, Staying, Leaving, IsStack, TimedOut, Flown;
      hide InFlightTable.Valid, InFlightTable.View, Level.Valid, Level.View, Level.Pool;
      Fields();
      FlightLengths();
      ghost var fs, xs := inFlight.View(), airborne;
      SweepLengths(fs, xs, now);
      var expired;
      expired, timeouts, out := inFlight.Sweep(now);
      airborne := Staying(fs, xs, now);
      timedOut := timedOut + Leaving(fs, xs, now);
      FlightLengths();
    }

    lemma FlightLengths()
      ensures |inFlight.View()| == |inFlight.nodes|
    {
    }

    // Drops every session that has timed out, and says how many there were.
    method CheckTimeouts(now: nat) returns (timeouts: nat)
      requires Valid()
      modifies Footprint()
      ensures Valid() && Grown() && |old(View()).inFlight| == |old(View()).airborne|
      ensures View() == Hierarchy.CheckTimeouts(old(View()), now)
      ensures timeouts == |Expired(old(View()).inFlight, now)|
    {
      hide Wrap64, Wrap32, Kept, Expired, Staying, Leaving, WorkOf, Flown, Grounded;
      hide InFlightTable.Valid, InFlightTable.View, Level.Valid, Level.View, Level.Pool, Live;
      Fields();
      InFlightCounters();
      SweepCounters(inFlight.View(), airborne, now);
      ghost var out;
      timeouts, out := SweepOut(now);
      InFlightCounters();
      FlightStep();
      Fields();
    }

    // ---------- Tenants ----------

    // Looks for an id that no tenant has.
    method HasFreeTenant() returns (found: bool)
      requires Loose()
      ensures found == FreeTenant(View())
    {
      hide Loose, View, TenantsView;
      Fields();
      var t := 0;
      found := false;
      while t < config.maxTenants && !found
        invariant 0 <= t <= config.maxTenants
        invariant found ==> FreeTenant(View())
        invariant !found ==> forall u: nat | u < t :: u in tenants
      {
        if t !in tenants {
          found := true;
        }
        t := t + 1;
      }
    }

    // The level of a new tenant: flow id 0 is taken from its pool and never configured.
    method NewLevel(a: Allocation) returns (level: Level)
      requires binsPerGroup > 0 && config.groups * binsPerGroup <= 32768
      ensures level.Valid() && level in level.repr && fresh(level.repr)
      ensures level.View() == Empty(if a.Rate? then a.rate else config.capacity, FlowsLimit(config), config.groups)
      ensures level.Pool() == Pools.Alloc(Fresh(FlowsLimit(config))).0
    {
      hide GroupSchedulers.GroupScheduler.Valid, ChunkedEntries.Entries.Valid;
      level := new Level(if a.Rate? then a.rate else config.capacity, FlowsLimit(config), config.groups, binsPerGroup);
      var status, id := level.Alloc();
    }

    // Enters a new tenant.
    method Enter(t: nat, a: Allocation)
      requires Loose() && t !in tenants
      modifies `tenants, `eras, `tenantCount, `allocatedRate
      ensures Arrived(t) && TenantOf(tenants[t]) == NewTenant(config, a, old(eras)) && eras == old(eras) + 1
      ensures tenantCount == Wrap32(old(tenantCount) + 1)
      ensures allocatedRate == if a.Rate? then Wrap64(old(allocatedRate) + a.rate) else old(allocatedRate)
    {
      hide Wrap64, Wrap32, Level.Valid, Level.View, Level.Pool, InFlightTable.Valid, InFlightTable.View;
      var level := NewLevel(a);
      tenants := tenants[t := TenantRecord(a, level, false, 0, map[], eras)];
      eras := eras + 1;
      tenantCount := Wrap32(tenantCount + 1);
      if a.Rate? {
        allocatedRate := Wrap64(allocatedRate + a.rate);
      }
    }

    // Installs a tenant whose id has been taken and configured.
    method Install(t: nat, a: Allocation)
      requires Loose() && t !in tenants
      modifies Footprint()
      ensures Loose() && Grown()
      ensures var h := old(View());
        View() == h.(tenants := h.tenants[t := NewTenant(config, a, h.eras)], eras := h.eras + 1,
                     tenantCount := Wrap32(h.tenantCount + 1),
                     allocatedRate := if a.Rate? then Wrap64(h.allocatedRate + a.rate) else h.allocatedRate)
    {
      hide Wrap64, Wrap32, NewTenant, TenantOf, Arrived, Loose, View, Footprint, TenantsView;
      Fields();
      Enter(t, a);
      ArrivalStep(t);
    }

    // Adds a tenant; its id is given back when the system scheduler refuses it.
    method AddTenant(a: Allocation) returns (status: Status, id: nat)
      requires Valid()
      modifies Footprint()
      ensures Valid() && Grown() && (View(), status) == Hierarchy.AddTenant(old(View()), a)
      ensures status == Success ==> id in View().tenants && id !in old(View()).tenants
    {
      hide Configure, NewTenant, FreeTenant, RateExceeds, Wrap64, Wrap32, Pools.Alloc, Release, Live;
      hide Loose, Footprint, View, TenantsView;
      id := 0;
      Fields();
      var found := HasFreeTenant();
      if !ValidAllocation(a) {
        status := InvalidArg;
      } else if !found {
        status := NoMemory;
      } else if RateExceeds(allocatedRate, config.capacity, a, None) {
        status := Overbooked;
      } else {
        status, id := Recruit(a);
      }
    }

    // Takes an id for a new tenant, and admits it.
    method Recruit(a: Allocation) returns (status: Status, id: nat)
      requires Valid() && ValidAllocation(a) && FreeTenant(View()) && !WouldExceed(View(), a, None)
      modifies Footprint()
      ensures Valid() && Grown() && (View(), status) == Hierarchy.AddTenant(old(View()), a)
      ensures status == Success ==> id in View().tenants && id !in old(View()).tenants
    {
      hide Configure, NewTenant, FreeTenant, WouldExceed, Wrap64, Wrap32, Pools.Alloc, Release, Live;
      hide Loose, Footprint, View, TenantsView;
      Fields();
      TakenFromPool();
      status, id := SystemAlloc();
      Fields();
      if status == Success {
        status := Admit(id, a);
        Fields();
      }
    }

    // Configures the new tenant in the system scheduler and installs it, or gives its id back.
    method Admit(id: nat, a: Allocation) returns (status: Status)
      requires Loose() && id !in tenants && id in Live(View().tenantPool) && id !in View().system.entries
      modifies Footprint()
      ensures Loose() && Grown()
      ensures var h, c := old(View()), Configure(old(View()).system, id, a, true);
        && status == c.1
        && View() ==
             if status != Success then h.(system := c.0, tenantPool := Release(h.tenantPool, id))
             else h.(system := c.0, tenants := h.tenants[id := NewTenant(config, a, h.eras)], eras := h.eras + 1,
                     tenantCount := Wrap32(h.tenantCount + 1),
                     allocatedRate := if a.Rate? then Wrap64(h.allocatedRate + a.rate) else h.allocatedRate)
    {
      hide Configure, NewTenant, Wrap64, Wrap32, Release, Live, Loose, Footprint, View, TenantsView;
      Fields();
      RefusedIsUnchanged(View().system, id, a);
      status := SystemConfigure(id, a);
      Fields();
      if status != Success {
        SystemFree(id);
      } else {
        Install(id, a);
      }
    }

    // An id just taken is neither a tenant's nor configured.
    lemma TakenFromPool()
      requires Valid()
      ensures var (pool, id) := Pools.Alloc(View().tenantPool);
        && (id.None? ==> pool == View().tenantPool)
        && (id.Some? ==> id.value !in tenants && id.value !in View().system.entries
                         && Live(pool) == Live(View().tenantPool) + {id.value}
                         && Live(Release(pool, id.value)) == Live(View().tenantPool))
    {
      hide Live, Level.Valid, Level.View, Level.Pool, InFlightTable.Valid, InFlightTable.View;
      system.AllocMeans();
    }

    // Takes the totals of a tenant down and the tenant out.
    method Uninstall(t: nat)
      requires Loose() && t in tenants && t in View().tenants
      modifies Footprint()
      ensures Loose() && Grown() && var h, n := old(View()), old(View()).tenants[t];
        View() == h.(
          totalFlows := FlowsLeft(h.totalFlows, n.pool.configured),
          allocatedRate := if n.allocation.Rate? then Wrap64(h.allocatedRate - n.allocation.rate) else h.allocatedRate,
          tenants := h.tenants - {t},
          tenantCount := Wrap32(h.tenantCount - 1))
    {
      hide Wrap64, Wrap32, Loose, Footprint, View, TenantsView;
      Fields();
      Records();
      var flows := FlowCount(t);
      var total := totalFlows;
      if flows > 0 {
        total := if total >= flows - 1 then total - (flows - 1) else 0;
      }
      var rate := allocatedRate;
      if tenants[t].allocation.Rate? {
        rate := Wrap64(rate - tenants[t].allocation.rate);
      }
      SetTotals(rate, Wrap32(tenantCount - 1), total);
      DropRecord(t);
    }

    method DropRecord(t: nat)
      requires Loose()
      modifies Footprint()
      ensures Loose() && Grown() && View() == old(View()).(tenants := old(View()).tenants - {t})
    {
      hide Level.Valid, Level.View, Level.Pool, InFlightTable.Valid, InFlightTable.View;
      tenants := tenants - {t};
      DepartureStep(t);
    }

    method RemoveTenant(t: nat) returns (status: Status)
      requires Valid()
      modifies Footprint()
      ensures Valid() && Grown() && (View(), status) == Hierarchy.RemoveTenant(old(View()), t)
    {
      hide Unconfigure, Wrap64, Wrap32, FlowsLeft, Live, Release, Loose, Footprint, View, TenantsView;
      Fields();
      Records();
      if t >= config.maxTenants {
        status := InvalidArg;
      } else if t !in tenants {
        status := NotFound;
      } else if tenants[t].hasBacklog {
        status := HasBacklog;
      } else {
        GoneMeans(t);
        Dismiss(t);
        Fields();
        status := Success;
      }
    }

    // Takes a tenant out of the system scheduler, its id back, and its record away.
    method Dismiss(t: nat)
      requires Loose() && t in tenants && t in View().tenants && t in Live(View().tenantPool)
      requires t !in Unconfigure(View().system, t).0.entries
      modifies Footprint()
      ensures Loose() && Grown()
      ensures var h, n := old(View()), old(View()).tenants[t];
        View() == h.(
          system := Unconfigure(h.system, t).0,
          tenantPool := Release(h.tenantPool, t),
          totalFlows := FlowsLeft(h.totalFlows, n.pool.configured),
          allocatedRate := if n.allocation.Rate? then Wrap64(h.allocatedRate - n.allocation.rate) else h.allocatedRate,
          tenants := h.tenants - {t},
          tenantCount := Wrap32(h.tenantCount - 1))
    {
      hide Unconfigure, Wrap64, Wrap32, FlowsLeft, Live, Release, Loose, Footprint, View, TenantsView;
      var status := SystemRemove(t);
      SystemFree(t);
      Fields();
      Uninstall(t);
    }

    lemma GoneMeans(t: nat)
      requires Valid() && t in tenants
      ensures (View().tenants - {t}).Keys == Live(Release(View().tenantPool, t))
      ensures t !in Unconfigure(View().system, t).0.entries && t in Live(View().tenantPool)
    {
      hide Live, Level.Valid, Level.View, Level.Pool, InFlightTable.Valid, InFlightTable.View;
      system.ReleaseMeans(t);
      UnconfiguredIsGone(View().system, t);
    }

    method ConfigureTenant(t: nat, a: Allocation) returns (status: Status)
      requires Valid()
      modifies Footprint()
      ensures Valid() && Grown() && (View(), status) == Hierarchy.ConfigureTenant(old(View()), t, a)
    {
      hide Configure, RateExceeds, Wrap64, Live, Loose, Footprint, View, TenantsView;
      Fields();
      Records();
      if t >= config.maxTenants || !ValidAllocation(a) {
        status := InvalidArg;
      } else if t !in tenants {
        status := NotFound;
      } else if RateExceeds(allocatedRate, config.capacity, a, Some(tenants[t].allocation)) {
        status := Overbooked;
      } else {
        Reassign(t, a);
        status := Success;
      }
    }

    method Reassign(t: nat, a: Allocation)
      requires Valid() && t < config.maxTenants && ValidAllocation(a) && t in tenants
      requires !RateExceeds(allocatedRate, config.capacity, a, Some(tenants[t].allocation))
      modifies Footprint()
      ensures Valid() && Grown() && (View(), Success) == Hierarchy.ConfigureTenant(old(View()), t, a)
    {
      hide Configure, RateExceeds, Wrap64, Live, Loose, Footprint, View, TenantsView, Hierarchy.ConfigureTenant,
           SetTenant;
      Fields();
      Records();
      ConfigureTenantInSteps(View(), t, a);
      Charge(tenants[t].allocation, a);
      SetAllocation(t, a);
      var status := SystemConfigure(t, a);
      Fields();
    }

    method SetAllocation(t: nat, a: Allocation)
      requires Loose() && t in View().tenants
      modifies Footprint()
      ensures Loose() && Grown()
      ensures View() == SetTenant(old(View()), t, old(View()).tenants[t].(allocation := a))
    {
      hide Loose, Footprint, View, TenantsView;
      Fields();
      Records();
      SetRecord(t, tenants[t].(allocation := a));
    }

    // The total of the tenants' rates with allocation a in place of was.
    method Charge(was: Allocation, a: Allocation)
      requires Loose()
      modifies Footprint()
      ensures Loose() && Grown() && var less := if was.Rate? then Wrap64(old(View()).allocatedRate - was.rate)
                                                else old(View()).allocatedRate;
        View() == old(View()).(allocatedRate := if a.Rate? then Wrap64(less + a.rate) else less)
    {
      hide Wrap64, Loose, Footprint, View, TenantsView;
      Fields();
      var total := allocatedRate;
      if was.Rate? {
        total := Wrap64(total - was.rate);
      }
      if a.Rate? {
        total := Wrap64(total + a.rate);
      }
      SetTotals(total, tenantCount, totalFlows);
    }

    // ---------- Flows ----------

    // The total of the flows goes up or down by one.
    method CountFlow(up: bool)
      requires Loose()
      modifies Footprint()
      ensures Loose() && Grown() && var total := old(View()).totalFlows;
        View() == old(View()).(totalFlows := if up then Wrap32(total + 1) else Minus(total, 1))
    {
      hide Wrap32, Loose, Footprint, View, TenantsView;
      Fields();
      SetTotals(allocatedRate, tenantCount, if up then Wrap32(totalFlows + 1) else Minus(totalFlows, 1));
    }

    method AddFlow(t: nat, a: Allocation) returns (status: Status, id: nat)
      requires Valid()
      modifies Footprint()
      ensures Valid() && Grown() && (View(), status) == Hierarchy.AddFlow(old(View()), t, a)
    {
      hide Configure, Pools.Alloc, Release, Wrap32, Live, Loose, Footprint, View, TenantsView;
      id := 0;
      Fields();
      if t >= config.maxTenants || !ValidAllocation(a) {
        status := InvalidArg;
      } else if t !in tenants {
        status := NotFound;
      } else if config.maxTotalFlows > 0 && totalFlows >= config.maxTotalFlows {
        status := NoMemory;
      } else {
        status, id := Employ(t, a);
        Fields();
      }
    }

    method Employ(t: nat, a: Allocation) returns (status: Status, id: nat)
      requires Loose() && t < config.maxTenants && ValidAllocation(a) && t in tenants
      requires !(config.maxTotalFlows > 0 && totalFlows >= config.maxTotalFlows)
      modifies Footprint()
      ensures Loose() && Grown() && SameIds(old(View()), View())
      ensures (View(), status) == Hierarchy.AddFlow(old(View()), t, a)
    {
      hide Configure, Pools.Alloc, Release, Wrap32, Live, Loose, Footprint, View, TenantsView, Hierarchy.AddFlow,
           SetTenant;
      Fields();
      FlowTaken(t);
      AddFlowInSteps(View(), t, a);
      status, id := FlowAlloc(t);
      Fields();
      if status == Success {
        status := AdmitFlow(t, id, a);
      }
    }

    // Configures a flow whose id has been taken, or gives the id back.
    method AdmitFlow(t: nat, f: nat, a: Allocation) returns (status: Status)
      requires Loose() && t in tenants && t in View().tenants
      requires f in Live(View().tenants[t].pool) && f !in View().tenants[t].flows.entries
      modifies Footprint()
      ensures Loose() && Grown()
      ensures var h, n, c := old(View()), old(View()).tenants[t], Configure(old(View()).tenants[t].flows, f, a, true);
        && status == c.1
        && View() == if status != Success then SetTenant(h, t, n.(pool := Release(n.pool, f), flows := c.0))
                     else SetTenant(h, t, n.(flows := c.0)).(totalFlows := Wrap32(h.totalFlows + 1))
    {
      hide Configure, Release, Live, Wrap32, Loose, Footprint, View, TenantsView;
      RefusedIsUnchanged(View().tenants[t].flows, f, a);
      status := FlowConfigure(t, f, a);
      Fields();
      if status != Success {
        FlowFree(t, f);
      } else {
        CountFlow(true);
      }
    }

    lemma FlowTaken(t: nat)
      requires Loose() && t in tenants
      ensures t in View().tenants && var n := View().tenants[t]; var (pool, id) := Pools.Alloc(n.pool);
        (id.None? ==> pool == n.pool) && (id.Some? ==> id.value in Live(pool) && id.value !in n.flows.entries)
    {
      hide Live, Level.Valid, Level.View, Level.Pool, InFlightTable.Valid, InFlightTable.View;
      tenants[t].level.AllocMeans();
    }

    method RemoveFlow(t: nat, f: nat) returns (status: Status)
      requires Valid()
      modifies Footprint()
      ensures Valid() && Grown() && (View(), status) == Hierarchy.RemoveFlow(old(View()), t, f)
    {
      hide Unconfigure, Release, Live, Loose, Footprint, View, TenantsView;
      Fields();
      Records();
      if t >= config.maxTenants {
        status := InvalidArg;
      } else if t !in tenants {
        status := NotFound;
      } else {
        var found := HasFlow(t, f);
        if !found {
          status := NotFound;
        } else if f in tenants[t].flowBacklog && tenants[t].flowBacklog[f] > 0 {
          status := HasBacklog;
        } else {
          DropFlow(t, f);
          Fields();
          status := Success;
        }
      }
    }

    method DropFlow(t: nat, f: nat)
      requires Loose() && t in tenants && t in View().tenants && f in View().tenants[t].flows.entries
      modifies Footprint()
      ensures Loose() && Grown() && var h, n := old(View()), old(View()).tenants[t];
        View() == SetTenant(h, t, n.(flows := Unconfigure(n.flows, f).0, pool := Release(n.pool, f))).(
          totalFlows := Minus(h.totalFlows, 1))
    {
      hide Unconfigure, Release, Live, Loose, Footprint, View, TenantsView;
      FlowsAreLive(t);
      UnconfiguredIsGone(View().tenants[t].flows, f);
      var status := FlowRemove(t, f);
      Fields();
      FlowFree(t, f);
      CountFlow(false);
    }

    method ReconfigureFlow(t: nat, f: nat, a: Allocation) returns (status: Status)
      requires Valid()
      modifies Footprint()
      ensures Valid() && Grown() && (View(), status) == Hierarchy.ReconfigureFlow(old(View()), t, f, a)
    {
      hide Configure, Live, Loose, Footprint, View, TenantsView;
      Fields();
      if f == RESERVED_FLOW || t >= config.maxTenants || !ValidAllocation(a) {
        status := InvalidArg;
      } else if t !in tenants {
        status := NotFound;
      } else {
        var found := HasFlow(t, f);
        if !found {
          status := NotFound;
        } else {
          FlowsAreLive(t);
          status := FlowConfigure(t, f, a);
          Fields();
        }
      }
    }
  }
}
