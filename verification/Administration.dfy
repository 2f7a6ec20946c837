/**
 The calls that configure tenants and flows: each keeps what holds between calls, and the totals
 kept in two places go on agreeing.
 */
module Administration {
  import opened Machine
  import opened Wfq
  import opened Lateness
  import opened Rates
  import opened Saturation
  import opened Jobs
  import opened Pools
  import opened Flights
  import opened Hierarchy
  import opened Coupling
  import opened Backlogs
  import opened Conduct
  import opened Movement
  import opened Scheduling

  // ---------- Flows ----------

  // The sessions of the tenant are as they were.
  predicate SameSessions(n: Tenant, n': Tenant) {
    (n'.hasBacklog, n'.backlog, n'.flowBacklog, n'.era, n'.flows.queue)
      == (n.hasBacklog, n.backlog, n.flowBacklog, n.era, n.flows.queue)
  }

  // The flows with sessions queued or in flight are still there.
  ghost predicate FlowsKept(h: Hier, t: nat, n': Tenant)
    requires t in h.tenants
  {
    && (forall i | 0 <= i < |n'.flows.queue| :: n'.flows.queue[i].entry in n'.flows.entries)
    && forall k | 0 <= k < |h.airborne| && h.airborne[k].tenant == t && h.airborne[k].era == n'.era ::
         h.airborne[k].flow in n'.flows.entries
  }

  lemma FlowChangeMoving(h: Hier, t: nat, n': Tenant, totalFlows: nat)
    requires Moving(h) && t in h.tenants && SameSessions(h.tenants[t], n') && FlowsKept(h, t, n')
    ensures Moving(SetTenant(h, t, n').(totalFlows := totalFlows))
  {
    hide Waiting, BacklogOk, Recorded;
    var n, h' := h.tenants[t], SetTenant(h, t, n').(totalFlows := totalFlows);
    assert Backlogged(h'.tenants) == Backlogged(h.tenants);
    BacklogFrame(n, n', h.airborne, h.timedOut);
    forall i | 0 <= i < |n'.flows.queue|
      ensures Carries(h.contexts, t, n', n'.flows.queue[i])
    {
      assert Carries(h.contexts, t, n, n.flows.queue[i]);
    }
    forall i | 0 <= i < |h.contexts|
      ensures Places(h', h.contexts[i]) == 1
    {
      QueuedAfter(h.tenants, t, n', h.contexts[i]);
      assert Places(h, h.contexts[i]) == 1;
    }
  }

  lemma FlowChangeTimed(h: Hier, t: nat, n': Tenant, totalFlows: nat)
    requires AllTimed(h) && t in h.tenants && Timed(n'.flows)
    ensures AllTimed(SetTenant(h, t, n').(totalFlows := totalFlows))
  {
    hide Timed;
  }

  lemma SoundParts(h: Hier)
    requires Sound(h)
    ensures Fixed(h) && Moving(h) && AllTimed(h) && forall t | t in h.tenants :: Timed(h.tenants[t].flows)
  {
  }

  lemma FlowSumChange(order: seq<nat>, tenants: map<nat, Tenant>, t: nat, n': Tenant)
    requires Distinct(order) && t in order && forall u :: u in order <==> u in tenants
    ensures Total(order, FlowCounts(tenants[t := n'])) + Minus(tenants[t].pool.configured, 1)
         == Total(order, FlowCounts(tenants)) + Minus(n'.pool.configured, 1)
  {
    var x := Minus(n'.pool.configured, 1);
    assert FlowCounts(tenants[t := n']) == FlowCounts(tenants)[t := x];
    TotalChange(order, FlowCounts(tenants), t, x);
  }

  lemma FlowChangeLedger(h: Hier, t: nat, n': Tenant, totalFlows: nat)
    requires LedgerOk(h) && t in h.tenants && n'.allocation == h.tenants[t].allocation
    requires totalFlows + Minus(h.tenants[t].pool.configured, 1) == h.totalFlows + Minus(n'.pool.configured, 1)
    requires totalFlows < 0x1_0000_0000 && (h.config.maxTotalFlows > 0 ==> totalFlows <= h.config.maxTotalFlows)
    ensures LedgerOk(SetTenant(h, t, n').(totalFlows := totalFlows))
  {
    hide Good, Live, Total, Minus, FlowCounts, Distinct;
    FlowSumChange(h.system.order, h.tenants, t, n');
    SameSize(h.tenants, t, n');
  }

  lemma SameSize(tenants: map<nat, Tenant>, t: nat, n': Tenant)
    requires t in tenants
    ensures |tenants[t := n']| == |tenants|
  {
    assert tenants[t := n'].Keys == tenants.Keys;
    assert |tenants[t := n'].Keys| == |tenants[t := n']| && |tenants.Keys| == |tenants|;
  }

  lemma FlowChangeFixed(h: Hier, t: nat, n': Tenant, totalFlows: nat)
    requires Fixed(h) && t in h.tenants && TenantOk(h.config, n')
    requires (n'.allocation, n'.era) == (h.tenants[t].allocation, h.tenants[t].era)
    requires totalFlows + Minus(h.tenants[t].pool.configured, 1) == h.totalFlows + Minus(n'.pool.configured, 1)
    requires totalFlows < 0x1_0000_0000 && (h.config.maxTotalFlows > 0 ==> totalFlows <= h.config.maxTotalFlows)
    ensures Fixed(SetTenant(h, t, n').(totalFlows := totalFlows))
  {
    hide TenantOk, LedgerOk, Consistent;
    FlowChangeLedger(h, t, n', totalFlows);
    var h' := SetTenant(h, t, n').(totalFlows := totalFlows);
    assert forall u | u in h'.tenants && u != t :: h'.tenants[u] == h.tenants[u];
  }

  lemma TenantHasFlows(c: Config, n: Tenant, f: nat)
    requires TenantOk(c, n) && f in n.flows.entries
    ensures f in Live(n.pool) && f != RESERVED_FLOW && n.pool.configured >= 2
  {
    FreeCount(n.pool);
    assert {RESERVED_FLOW, f} <= Live(n.pool);
    SubsetSize({RESERVED_FLOW, f}, Live(n.pool));
  }

  lemma SubsetSize<T>(a: set<T>, b: set<T>)
    requires a <= b
    ensures |a| <= |b|
  {
    assert b == a + (b - a);
  }

  // The tenant after a flow with a fresh id has been configured.
  lemma AddedFlowOk(c: Config, n: Tenant, a: Allocation)
    requires TenantOk(c, n) && Alloc(n.pool).1.Some? && NoWrap(n.flows, a) && ValidAllocation(a)
    ensures var (pool, id) := Alloc(n.pool);
      var (flows, status) := Configure(n.flows, id.value, a, true);
      && (status == Success ==>
            && TenantOk(c, n.(pool := pool, flows := flows)) && id.value != RESERVED_FLOW
            && id.value !in n.flows.entries && pool.configured == n.pool.configured + 1)
      && (status != Success ==>
            && TenantOk(c, n.(pool := Release(pool, id.value), flows := flows))
            && Release(pool, id.value).configured == n.pool.configured && flows == n.flows)
  {
    hide Consistent, Configure;
    AllocGivesFresh(n.pool);
    var (pool, id) := Alloc(n.pool);
    ConfigureEffect(n.flows, id.value, a, true);
    ConfigureKeeps(n.flows, id.value, a, true);
    ReleaseTakesBack(pool, id.value);
  }

  lemma QueueEntries(h: Hier, t: nat)
    requires Moving(h) && t in h.tenants
    ensures FlowsKept(h, t, h.tenants[t])
  {
    var n := h.tenants[t];
    forall i | 0 <= i < |n.flows.queue|
      ensures n.flows.queue[i].entry in n.flows.entries
    {
      assert Carries(h.contexts, t, n, n.flows.queue[i]);
    }
  }

  lemma AddFlowKeeps(h: Hier, t: nat, a: Allocation)
    requires Sound(h) && h.totalFlows + 1 < 0x1_0000_0000
    requires t in h.tenants ==> NoWrap(h.tenants[t].flows, a)
    ensures Sound(AddFlow(h, t, a).0)
  {
    hide Moving, Configure, Alloc, Consistent, Good, Live, SystemOk, LedgerOk, AllTimed, Timed, NoWrap;
    SoundParts(h);
    FixedHasSystem(h);
    FixedHasTotals(h);
    if t in h.tenants && ValidAllocation(a) && Alloc(h.tenants[t].pool).1.Some?
       && !(t >= h.config.maxTenants) && !(h.config.maxTotalFlows > 0 && h.totalFlows >= h.config.maxTotalFlows) {
      var n := h.tenants[t];
      var (pool, id) := Alloc(n.pool);
      var (flows, status) := Configure(n.flows, id.value, a, true);
      AddedFlowOk(h.config, n, a);
      AllocCounts(n.pool);
      ConfigureEffect(n.flows, id.value, a, true);
      QueueEntries(h, t);
      var n' := if status == Success then n.(pool := pool, flows := flows)
                else n.(pool := Release(pool, id.value), flows := flows);
      var total := if status == Success then h.totalFlows + 1 else h.totalFlows;
      assert AddFlow(h, t, a).0 == SetTenant(h, t, n').(totalFlows := total);
      FlowChangeMoving(h, t, n', total);
      TimedConfigure(n.flows, id.value, a, true);
      FlowChangeTimed(h, t, n', total);
      PoolHasReserved(h.config, n);
      FlowChangeFixed(h, t, n', total);
    }
  }

  lemma FixedHasTotals(h: Hier)
    requires Fixed(h)
    ensures h.config.maxTotalFlows > 0 ==> h.totalFlows <= h.config.maxTotalFlows
    ensures h.totalFlows < 0x1_0000_0000
  {
  }

  lemma AllocCounts(p: Pool)
    ensures Alloc(p).1.Some? ==> Alloc(p).0.configured == p.configured + 1
  {
  }

  lemma PoolHasReserved(c: Config, n: Tenant)
    requires TenantOk(c, n)
    ensures n.pool.configured >= 1
  {
    FreeCount(n.pool);
    SubsetSize({RESERVED_FLOW}, Live(n.pool));
  }

  lemma RemovedFlowOk(c: Config, n: Tenant, f: nat)
    requires ConfigOk(c) && TenantOk(c, n) && f in n.flows.entries
    ensures var n' := n.(flows := Unconfigure(n.flows, f).0, pool := Release(n.pool, f));
      && TenantOk(c, n') && n'.pool.configured + 1 == n.pool.configured
      && n'.flows.queue == n.flows.queue && n'.flows.entries.Keys == n.flows.entries.Keys - {f}
  {
    hide Consistent;
    TenantHasFlows(c, n, f);
    ReleaseTakesBack(n.pool, f);
    FlowIdFits(c, n, f);
    UnconfigureEffect(n.flows, f);
    UnconfigureKeeps(n.flows, f);
  }

  lemma FlowIdFits(c: Config, n: Tenant, f: nat)
    requires ConfigOk(c) && TenantOk(c, n) && f in n.flows.entries
    ensures f < n.flows.maxEntries
  {
    hide Consistent;
    assert f in Live(n.pool);
  }

  // A flow is only removed when nothing of it is queued or in flight.
  lemma RemoveFlowKeeps(h: Hier, t: nat, f: nat)
    requires Sound(h)
    ensures Sound(RemoveFlow(h, t, f).0)
    ensures RemoveFlow(h, t, f).1 == Success ==>
      && (forall i | 0 <= i < |h.tenants[t].flows.queue| :: h.tenants[t].flows.queue[i].entry != f)
      && (forall k | 0 <= k < |h.airborne| :: !(h.airborne[k].era == h.tenants[t].era && h.airborne[k].flow == f))
  {
    hide Moving, Unconfigure, Consistent, Good, Live, SystemOk, LedgerOk, AllTimed, Timed;
    SoundParts(h);
    FixedHasSystem(h);
    FixedHasTotals(h);
    if RemoveFlow(h, t, f).1 == Success {
      var n := h.tenants[t];
      MovingHasBacklogs(h);
      NothingOwed(n, h.airborne, h.timedOut, f);
      QueueEntries(h, t);
      RemovedFlowOk(h.config, n, f);
      var n' := n.(flows := Unconfigure(n.flows, f).0, pool := Release(n.pool, f));
      FlowChangeMoving(h, t, n', Minus(h.totalFlows, 1));
      TimedConfigure(n.flows, f, Unrecognised, false);
      FlowChangeTimed(h, t, n', Minus(h.totalFlows, 1));
      TenantHasFlows(h.config, n, f);
      FlowsCounted(h, t);
      FlowChangeFixed(h, t, n', Minus(h.totalFlows, 1));
    }
  }

  lemma MovingHasBacklogs(h: Hier)
    requires Moving(h)
    ensures forall t | t in h.tenants :: BacklogOk(h.tenants[t], h.airborne, h.timedOut)
  {
  }

  lemma FlowsCounted(h: Hier, t: nat)
    requires Fixed(h) && t in h.tenants
    ensures Minus(h.tenants[t].pool.configured, 1) <= h.totalFlows
  {
    TotalMember(h.system.order, FlowCounts(h.tenants), t);
  }

  lemma ReconfiguredFlowOk(c: Config, n: Tenant, f: nat, a: Allocation)
    requires TenantOk(c, n) && f in n.flows.entries && NoWrap(n.flows, a)
    ensures var n' := n.(flows := Configure(n.flows, f, a, true).0);
      TenantOk(c, n') && n'.flows.queue == n.flows.queue && n'.flows.entries.Keys == n.flows.entries.Keys
  {
    hide Consistent, Configure;
    ConfigureEffect(n.flows, f, a, true);
    ConfigureKeeps(n.flows, f, a, true);
  }

  lemma ReconfigureFlowKeeps(h: Hier, t: nat, f: nat, a: Allocation)
    requires Sound(h) && (t in h.tenants ==> NoWrap(h.tenants[t].flows, a))
    ensures Sound(ReconfigureFlow(h, t, f, a).0)
  {
    hide Moving, Configure, Consistent, Good, Live, SystemOk, LedgerOk, AllTimed, Timed, NoWrap;
    SoundParts(h);
    FixedHasSystem(h);
    FixedHasTotals(h);
    if t in h.tenants && f in h.tenants[t].flows.entries {
      var n := h.tenants[t];
      var n' := n.(flows := Configure(n.flows, f, a, true).0);
      ReconfiguredFlowOk(h.config, n, f, a);
      QueueEntries(h, t);
      FlowChangeMoving(h, t, n', h.totalFlows);
      TimedConfigure(n.flows, f, a, true);
      FlowChangeTimed(h, t, n', h.totalFlows);
      FlowChangeFixed(h, t, n', h.totalFlows);
    }
  }

  // ---------- Tenants ----------

  // Sessions are as they were in every tenant there was; a tenant that comes or goes has none.
  ghost predicate SessionsKept(h: Hier, h': Hier) {
    && h'.config == h.config && h'.system.queue == h.system.queue && h.eras <= h'.eras
    && (h'.contexts, h'.inFlight, h'.inFlightWork, h'.inFlightCount)
       == (h.contexts, h.inFlight, h.inFlightWork, h.inFlightCount)
    && (h'.airborne, h'.completed, h'.cancelled, h'.timedOut) == (h.airborne, h.completed, h.cancelled, h.timedOut)
    && (forall t | t in h.tenants && t in h'.tenants ::
        h'.tenants[t] == h.tenants[t].(allocation := h'.tenants[t].allocation))
    && (forall t | t in h.tenants && t !in h'.tenants :: !h.tenants[t].hasBacklog)
    && forall t | t in h'.tenants && t !in h.tenants :: IsNew(h'.tenants[t], h.eras)
  }

  predicate IsNew(n: Tenant, era: nat) {
    n.flows.v == 0 && n.flows.entries == map[] && n.flows.queue == [] && !n.hasBacklog && n.backlog == 0
      && n.flowBacklog == map[] && n.era == era
  }

  lemma NewTenantOwesNothing(n: Tenant, era: nat, airborne: seq<Context>, timedOut: seq<Context>)
    requires IsNew(n, era)
    requires forall x :: x in airborne ==> x.era != era
    requires forall x :: x in timedOut ==> x.era != era
    ensures BacklogOk(n, airborne, timedOut)
  {
    forall key
      ensures Owed(n, key) == CountJobs(n.flows.queue, key) + Count(airborne, n.era, key) + Count(timedOut, n.era, key)
    {
      CountNone(airborne, era, key);
      CountNone(timedOut, era, key);
    }
  }

  lemma TenantChangePlaces(h: Hier, h': Hier)
    requires PlacesOk(h) && SessionsKept(h, h')
    requires forall t | t in h.tenants :: TenantCoupled(h.tenants[t])
    ensures PlacesOk(h')
  {
    forall i | 0 <= i < |h.contexts|
      ensures Places(h', h.contexts[i]) == 1
    {
      var c := h.contexts[i];
      assert Places(h, c) == 1;
      assert Queued(h'.tenants, c) == Queued(h.tenants, c);
    }
  }

  lemma TenantChangeBacklogged(h: Hier, h': Hier)
    requires SessionsKept(h, h')
    ensures Backlogged(h'.tenants) == Backlogged(h.tenants)
  {
  }

  lemma TenantChangeMoving(h: Hier, h': Hier)
    requires Moving(h) && ErasOk(h) && SessionsKept(h, h')
    ensures Moving(h')
  {
    hide Waiting, BacklogOk, PlacesOk, Recorded;
    TenantChangeBacklogged(h, h');
    TenantChangePlaces(h, h');
    LedgerEras(h);
    forall t | t in h'.tenants
      ensures BacklogOk(h'.tenants[t], h.airborne, h.timedOut) && QueueOk(h.contexts, t, h'.tenants[t])
    {
      if t in h.tenants {
        BacklogFrame(h.tenants[t], h'.tenants[t], h.airborne, h.timedOut);
        SameAllocationQueue(h.contexts, t, h.tenants[t], h'.tenants[t].allocation);
      } else {
        NewTenantOwesNothing(h'.tenants[t], h.eras, h.airborne, h.timedOut);
      }
    }
    FlightsSame(h, h');
  }

  lemma LedgerEras(h: Hier)
    requires PlacesOk(h)
    ensures forall x :: x in h.airborne || x in h.timedOut ==> x.era < h.eras
  {
  }

  lemma TenantChangeTimed(h: Hier, h': Hier)
    requires AllTimed(h) && SessionsKept(h, h') && Timed(h'.system)
    ensures AllTimed(h')
  {
  }

  lemma SameAllocationQueue(contexts: seq<Context>, t: nat, n: Tenant, a: Allocation)
    requires QueueOk(contexts, t, n)
    ensures QueueOk(contexts, t, n.(allocation := a))
  {
    forall i | 0 <= i < |n.flows.queue|
      ensures Carries(contexts, t, n.(allocation := a), n.flows.queue[i])
    {
      assert Carries(contexts, t, n, n.flows.queue[i]);
    }
  }

  // ---------- Reconfiguring a tenant ----------

  // The rate of an entry of the system scheduler, 0 when there is none.
  function RateAt(s: Sched, id: nat): nat {
    if id in s.entries then RateOf(s.entries[id]) else 0
  }

  // The two levels know the same of a tenant.
  lemma LevelsAgree(h: Hier, id: nat)
    requires Fixed(h)
    ensures Consistent(h.system) && RateAt(h.system, id) <= h.system.allocatedRate
    ensures h.allocatedRate == h.system.allocatedRate <= h.config.capacity == h.system.capacity <= U64_MAX
    ensures h.system.maxEntries == h.config.maxTenants
    ensures id in h.tenants <==> id in h.system.entries
    ensures RateAt(h.system, id)
         == if id in h.tenants && h.tenants[id].allocation.Rate? then h.tenants[id].allocation.rate else 0
  {
    hide TenantOk;
    if id in h.tenants {
      TotalMember(h.system.order, RatesOf(h.system.entries), id);
    }
  }

  // The test for capacity, in plain sums.
  lemma WouldExceedMeans(h: Hier, id: nat, a: Allocation)
    requires Fixed(h) && NoWrap(h.system, a)
    ensures WouldExceed(h, a, if id in h.tenants then Some(h.tenants[id].allocation) else None) <==>
      a.Rate? && h.allocatedRate + a.rate > h.config.capacity + RateAt(h.system, id)
  {
    hide Fixed, RateAt, Wrap64, Consistent;
    LevelsAgree(h, id);
    if a.Rate? {
      WrapSmall(h.allocatedRate - RateAt(h.system, id));
      WrapSmall(h.allocatedRate - RateAt(h.system, id) + a.rate);
      WrapSmall(h.allocatedRate + a.rate);
    }
  }

  // What the test of the hierarchy admits, the system scheduler accepts.
  lemma AdmittedIsAccepted(h: Hier, id: nat, a: Allocation)
    requires Fixed(h) && ValidAllocation(a) && id < h.config.maxTenants && NoWrap(h.system, a)
    requires !WouldExceed(h, a, if id in h.tenants then Some(h.tenants[id].allocation) else None)
    ensures Configure(h.system, id, a, true).1 == Success
  {
    hide Fixed, Consistent, Configure, WouldExceed;
    LevelsAgree(h, id);
    WouldExceedMeans(h, id, a);
    ConfigureSucceeds(h.system, id, a, true);
  }

  lemma RateLedger(h: Hier, t: nat, a: Allocation)
    requires Fixed(h) && NoWrap(h.system, a) && ConfigureTenant(h, t, a).1 == Success
    ensures var h' := ConfigureTenant(h, t, a).0;
      Configure(h.system, t, a, true).1 == Success && h'.allocatedRate == h'.system.allocatedRate
  {
    hide Fixed, Consistent, Configure, RateOf, WouldExceed;
    LevelsAgree(h, t);
    AdmittedIsAccepted(h, t, a);
    ConfigureRateTotal(h.system, t, a);
    ConfigureFits(h.system, t, a);
  }

  lemma ConfigureFits(s: Sched, id: nat, a: Allocation)
    requires Consistent(s) && NoWrap(s, a) && Configure(s, id, a, true).1 == Success
    ensures Configure(s, id, a, true).0.allocatedRate <= s.capacity
  {
    hide Configure, Recalculate;
    ConfigureKeeps(s, id, a, true);
    ConfigureEffect(s, id, a, true);
  }

  lemma LedgerParts(h: Hier)
    requires Fixed(h)
    ensures LedgerOk(h) && SystemOk(h) && ErasOk(h) && Consistent(h.system) && ConfigOk(h.config)
  {
  }

  // What reconfiguring a tenant comes to.
  lemma ConfigureTenantIs(h: Hier, t: nat, a: Allocation)
    requires Fixed(h) && NoWrap(h.system, a) && ConfigureTenant(h, t, a).1 == Success
    ensures var h' := ConfigureTenant(h, t, a).0;
      && t in h.tenants && Configure(h.system, t, a, true) == (h'.system, Success)
      && h' == SetTenant(h, t, h.tenants[t].(allocation := a)).(system := h'.system,
                                                                allocatedRate := h'.system.allocatedRate)
  {
    hide Fixed, Configure, WouldExceed, NoWrap, Wrap64;
    RateLedger(h, t, a);
  }

  lemma ConfigureTenantLedger(h: Hier, t: nat, a: Allocation)
    requires Fixed(h) && NoWrap(h.system, a) && ConfigureTenant(h, t, a).1 == Success
    ensures LedgerOk(ConfigureTenant(h, t, a).0)
  {
    hide Fixed, Configure, ConfigureTenant, NoWrap, SystemOk, ErasOk, Consistent, LedgerOk, Listed;
    LedgerParts(h);
    ConfigureTenantIs(h, t, a);
    ConfigureEffect(h.system, t, a, true);
    LedgerEntries(h);
    LedgerReconfigured(h, t, a, Configure(h.system, t, a, true).0);
  }

  lemma LedgerEntries(h: Hier)
    requires LedgerOk(h)
    ensures h.system.entries.Keys == h.tenants.Keys
  {
  }

  lemma LedgerReconfigured(h: Hier, t: nat, a: Allocation, s: Sched)
    requires LedgerOk(h) && t in h.tenants
    requires (s.capacity, s.maxEntries, s.groups, s.order)
      == (h.system.capacity, h.system.maxEntries, h.system.groups, h.system.order)
    requires s.entries.Keys == h.system.entries.Keys && t in s.entries && s.entries[t].allocation == a
    requires forall k | k in h.system.entries && k != t :: s.entries[k].allocation == h.system.entries[k].allocation
    ensures LedgerOk(SetTenant(h, t, h.tenants[t].(allocation := a)).(system := s, allocatedRate := s.allocatedRate))
  {
    hide Good, Live, Total, FlowCounts, Distinct;
    var n := h.tenants[t].(allocation := a);
    SameSize(h.tenants, t, n);
    SameCounts(h.tenants, t, n);
    assert h.tenants[t := n].Keys == h.tenants.Keys;
  }

  lemma ConfigureTenantSystem(h: Hier, t: nat, a: Allocation)
    requires Fixed(h) && NoWrap(h.system, a) && ConfigureTenant(h, t, a).1 == Success
    ensures SystemOk(ConfigureTenant(h, t, a).0)
  {
    hide Fixed, Consistent, Configure, WouldExceed, NoWrap, LedgerOk, ErasOk, Wrap64;
    LedgerParts(h);
    RateLedger(h, t, a);
    ConfigureEffect(h.system, t, a, true);
    ConfigureKeeps(h.system, t, a, true);
  }

  lemma SameCounts(tenants: map<nat, Tenant>, t: nat, n': Tenant)
    requires t in tenants && n'.pool == tenants[t].pool
    ensures FlowCounts(tenants[t := n']) == FlowCounts(tenants)
  {
  }

  lemma ConfigureTenantKeeps(h: Hier, t: nat, a: Allocation)
    requires Sound(h) && NoWrap(h.system, a)
    ensures Sound(ConfigureTenant(h, t, a).0)
  {
    hide LedgerOk, Consistent, Configure, SystemOk, Moving, Good, Live, WouldExceed, Timed, AllTimed;
    SoundParts(h);
    if ConfigureTenant(h, t, a).1 == Success {
      var h' := ConfigureTenant(h, t, a).0;
      ConfigureTenantLedger(h, t, a);
      ConfigureTenantSystem(h, t, a);
      ConfigureEffect(h.system, t, a, true);
      TenantChangeMoving(h, h');
      TimedConfigure(h.system, t, a, true);
      TenantChangeTimed(h, h');
    }
  }

  // ---------- Adding a tenant ----------

  lemma NewTenantOk(c: Config, a: Allocation, era: nat)
    requires ConfigOk(c) && (a.Rate? ==> a.rate <= c.capacity)
    ensures TenantOk(c, NewTenant(c, a, era)) && IsNew(NewTenant(c, a, era), era)
    ensures NewTenant(c, a, era).pool.configured == 1 && NewTenant(c, a, era).allocation == a
  {
    var limit := FlowsLimit(c);
    FreshIsGood(limit);
    AllocGivesFresh(Fresh(limit));
    EmptyConsistent(if a.Rate? then a.rate else c.capacity, limit, c.groups);
  }

  lemma EmptyConsistent(capacity: nat, maxEntries: nat, groups: nat)
    requires capacity <= U64_MAX
    ensures Consistent(Empty(capacity, maxEntries, groups))
  {
  }

  lemma CountsWithNew(order: seq<nat>, tenants: map<nat, Tenant>, id: nat, n: Tenant)
    requires (forall t :: t in order ==> t in tenants) && id !in tenants && n.pool.configured == 1
    ensures Total([id] + order, FlowCounts(tenants[id := n])) == Total(order, FlowCounts(tenants))
  {
    assert ([id] + order)[1..] == order;
    TotalSame(order, FlowCounts(tenants), FlowCounts(tenants[id := n]));
  }

  lemma CountWithNew(h: Hier, id: nat, n: Tenant)
    requires Fixed(h) && id !in h.tenants
    ensures |h.tenants[id := n]| == |h.tenants| + 1
    ensures |h.tenants| <= h.config.maxTenants
  {
    hide TenantOk, Consistent;
    assert h.tenants[id := n].Keys == h.tenants.Keys + {id};
    assert |h.tenants[id := n].Keys| == |h.tenants[id := n]| && |h.tenants.Keys| == |h.tenants|;
    FreeCount(h.tenantPool);
  }

  // The id that the pool gives is free and below the limit, so no tenant is overwritten.
  lemma GivenIdIsFree(h: Hier)
    requires Fixed(h) && Alloc(h.tenantPool).1.Some?
    ensures Alloc(h.tenantPool).1.value !in h.tenants && Alloc(h.tenantPool).1.value < h.config.maxTenants
  {
    hide TenantOk, Consistent, Good, Live;
    LedgerParts(h);
    AllocGivesFresh(h.tenantPool);
  }

  // The state with one more tenant.
  function Added(h: Hier, a: Allocation, pool: Pool, id: nat, system: Sched): Hier {
    h.(tenantPool := pool, system := system,
       tenants := h.tenants[id := NewTenant(h.config, a, h.eras)], eras := h.eras + 1,
       tenantCount := |h.tenants| + 1, allocatedRate := system.allocatedRate)
  }

  lemma AddTenantIs(h: Hier, a: Allocation)
    requires Fixed(h) && NoWrap(h.system, a) && ValidAllocation(a) && Alloc(h.tenantPool).1.Some?
      && !WouldExceed(h, a, None)
    requires FreeTenant(h)
    ensures var (pool, id) := Alloc(h.tenantPool);
      && Configure(h.system, id.value, a, true).1 == Success
      && AddTenant(h, a) == (Added(h, a, pool, id.value, Configure(h.system, id.value, a, true).0), Success)
  {
    hide Fixed, Consistent, Configure, LedgerOk, SystemOk, Total, WouldExceed, NoWrap, FreeTenant, RateAt, Alloc,
         Wrap64, Wrap32, ErasOk;
    var (pool, id) := Alloc(h.tenantPool);
    GivenIdIsFree(h);
    AdmittedIsAccepted(h, id.value, a);
    LevelsAgree(h, id.value);
    NoEntryNoRate(h.system, id.value);
    EntryRate(h.system, id.value);
    ConfigureRateTotal(h.system, id.value, a);
    ConfigureFits(h.system, id.value, a);
    WrapSmall(h.allocatedRate + if a.Rate? then a.rate else 0);
    CountWithNew(h, id.value, NewTenant(h.config, a, h.eras));
    FreeTenantMeans(h);
    TenantTotals(h);
    WrapSmall(|h.tenants| + 1);
  }

  lemma EntryRate(s: Sched, id: nat)
    ensures RateAt(s, id) == if id in s.entries then RateOf(s.entries[id]) else 0
  {
  }

  lemma TenantTotals(h: Hier)
    requires Fixed(h)
    ensures h.tenantCount == |h.tenants| && h.config.maxTenants < 0x1_0000_0000
  {
  }

  lemma AddedAllocations(h: Hier, id: nat, n: Tenant, s: Sched)
    requires h.system.entries.Keys == h.tenants.Keys && s.entries.Keys == h.system.entries.Keys + {id}
    requires s.entries[id].allocation == n.allocation
    requires forall k | k in h.system.entries && k != id :: s.entries[k].allocation == h.system.entries[k].allocation
    requires forall t | t in h.tenants :: h.system.entries[t].allocation == h.tenants[t].allocation
    ensures h.tenants[id := n].Keys == s.entries.Keys == h.tenants.Keys + {id}
    ensures forall t | t in h.tenants[id := n] :: s.entries[t].allocation == h.tenants[id := n][t].allocation
  {
  }

  lemma AddedLedger(h: Hier, a: Allocation, pool: Pool, id: nat, s: Sched)
    requires LedgerOk(h) && id !in h.tenants
    requires Good(pool) && pool.maxEntries == h.tenantPool.maxEntries && Live(pool) == Live(h.tenantPool) + {id}
    requires (s.capacity, s.maxEntries, s.groups) == (h.system.capacity, h.system.maxEntries, h.system.groups)
    requires s.entries.Keys == h.system.entries.Keys + {id} && s.entries[id].allocation == a
    requires forall k | k in h.system.entries && k != id :: s.entries[k].allocation == h.system.entries[k].allocation
    requires s.order == [id] + h.system.order
    requires NewTenant(h.config, a, h.eras).pool.configured == 1 && NewTenant(h.config, a, h.eras).allocation == a
    ensures LedgerOk(Added(h, a, pool, id, s))
  {
    hide Good, Live, Total, FlowCounts, Listed, NewTenant;
    var n := NewTenant(h.config, a, h.eras);
    ListedWithNew(h.system, s, id);
    ListedMembers(h.system);
    ListedMembers(s);
    CountsWithNew(h.system.order, h.tenants, id, n);
    AddedSize(h.tenants, id, n);
    AddedAllocations(h, id, n, s);
  }

  lemma AddedSize(tenants: map<nat, Tenant>, id: nat, n: Tenant)
    requires id !in tenants
    ensures |tenants[id := n]| == |tenants| + 1
  {
    assert tenants[id := n].Keys == tenants.Keys + {id};
    assert |tenants[id := n].Keys| == |tenants[id := n]| && |tenants.Keys| == |tenants|;
  }

  lemma AddedParts(h: Hier, a: Allocation, s: Sched)
    requires Fixed(h) && NoWrap(h.system, a) && ValidAllocation(a) && Alloc(h.tenantPool).1.Some?
    requires a.Rate? ==> a.rate <= h.config.capacity
    requires (s, Success) == Configure(h.system, Alloc(h.tenantPool).1.value, a, true)
    ensures var (pool, id) := Alloc(h.tenantPool);
      var h' := Added(h, a, pool, id.value, s);
      LedgerOk(h') && SystemOk(h') && ErasOk(h') && id.value !in h.tenants
  {
    hide Consistent, Configure, NoWrap, Alloc, TenantOk, NewTenant, LedgerOk, Good, Live, ErasOk, SystemOk;
    var (pool, id) := Alloc(h.tenantPool);
    GivenIdIsFree(h);
    LedgerPools(h);
    SystemParts(h);
    AllocGivesFresh(h.tenantPool);
    AllocKeepsLimit(h.tenantPool);
    ConfigureEffect(h.system, id.value, a, true);
    ConfigureKeeps(h.system, id.value, a, true);
    NewTenantOk(h.config, a, h.eras);
    AddedLedger(h, a, pool, id.value, s);
    AddedSystem(h, a, pool, id.value, s);
    AddedEras(h, a, pool, id.value, s);
  }

  lemma AddedKeepsFixed(h: Hier, a: Allocation, s: Sched)
    requires Fixed(h) && NoWrap(h.system, a) && ValidAllocation(a) && Alloc(h.tenantPool).1.Some?
    requires a.Rate? ==> a.rate <= h.config.capacity
    requires (s, Success) == Configure(h.system, Alloc(h.tenantPool).1.value, a, true)
    ensures Fixed(Added(h, a, Alloc(h.tenantPool).0, Alloc(h.tenantPool).1.value, s))
  {
    hide Configure, NoWrap, Alloc, TenantOk, NewTenant, LedgerOk, ErasOk, SystemOk;
    var (pool, id) := Alloc(h.tenantPool);
    AddedParts(h, a, s);
    NewTenantOk(h.config, a, h.eras);
    var h' := Added(h, a, pool, id.value, s);
    assert forall t | t in h'.tenants && t != id.value :: h'.tenants[t] == h.tenants[t];
  }

  lemma SystemParts(h: Hier)
    requires SystemOk(h)
    ensures Consistent(h.system)
  {
  }

  lemma AddedSystem(h: Hier, a: Allocation, pool: Pool, id: nat, s: Sched)
    requires SystemOk(h) && Consistent(s) && s.groups == h.system.groups && id < s.maxEntries == h.system.maxEntries
    requires s.entries.Keys == h.system.entries.Keys + {id}
    ensures SystemOk(Added(h, a, pool, id, s))
  {
    hide Consistent, NewTenant;
  }

  lemma AddedEras(h: Hier, a: Allocation, pool: Pool, id: nat, s: Sched)
    requires ErasOk(h) && id !in h.tenants && NewTenant(h.config, a, h.eras).era == h.eras
    ensures ErasOk(Added(h, a, pool, id, s))
  {
    hide NewTenant;
  }

  lemma LedgerPools(h: Hier)
    requires LedgerOk(h)
    ensures Good(h.tenantPool) && Live(h.tenantPool) == h.tenants.Keys == h.system.entries.Keys
    ensures h.system.maxEntries == h.config.maxTenants
  {
  }

  lemma AddedKeepsSessions(h: Hier, a: Allocation, pool: Pool, id: nat, s: Sched)
    requires Moving(h) && id !in h.tenants && s.queue == h.system.queue && IsNew(NewTenant(h.config, a, h.eras), h.eras)
    ensures SessionsKept(h, Added(h, a, pool, id, s))
  {
    hide NewTenant, Coupled, BacklogOk, PlacesOk, QueueOk, FlightsOk;
  }

  lemma ListedMembers(s: Sched)
    requires Listed(s)
    ensures forall id :: id in s.order <==> id in s.entries
  {
  }

  lemma AllocKeepsLimit(p: Pool)
    ensures Alloc(p).0.maxEntries == p.maxEntries
  {
  }

  lemma NoEntryNoRate(s: Sched, id: nat)
    requires id !in s.entries
    ensures RateAt(s, id) == 0
  {
  }

  lemma ListedWithNew(s: Sched, s': Sched, id: nat)
    requires Listed(s) && id !in s.entries && s'.order == [id] + s.order && s'.entries.Keys == s.entries.Keys + {id}
    ensures Listed(s')
  {
  }

  // A rate that is admitted fits the capacity.
  lemma RatesFit(h: Hier, a: Allocation)
    requires Fixed(h) && NoWrap(h.system, a) && !WouldExceed(h, a, None)
    ensures a.Rate? ==> a.rate <= h.config.capacity
  {
    hide Fixed, Consistent;
    LevelsAgree(h, 0);
  }

  // Adding succeeds exactly on a valid allocation that fits the capacity, while there is a free id.
  lemma AddTenantSucceeds(h: Hier, a: Allocation)
    requires Fixed(h) && NoWrap(h.system, a)
    ensures AddTenant(h, a).1 == Success <==>
      && ValidAllocation(a) && |h.tenants| < h.config.maxTenants && |h.tenants| < MOST_IDS
      && (a.Rate? ==> h.allocatedRate + a.rate <= h.config.capacity)
    ensures AddTenant(h, a).1 != Success ==> AddTenant(h, a).0 == h
  {
    hide Fixed, Consistent, Configure, Good, Live, WouldExceed, FreeTenant, RateAt, Alloc, Release, LedgerOk, SystemOk,
         NoWrap;
    FreeTenantMeans(h);
    FullPool(h);
    AdmissionMeans(h, a);
    if ValidAllocation(a) && FreeTenant(h) && !WouldExceed(h, a, None) && Alloc(h.tenantPool).1.Some? {
      AddTenantIs(h, a);
    }
  }

  lemma AdmissionMeans(h: Hier, a: Allocation)
    requires Fixed(h) && NoWrap(h.system, a)
    ensures WouldExceed(h, a, None) <==> a.Rate? && h.allocatedRate + a.rate > h.config.capacity
  {
    hide Fixed, Consistent;
    LevelsAgree(h, 0);
  }

  lemma FullPool(h: Hier)
    requires Fixed(h)
    ensures Alloc(h.tenantPool).1.None? <==> |h.tenants| >= h.config.maxTenants || |h.tenants| == MOST_IDS
    ensures |h.tenants| <= MOST_IDS
  {
    hide TenantOk, Consistent;
    AllocFailsWhenFull(h.tenantPool);
    FreeCount(h.tenantPool);
    assert |h.tenants.Keys| == |h.tenants|;
  }

  lemma FreeTenantMeans(h: Hier)
    requires Fixed(h)
    ensures FreeTenant(h) <==> |h.tenants| < h.config.maxTenants
  {
    hide TenantOk, Consistent;
    var ids := Below(h.config.maxTenants);
    forall t | t in h.tenants
      ensures t in ids
    {
      TenantIdFits(h, t);
    }
    assert h.tenants.Keys <= ids && |h.tenants.Keys| == |h.tenants|;
    if FreeTenant(h) {
      var t: nat :| t < h.config.maxTenants && t !in h.tenants;
      SubsetSize(h.tenants.Keys, ids - {t});
    } else {
      assert forall t | t in ids :: t in h.tenants.Keys;
      SubsetSize(ids, h.tenants.Keys);
    }
  }

  lemma AddTenantKeeps(h: Hier, a: Allocation)
    requires Sound(h) && NoWrap(h.system, a)
    ensures Sound(AddTenant(h, a).0)
  {
    hide Fixed, Consistent, Configure, WouldExceed, RateAt, Alloc, Release, NoWrap, Moving, FreeTenant, NewTenant,
         SessionsKept, Timed, AllTimed;
    SoundParts(h);
    AddTenantSucceeds(h, a);
    if AddTenant(h, a).1 == Success {
      var h' := AddTenant(h, a).0;
      var id := Alloc(h.tenantPool).1.value;
      AddTenantIs(h, a);
      GivenIdIsFree(h);
      RatesFit(h, a);
      AddedKeepsFixed(h, a, Configure(h.system, id, a, true).0);
      LedgerParts(h);
      NewTenantOk(h.config, a, h.eras);
      ConfigureEffect(h.system, id, a, true);
      AddedKeepsSessions(h, a, Alloc(h.tenantPool).0, id, h'.system);
      TenantChangeMoving(h, h');
      TimedConfigure(h.system, id, a, true);
      TenantChangeTimed(h, h');
    }
  }

  // ---------- Removing a tenant ----------

  // The state with one tenant less.
  function Removed(h: Hier, t: nat): Hier
    requires t in h.tenants
  {
    var s := Unconfigure(h.system, t).0;
    h.(system := s, tenantPool := Release(h.tenantPool, t), tenants := h.tenants - {t},
       tenantCount := Minus(|h.tenants|, 1), allocatedRate := s.allocatedRate,
       totalFlows := Minus(h.totalFlows, Minus(h.tenants[t].pool.configured, 1)))
  }

  lemma RemoveTenantIs(h: Hier, t: nat)
    requires Fixed(h) && t in h.tenants && !h.tenants[t].hasBacklog
    ensures RemoveTenant(h, t) == (Removed(h, t), Success)
  {
    hide Fixed, Consistent, Unconfigure, LedgerOk, SystemOk, Wrap64, Wrap32, ErasOk, RateAt, TenantOk;
    TenantIdFits(h, t);
    LevelsAgree(h, t);
    EntryRate(h.system, t);
    FixedHasSystem(h);
    PoolHasReserved(h.config, h.tenants[t]);
    UnconfigureRateTotal(h.system, t);
    var rest := h.allocatedRate - RateAt(h.system, t);
    WrapSmall(rest);
    TenantTotals(h);
    CountWithout(h, t);
    WrapSmall(|h.tenants| - 1);
  }

  lemma CountWithout(h: Hier, t: nat)
    requires Fixed(h) && t in h.tenants
    ensures 0 < |h.tenants| < 0x1_0000_0000 && |h.tenants - {t}| == |h.tenants| - 1
  {
    hide TenantOk, Consistent;
    assert (h.tenants - {t}).Keys == h.tenants.Keys - {t};
    assert |(h.tenants - {t}).Keys| == |h.tenants - {t}| && |h.tenants.Keys| == |h.tenants|;
    FreeCount(h.tenantPool);
  }

  lemma CountsWithout(order: seq<nat>, tenants: map<nat, Tenant>, t: nat)
    requires Distinct(order) && t in order && forall u :: u in order <==> u in tenants
    ensures Distinct(Without(order, t)) && forall u :: u in Without(order, t) <==> u in tenants - {t}
    ensures Total(Without(order, t), FlowCounts(tenants - {t})) + Minus(tenants[t].pool.configured, 1)
         == Total(order, FlowCounts(tenants))
  {
    TotalWithout(order, FlowCounts(tenants), t);
    TotalSame(Without(order, t), FlowCounts(tenants), FlowCounts(tenants - {t}));
  }

  lemma RemovedLedger(h: Hier, t: nat)
    requires Fixed(h) && t in h.tenants
    ensures LedgerOk(Removed(h, t))
  {
    hide Fixed, Consistent, Unconfigure, SystemOk, ErasOk, TenantOk, Total, FlowCounts, Good, Live, Minus, Distinct,
         Without;
    LedgerParts(h);
    TenantIdFits(h, t);
    LedgerPools(h);
    ReleaseTakesBack(h.tenantPool, t);
    ReleaseKeepsLimit(h.tenantPool, t);
    UnconfigureEffect(h.system, t);
    RemovedTotal(h, t, Unconfigure(h.system, t).0);
    CountWithout(h, t);
    MinusOne(|h.tenants|);
  }

  lemma RemovedTotal(h: Hier, t: nat, s: Sched)
    requires LedgerOk(h) && t in h.tenants
    requires s.order == Without(h.system.order, t) && s.entries.Keys == h.system.entries.Keys - {t}
    ensures Listed(s) && forall id :: id in s.order ==> id in FlowCounts(h.tenants - {t})
    ensures Total(s.order, FlowCounts(h.tenants - {t})) == Minus(h.totalFlows, Minus(h.tenants[t].pool.configured, 1))
      <= h.totalFlows
  {
    hide Good, Live, Without, Total;
    CountsWithout(h.system.order, h.tenants, t);
    MinusIs(h.totalFlows, Total(Without(h.system.order, t), FlowCounts(h.tenants - {t})), h.tenants[t].pool.configured);
  }

  lemma ReleaseKeepsLimit(p: Pool, id: nat)
    ensures Release(p, id).maxEntries == p.maxEntries
  {
  }

  lemma MinusIs(total: nat, rest: nat, n: nat)
    requires rest + Minus(n, 1) == total
    ensures Minus(total, Minus(n, 1)) == rest
  {
  }

  lemma MinusOne(n: nat)
    requires n > 0
    ensures Minus(n, 1) == n - 1
  {
  }

  lemma RemovedFixed(h: Hier, t: nat)
    requires Fixed(h) && t in h.tenants
    ensures Fixed(Removed(h, t))
  {
    hide Consistent, Unconfigure, LedgerOk, TenantOk, Minus;
    RemovedLedger(h, t);
    TenantIdFits(h, t);
    UnconfigureEffect(h.system, t);
    UnconfigureKeeps(h.system, t);
  }

  // A tenant is only removed when it has no session queued.
  lemma RemoveTenantKeeps(h: Hier, t: nat)
    requires Sound(h)
    ensures Sound(RemoveTenant(h, t).0)
    ensures RemoveTenant(h, t).1 == Success ==> t in h.tenants && h.tenants[t].flows.queue == []
  {
    hide Fixed, Consistent, Unconfigure, RemoveTenant, Moving, Timed, AllTimed, SessionsKept;
    SoundParts(h);
    RemoveTenantCases(h, t);
    if t in h.tenants && !h.tenants[t].hasBacklog {
      RemoveTenantIs(h, t);
      RemovedFixed(h, t);
      LedgerParts(h);
      RemovedKeepsSessions(h, t);
      TenantChangeMoving(h, Removed(h, t));
      TimedConfigure(h.system, t, Unrecognised, false);
      TenantChangeTimed(h, Removed(h, t));
      MovingCoupled(h, t);
    }
  }

  lemma MovingCoupled(h: Hier, t: nat)
    requires Moving(h) && t in h.tenants
    ensures TenantCoupled(h.tenants[t])
  {
  }

  lemma RemoveTenantCases(h: Hier, t: nat)
    ensures (t in h.tenants ==> h.tenants[t].hasBacklog)
      ==> RemoveTenant(h, t).0 == h && RemoveTenant(h, t).1 != Success
  {
  }

  lemma RemovedKeepsSessions(h: Hier, t: nat)
    requires Fixed(h) && Moving(h) && t in h.tenants && !h.tenants[t].hasBacklog
    ensures SessionsKept(h, Removed(h, t))
  {
    hide Fixed, Coupled, BacklogOk, PlacesOk, QueueOk, FlightsOk, Unconfigure, LedgerOk, Consistent, Minus, ErasOk,
         SystemOk, Moving, Release;
    LedgerParts(h);
    TenantIdFits(h, t);
    LedgerPools(h);
    UnconfigureEffect(h.system, t);
  }
}
