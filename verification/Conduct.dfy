/**
 What holds of the two-level scheduler between calls.
 */
module Conduct {
  import opened Machine
  import opened Wfq
  import opened Lateness
  import opened Rates
  import opened Rebasing
  import opened Saturation
  import opened Jobs
  import opened Pools
  import opened Flights
  import opened Hierarchy
  import opened Coupling
  import opened Backlogs

  // ---------- The fixed part: configuration and ledgers ----------

  ghost predicate ConfigOk(c: Config) {
    && c.groups >= 16
    && 0 < c.maxTenants < 0x1_0000_0000
    && 0 < c.maxFlowsPerTenant < 0xFFFF_FFFF
    && 0 < c.capacity <= U64_MAX
  }

  // The flows of a tenant are the live ids of its pool, less the reserved one.
  ghost predicate TenantOk(c: Config, n: Tenant) {
    && Consistent(n.flows)
    && n.flows.groups == c.groups && n.flows.maxEntries == n.pool.maxEntries == FlowsLimit(c)
    && Good(n.pool) && RESERVED_FLOW in Live(n.pool)
    && n.flows.entries.Keys == Live(n.pool) - {RESERVED_FLOW}
  }

  function FlowCounts(tenants: map<nat, Tenant>): map<nat, nat> {
    map t | t in tenants :: Minus(tenants[t].pool.configured, 1)
  }

  // The ledgers kept twice agree.
  ghost predicate LedgerOk(h: Hier) {
    && (h.system.capacity, h.system.maxEntries, h.system.groups)
       == (h.config.capacity, h.config.maxTenants, h.config.groups)
    && Good(h.tenantPool) && h.tenantPool.maxEntries == h.config.maxTenants
    && Live(h.tenantPool) == h.tenants.Keys == h.system.entries.Keys
    && (forall t | t in h.tenants :: h.system.entries[t].allocation == h.tenants[t].allocation)
    && h.allocatedRate == h.system.allocatedRate
    && h.tenantCount == |h.tenants|
    && Listed(h.system)
    && h.totalFlows == Total(h.system.order, FlowCounts(h.tenants)) < 0x1_0000_0000
    && (h.config.maxTotalFlows > 0 ==> h.totalFlows <= h.config.maxTotalFlows)
  }

  ghost predicate ErasOk(h: Hier) {
    && (forall t | t in h.tenants :: h.tenants[t].era < h.eras)
    && forall t, u | t in h.tenants && u in h.tenants && t != u :: h.tenants[t].era != h.tenants[u].era
  }

  ghost predicate Fixed(h: Hier) {
    && ConfigOk(h.config) && SystemOk(h) && LedgerOk(h) && ErasOk(h)
    && forall t | t in h.tenants :: TenantOk(h.config, h.tenants[t])
  }

  // ---------- The moving part: sessions ----------

  // A queued session is one that was accepted for this tenant and flow.
  ghost predicate Carries(contexts: seq<Context>, t: nat, n: Tenant, x: Session) {
    && x.data < |contexts| && x.work > 0 && x.entry in n.flows.entries
    && var c := contexts[x.data];
       (c.serial, c.tenant, c.era, c.flow, c.work) == (x.data, t, n.era, x.entry, x.work)
  }

  ghost predicate QueueOk(contexts: seq<Context>, t: nat, n: Tenant) {
    && (forall i | 0 <= i < |n.flows.queue| :: Carries(contexts, t, n, n.flows.queue[i]))
    && forall i, j | 0 <= i < j < |n.flows.queue| :: n.flows.queue[i].data != n.flows.queue[j].data
  }

  // The tenant that a session was accepted for is still there.
  predicate Present(tenants: map<nat, Tenant>, x: Context) {
    x.tenant in tenants && tenants[x.tenant].era == x.era
  }

  // A session in flight belongs to a flow that is still there, if its tenant is; and no other
  // tenant has its era.
  ghost predicate AirOk(tenants: map<nat, Tenant>, airborne: seq<Context>) {
    && (forall k | 0 <= k < |airborne| && Present(tenants, airborne[k]) ::
          airborne[k].flow in tenants[airborne[k].tenant].flows.entries)
    && forall k, u | 0 <= k < |airborne| && u in tenants && tenants[u].era == airborne[k].era :: airborne[k].tenant == u
  }

  predicate Embodies(f: Flight, x: Context) {
    (f.tenant, f.flow, f.work, f.data, f.timeout) == (x.tenant, x.flow, x.work, x.data, x.timeout) && x.work > 0
  }

  ghost predicate FlightsOk(h: Hier) {
    && |h.inFlight| == |h.airborne|
    && (forall k | 0 <= k < |h.airborne| :: Embodies(h.inFlight[k], h.airborne[k]))
    && h.inFlightWork == WorkOf(h.inFlight) <= h.config.capacity
    && h.inFlightCount == Wrap32(|h.inFlight|)
  }

  function Tickets(q: seq<Session>): set<nat> {
    set i | 0 <= i < |q| :: q[i].data
  }

  predicate Queued(tenants: map<nat, Tenant>, c: Context) {
    && c.tenant in tenants && tenants[c.tenant].era == c.era
    && c.serial in Tickets(tenants[c.tenant].flows.queue)
  }

  function One(b: bool): nat {
    if b then 1 else 0
  }

  // How many of the five places an accepted session is in.
  function Places(h: Hier, c: Context): nat {
    One(Queued(h.tenants, c)) + One(c in h.airborne) + One(c.serial in h.completed)
    + One(c.serial in h.cancelled) + One(c in h.timedOut)
  }

  ghost predicate Recorded(contexts: seq<Context>, xs: seq<Context>) {
    && (forall k | 0 <= k < |xs| :: xs[k].serial < |contexts| && contexts[xs[k].serial] == xs[k])
    && forall i, j | 0 <= i < j < |xs| :: xs[i] != xs[j]
  }

  ghost predicate PlacesOk(h: Hier) {
    && (forall x | 0 <= x < |h.contexts| ::
          h.contexts[x].serial == x && h.contexts[x].era < h.eras && Places(h, h.contexts[x]) == 1)
    && Recorded(h.contexts, h.airborne) && Recorded(h.contexts, h.timedOut)
    && forall x | x in h.completed + h.cancelled :: x < |h.contexts|
  }

  ghost predicate Moving(h: Hier) {
    && Coupled(h)
    && AirOk(h.tenants, h.airborne) && FlightsOk(h) && PlacesOk(h)
    && (forall t | t in h.tenants :: QueueOk(h.contexts, t, h.tenants[t]))
    && forall t | t in h.tenants :: BacklogOk(h.tenants[t], h.airborne, h.timedOut)
  }

  // The times of all schedulers are in order.
  ghost predicate AllTimed(h: Hier) {
    Timed(h.system) && forall t | t in h.tenants :: Timed(h.tenants[t].flows)
  }

  ghost predicate Sound(h: Hier) {
    Fixed(h) && Moving(h) && AllTimed(h)
  }

  // No finish time has saturated.
  predicate Unreached(s: Sched) {
    forall x :: x in s.queue ==> x.finish < U64_MAX
  }

  ghost predicate Quiet(h: Hier) {
    Unreached(h.system) && forall t | t in h.tenants :: Unreached(h.tenants[t].flows)
  }

  lemma TimesAreTimed(h: Hier)
    requires Sound(h)
    ensures Timed(h.system) && h.system.v < U64_MAX
    ensures forall t | t in h.tenants :: Timed(h.tenants[t].flows) && h.tenants[t].flows.v < U64_MAX
  {
  }

  // So on a quiet state nothing has saturated.
  lemma QuietMeans(h: Hier)
    requires Sound(h) && Quiet(h)
    ensures Unsaturated(h.system) && forall t | t in h.tenants :: Unsaturated(h.tenants[t].flows)
  {
    hide Fixed, Moving;
  }

  // ---------- The beginning ----------

  lemma InitIsSound(c: Config)
    requires ConfigOk(c)
    ensures Sound(Init(c)) && Quiet(Init(c))
  {
    var h := Init(c);
    assert Backlogged(h.tenants) == {};
  }

  // ---------- Calls that move sessions keep the fixed part ----------

  // Only the sessions of tenant t have moved.
  ghost predicate Moved(h: Hier, h': Hier, t: nat) {
    && t in h.tenants && t in h'.tenants && h'.tenants == h.tenants[t := h'.tenants[t]]
    && (h'.config, h'.tenantPool, h'.allocatedRate, h'.tenantCount, h'.totalFlows, h'.eras)
       == (h.config, h.tenantPool, h.allocatedRate, h.tenantCount, h.totalFlows, h.eras)
    && SameConfig(h.system, h'.system)
    && Stays(h.tenants[t], h'.tenants[t])
  }

  ghost predicate Stays(n: Tenant, n': Tenant) {
    (n'.allocation, n'.pool, n'.era) == (n.allocation, n.pool, n.era) && SameConfig(n.flows, n'.flows)
  }

  lemma SameConfigParts(s: Sched, s': Sched)
    requires SameConfig(s, s')
    ensures (s'.capacity, s'.maxEntries, s'.groups, s'.order, s'.totalWeight, s'.allocatedRate)
         == (s.capacity, s.maxEntries, s.groups, s.order, s.totalWeight, s.allocatedRate)
    ensures s'.entries.Keys == s.entries.Keys
    ensures forall id | id in s.entries :: s'.entries[id].allocation == s.entries[id].allocation
    ensures Listed(s) ==> Listed(s')
  {
  }

  lemma MovedKeepsLedger(h: Hier, h': Hier, t: nat)
    requires LedgerOk(h) && Moved(h, h', t)
    ensures LedgerOk(h')
  {
    hide SameConfig, Listed, Good, Live, Total, Distinct;
    SameConfigParts(h.system, h'.system);
    assert FlowCounts(h'.tenants) == FlowCounts(h.tenants);
  }

  lemma StaysOk(c: Config, n: Tenant, n': Tenant)
    requires TenantOk(c, n) && Stays(n, n')
    ensures TenantOk(c, n')
  {
    hide Consistent, SameConfig, Good, Live;
    SameConfigConsistent(n.flows, n'.flows);
    SameConfigParts(n.flows, n'.flows);
  }

  lemma MovedKeepsFixed(h: Hier, h': Hier, t: nat)
    requires Fixed(h) && Moved(h, h', t)
    ensures Fixed(h')
  {
    hide Consistent, SameConfig, LedgerOk, TenantOk;
    SameConfigConsistent(h.system, h'.system);
    SameConfigParts(h.system, h'.system);
    StaysOk(h.config, h.tenants[t], h'.tenants[t]);
    MovedKeepsLedger(h, h', t);
    assert forall u | u in h.tenants && u != t :: h'.tenants[u] == h.tenants[u];
  }
}
