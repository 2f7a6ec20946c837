/**
 The two-level scheduler as a value: tenants in the system scheduler, the flows of each tenant in
 its own, the sessions in flight, and the ledgers. Every call of the interface is a function
 here; a dequeue takes the positions that the two schedulers chose.

 The sessions accepted so far are numbered, and contexts keeps the number and the identity of
 each; airborne, completed, cancelled and timedOut say what became of those handed out. The
 program keeps none of this history, statements about runs do.
 */
module Hierarchy {
  import opened Machine
  import opened Wfq
  import opened Pools
  import opened Flights

  const TENANT_QUANTUM: nat := 4096
  const RESERVED_FLOW: nat := 0

  datatype Config = Config(
    maxTenants: nat, maxFlowsPerTenant: nat, maxTotalFlows: nat, capacity: nat, groups: nat)

  // A session accepted by an enqueue. era tells apart the tenants that have had the same id.
  datatype Context = Context(
    serial: nat, tenant: nat, era: nat, flow: nat, work: nat, data: nat, timeout: nat)

  datatype Tenant = Tenant(
    allocation: Allocation, flows: Sched, pool: Pool, hasBacklog: bool,
    backlog: nat, flowBacklog: map<nat, nat>, era: nat)

  datatype Hier = Hier(
    config: Config,
    tenants: map<nat, Tenant>,
    tenantPool: Pool,
    system: Sched,
    allocatedRate: nat,
    tenantCount: nat,
    totalFlows: nat,
    inFlight: seq<Flight>,
    inFlightWork: nat,
    inFlightCount: nat,
    eras: nat,
    contexts: seq<Context>,
    airborne: seq<Context>,
    completed: set<nat>,
    cancelled: set<nat>,
    timedOut: seq<Context>)

  function FlowsLimit(c: Config): nat {
    Wrap32(c.maxFlowsPerTenant + 1)
  }

  function Init(c: Config): Hier {
    Hier(c, map[], Fresh(c.maxTenants), Empty(c.capacity, c.maxTenants, c.groups),
         0, 0, 0, [], 0, 0, 0, [], [], {}, {}, [])
  }

  function FlowBacklog(n: Tenant, f: nat): nat {
    if f in n.flowBacklog then n.flowBacklog[f] else 0
  }

  function SetTenant(h: Hier, t: nat, n: Tenant): Hier {
    h.(tenants := h.tenants[t := n])
  }

  // ---------- Scheduling ----------

  // Queues a tenant in the system scheduler, if it is not queued there already.
  function Register(h: Hier, t: nat): Hier
    requires t in h.tenants
  {
    var n := h.tenants[t];
    if n.hasBacklog || EnqueueStatus(h.system, t, TENANT_QUANTUM) != Success then h
    else SetTenant(h, t, n.(hasBacklog := true)).(system := Wfq.Enqueue(h.system, t, TENANT_QUANTUM, t))
  }

  function EnqueueAnswer(h: Hier, t: nat, f: nat, work: nat): Status {
    if work == 0 || t >= h.config.maxTenants || f == RESERVED_FLOW then InvalidArg
    else if t !in h.tenants then NotFound
    else if f !in h.tenants[t].flows.entries then NotFound
    else EnqueueStatus(h.tenants[t].flows, f, work)
  }

  // Counts a session in and queues it with its flow.
  function Submit(n: Tenant, f: nat, work: nat, serial: nat): Tenant
    requires EnqueueStatus(n.flows, f, work) == Success
  {
    n.(backlog := Wrap32(n.backlog + 1),
       flowBacklog := n.flowBacklog[f := Wrap32(FlowBacklog(n, f) + 1)],
       flows := Wfq.Enqueue(n.flows, f, work, serial))
  }

  function Enqueue(h: Hier, t: nat, f: nat, work: nat, data: nat, timeout: nat): (Hier, Status) {
    var status := EnqueueAnswer(h, t, f, work);
    if status != Success then (h, status)
    else
      var x := Context(|h.contexts|, t, h.tenants[t].era, f, work, data, timeout);
      var h1 := SetTenant(h, t, Submit(h.tenants[t], f, work, x.serial)).(contexts := h.contexts + [x]);
      (Register(h1, t), Success)
  }

  // The choices that the two schedulers may make in a dequeue: i in the system scheduler, j in the
  // scheduler of the tenant it comes to.
  predicate MayChoose(h: Hier, i: Option<nat>, j: Option<nat>) {
    match i
    case None => CanServeNone(h.system)
    case Some(k) =>
      && CanServe(h.system, k)
      && (h.system.queue[k].data in h.tenants ==> MayChooseFlow(h.tenants[h.system.queue[k].data].flows, j))
  }

  predicate MayChooseFlow(s: Sched, j: Option<nat>) {
    match j
    case None => CanServeNone(s)
    case Some(k) => CanServe(s, k)
  }

  // The tenant's session is out of the system scheduler, whose time advances by its work.
  function ServeTenant(h: Hier, i: nat): Hier
    requires i < |h.system.queue| && h.system.queue[i].data in h.tenants
  {
    var x := h.system.queue[i];
    SetTenant(h, x.data, h.tenants[x.data].(hasBacklog := false)).(system := Update(Take(h.system, i), x.work))
  }

  predicate ExceedsCapacity(h: Hier, work: nat) {
    h.config.capacity > 0 && Wrap64(h.inFlightWork + work) > h.config.capacity
  }

  // A session that does not fit goes back to its flow, behind those queued there.
  function PutBack(h: Hier, t: nat, x: Context): Hier
    requires t in h.tenants
  {
    var h1 := Register(h, t);
    var n := h1.tenants[t];
    if EnqueueStatus(n.flows, x.flow, x.work) != Success then h1
    else SetTenant(h1, t, n.(flows := Wfq.Enqueue(n.flows, x.flow, x.work, x.serial)))
  }

  function HandOut(h: Hier, t: nat, x: Context, now: nat): Hier
    requires t in h.tenants
  {
    var n := h.tenants[t];
    var n1 := n.(flows := Update(n.flows, x.work));
    var h1 := SetTenant(h, t, n1).(
      inFlight := h.inFlight + [Flight(x.tenant, x.flow, x.work, x.data, now, x.timeout)],
      inFlightWork := Wrap64(h.inFlightWork + x.work),
      inFlightCount := Wrap32(h.inFlightCount + 1),
      airborne := h.airborne + [x]);
    if n1.flows.queue != [] then Register(h1, t) else h1
  }

  datatype Answer = Answer(status: Status, session: Option<Context>)

  // The second half of a dequeue: the scheduler of tenant t has chosen position j.
  function ServeFlow(h: Hier, t: nat, j: Option<nat>, now: nat): (Hier, Answer)
    requires t in h.tenants && (j.Some? ==> j.value < |h.tenants[t].flows.queue|)
  {
    var n := h.tenants[t];
    if j.None? then (SetTenant(h, t, n.(flows := TakeNone(n.flows))), Answer(Internal, None))
    else if n.flows.queue[j.value].data >= |h.contexts|
    then (SetTenant(h, t, n.(flows := Take(n.flows, j.value))), Answer(Internal, None))
    else
      var x := h.contexts[n.flows.queue[j.value].data];
      var h1 := SetTenant(h, t, n.(flows := Take(n.flows, j.value)));
      if ExceedsCapacity(h, x.work) then (PutBack(h1, t, x), Answer(NoWork, None))
      else (HandOut(h1, t, x, now), Answer(Success, Some(x)))
  }

  function Dequeue(h: Hier, i: Option<nat>, j: Option<nat>, now: nat): (Hier, Answer)
    requires MayChoose(h, i, j)
  {
    match i
    case None => (h.(system := TakeNone(h.system)), Answer(NoWork, None))
    case Some(k) =>
      var t := h.system.queue[k].data;
      if t !in h.tenants then (h.(system := Take(h.system, k)), Answer(Internal, None))
      else ServeFlow(ServeTenant(h, k), t, j, now)
  }

  // Takes the k-th flight out.
  function Land(h: Hier, k: nat): Hier
    requires k < |h.inFlight| && k < |h.airborne|
  {
    h.(inFlight := RemoveAt(h.inFlight, k),
       inFlightWork := Wrap64(h.inFlightWork - h.inFlight[k].work),
       inFlightCount := Wrap32(h.inFlightCount - 1),
       airborne := RemoveAt(h.airborne, k))
  }

  // Counts a session of flow f out of the backlogs.
  function CountOut(n: Tenant, f: nat): Tenant {
    n.(backlog := Minus(n.backlog, 1),
       flowBacklog := if f in n.flows.entries then n.flowBacklog[f := Minus(FlowBacklog(n, f), 1)] else n.flowBacklog)
  }

  function CountOutOf(h: Hier, t: nat, f: nat): Hier {
    if t >= h.config.maxTenants || t !in h.tenants then h else SetTenant(h, t, CountOut(h.tenants[t], f))
  }

  function Complete(h: Hier, data: nat, t: nat, f: nat): (Hier, Status) {
    match Find(h.inFlight, data, t, f)
    case None => (h, NotFound)
    case Some(k) =>
      if k >= |h.inFlight| || k >= |h.airborne| then (h, NotFound)
      else
        var h1 := CountOutOf(Land(h, k), t, f).(completed := h.completed + {h.airborne[k].serial});
        if t < h.config.maxTenants && t in h1.tenants && h1.tenants[t].flows.queue != []
        then (Register(h1, t), Success)
        else (h1, Success)
  }

  function Cancel(h: Hier, data: nat, t: nat, f: nat): (Hier, Status) {
    match Find(h.inFlight, data, t, f)
    case None => (h, NotFound)
    case Some(k) =>
      if k >= |h.inFlight| || k >= |h.airborne| then (h, NotFound)
      else (CountOutOf(Land(h, k), t, f).(cancelled := h.cancelled + {h.airborne[k].serial}), Success)
  }

  // The contexts that go with the flights a sweep keeps, and with those it takes.
  function Staying(fs: seq<Flight>, xs: seq<Context>, now: nat): seq<Context>
    requires |fs| == |xs|
  {
    if fs == [] then []
    else Staying(fs[..|fs| - 1], xs[..|xs| - 1], now) + if TimedOut(fs[|fs| - 1], now) then [] else [xs[|xs| - 1]]
  }

  function Leaving(fs: seq<Flight>, xs: seq<Context>, now: nat): seq<Context>
    requires |fs| == |xs|
  {
    if fs == [] then []
    else Leaving(fs[..|fs| - 1], xs[..|xs| - 1], now) + if TimedOut(fs[|fs| - 1], now) then [xs[|xs| - 1]] else []
  }

  // Sessions that time out leave the in-flight set; no backlog is counted down.
  function CheckTimeouts(h: Hier, now: nat): Hier
    requires |h.inFlight| == |h.airborne|
  {
    h.(inFlight := Kept(h.inFlight, now),
       inFlightWork := Wrap64(h.inFlightWork - WorkOf(Expired(h.inFlight, now))),
       inFlightCount := Wrap32(h.inFlightCount - |Expired(h.inFlight, now)|),
       airborne := Staying(h.inFlight, h.airborne, now),
       timedOut := h.timedOut + Leaving(h.inFlight, h.airborne, now))
  }

  // ---------- Configuration ----------

  // Whether allocation a, in place of was, takes the rates beyond the capacity.
  predicate RateExceeds(allocatedRate: nat, capacity: nat, a: Allocation, was: Option<Allocation>) {
    a.Rate? &&
    var current := if was.Some? && was.value.Rate? then Wrap64(allocatedRate - was.value.rate) else allocatedRate;
    Wrap64(current + a.rate) > capacity
  }

  predicate WouldExceed(h: Hier, a: Allocation, was: Option<Allocation>) {
    RateExceeds(h.allocatedRate, h.config.capacity, a, was)
  }

  // A tenant as it is made: flow id 0 is taken from its pool and never configured.
  function NewTenant(c: Config, a: Allocation, era: nat): Tenant {
    Tenant(a, Empty(if a.Rate? then a.rate else c.capacity, FlowsLimit(c), c.groups),
           Alloc(Fresh(FlowsLimit(c))).0, false, 0, map[], era)
  }

  predicate FreeTenant(h: Hier) {
    exists t: nat :: t < h.config.maxTenants && t !in h.tenants
  }

  function AddTenant(h: Hier, a: Allocation): (Hier, Status) {
    if !ValidAllocation(a) then (h, InvalidArg)
    else if !FreeTenant(h) then (h, NoMemory)
    else if WouldExceed(h, a, None) then (h, Overbooked)
    else
      var (pool, id) := Alloc(h.tenantPool);
      if id.None? then (h, NoMemory)
      else
        var (system, status) := Configure(h.system, id.value, a, true);
        if status != Success then (h.(tenantPool := Release(pool, id.value), system := system), status)
        else
          (h.(tenantPool := pool, system := system,
              tenants := h.tenants[id.value := NewTenant(h.config, a, h.eras)], eras := h.eras + 1,
              tenantCount := Wrap32(h.tenantCount + 1),
              allocatedRate := if a.Rate? then Wrap64(h.allocatedRate + a.rate) else h.allocatedRate),
           Success)
  }

  function ConfigureTenant(h: Hier, t: nat, a: Allocation): (Hier, Status) {
    if t >= h.config.maxTenants || !ValidAllocation(a) then (h, InvalidArg)
    else if t !in h.tenants then (h, NotFound)
    else if WouldExceed(h, a, Some(h.tenants[t].allocation)) then (h, Overbooked)
    else
      var was := h.tenants[t].allocation;
      var less := if was.Rate? then Wrap64(h.allocatedRate - was.rate) else h.allocatedRate;
      (SetTenant(h, t, h.tenants[t].(allocation := a)).(
         allocatedRate := if a.Rate? then Wrap64(less + a.rate) else less,
         system := Configure(h.system, t, a, true).0),
       Success)
  }

  // Takes the flows of a tenant that goes out of the total.
  function FlowsLeft(total: nat, configured: nat): nat {
    if configured == 0 then total else Minus(total, configured - 1)
  }

  function RemoveTenant(h: Hier, t: nat): (Hier, Status) {
    if t >= h.config.maxTenants then (h, InvalidArg)
    else if t !in h.tenants then (h, NotFound)
    else if h.tenants[t].hasBacklog then (h, HasBacklog)
    else
      var n := h.tenants[t];
      (h.(system := Unconfigure(h.system, t).0,
          tenantPool := Release(h.tenantPool, t),
          totalFlows := FlowsLeft(h.totalFlows, n.pool.configured),
          allocatedRate := if n.allocation.Rate? then Wrap64(h.allocatedRate - n.allocation.rate) else h.allocatedRate,
          tenants := h.tenants - {t},
          tenantCount := Wrap32(h.tenantCount - 1)),
       Success)
  }

  function AddFlow(h: Hier, t: nat, a: Allocation): (Hier, Status) {
    if t >= h.config.maxTenants || !ValidAllocation(a) then (h, InvalidArg)
    else if t !in h.tenants then (h, NotFound)
    else if h.config.maxTotalFlows > 0 && h.totalFlows >= h.config.maxTotalFlows then (h, NoMemory)
    else
      var n := h.tenants[t];
      var (pool, id) := Alloc(n.pool);
      if id.None? then (h, NoMemory)
      else
        var (flows, status) := Configure(n.flows, id.value, a, true);
        if status != Success then (SetTenant(h, t, n.(pool := Release(pool, id.value), flows := flows)), status)
        else
          (SetTenant(h, t, n.(pool := pool, flows := flows)).(totalFlows := Wrap32(h.totalFlows + 1)), Success)
  }

  function RemoveFlow(h: Hier, t: nat, f: nat): (Hier, Status) {
    if t >= h.config.maxTenants then (h, InvalidArg)
    else if t !in h.tenants then (h, NotFound)
    else
      var n := h.tenants[t];
      if f !in n.flows.entries then (h, NotFound)
      else if FlowBacklog(n, f) > 0 then (h, HasBacklog)
      else
        (SetTenant(h, t, n.(flows := Unconfigure(n.flows, f).0, pool := Release(n.pool, f))).(
           totalFlows := Minus(h.totalFlows, 1)),
         Success)
  }

  function ReconfigureFlow(h: Hier, t: nat, f: nat, a: Allocation): (Hier, Status) {
    if f == RESERVED_FLOW || t >= h.config.maxTenants || !ValidAllocation(a) then (h, InvalidArg)
    else if t !in h.tenants then (h, NotFound)
    else
      var n := h.tenants[t];
      if f !in n.flows.entries then (h, NotFound)
      else
        var (flows, status) := Configure(n.flows, f, a, true);
        (SetTenant(h, t, n.(flows := flows)), status)
  }
}
