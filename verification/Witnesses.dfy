/**
 Runs of the two-level scheduler, from its initialisation, that come to where its promises end:
 each uses one tenant and one flow.
 */
module Witnesses {
  import opened Machine
  import opened Wfq
  import opened Lateness
  import opened Rebasing
  import opened Saturation
  import opened Pools
  import opened Flights
  import opened Hierarchy
  import opened Conduct
  import opened HierarchyLaws

  const HALF: nat := 0x8000_0000_0000_0000        // 2^63

  // ---------- Schedulers with one entry ----------

  function RateOfOne(capacity: nat): nat {
    Max(capacity / 2, 1)
  }

  function WithEntry(s: Sched, id: nat, last: nat): Sched {
    s.(entries := map[id := Entry(Weight(1), RateOfOne(s.capacity), last)], order := [id], totalWeight := 1)
  }

  predicate Bare(s: Sched) {
    s.entries == map[] && s.order == [] && s.totalWeight == 0 && s.allocatedRate == 0 && s.capacity <= U64_MAX
  }

  lemma RateForOne(capacity: nat)
    requires capacity <= U64_MAX
    ensures RateFor(capacity, 0, 1, Weight(1)) == RateOfOne(capacity)
  {
  }

  lemma ConfigureOne(s: Sched, id: nat)
    requires Bare(s) && id < s.maxEntries
    ensures Configure(s, id, Weight(1), true) == (WithEntry(s, id, 0), Success)
  {
    hide RateFor;
    RateForOne(s.capacity);
    var c := Charge(s, id, Weight(1));
    assert c.order == [id] && c.entries == map[id := Entry(Weight(1), 0, 0)];
    assert Recalculate(c).entries == WithEntry(s, id, 0).entries;
  }

  lemma UnconfigureOne(s: Sched, id: nat, last: nat)
    requires Bare(s) && id < s.maxEntries
    ensures Unconfigure(WithEntry(s, id, last), id) == (s, Success)
  {
    var d := Drop(WithEntry(s, id, last), id);
    assert d.order == [] && d.entries == map[];
    assert Recalculate(d).entries == map[];
  }

  // The session that an enqueue makes on a scheduler with one entry.
  function SessionOf(s: Sched, id: nat, last: nat, work: nat, data: nat): Session {
    var start := Max(s.v, last);
    var interval := Interval(work, RateOfOne(s.capacity));
    Session(id, work, data, interval, start, Saturating(start, interval))
  }

  lemma EnqueueOne(s: Sched, id: nat, last: nat, work: nat, data: nat)
    requires Bare(s) && s.groups == 16 && id < s.maxEntries && work > 0
    ensures var t, x := WithEntry(s, id, last), SessionOf(s, id, last, work, data);
      && EnqueueStatus(t, id, work) == Success
      && Wfq.Enqueue(t, id, work, data) == WithEntry(s, id, x.finish).(queue := s.queue + [x])
  {
    hide RateFor, Interval, GroupIndex, Saturating;
    RateForOne(s.capacity);
    GroupSmall(Interval(work, RateOfOne(s.capacity)));
  }

  lemma GroupSmall(interval: nat)
    ensures GroupIndex(interval) < 16
  {
  }

  // Serving the only session leaves virtual time at 2^63: nothing is queued.
  lemma ServeOne(s: Sched, id: nat, last: nat, x: Session, work: nat)
    requires Bare(s) && s.queue == [x] && s.v <= U64_MAX && x.start <= s.v && x.finish < U64_MAX
    ensures var t := WithEntry(s, id, last);
      && CanServe(t, 0)
      && Update(Take(t, 0), work)
         == WithEntry(s, id, Minus(last, HALF - 1)).(queue := [], v := HALF, epoch := s.epoch + HALF - 1)
  {
    hide Delta;
    var t := WithEntry(s, id, last);
    ServesOnly(t);
    assert t.queue[0] in t.queue && ChoiceTime(t) == s.v;
    assert RemoveAt(t.queue, 0) == [];
    var a := Advance(Take(t, 0), work);
    assert a == Take(t, 0).(v := U64_MAX);
    assert ShiftEntries(a.entries, HALF - 1) == WithEntry(s, id, Minus(last, HALF - 1)).entries;
    assert ShiftQueue([], HALF - 1) == [];
  }

  // ---------- One tenant with one flow ----------

  function Small(capacity: nat): Config {
    Config(1, 1, 0, capacity, 16)
  }

  function FlowsAt(capacity: nat): Sched {
    Empty(capacity, 2, 16)
  }

  function SystemAt(capacity: nat): Sched {
    Empty(capacity, 1, 16)
  }

  // The tenant with its flow 1, before anything is enqueued.
  function OneFlow(capacity: nat, era: nat): Tenant {
    Tenant(Weight(1), WithEntry(FlowsAt(capacity), 1, 0), Pool(2, 2, 2, []), false, 0, map[], era)
  }

  ghost predicate NoTenants(h: Hier, s: Sched) {
    && h.config == Small(s.capacity) && 0 < s.capacity
    && Bare(s) && s.maxEntries == 1 && s.groups == 16 && h.system == s
    && h.tenants == map[] && (h.totalFlows, h.tenantCount, h.allocatedRate) == (0, 0, 0)
    && Alloc(h.tenantPool).1 == Some(0)
  }

  // The state after a tenant and a flow have been added to a scheduler without tenants.
  function Opened(h: Hier, s: Sched): Hier {
    h.(tenantPool := Alloc(h.tenantPool).0, system := WithEntry(s, 0, 0),
       tenants := map[0 := OneFlow(s.capacity, h.eras)], eras := h.eras + 1, tenantCount := 1, totalFlows := 1)
  }

  lemma Opens(h: Hier, s: Sched)
    requires NoTenants(h, s)
    ensures AddTenant(h, Weight(1)).1 == Success
    ensures AddFlow(AddTenant(h, Weight(1)).0, 0, Weight(1)) == (Opened(h, s), Success)
  {
    hide Configure, Alloc, RateFor;
    assert FreeTenant(h) by { assert 0 !in h.tenants; }
    ConfigureOne(s, 0);
    var n := NewTenant(h.config, Weight(1), h.eras);
    PoolOfOne();
    assert n == Tenant(Weight(1), FlowsAt(s.capacity), Pool(2, 1, 1, []), false, 0, map[], h.eras);
    ConfigureOne(FlowsAt(s.capacity), 1);
    var h1 := AddTenant(h, Weight(1)).0;
    assert h1.tenants == map[0 := n] && h1.system == WithEntry(s, 0, 0);
    assert AddFlow(h1, 0, Weight(1)).0.tenants == map[0 := OneFlow(s.capacity, h.eras)];
  }

  lemma PoolOfOne()
    ensures Alloc(Fresh(2)) == (Pool(2, 1, 1, []), Some(0))
    ensures Alloc(Pool(2, 1, 1, [])) == (Pool(2, 2, 2, []), Some(1))
  {
  }

  // A tenant with one flow, both idle or with sessions of the given flow scheduler queued.
  ghost predicate OneTenant(h: Hier, n: Tenant, s: Sched, last: nat, r: Sched, systemLast: nat) {
    && h.config == Small(s.capacity) && h.tenants == map[0 := n]
    && Bare(s) && s.maxEntries == 2 && s.groups == 16 && n.flows == WithEntry(s, 1, last)
    && Bare(r) && r.maxEntries == 1 && r.groups == 16 && h.system == WithEntry(r, 0, systemLast)
  }

  // The state after a session has been enqueued for it while it was idle.
  function Filled(h: Hier, n: Tenant, s: Sched, last: nat, r: Sched, systemLast: nat, work: nat, data: nat): Hier {
    var x := SessionOf(s, 1, last, work, |h.contexts|);
    var y := SessionOf(r, 0, systemLast, TENANT_QUANTUM, 0);
    h.(contexts := h.contexts + [Context(|h.contexts|, 0, n.era, 1, work, data, 0)],
       tenants := map[0 := n.(hasBacklog := true,
                              backlog := Wrap32(n.backlog + 1),
                              flowBacklog := n.flowBacklog[1 := Wrap32(FlowBacklog(n, 1) + 1)],
                              flows := WithEntry(s, 1, x.finish).(queue := s.queue + [x]))],
       system := WithEntry(r, 0, y.finish).(queue := r.queue + [y]))
  }

  lemma Fills(h: Hier, n: Tenant, s: Sched, last: nat, r: Sched, systemLast: nat, work: nat, data: nat)
    requires OneTenant(h, n, s, last, r, systemLast) && !n.hasBacklog && work > 0
    ensures Hierarchy.Enqueue(h, 0, 1, work, data, 0) == (Filled(h, n, s, last, r, systemLast, work, data), Success)
  {
    hide Wfq.Enqueue, EnqueueStatus, Interval, Saturating, Bare, Wrap32;
    EnqueueOne(s, 1, last, work, |h.contexts|);
    EnqueueOne(r, 0, systemLast, TENANT_QUANTUM, 0);
    var h' := Hierarchy.Enqueue(h, 0, 1, work, data, 0).0;
    assert h'.tenants == Filled(h, n, s, last, r, systemLast, work, data).tenants;
  }

  // ---------- Handing out the only session ----------

  // Virtual time after the last session has gone.
  function Emptied(s: Sched): Sched {
    s.(queue := [], v := HALF, epoch := s.epoch + HALF - 1)
  }

  function Served(h: Hier, n: Tenant, s: Sched, last: nat, r: Sched, systemLast: nat, x: Context): Hier {
    h.(tenants := map[0 := n.(hasBacklog := false, flows := WithEntry(Emptied(s), 1, Minus(last, HALF - 1)))],
       system := WithEntry(Emptied(r), 0, Minus(systemLast, HALF - 1)),
       inFlight := h.inFlight + [Flight(x.tenant, x.flow, x.work, x.data, 0, x.timeout)],
       inFlightWork := Wrap64(h.inFlightWork + x.work),
       inFlightCount := Wrap32(h.inFlightCount + 1),
       airborne := h.airborne + [x])
  }

  // The only session of a queue, reached by virtual time.
  predicate Ready(s: Sched, y: Session) {
    s.queue == [y] && y.start <= s.v <= U64_MAX && y.finish < U64_MAX
  }

  // First the tenant's turn.
  lemma TurnComes(h: Hier, n: Tenant, s: Sched, last: nat, r: Sched, systemLast: nat, b: Session)
    requires OneTenant(h, n, s, last, r, systemLast) && Ready(r, b) && b.data == 0
    ensures CanServe(h.system, 0) && h.system.queue == [b]
    ensures ServeTenant(h, 0) == h.(tenants := map[0 := n.(hasBacklog := false)],
                                    system := WithEntry(Emptied(r), 0, Minus(systemLast, HALF - 1)))
  {
    hide Update, Take, Bare, CanServe;
    ServeOne(r, 0, systemLast, b, b.work);
    assert ServeTenant(h, 0).tenants == map[0 := n.(hasBacklog := false)];
  }

  // Then its flow's.
  lemma FlowComes(g: Hier, n: Tenant, s: Sched, last: nat, a: Session, x: Context)
    requires g.tenants == map[0 := n] && !n.hasBacklog && n.flows == WithEntry(s, 1, last) && Bare(s) && Ready(s, a)
    requires a.data < |g.contexts| && g.contexts[a.data] == x && !ExceedsCapacity(g, x.work)
    ensures CanServe(n.flows, 0) && n.flows.queue == [a]
    ensures ServeFlow(g, 0, Some(0), 0) ==
      (g.(tenants := map[0 := n.(flows := WithEntry(Emptied(s), 1, Minus(last, HALF - 1)))],
          inFlight := g.inFlight + [Flight(x.tenant, x.flow, x.work, x.data, 0, x.timeout)],
          inFlightWork := Wrap64(g.inFlightWork + x.work),
          inFlightCount := Wrap32(g.inFlightCount + 1),
          airborne := g.airborne + [x]),
       Answer(Success, Some(x)))
  {
    hide Update, Take, Bare, Wrap64, Wrap32, CanServe;
    ServeOne(s, 1, last, a, x.work);
    var f := WithEntry(Emptied(s), 1, Minus(last, HALF - 1));
    assert Update(Take(n.flows, 0), x.work) == f && f.queue == [];
    assert ServeFlow(g, 0, Some(0), 0).0.tenants == map[0 := n.(flows := f)];
  }

  lemma HandsOut(h: Hier, n: Tenant, s: Sched, last: nat, r: Sched, systemLast: nat, a: Session, b: Session, x: Context)
    requires OneTenant(h, n, s, last, r, systemLast) && Ready(s, a) && Ready(r, b) && b.data == 0
    requires a.data < |h.contexts| && h.contexts[a.data] == x && !ExceedsCapacity(h, x.work)
    ensures MayChoose(h, Some(0), Some(0))
    ensures Dequeue(h, Some(0), Some(0), 0)
         == (Served(h, n, s, last, r, systemLast, x), Answer(Success, Some(x)))
  {
    hide Bare, Wrap64, Wrap32, CanServe, ServeTenant, ServeFlow;
    TurnComes(h, n, s, last, r, systemLast, b);
    FlowComes(ServeTenant(h, 0), n.(hasBacklog := false), s, last, a, x);
  }

  // ---------- Putting the steps together ----------

  lemma {:induction false} RequestsAppend(h: Hier, requests: seq<Request>, r: Request)
    requires AreRequests(h, requests) && CanHappen(AfterRequests(h, requests), r)
    ensures AreRequests(h, requests + [r])
    ensures AfterRequests(h, requests + [r]) == Next(AfterRequests(h, requests), r)
    decreases requests
  {
    hide CanHappen, Next;
    if requests == [] {
      assert [r][1..] == [];
    } else {
      RequestsAppend(Next(h, requests[0]), requests[1..], r);
      assert (requests + [r])[1..] == requests[1..] + [r];
    }
  }

  // A run from the initialisation for the given capacity comes to h.
  ghost predicate Comes(capacity: nat, requests: seq<Request>, h: Hier) {
    AreRequests(Init(Small(capacity)), requests) && AfterRequests(Init(Small(capacity)), requests) == h
  }

  lemma ComesOn(capacity: nat, requests: seq<Request>, h: Hier, r: Request)
    requires Comes(capacity, requests, h) && CanHappen(h, r)
    ensures Comes(capacity, requests + [r], Next(h, r))
  {
    hide CanHappen, Next;
    RequestsAppend(Init(Small(capacity)), requests, r);
  }

  function OpenTenant(): seq<Request> {
    [DoAddTenant(Weight(1)), DoAddFlow(0, Weight(1))]
  }

  lemma ComesToOpen(capacity: nat)
    requires 0 < capacity <= U64_MAX
    ensures var h0, s := Init(Small(capacity)), SystemAt(capacity);
      NoTenants(h0, s) && Comes(capacity, OpenTenant(), Opened(h0, s))
  {
    hide AddTenant, AddFlow;
    var h0, s := Init(Small(capacity)), SystemAt(capacity);
    assert Alloc(Fresh(1)) == (Pool(1, 1, 1, []), Some(0));
    Opens(h0, s);
    OpensLists(h0);
    var h1 := Next(h0, DoAddTenant(Weight(1)));
    assert OpenTenant()[1..] == [DoAddFlow(0, Weight(1))];
    assert OpenTenant()[1..][1..] == [];
  }

  // Adding a tenant leaves the sessions in flight alone.
  lemma OpensLists(h: Hier)
    ensures AddTenant(h, Weight(1)).0.inFlight == h.inFlight && AddTenant(h, Weight(1)).0.airborne == h.airborne
  {
    hide Configure, Alloc, RateExceeds, NewTenant, FreeTenant;
  }

  // An idle tenant's schedulers, as they are at first and after each time they have emptied.
  ghost predicate Idle(h: Hier, n: Tenant, s: Sched, last: nat, r: Sched, systemLast: nat) {
    && OneTenant(h, n, s, last, r, systemLast) && !n.hasBacklog
    && s.queue == [] && r.queue == [] && last <= s.v <= HALF && systemLast <= r.v <= HALF
    && |h.inFlight| == |h.airborne|
  }

  // With one session enqueued.
  lemma FilledIs(h: Hier, n: Tenant, s: Sched, last: nat, r: Sched, systemLast: nat, work: nat, data: nat)
    requires Idle(h, n, s, last, r, systemLast) && 0 < work
    ensures var h', x := Filled(h, n, s, last, r, systemLast, work, data), SessionOf(s, 1, last, work, |h.contexts|);
      var y := SessionOf(r, 0, systemLast, TENANT_QUANTUM, 0);
      && OneTenant(h', h'.tenants[0], s.(queue := [x]), x.finish, r.(queue := [y]), y.finish)
      && x.start == s.v && y.start == r.v
  {
    hide Interval, Wrap32;
  }

  // Both sessions can be chosen at once and finish before the range of virtual time ends.
  lemma FilledIsReady(s: Sched, last: nat, work: nat, id: nat, data: nat)
    requires last <= s.v <= HALF && s.queue == [] && Interval(work, RateOfOne(s.capacity)) < HALF - 1
    ensures var x := SessionOf(s, id, last, work, data);
      Ready(s.(queue := [x]), x) && x.finish < U64_MAX && Minus(x.finish, HALF - 1) <= HALF
  {
    hide Interval;
  }

  lemma QuantumIsShort(capacity: nat)
    requires 0 < capacity
    ensures Interval(TENANT_QUANTUM, RateOfOne(capacity)) < HALF - 1
  {
    Shorter(TENANT_QUANTUM * TIME_SCALE, RateOfOne(capacity));
  }

  lemma Shorter(n: nat, d: nat)
    requires d > 0
    ensures n / d <= n
  {
    if n / d > n {
      Scale(n / d, 1, d);
    }
  }

  // With the session handed out.
  lemma ServedIs(h: Hier, n: Tenant, s: Sched, last: nat, r: Sched, systemLast: nat, x: Context)
    requires OneTenant(h, n, s, last, r, systemLast) && |h.inFlight| == |h.airborne|
    requires Minus(last, HALF - 1) <= HALF && Minus(systemLast, HALF - 1) <= HALF
    ensures var h' := Served(h, n, s, last, r, systemLast, x);
      Idle(h', h'.tenants[0], Emptied(s), Minus(last, HALF - 1), Emptied(r), Minus(systemLast, HALF - 1))
  {
    hide Wrap32, Wrap64;
  }

  // An idle tenant, whatever its times.
  ghost predicate Resting(h: Hier, capacity: nat) {
    exists s, last, r, systemLast ::
      0 in h.tenants && Idle(h, h.tenants[0], s, last, r, systemLast) && s.capacity == capacity == r.capacity
  }

  // What a round leaves of the rest of the state.
  predicate AfterRound(h: Hier, h': Hier, work: nat, data: nat) {
    && 0 in h.tenants && 0 in h'.tenants && h'.config == h.config
    && h'.inFlight == h.inFlight + [Flight(0, 1, work, data, 0, 0)]
    && h'.airborne == h.airborne + [Context(|h.contexts|, 0, h.tenants[0].era, 1, work, data, 0)]
    && h'.inFlightWork == Wrap64(h.inFlightWork + work) && |h'.contexts| == |h.contexts| + 1
    && (h'.tenantPool, h'.eras, h'.totalFlows, h'.tenantCount, h'.allocatedRate)
       == (h.tenantPool, h.eras, h.totalFlows, h.tenantCount, h.allocatedRate)
    && var n, n' := h.tenants[0], h'.tenants[0];
       (n'.allocation, n'.pool, n'.era, n'.backlog, n'.flowBacklog)
       == (n.allocation, n.pool, n.era, Wrap32(n.backlog + 1), n.flowBacklog[1 := Wrap32(FlowBacklog(n, 1) + 1)])
  }

  // Enqueuing a session for an idle tenant, and handing it out.
  lemma ComesRound(capacity: nat, requests: seq<Request>, h: Hier, work: nat, data: nat) returns (h': Hier)
    requires Comes(capacity, requests, h) && Resting(h, capacity) && 0 < capacity
    requires 0 < work && Interval(work, RateOfOne(capacity)) < HALF - 1 && !ExceedsCapacity(h, work)
    ensures Comes(capacity, requests + [DoEnqueue(0, 1, work, data, 0)] + [DoDequeue(Some(0), Some(0), 0)], h')
    ensures Resting(h', capacity) && AfterRound(h, h', work, data)
  {
    hide Wrap32, Wrap64, Interval, Comes, Hierarchy.Enqueue, Dequeue, OneTenant, MayChoose;
    var s, last, r, systemLast :|
      0 in h.tenants && Idle(h, h.tenants[0], s, last, r, systemLast) && s.capacity == capacity == r.capacity;
    var n := h.tenants[0];
    var x, y := SessionOf(s, 1, last, work, |h.contexts|), SessionOf(r, 0, systemLast, TENANT_QUANTUM, 0);
    var h1 := Filled(h, n, s, last, r, systemLast, work, data);
    Fills(h, n, s, last, r, systemLast, work, data);
    ComesOn(capacity, requests, h, DoEnqueue(0, 1, work, data, 0));
    FilledIs(h, n, s, last, r, systemLast, work, data);
    FilledIsReady(s, last, work, 1, |h.contexts|);
    QuantumIsShort(capacity);
    FilledIsReady(r, systemLast, TENANT_QUANTUM, 0, 0);
    var s1, r1, c := s.(queue := [x]), r.(queue := [y]), h1.contexts[|h.contexts|];
    HandsOut(h1, h1.tenants[0], s1, x.finish, r1, y.finish, x, y, c);
    ComesOn(capacity, requests + [DoEnqueue(0, 1, work, data, 0)], h1, DoDequeue(Some(0), Some(0), 0));
    h' := Served(h1, h1.tenants[0], s1, x.finish, r1, y.finish, c);
    ServedIs(h1, h1.tenants[0], s1, x.finish, r1, y.finish, c);
  }

  lemma OpenedRests(h: Hier, s: Sched)
    requires NoTenants(h, s) && s.queue == [] && s.v <= HALF && |h.inFlight| == |h.airborne|
    ensures Resting(Opened(h, s), s.capacity)
    ensures Opened(h, s).inFlight == h.inFlight && Opened(h, s).airborne == h.airborne
  {
    var h', f := Opened(h, s), FlowsAt(s.capacity);
    assert 0 in h'.tenants && Idle(h', h'.tenants[0], f, 0, s, 0) && f.capacity == s.capacity;
  }

  // ---------- The test for room ----------

  // Two sessions go into flight, the second with work that wraps the sum, and far more work is in
  // flight than the capacity.
  lemma RunAdmitsTooMuch()
    ensures exists h: Hier ::
      && Comes(100, OpenTenant() + [DoEnqueue(0, 1, 10, 7, 0)] + [DoDequeue(Some(0), Some(0), 0)]
                    + [DoEnqueue(0, 1, U64_MAX - 4, 9, 0)] + [DoDequeue(Some(0), Some(0), 0)], h)
      && h.inFlightWork == 5 && WorkOf(h.inFlight) > U64_MAX
  {
    hide Comes, Resting;
    var h0, s := Init(Small(100)), SystemAt(100);
    ComesToOpen(100);
    OpenedRests(h0, s);
    var h1 := ComesRound(100, OpenTenant(), Opened(h0, s), 10, 7);
    var h2 := ComesRound(100, OpenTenant() + [DoEnqueue(0, 1, 10, 7, 0)] + [DoDequeue(Some(0), Some(0), 0)], h1,
                         U64_MAX - 4, 9);
    TwoFlights(h2.inFlight);
  }

  lemma TwoFlights(fs: seq<Flight>)
    requires |fs| == 2
    ensures WorkOf(fs) == fs[0].work + fs[1].work
  {
    assert fs[..|fs| - 1] == [fs[0]] && [fs[0]][..0] == [];
    assert WorkOf([fs[0]]) == fs[0].work;
  }

  // ---------- A finish time that saturates ----------

  lemma LongSession()
    ensures SessionOf(FlowsAt(1), 1, 0, HUGE, 0) == Session(1, HUGE, 0, U64_MAX, 0, U64_MAX)
  {
  }

  // One enormous session is accepted, and then a dequeue fails inside.
  lemma RunFailsInside()
    ensures exists h: Hier ::
      && Comes(1, OpenTenant() + [DoEnqueue(0, 1, HUGE, 7, 0)], h) && MayChoose(h, Some(0), None)
      && Dequeue(h, Some(0), None, 0).1.status == Internal
  {
    hide Comes, Interval, Wrap32, Hierarchy.Enqueue, EnqueueStatus;
    var h0, s := Init(Small(1)), SystemAt(1);
    ComesToOpen(1);
    var h1, n := Opened(h0, s), OneFlow(1, 0);
    Fills(h1, n, FlowsAt(1), 0, s, 0, HUGE, 7);
    ComesOn(1, OpenTenant(), h1, DoEnqueue(0, 1, HUGE, 7, 0));
    var h2 := Filled(h1, n, FlowsAt(1), 0, s, 0, HUGE, 7);
    LongSession();
    var y := SessionOf(s, 0, 0, TENANT_QUANTUM, 0);
    QuantumIsShort(1);
    FilledIsReady(s, 0, TENANT_QUANTUM, 0, 0);
    ServesOnly(h2.system);
    OnlySaturated(h2.tenants[0].flows);
  }

  lemma OnlySaturated(s: Sched)
    requires |s.queue| == 1 && s.queue[0].finish == U64_MAX
    ensures CanServeNone(s)
  {
    assert forall x :: x in s.queue ==> x == s.queue[0];
  }

  // ---------- A tenant removed with a session in flight ----------

  // Removing the tenant leaves a scheduler without tenants, and its id is the next to be given.
  lemma RemovesTenant(h: Hier, n: Tenant, s: Sched, last: nat, r: Sched, systemLast: nat)
    requires Idle(h, n, s, last, r, systemLast) && n.pool.configured == 2 && n.allocation == Weight(1)
    requires (h.tenantPool, h.totalFlows, h.tenantCount, h.allocatedRate) == (Pool(1, 1, 1, []), 1, 1, 0)
    requires 0 < s.capacity == r.capacity
    ensures RemoveTenant(h, 0).1 == Success && NoTenants(RemoveTenant(h, 0).0, r)
    ensures RemoveTenant(h, 0).0
         == h.(system := r, tenants := map[], tenantPool := Pool(1, 1, 0, [0]), totalFlows := 0, tenantCount := 0)
  {
    hide Unconfigure;
    UnconfigureOne(r, 0, systemLast);
    assert h.tenants - {0} == map[];
    assert Release(h.tenantPool, 0) == Pool(1, 1, 0, [0]);
  }

  // The tenant is removed while its session is in flight, and added again under the same id.
  function Reopening(): seq<Request> {
    OpenTenant() + [DoEnqueue(0, 1, 10, 7, 0)] + [DoDequeue(Some(0), Some(0), 0)]
    + [DoRemoveTenant(0)] + [DoAddTenant(Weight(1))] + [DoAddFlow(0, Weight(1))]
  }

  lemma RunReopens() returns (h: Hier, r: Sched)
    ensures NoTenants(h, r) && r.queue == [] && r.v <= HALF && r.capacity == 100
    ensures |h.airborne| == 1 && h.inFlight == [Flight(0, 1, 10, 7, 0, 0)]
    ensures Comes(100, Reopening(), Opened(h, r))
  {
    hide Comes, AddTenant, AddFlow, RemoveTenant, Interval, Alloc;
    var h0, s0 := Init(Small(100)), SystemAt(100);
    ComesToOpen(100);
    OpenedRests(h0, s0);
    TenIsShort();
    var calls := OpenTenant();
    var h1 := ComesRound(100, calls, Opened(h0, s0), 10, 7);
    calls := calls + [DoEnqueue(0, 1, 10, 7, 0)] + [DoDequeue(Some(0), Some(0), 0)];
    var s, last, systemLast;
    s, last, r, systemLast :|
      0 in h1.tenants && Idle(h1, h1.tenants[0], s, last, r, systemLast) && s.capacity == 100 == r.capacity;
    FirstPool();
    RemovesTenant(h1, h1.tenants[0], s, last, r, systemLast);
    ComesOn(100, calls, h1, DoRemoveTenant(0));
    h := RemoveTenant(h1, 0).0;
    Opens(h, r);
    OpensLists(h);
    ComesOn(100, calls + [DoRemoveTenant(0)], h, DoAddTenant(Weight(1)));
    ComesOn(100, calls + [DoRemoveTenant(0)] + [DoAddTenant(Weight(1))], AddTenant(h, Weight(1)).0,
            DoAddFlow(0, Weight(1)));
  }

  // From there: a session is enqueued for the new tenant's flow, the old session is completed and
  // counted out of the new tenant, and the flow is removed over the session that is queued for it.
  lemma RunStrands()
    ensures exists h: Hier ::
      && Comes(100, Reopening() + [DoEnqueue(0, 1, 10, 8, 0)] + [DoComplete(0, 0, 1)], h)
      && RemoveFlow(h, 0, 1).1 == Success
      && var n := RemoveFlow(h, 0, 1).0.tenants[0];
         |n.flows.queue| == 1 && n.flows.queue[0].entry !in n.flows.entries
  {
    hide Comes, Hierarchy.Enqueue, Complete, RemoveFlow, Interval, Alloc, Reopening;
    var h, r := RunReopens();
    var n, h1 := OneFlow(100, h.eras), Opened(h, r);
    OpenedRests(h, r);
    Fills(h1, n, FlowsAt(100), 0, r, 0, 10, 8);
    ComesOn(100, Reopening(), h1, DoEnqueue(0, 1, 10, 8, 0));
    var h2 := Filled(h1, n, FlowsAt(100), 0, r, 0, 10, 8);
    FirstOfIs(h2.inFlight, 0, 1);
    EarlierFlightStrands(h2, 0, 1, 0);
    ComesOn(100, Reopening() + [DoEnqueue(0, 1, 10, 8, 0)], h2, DoComplete(0, 0, 1));
  }

  lemma TenIsShort()
    ensures Interval(10, RateOfOne(100)) < HALF - 1
  {
  }

  lemma FirstPool()
    ensures Alloc(Fresh(1)).0 == Pool(1, 1, 1, [])
  {
  }
}
