/**
 The calls that move sessions: each keeps what holds between calls, and does with the session what
 the interface promises.
 */
module Scheduling {
  import opened Machine
  import opened Wfq
  import opened Rates
  import opened Rebasing
  import opened Saturation
  import opened Jobs
  import opened Pools
  import opened Flights
  import opened Hierarchy
  import opened Coupling
  import opened Backlogs
  import opened Conduct
  import opened Movement

  // ---------- Enqueue ----------

  // A flow's session is accepted exactly when it has work and its flow is there.
  lemma EnqueueAccepts(h: Hier, t: nat, f: nat, work: nat)
    requires Fixed(h)
    ensures EnqueueAnswer(h, t, f, work) == Success <==>
      work > 0 && t in h.tenants && f in h.tenants[t].flows.entries
    ensures EnqueueAnswer(h, t, f, work) in {Success, InvalidArg, NotFound}
  {
    hide Consistent, EnqueueStatus, LedgerOk, Good;
    if work > 0 && t in h.tenants && f in h.tenants[t].flows.entries {
      TenantIdFits(h, t);
      FlowEnqueueable(h.config, h.tenants[t], f, work);
    }
  }

  lemma TenantIdFits(h: Hier, t: nat)
    requires Fixed(h) && t in h.tenants
    ensures t < h.config.maxTenants
  {
  }

  lemma FlowEnqueueable(c: Config, n: Tenant, f: nat, work: nat)
    requires ConfigOk(c) && TenantOk(c, n) && f in n.flows.entries && work > 0
    ensures EnqueueStatus(n.flows, f, work) == Success && f != RESERVED_FLOW
  {
    hide Consistent, EnqueueStatus;
    Enqueueable(n.flows, f, work);
  }

  lemma BacklogFrame(n: Tenant, n': Tenant, airborne: seq<Context>, timedOut: seq<Context>)
    requires BacklogOk(n, airborne, timedOut)
    requires (n'.backlog, n'.flowBacklog, n'.era, n'.flows.queue) == (n.backlog, n.flowBacklog, n.era, n.flows.queue)
    ensures BacklogOk(n', airborne, timedOut)
  {
    forall key
      ensures Owed(n', key)
           == CountJobs(n'.flows.queue, key) + Count(airborne, n'.era, key) + Count(timedOut, n'.era, key)
    {
      assert Owed(n', key) == Owed(n, key);
    }
  }

  lemma AirMoved(h: Hier, h': Hier, t: nat, xs: seq<Context>)
    requires Moved(h, h', t) && AirOk(h.tenants, xs)
    ensures AirOk(h'.tenants, xs)
  {
    SameConfigParts(h.tenants[t].flows, h'.tenants[t].flows);
  }

  // Putting together what holds after a move.
  lemma MovingAfter(h: Hier, h': Hier, t: nat)
    requires Sound(h) && Moved(h, h', t) && h.contexts <= h'.contexts
    requires Waiting(h'.system.queue, Backlogged(h'.tenants)) && TenantCoupled(h'.tenants[t])
    requires AirOk(h'.tenants, h'.airborne) && FlightsOk(h') && PlacesOk(h')
    requires QueueOk(h'.contexts, t, h'.tenants[t])
    requires Timed(h'.system) && Timed(h'.tenants[t].flows)
    requires forall u | u in h'.tenants :: BacklogOk(h'.tenants[u], h'.airborne, h'.timedOut)
    ensures Sound(h')
  {
    hide Fixed, Waiting, TenantCoupled, AirOk, FlightsOk, PlacesOk, QueueOk, BacklogOk, SameConfig, Timed;
    MovedKeepsFixed(h, h', t);
    forall u | u in h'.tenants
      ensures QueueOk(h'.contexts, u, h'.tenants[u])
    {
      if u != t {
        QueueFrame(h.contexts, h'.contexts, u, h.tenants[u]);
      }
    }
    assert forall u | u in h'.tenants && u != t :: h'.tenants[u] == h.tenants[u];
  }

  // The state after a session is accepted, in pieces.
  lemma EnqueueMoves(h: Hier, t: nat, f: nat, work: nat, data: nat, timeout: nat)
    requires Sound(h) && EnqueueAnswer(h, t, f, work) == Success
    ensures var h' := Hierarchy.Enqueue(h, t, f, work, data, timeout).0;
      var n' := Submit(h.tenants[t], f, work, |h.contexts|);
      && Moved(h, h', t) && Waiting(h'.system.queue, Backlogged(h'.tenants))
      && h'.tenants[t] == n'.(hasBacklog := true)
      && h'.contexts == h.contexts + [Context(|h.contexts|, t, h.tenants[t].era, f, work, data, timeout)]
      && (h'.inFlight, h'.inFlightWork, h'.inFlightCount) == (h.inFlight, h.inFlightWork, h.inFlightCount)
      && (h'.airborne, h'.completed, h'.cancelled, h'.timedOut) == (h.airborne, h.completed, h.cancelled, h.timedOut)
  {
    hide Waiting, Wfq.Enqueue, EnqueueStatus, LedgerOk, TenantOk, AirOk, FlightsOk, PlacesOk, QueueOk, BacklogOk,
         SameConfig, Consistent, Register, ErasOk;
    var n := h.tenants[t];
    var x := Context(|h.contexts|, t, n.era, f, work, data, timeout);
    var n1 := Submit(n, f, work, x.serial);
    var h1 := SetTenant(h, t, n1).(contexts := h.contexts + [x]);
    EnqueueEffect(n.flows, f, work, x.serial);
    assert Backlogged(h1.tenants) == Backlogged(h.tenants);
    RegisterEffect(h1, t);
  }

  lemma EnqueueKeeps(h: Hier, t: nat, f: nat, work: nat, data: nat, timeout: nat)
    requires Sound(h) && (t in h.tenants ==> h.tenants[t].backlog + 1 < 0x1_0000_0000)
    ensures Sound(Hierarchy.Enqueue(h, t, f, work, data, timeout).0)
  {
    hide Fixed, Waiting, Wfq.Enqueue, EnqueueStatus, FlightsOk, PlacesOk, QueueOk, AirOk, BacklogOk, SameConfig, Timed;
    FixedHasEras(h);
    if EnqueueAnswer(h, t, f, work) == Success {
      var h' := Hierarchy.Enqueue(h, t, f, work, data, timeout).0;
      EnqueueMoves(h, t, f, work, data, timeout);
      EnqueueQueue(h, h', t, f, work, data, timeout);
      PlacesAfterEnqueue(h, h', t, h'.contexts[|h.contexts|]);
      AirMoved(h, h', t, h.airborne);
      SubmitCounts(h.tenants[t], h.airborne, h.timedOut, f, work, |h.contexts|);
      BacklogFrame(Submit(h.tenants[t], f, work, |h.contexts|), h'.tenants[t], h.airborne, h.timedOut);
      assert forall u | u in h'.tenants && u != t :: h'.tenants[u] == h.tenants[u];
      SubmitCouples(h.tenants[t], f, work, |h.contexts|);
      FlightsSame(h, h');
      EnqueueTimed(h, t, f, work, data, timeout);
      MovingAfter(h, h', t);
    }
  }

  lemma EnqueueTimed(h: Hier, t: nat, f: nat, work: nat, data: nat, timeout: nat)
    requires AllTimed(h) && EnqueueAnswer(h, t, f, work) == Success
    ensures var h' := Hierarchy.Enqueue(h, t, f, work, data, timeout).0;
      t in h'.tenants && Timed(h'.system) && Timed(h'.tenants[t].flows)
  {
    hide Timed, EnqueueStatus, Wfq.Enqueue, Register;
    var x := Context(|h.contexts|, t, h.tenants[t].era, f, work, data, timeout);
    var h1 := SetTenant(h, t, Submit(h.tenants[t], f, work, x.serial)).(contexts := h.contexts + [x]);
    TimedEnqueue(h.tenants[t].flows, f, work, x.serial);
    TimedRegister(h1, t);
    RegisterFlows(h1, t, t);
  }

  lemma FlightsSame(h: Hier, h': Hier)
    requires FlightsOk(h) && h'.config == h.config && h'.airborne == h.airborne
    requires (h'.inFlight, h'.inFlightWork, h'.inFlightCount) == (h.inFlight, h.inFlightWork, h.inFlightCount)
    ensures FlightsOk(h')
  {
  }

  lemma SubmitCouples(n: Tenant, f: nat, work: nat, serial: nat)
    requires EnqueueStatus(n.flows, f, work) == Success
    ensures TenantCoupled(Submit(n, f, work, serial).(hasBacklog := true))
  {
    hide EnqueueStatus;
  }

  // The new session in its queue.
  lemma EnqueueQueue(h: Hier, h': Hier, t: nat, f: nat, work: nat, data: nat, timeout: nat)
    requires EnqueueAnswer(h, t, f, work) == Success && Moved(h, h', t) && QueueOk(h.contexts, t, h.tenants[t])
    requires h'.tenants[t] == Submit(h.tenants[t], f, work, |h.contexts|).(hasBacklog := true)
    requires h'.contexts == h.contexts + [Context(|h.contexts|, t, h.tenants[t].era, f, work, data, timeout)]
    ensures QueueOk(h'.contexts, t, h'.tenants[t])
    ensures Tickets(h'.tenants[t].flows.queue) == Tickets(h.tenants[t].flows.queue) + {|h.contexts|}
  {
    hide EnqueueStatus, Wfq.Enqueue;
    var n, n' := h.tenants[t], h'.tenants[t];
    QueueFrame(h.contexts, h'.contexts, t, n);
    EnqueueEffect(n.flows, f, work, |h.contexts|);
    var x := n'.flows.queue[|n.flows.queue|];
    assert JobOf(x) == Job(f, work, |h.contexts|);
    forall i | 0 <= i < |n.flows.queue|
      ensures n.flows.queue[i].data < |h.contexts|
    {
      assert Carries(h.contexts, t, n, n.flows.queue[i]);
    }
    QueueAppend(h'.contexts, t, n, n');
  }

  // ---------- Dequeue ----------

  // The tenant that a dequeue comes to has a session for it, carried by its queue.
  lemma FlowChosen(h: Hier, i: nat, j: Option<nat>)
    requires Sound(h) && Quiet(h) && MayChoose(h, Some(i), j)
    ensures i < |h.system.queue| && h.system.queue[i].data in h.tenants && j.Some?
    ensures var t := h.system.queue[i].data;
      && j.value < |h.tenants[t].flows.queue|
      && Carries(h.contexts, t, h.tenants[t], h.tenants[t].flows.queue[j.value])
  {
    hide Fixed, Waiting, Wfq.CanServeNone, IsBest, BacklogOk, PlacesOk, FlightsOk, AirOk, Carries;
    assert Fixed(h);
    FixedHasSystem(h);
    ServeTenantEffect(h, i);
    QuietMeans(h);
    WorkConserving(h.tenants[h.system.queue[i].data].flows);
  }

  lemma FixedHasSystem(h: Hier)
    requires Fixed(h)
    ensures SystemOk(h) && ConfigOk(h.config) && forall t | t in h.tenants :: TenantOk(h.config, h.tenants[t])
  {
  }

  lemma TakeSameConfig(s: Sched, j: nat)
    requires j < |s.queue|
    ensures SameConfig(s, Take(s, j)) && Take(s, j).queue == RemoveAt(s.queue, j)
  {
  }

  // What is left alone besides tenant t and the system scheduler.
  ghost predicate OnlyTenant(h: Hier, h': Hier, t: nat) {
    && t in h.tenants && t in h'.tenants
    && h' == SetTenant(h, t, h'.tenants[t]).(system := h'.system)
    && SameConfig(h.system, h'.system)
  }

  // What the scheduler of a tenant makes of a session that is taken out and put back.
  lemma RequeueEffect(c: Config, n: Tenant, j: nat, x: Context)
    requires ConfigOk(c) && TenantOk(c, n) && j < |n.flows.queue| && x.flow in n.flows.entries && x.work > 0
    ensures var s := Take(n.flows, j);
      && EnqueueStatus(s, x.flow, x.work) == Success
      && var s' := Wfq.Enqueue(s, x.flow, x.work, x.serial);
         && SameConfig(n.flows, s')
         && |s'.queue| == |n.flows.queue| && s'.queue[..|n.flows.queue| - 1] == RemoveAt(n.flows.queue, j)
         && JobOf(s'.queue[|n.flows.queue| - 1]) == Job(x.flow, x.work, x.serial)
  {
    hide Consistent, SameConfig, TenantOk, Wfq.Enqueue, Take, EnqueueStatus;
    var s := Take(n.flows, j);
    TakeSameConfig(n.flows, j);
    StaysOk(c, n, n.(flows := s));
    SameConfigParts(n.flows, s);
    FlowEnqueueable(c, n.(flows := s), x.flow, x.work);
    EnqueueEffect(s, x.flow, x.work, x.serial);
    SameConfigTrans(n.flows, s, Wfq.Enqueue(s, x.flow, x.work, x.serial));
  }

  lemma PutBackMoves(g: Hier, t: nat, j: nat, x: Context)
    requires SystemOk(g) && Waiting(g.system.queue, Backlogged(g.tenants)) && ConfigOk(g.config)
    requires t in g.tenants && TenantOk(g.config, g.tenants[t]) && j < |g.tenants[t].flows.queue|
    requires x.flow in g.tenants[t].flows.entries && x.work > 0
    ensures var n := g.tenants[t];
      var h' := PutBack(SetTenant(g, t, n.(flows := Take(n.flows, j))), t, x);
      && OnlyTenant(g, h', t) && Waiting(h'.system.queue, Backlogged(h'.tenants))
      && var n', q := h'.tenants[t], n.flows.queue;
         && n' == n.(hasBacklog := true, flows := n'.flows) && SameConfig(n.flows, n'.flows)
         && |n'.flows.queue| == |q| && n'.flows.queue[..|q| - 1] == RemoveAt(q, j)
         && JobOf(n'.flows.queue[|q| - 1]) == Job(x.flow, x.work, x.serial)
  {
    hide Consistent, Waiting, SameConfig, TenantOk, Wfq.Enqueue, Take, EnqueueStatus, Register, SystemOk, RemoveAt;
    var n := g.tenants[t];
    var g1 := SetTenant(g, t, n.(flows := Take(n.flows, j)));
    assert Backlogged(g1.tenants) == Backlogged(g.tenants);
    SystemOkSame(g, g1);
    RegisterEffect(g1, t);
    RequeueEffect(g.config, n, j, x);
    var h' := PutBack(g1, t, x);
    assert Backlogged(h'.tenants) == Backlogged(Register(g1, t).tenants);
  }

  lemma SystemOkSame(g: Hier, g': Hier)
    requires SystemOk(g) && g'.system == g.system && g'.tenants.Keys == g.tenants.Keys
    ensures SystemOk(g')
  {
  }

  lemma HandOutMoves(g: Hier, t: nat, j: nat, x: Context, now: nat)
    requires SystemOk(g) && Waiting(g.system.queue, Backlogged(g.tenants))
    requires t in g.tenants && !g.tenants[t].hasBacklog && j < |g.tenants[t].flows.queue|
    ensures var n := g.tenants[t];
      var h' := HandOut(SetTenant(g, t, n.(flows := Take(n.flows, j))), t, x, now);
      && OnlyTenant(g.(inFlight := h'.inFlight, inFlightWork := h'.inFlightWork,
                       inFlightCount := h'.inFlightCount, airborne := h'.airborne), h', t)
      && h'.inFlight == g.inFlight + [Flight(x.tenant, x.flow, x.work, x.data, now, x.timeout)]
      && h'.inFlightWork == Wrap64(g.inFlightWork + x.work) && h'.inFlightCount == Wrap32(g.inFlightCount + 1)
      && h'.airborne == g.airborne + [x]
      && Waiting(h'.system.queue, Backlogged(h'.tenants))
      && var n' := h'.tenants[t];
         && n' == n.(hasBacklog := n'.hasBacklog, flows := n'.flows) && SameConfig(n.flows, n'.flows)
         && SameJobs(RemoveAt(n.flows.queue, j), n'.flows.queue) && TenantCoupled(n')
  {
    hide Consistent, Waiting, SameConfig, Update, Take, EnqueueStatus, Register, SystemOk, SameJobs, Wrap64, Wrap32;
    var n := g.tenants[t];
    var s := Take(n.flows, j);
    TakeSameConfig(n.flows, j);
    UpdateEffect(s, x.work);
    SameConfigTrans(n.flows, s, Update(s, x.work));
    var g1 := SetTenant(g, t, n.(flows := s));
    var n1 := n.(flows := Update(s, x.work));
    var h1 := SetTenant(g1, t, n1).(
      inFlight := g.inFlight + [Flight(x.tenant, x.flow, x.work, x.data, now, x.timeout)],
      inFlightWork := Wrap64(g.inFlightWork + x.work),
      inFlightCount := Wrap32(g.inFlightCount + 1),
      airborne := g.airborne + [x]);
    assert Backlogged(h1.tenants) == Backlogged(g.tenants);
    SystemOkSame(g, h1);
    SameConfigRefl(g.system);
    assert HandOut(g1, t, x, now) == if n1.flows.queue != [] then Register(h1, t) else h1;
    if n1.flows.queue != [] {
      RegisterEffect(h1, t);
    }
  }

  // A dequeue after both choices: tenant t, and the session of context x from position j of its queue.
  ghost predicate Chosen(h: Hier, i: nat, j: nat, t: nat, x: Context) {
    && i < |h.system.queue| && t == h.system.queue[i].data && t in h.tenants
    && j < |h.tenants[t].flows.queue| && h.tenants[t].flows.queue[j].data < |h.contexts|
    && x == h.contexts[h.tenants[t].flows.queue[j].data]
    && Carries(h.contexts, t, h.tenants[t], h.tenants[t].flows.queue[j])
  }

  // The state after a dequeue that found no room.
  function Rejected(h: Hier, i: nat, j: nat, x: Context): Hier
    requires i < |h.system.queue| && h.system.queue[i].data in h.tenants
    requires j < |h.tenants[h.system.queue[i].data].flows.queue|
  {
    var t := h.system.queue[i].data;
    var g := ServeTenant(h, i);
    PutBack(SetTenant(g, t, g.tenants[t].(flows := Take(g.tenants[t].flows, j))), t, x)
  }

  // The state after a dequeue that hands session x out.
  function HandedOut(h: Hier, i: nat, j: nat, x: Context, now: nat): Hier
    requires i < |h.system.queue| && h.system.queue[i].data in h.tenants
    requires j < |h.tenants[h.system.queue[i].data].flows.queue|
  {
    var t := h.system.queue[i].data;
    var g := ServeTenant(h, i);
    HandOut(SetTenant(g, t, g.tenants[t].(flows := Take(g.tenants[t].flows, j))), t, x, now)
  }

  // The three ways a dequeue can go.
  lemma DequeueCases(h: Hier, i: Option<nat>, j: Option<nat>, now: nat) returns (x: Context)
    requires Sound(h) && Quiet(h) && MayChoose(h, i, j)
    ensures i.None? <==> h.system.queue == []
    ensures i.None? ==> Dequeue(h, i, j, now) == (h.(system := TakeNone(h.system)), Answer(NoWork, None))
    ensures i.Some? ==> j.Some? && i.value < |h.system.queue|
    ensures i.Some? ==> Chosen(h, i.value, j.value, h.system.queue[i.value].data, x)
    ensures i.Some? ==>
      Dequeue(h, i, j, now) ==
        if ExceedsCapacity(h, x.work) then (Rejected(h, i.value, j.value, x), Answer(NoWork, None))
        else (HandedOut(h, i.value, j.value, x, now), Answer(Success, Some(x)))
  {
    hide Fixed, Moving, Carries, PutBack, HandOut, IsBest, AnyEligible, Take, Update;
    QuietMeans(h);
    WorkConserving(h.system);
    x := Context(0, 0, 0, 0, 0, 0, 0);
    if i.Some? {
      FlowChosen(h, i.value, j);
      var t := h.system.queue[i.value].data;
      CarriesNumber(h.contexts, t, h.tenants[t], h.tenants[t].flows.queue[j.value]);
      x := h.contexts[h.tenants[t].flows.queue[j.value].data];
      assert Chosen(h, i.value, j.value, t, x);
    }
  }

  lemma CarriesNumber(contexts: seq<Context>, t: nat, n: Tenant, x: Session)
    requires Carries(contexts, t, n, x)
    ensures x.data < |contexts|
  {
  }

  // ---------- What registering, putting back and handing out do to the schedulers ----------

  lemma RegisterFlows(h: Hier, t: nat, u: nat)
    requires t in h.tenants && u in h.tenants
    ensures u in Register(h, t).tenants && Register(h, t).tenants[u].flows == h.tenants[u].flows
  {
  }

  lemma PutBackSystem(g1: Hier, t: nat, x: Context)
    requires t in g1.tenants
    ensures PutBack(g1, t, x).system == Register(g1, t).system
  {
  }

  // The state of a hand-out before the tenant registers again.
  function InTheAir(g1: Hier, t: nat, x: Context, now: nat): Hier
    requires t in g1.tenants
  {
    SetTenant(g1, t, g1.tenants[t].(flows := Update(g1.tenants[t].flows, x.work))).(
      inFlight := g1.inFlight + [Flight(x.tenant, x.flow, x.work, x.data, now, x.timeout)],
      inFlightWork := Wrap64(g1.inFlightWork + x.work),
      inFlightCount := Wrap32(g1.inFlightCount + 1),
      airborne := g1.airborne + [x])
  }

  lemma HandOutSystem(g1: Hier, t: nat, x: Context, now: nat)
    requires t in g1.tenants
    ensures var h1 := InTheAir(g1, t, x, now);
      h1.system == g1.system
      && HandOut(g1, t, x, now) == if h1.tenants[t].flows.queue != [] then Register(h1, t) else h1
  {
  }

  lemma PutBackFlows(g: Hier, t: nat, x: Context, u: nat)
    requires t in g.tenants && u in g.tenants
    ensures u in PutBack(g, t, x).tenants
    ensures var s := g.tenants[t].flows;
      PutBack(g, t, x).tenants[u].flows ==
        if u == t && EnqueueStatus(s, x.flow, x.work) == Success then Wfq.Enqueue(s, x.flow, x.work, x.serial)
        else g.tenants[u].flows
  {
    hide Register, EnqueueStatus, Wfq.Enqueue;
    RegisterFlows(g, t, u);
    RegisterFlows(g, t, t);
  }

  lemma HandOutFlows(g: Hier, t: nat, x: Context, now: nat, u: nat)
    requires t in g.tenants && u in g.tenants
    ensures u in HandOut(g, t, x, now).tenants
    ensures HandOut(g, t, x, now).tenants[u].flows ==
      if u == t then Update(g.tenants[t].flows, x.work) else g.tenants[u].flows
  {
    hide Register, Update;
    var h1 := InTheAir(g, t, x, now);
    HandOutSystem(g, t, x, now);
    RegisterFlows(h1, t, u);
  }

  lemma TimedRegister(h: Hier, t: nat)
    requires t in h.tenants && Timed(h.system)
    ensures Timed(Register(h, t).system)
  {
    hide Timed, EnqueueStatus, Wfq.Enqueue;
    if EnqueueStatus(h.system, t, TENANT_QUANTUM) == Success {
      TimedEnqueue(h.system, t, TENANT_QUANTUM, t);
    }
  }

  lemma ServeTenantTimed(h: Hier, i: nat)
    requires AllTimed(h) && i < |h.system.queue| && h.system.queue[i].data in h.tenants
    ensures Timed(ServeTenant(h, i).system)
  {
    hide Timed, Take, Update;
    TimedTake(h.system, i);
    TimedUpdate(Take(h.system, i), h.system.queue[i].work);
  }

  // A service at both levels, and a registration or an arrival, keep times in order.
  lemma DequeueTimed(h: Hier, i: nat, j: nat, t: nat, x: Context, now: nat)
    requires AllTimed(h) && Chosen(h, i, j, t, x)
    ensures t in Rejected(h, i, j, x).tenants && t in HandedOut(h, i, j, x, now).tenants
    ensures Timed(Rejected(h, i, j, x).system) && Timed(Rejected(h, i, j, x).tenants[t].flows)
    ensures Timed(HandedOut(h, i, j, x, now).system) && Timed(HandedOut(h, i, j, x, now).tenants[t].flows)
  {
    hide Timed, Take, Update, Register, PutBack, HandOut, EnqueueStatus, Wfq.Enqueue, Carries;
    ServeTenantTimed(h, i);
    ServeKeepsFlows(h, i, t);
    var g, s := ServeTenant(h, i), h.tenants[t].flows;
    var g1 := SetTenant(g, t, g.tenants[t].(flows := Take(s, j)));
    TimedTake(s, j);
    TimedRegister(g1, t);
    PutBackSystem(g1, t, x);
    PutBackFlows(g1, t, x, t);
    if EnqueueStatus(Take(s, j), x.flow, x.work) == Success {
      TimedEnqueue(Take(s, j), x.flow, x.work, x.serial);
    }
    HandOutSystem(g1, t, x, now);
    HandOutFlows(g1, t, x, now, t);
    TimedRegister(InTheAir(g1, t, x, now), t);
    TimedUpdate(Take(s, j), x.work);
  }

  lemma ServeKeepsFlows(h: Hier, i: nat, t: nat)
    requires i < |h.system.queue| && h.system.queue[i].data in h.tenants && t in h.tenants
    ensures t in ServeTenant(h, i).tenants && ServeTenant(h, i).tenants[t].flows == h.tenants[t].flows
  {
  }

  // Serving a tenant in the system scheduler moves nothing else.
  lemma ServeTenantMoves(h: Hier, i: nat)
    requires Sound(h) && i < |h.system.queue|
    ensures var t := h.system.queue[i].data;
      t in h.tenants && Moved(h, ServeTenant(h, i), t) && ServeTenant(h, i).tenants.Keys == h.tenants.Keys
  {
    hide Fixed, Waiting, SameConfig, TenantCoupled, SystemOk, Take, Update, QueueOk, BacklogOk, PlacesOk, FlightsOk,
         AirOk, ServeTenant;
    FixedHasSystem(h);
    ServeTenantEffect(h, i);
    SameConfigRefl(h.tenants[h.system.queue[i].data].flows);
  }

  lemma MovedOn(h: Hier, g: Hier, h': Hier, t: nat)
    requires Moved(h, g, t) && OnlyTenant(g, h', t) && Stays(g.tenants[t], h'.tenants[t])
    ensures Moved(h, h', t)
  {
    hide SameConfig;
    SameConfigTrans(h.system, g.system, h'.system);
    SameConfigTrans(h.tenants[t].flows, g.tenants[t].flows, h'.tenants[t].flows);
  }

  lemma SameWithoutBacklog(c: Config, n: Tenant, b: bool)
    requires TenantOk(c, n)
    ensures TenantOk(c, n.(hasBacklog := b))
  {
  }

  // A session put back is the one it was, behind the others.
  lemma PutBackQueue(contexts: seq<Context>, t: nat, n: Tenant, n': Tenant, j: nat)
    requires QueueOk(contexts, t, n) && Stays(n, n') && j < |n.flows.queue|
    requires |n'.flows.queue| == |n.flows.queue| && n'.flows.queue[..|n.flows.queue| - 1] == RemoveAt(n.flows.queue, j)
    requires JobOf(n'.flows.queue[|n.flows.queue| - 1]) == JobOf(n.flows.queue[j])
    ensures QueueOk(contexts, t, n') && Tickets(n'.flows.queue) == Tickets(n.flows.queue)
  {
    hide QueueOk, SameConfig;
    var s := n.flows.(queue := RemoveAt(n.flows.queue, j));
    var m := n.(flows := s);
    var x := n'.flows.queue[|n.flows.queue| - 1];
    TakenConfig(n.flows, s, n'.flows);
    QueueRemove(contexts, t, n, m, j);
    QueueCarries(contexts, t, n, n', j);
    assert JobOf(x).data == n.flows.queue[j].data;
    CarriesSame(contexts, t, n', n.flows.queue[j], x);
    QueueAppend(contexts, t, m, n');
    assert n.flows.queue[j].data in Tickets(n.flows.queue);
  }

  lemma TakenConfig(s: Sched, r: Sched, s': Sched)
    requires r == s.(queue := r.queue) && SameConfig(s, s')
    ensures SameConfig(s, r) && SameConfig(r, s')
  {
  }

  lemma QueueCarries(contexts: seq<Context>, t: nat, n: Tenant, n': Tenant, j: nat)
    requires QueueOk(contexts, t, n) && j < |n.flows.queue| && Stays(n, n')
    ensures Carries(contexts, t, n', n.flows.queue[j])
  {
    assert Carries(contexts, t, n, n.flows.queue[j]);
  }

  lemma CarriesSame(contexts: seq<Context>, t: nat, n: Tenant, x: Session, x': Session)
    requires Carries(contexts, t, n, x) && JobOf(x') == JobOf(x)
    ensures Carries(contexts, t, n, x')
  {
    assert x'.data == JobOf(x').data;
    assert x'.work == JobOf(x').work;
  }

  // A dequeue that finds no room: the session goes back, and all is as sound as before.
  lemma RejectKeeps(h: Hier, i: nat, j: nat, t: nat, x: Context)
    requires Sound(h) && Chosen(h, i, j, t, x)
    ensures var h' := Rejected(h, i, j, x);
      && Sound(h') && Moved(h, h', t)
      && Tickets(h'.tenants[t].flows.queue) == Tickets(h.tenants[t].flows.queue)
      && |h'.tenants[t].flows.queue| == |h.tenants[t].flows.queue|
      && (h'.contexts, h'.inFlight, h'.inFlightWork, h'.inFlightCount)
         == (h.contexts, h.inFlight, h.inFlightWork, h.inFlightCount)
      && (h'.airborne, h'.completed, h'.cancelled, h'.timedOut) == (h.airborne, h.completed, h.cancelled, h.timedOut)
  {
    hide Fixed, Waiting, AirOk, FlightsOk, PlacesOk, QueueOk, BacklogOk, SameConfig, Take, Update, PutBack, TenantOk,
         SystemOk, Moved, TenantCoupled, Timed;
    var n := h.tenants[t];
    FixedHasSystem(h);
    ServeTenantMoves(h, i);
    ServeTenantEffect(h, i);
    var g := ServeTenant(h, i);
    SameWithoutBacklog(h.config, n, false);
    PutBackMoves(g, t, j, x);
    var h' := Rejected(h, i, j, x);
    var n' := h'.tenants[t];
    assert g.tenants[t] == n.(hasBacklog := false);
    SameConfigTrans(n.flows, g.tenants[t].flows, n'.flows) by { SameConfigRefl(n.flows); }
    MovedOn(h, g, h', t);
    assert JobOf(n.flows.queue[j]) == Job(x.flow, x.work, x.serial);
    PutBackQueue(h.contexts, t, n, n', j);
    PutBackCounts(n, n', h.airborne, h.timedOut, j);
    AirMoved(h, h', t, h.airborne);
    FlightsSame(h, h');
    PlacesSame(h, h', t);
    NonEmptyCoupled(n');
    OthersSame(h, h', t);
    DequeueTimed(h, i, j, t, x, 0);
    MovingAfter(h, h', t);
  }

  lemma NonEmptyCoupled(n: Tenant)
    requires n.hasBacklog && n.flows.queue != []
    ensures TenantCoupled(n)
  {
  }

  lemma OthersSame(h: Hier, h': Hier, t: nat)
    requires Moved(h, h', t)
    ensures forall u | u in h'.tenants && u != t :: u in h.tenants && h'.tenants[u] == h.tenants[u]
    ensures h'.tenants.Keys == h.tenants.Keys && h'.eras == h.eras && h'.config == h.config
  {
  }

  // A session handed out is not in its queue any more.
  lemma HandOutQueue(contexts: seq<Context>, t: nat, n: Tenant, n': Tenant, j: nat)
    requires QueueOk(contexts, t, n) && Stays(n, n') && j < |n.flows.queue|
    requires SameJobs(RemoveAt(n.flows.queue, j), n'.flows.queue)
    ensures QueueOk(contexts, t, n')
    ensures Tickets(n'.flows.queue) == Tickets(n.flows.queue) - {n.flows.queue[j].data}
  {
    hide QueueOk, SameConfig, SameJobs;
    var s := n.flows.(queue := RemoveAt(n.flows.queue, j));
    TakenConfig(n.flows, s, n'.flows);
    QueueRemove(contexts, t, n, n.(flows := s), j);
    QueueSame(contexts, t, n.(flows := s), n');
  }

  // The test of a dequeue keeps the work in flight within the capacity, as long as its sum does not wrap.
  lemma HandOutFlights(h: Hier, h': Hier, x: Context, now: nat)
    requires FlightsOk(h) && h'.config == h.config && ConfigOk(h.config) && x.work > 0
    requires !ExceedsCapacity(h, x.work) && h.inFlightWork + x.work <= U64_MAX
    requires h'.inFlight == h.inFlight + [Flight(x.tenant, x.flow, x.work, x.data, now, x.timeout)]
    requires h'.inFlightWork == Wrap64(h.inFlightWork + x.work) && h'.inFlightCount == Wrap32(h.inFlightCount + 1)
    requires h'.airborne == h.airborne + [x]
    ensures FlightsOk(h')
  {
    hide Wrap64, Wrap32, WorkOf;
    WorkOfAppend(h.inFlight, h'.inFlight[|h.inFlight|]);
    WrapAdd(|h.inFlight|, 1);
    WrapSmall(h.inFlightWork + x.work);
  }

  lemma AirAppend(h: Hier, xs: seq<Context>, x: Context)
    requires AirOk(h.tenants, xs) && Present(h.tenants, x) && ErasOk(h)
    requires x.flow in h.tenants[x.tenant].flows.entries
    ensures AirOk(h.tenants, xs + [x])
  {
  }

  // A dequeue that hands a session out.
  lemma HandOutKeeps(h: Hier, i: nat, j: nat, t: nat, x: Context, now: nat)
    requires Sound(h) && Chosen(h, i, j, t, x)
    requires !ExceedsCapacity(h, x.work) && h.inFlightWork + x.work <= U64_MAX
    ensures var h' := HandedOut(h, i, j, x, now);
      && Sound(h') && Moved(h, h', t)
      && Tickets(h'.tenants[t].flows.queue) == Tickets(h.tenants[t].flows.queue) - {x.serial}
      && h'.contexts == h.contexts && h'.airborne == h.airborne + [x]
      && (h'.completed, h'.cancelled, h'.timedOut) == (h.completed, h.cancelled, h.timedOut)
  {
    hide Fixed, Waiting, AirOk, FlightsOk, PlacesOk, QueueOk, BacklogOk, SameConfig, Take, Update, HandOut, TenantOk,
         SystemOk, Moved, TenantCoupled, SameJobs, ExceedsCapacity, ConfigOk, Timed;
    var n := h.tenants[t];
    FixedHasSystem(h);
    ServeTenantMoves(h, i);
    ServeTenantEffect(h, i);
    var g := ServeTenant(h, i);
    assert g.tenants[t] == n.(hasBacklog := false);
    HandOutMoves(g, t, j, x, now);
    var h' := HandedOut(h, i, j, x, now);
    var n' := h'.tenants[t];
    HandOutMoved(h, g, h', t);
    HandOutQueue(h.contexts, t, n, n', j);
    HandOutCounts(n, n', h.airborne, h.timedOut, j, x);
    AirMoved(h, h', t, h.airborne);
    SameConfigParts(n.flows, n'.flows);
    MovedKeepsFixed(h, h', t);
    FixedHasEras(h');
    AirAppend(h', h.airborne, x);
    HandOutFlights(h, h', x, now);
    PlacesAfterHandOut(h, h', t, j, x);
    OthersSame(h, h', t);
    forall u | u in h'.tenants && u != t
      ensures BacklogOk(h'.tenants[u], h'.airborne, h'.timedOut)
    {
      ErasDiffer(h, t, u);
      OthersAppend(h.tenants[u], h.airborne, h.timedOut, x);
    }
    DequeueTimed(h, i, j, t, x, now);
    MovingAfter(h, h', t);
  }

  lemma ErasDiffer(h: Hier, t: nat, u: nat)
    requires Fixed(h) && t in h.tenants && u in h.tenants && t != u
    ensures h.tenants[t].era != h.tenants[u].era
  {
  }

  lemma HandOutMoved(h: Hier, g: Hier, h': Hier, t: nat)
    requires Moved(h, g, t) && t in h'.tenants && Stays(g.tenants[t], h'.tenants[t])
    requires OnlyTenant(g.(inFlight := h'.inFlight, inFlightWork := h'.inFlightWork,
                           inFlightCount := h'.inFlightCount, airborne := h'.airborne), h', t)
    ensures Moved(h, h', t)
  {
    var g' := g.(inFlight := h'.inFlight, inFlightWork := h'.inFlightWork,
                 inFlightCount := h'.inFlightCount, airborne := h'.airborne);
    assert Moved(h, g', t);
    hide Moved;
    MovedOn(h, g', h', t);
  }

  // ---------- Completion and cancellation ----------

  // The session found is in flight, of that tenant and flow.
  lemma FoundFlight(h: Hier, data: nat, t: nat, f: nat)
    requires Sound(h) && Find(h.inFlight, data, t, f).Some?
    ensures var k := Find(h.inFlight, data, t, f).value;
      && k < |h.inFlight| == |h.airborne|
      && h.airborne[k].tenant == t && h.airborne[k].flow == f && h.airborne[k].work == h.inFlight[k].work
    ensures t in h.tenants ==> t < h.config.maxTenants
  {
    hide Waiting, PlacesOk, QueueOk, BacklogOk, Fixed, AllTimed, AirOk, Coupled;
    LastMatchIs(h.inFlight, data, t, f);
    FirstOfIs(h.inFlight, t, f);
    var k := Find(h.inFlight, data, t, f).value;
    assert Embodies(h.inFlight[k], h.airborne[k]);
    if t in h.tenants {
      TenantIdFits(h, t);
    }
  }

  // A flight that lands is counted out of the tenant it was handed out for, or out of no counter.
  predicate CountsRight(h: Hier, k: nat)
    requires k < |h.airborne|
  {
    var t := h.airborne[k].tenant;
    t in h.tenants ==> h.tenants[t].era == h.airborne[k].era || h.tenants[t].backlog == 0
  }

  // The state after the k-th flight, of tenant t, has landed.
  function Landed(h: Hier, k: nat, done: set<nat>, dropped: set<nat>): Hier
    requires k < |h.inFlight| && k < |h.airborne|
  {
    CountOutOf(Land(h, k), h.airborne[k].tenant, h.airborne[k].flow).(completed := done, cancelled := dropped)
  }

  lemma RegisterAgain(h: Hier, t: nat)
    requires t in h.tenants && TenantCoupled(h.tenants[t]) && h.tenants[t].flows.queue != []
    ensures Register(h, t) == h
  {
  }

  // What a completion does, as one move.
  lemma CompleteCases(h: Hier, data: nat, t: nat, f: nat)
    requires Sound(h)
    ensures match Find(h.inFlight, data, t, f)
      case None => Complete(h, data, t, f) == (h, NotFound)
      case Some(k) =>
        && k < |h.inFlight| == |h.airborne|
        && Complete(h, data, t, f) == (Landed(h, k, h.completed + {h.airborne[k].serial}, h.cancelled), Success)
  {
    hide Waiting, PlacesOk, QueueOk, BacklogOk, Fixed, Find, Register;
    if Find(h.inFlight, data, t, f).Some? {
      FoundFlight(h, data, t, f);
      var k := Find(h.inFlight, data, t, f).value;
      var h1 := Landed(h, k, h.completed + {h.airborne[k].serial}, h.cancelled);
      if t in h.tenants {
        assert TenantCoupled(h.tenants[t]) && TenantCoupled(h1.tenants[t]);
        if h1.tenants[t].flows.queue != [] {
          RegisterAgain(h1, t);
        }
      }
    }
  }

  lemma CancelCases(h: Hier, data: nat, t: nat, f: nat)
    requires Sound(h)
    ensures match Find(h.inFlight, data, t, f)
      case None => Cancel(h, data, t, f) == (h, NotFound)
      case Some(k) =>
        && k < |h.inFlight| == |h.airborne|
        && Cancel(h, data, t, f) == (Landed(h, k, h.completed, h.cancelled + {h.airborne[k].serial}), Success)
  {
    hide Waiting, PlacesOk, QueueOk, BacklogOk, Fixed, Find, Register;
    if Find(h.inFlight, data, t, f).Some? {
      FoundFlight(h, data, t, f);
    }
  }

  lemma LandPairs(fs: seq<Flight>, xs: seq<Context>, k: nat)
    requires |fs| == |xs| && k < |fs| && forall i | 0 <= i < |fs| :: Embodies(fs[i], xs[i])
    ensures var fs', xs' := RemoveAt(fs, k), RemoveAt(xs, k);
      |fs'| == |xs'| && forall i | 0 <= i < |xs'| :: Embodies(fs'[i], xs'[i])
  {
    hide Embodies;
    var fs', xs' := RemoveAt(fs, k), RemoveAt(xs, k);
    assert forall i | 0 <= i < |fs'| :: fs'[i] == fs[if i < k then i else i + 1];
    assert forall i | 0 <= i < |xs'| :: xs'[i] == xs[if i < k then i else i + 1];
  }

  lemma LandCounters(fs: seq<Flight>, k: nat, capacity: nat)
    requires k < |fs| && WorkOf(fs) <= capacity <= U64_MAX
    ensures Wrap64(WorkOf(fs) - fs[k].work) == WorkOf(RemoveAt(fs, k)) <= capacity
    ensures Wrap32(Wrap32(|fs|) - 1) == Wrap32(|RemoveAt(fs, k)|)
  {
    hide Wrap64, Wrap32;
    WorkOfRemove(fs, k);
    WrapSmall(WorkOf(RemoveAt(fs, k)));
    WrapAdd(|fs|, -1);
  }

  lemma LandFlights(h: Hier, h': Hier, k: nat)
    requires FlightsOk(h) && ConfigOk(h.config) && h'.config == h.config && k < |h.inFlight|
    requires (h'.inFlight, h'.inFlightWork, h'.inFlightCount, h'.airborne)
          == (Land(h, k).inFlight, Land(h, k).inFlightWork, Land(h, k).inFlightCount, Land(h, k).airborne)
    ensures FlightsOk(h')
  {
    hide Wrap64, Wrap32, Embodies, RemoveAt, WorkOf;
    LandPairs(h.inFlight, h.airborne, k);
    LandCounters(h.inFlight, k, h.config.capacity);
  }

  lemma AirRemove(tenants: map<nat, Tenant>, xs: seq<Context>, k: nat)
    requires AirOk(tenants, xs) && k < |xs|
    ensures AirOk(tenants, RemoveAt(xs, k))
  {
    var r := RemoveAt(xs, k);
    assert forall i | 0 <= i < |r| :: r[i] == xs[if i < k then i else i + 1];
  }

  // The counters after a landing, of the tenant with the session's id.
  lemma LandCounts(h: Hier, k: nat)
    requires Sound(h) && k < |h.airborne| && h.airborne[k].tenant in h.tenants
    ensures var x := h.airborne[k];
      BacklogOk(CountOut(h.tenants[x.tenant], x.flow), RemoveAt(h.airborne, k), h.timedOut) <==> CountsRight(h, k)
  {
    hide Fixed, Waiting, FlightsOk, PlacesOk, QueueOk, BacklogOk, AllTimed, CountOut, RemoveAt;
    var n := h.tenants[h.airborne[k].tenant];
    assert BacklogOk(n, h.airborne, h.timedOut);
    if n.era == h.airborne[k].era {
      assert Present(h.tenants, h.airborne[k]);
      CountOutCounts(n, h.airborne, h.timedOut, k);
    } else if n.backlog == 0 {
      CountOutNothing(n, h.airborne, h.timedOut, k);
    } else {
      CountOutWrong(n, h.airborne, h.timedOut, k);
    }
  }

  // The counters of all other tenants.
  lemma LandOthers(h: Hier, k: nat)
    requires Sound(h) && k < |h.airborne|
    ensures forall u | u in h.tenants && u != h.airborne[k].tenant ::
      BacklogOk(h.tenants[u], RemoveAt(h.airborne, k), h.timedOut)
  {
    hide Fixed, Waiting, FlightsOk, PlacesOk, QueueOk, BacklogOk, AllTimed;
    forall u | u in h.tenants && u != h.airborne[k].tenant
      ensures BacklogOk(h.tenants[u], RemoveAt(h.airborne, k), h.timedOut)
    {
      OthersRemove(h.tenants[u], h.airborne, h.timedOut, k);
    }
  }

  // A session that lands is counted out of its flow and tenant, and nothing else moves.
  lemma LandKeeps(h: Hier, k: nat, t: nat, done: set<nat>, dropped: set<nat>)
    requires Sound(h) && k < |h.inFlight| == |h.airborne| && t == h.airborne[k].tenant
    requires t in h.tenants && t < h.config.maxTenants && CountsRight(h, k)
    requires
      || (done, dropped) == (h.completed + {h.airborne[k].serial}, h.cancelled)
      || (done, dropped) == (h.completed, h.cancelled + {h.airborne[k].serial})
    ensures var h' := Landed(h, k, done, dropped);
      && Sound(h') && Moved(h, h', t) && h'.tenants[t] == CountOut(h.tenants[t], h.airborne[k].flow)
      && h'.airborne == RemoveAt(h.airborne, k) && h'.inFlight == RemoveAt(h.inFlight, k)
  {
    hide Fixed, Waiting, AirOk, FlightsOk, PlacesOk, QueueOk, BacklogOk, SameConfig, TenantOk, SystemOk, ConfigOk,
         Wrap64, Wrap32, RemoveAt, Timed, CountsRight;
    var x, n := h.airborne[k], h.tenants[t];
    var h' := Landed(h, k, done, dropped);
    var n' := h'.tenants[t];
    FixedHasSystem(h);
    SameConfigRefl(h.system);
    SameConfigRefl(n.flows);
    assert Moved(h, h', t);
    hide Moved;
    assert Backlogged(h'.tenants) == Backlogged(h.tenants);
    LandCounts(h, k);
    LandOthers(h, k);
    LandFlights(h, h', k);
    AirRemove(h.tenants, h.airborne, k);
    AirMoved(h, h', t, h'.airborne);
    PlacesAfterLanding(h, h', t, k);
    SameJobsRefl(n.flows.queue);
    QueueSame(h.contexts, t, n, n');
    OthersSame(h, h', t);
    MovingAfter(h, h', t);
  }

  // A session that lands after its tenant has gone changes no tenant.
  lemma StrayKeeps(h: Hier, k: nat, done: set<nat>, dropped: set<nat>)
    requires Sound(h) && k < |h.inFlight| == |h.airborne| && h.airborne[k].tenant !in h.tenants
    requires
      || (done, dropped) == (h.completed + {h.airborne[k].serial}, h.cancelled)
      || (done, dropped) == (h.completed, h.cancelled + {h.airborne[k].serial})
    ensures Sound(Landed(h, k, done, dropped))
  {
    hide Fixed, Waiting, AirOk, FlightsOk, PlacesOk, QueueOk, BacklogOk, Wrap64, Wrap32, RemoveAt, Timed, ConfigOk,
         TenantOk, SystemOk;
    var h' := Landed(h, k, done, dropped);
    FixedHasSystem(h);
    LandFlights(h, h', k);
    AirRemove(h.tenants, h.airborne, k);
    PlacesAfterStrayLanding(h, h', k);
    LandOthers(h, k);
    FixedSame(h, h');
  }

  lemma SameJobsRefl(q: seq<Session>)
    ensures SameJobs(q, q)
  {
  }

  // Any landing keeps what holds between calls exactly when it counts right.
  lemma LandKeepsExactly(h: Hier, k: nat, done: set<nat>, dropped: set<nat>)
    requires Sound(h) && k < |h.inFlight| == |h.airborne|
    requires h.airborne[k].tenant in h.tenants ==> h.airborne[k].tenant < h.config.maxTenants
    requires
      || (done, dropped) == (h.completed + {h.airborne[k].serial}, h.cancelled)
      || (done, dropped) == (h.completed, h.cancelled + {h.airborne[k].serial})
    ensures Sound(Landed(h, k, done, dropped)) <==> CountsRight(h, k)
  {
    hide Fixed, Waiting, AirOk, FlightsOk, PlacesOk, QueueOk, BacklogOk, AllTimed, Coupled, CountOut;
    var t := h.airborne[k].tenant;
    if t !in h.tenants {
      StrayKeeps(h, k, done, dropped);
    } else if CountsRight(h, k) {
      LandKeeps(h, k, t, done, dropped);
    } else {
      LandCounts(h, k);
      var h' := Landed(h, k, done, dropped);
      assert !BacklogOk(h'.tenants[t], h'.airborne, h'.timedOut);
    }
  }

  // The flight that a completion or a cancellation finds, if any, is counted right.
  predicate FindsRight(h: Hier, data: nat, t: nat, f: nat) {
    match Find(h.inFlight, data, t, f)
    case None => true
    case Some(k) => k < |h.airborne| ==> CountsRight(h, k)
  }

  // A completion keeps what holds between calls exactly when no flight is found or the one found
  // was handed out for the tenant that has the id now, or that tenant owes nothing.
  lemma CompleteKeepsExactly(h: Hier, data: nat, t: nat, f: nat)
    requires Sound(h)
    ensures Sound(Complete(h, data, t, f).0) <==> FindsRight(h, data, t, f)
  {
    hide Sound, Complete, Find, CountsRight;
    CompleteCases(h, data, t, f);
    if Find(h.inFlight, data, t, f).Some? {
      FoundFlight(h, data, t, f);
      var k := Find(h.inFlight, data, t, f).value;
      LandKeepsExactly(h, k, h.completed + {h.airborne[k].serial}, h.cancelled);
    }
  }

  lemma CancelKeepsExactly(h: Hier, data: nat, t: nat, f: nat)
    requires Sound(h)
    ensures Sound(Cancel(h, data, t, f).0) <==> FindsRight(h, data, t, f)
  {
    hide Sound, Cancel, Find, CountsRight;
    CancelCases(h, data, t, f);
    if Find(h.inFlight, data, t, f).Some? {
      FoundFlight(h, data, t, f);
      var k := Find(h.inFlight, data, t, f).value;
      LandKeepsExactly(h, k, h.completed, h.cancelled + {h.airborne[k].serial});
    }
  }

  // ---------- Timeouts ----------

  lemma SweepTotals(fs: seq<Flight>, now: nat, kept: nat, capacity: nat)
    requires WorkOf(fs) <= capacity <= U64_MAX && kept + |Expired(fs, now)| == |fs|
    ensures Wrap64(WorkOf(fs) - WorkOf(Expired(fs, now))) == WorkOf(Kept(fs, now)) <= capacity
    ensures Wrap32(Wrap32(|fs|) - |Expired(fs, now)|) == Wrap32(kept)
  {
    hide Wrap64, Wrap32, Kept, Expired, WorkOf, TimedOut;
    ExpiryPartitionsWork(fs, now);
    WrapSmall(WorkOf(Kept(fs, now)));
    WrapAdd(|fs|, -(|Expired(fs, now)| as int));
  }

  lemma SweepFlights(h: Hier, now: nat)
    requires FlightsOk(h) && ConfigOk(h.config)
    ensures FlightsOk(CheckTimeouts(h, now))
  {
    hide TimedOut, Wrap64, Wrap32, Kept, Expired, Staying, Leaving, WorkOf, Embodies;
    SweepPairs(h.inFlight, h.airborne, now);
    SweepTotals(h.inFlight, now, |Kept(h.inFlight, now)|, h.config.capacity);
  }

  lemma TimeoutsKeep(h: Hier, now: nat)
    requires Sound(h)
    ensures Sound(CheckTimeouts(h, now))
  {
    hide Fixed, Waiting, AirOk, FlightsOk, PlacesOk, QueueOk, BacklogOk, TenantOk, SystemOk, ConfigOk, TimedOut,
         Staying, Leaving, Kept, Expired, TenantCoupled;
    FlightsPaired(h);
    var h' := CheckTimeouts(h, now);
    FixedHasSystem(h);
    SweepFlights(h, now);
    FixedHasEras(h);
    PlacesAfterSweep(h, now);
    SweepAir(h, now);
    forall t | t in h.tenants
      ensures BacklogOk(h.tenants[t], h'.airborne, h'.timedOut)
    {
      SweepCounts(h.tenants[t], h.inFlight, h.airborne, h.timedOut, now);
    }
    FixedSame(h, h');
  }

  lemma FlightsPaired(h: Hier)
    requires FlightsOk(h)
    ensures |h.inFlight| == |h.airborne|
  {
  }

  lemma FixedHasEras(h: Hier)
    requires Fixed(h)
    ensures ErasOk(h)
  {
  }

  lemma FixedSame(h: Hier, h': Hier)
    requires Fixed(h) && h'.tenants == h.tenants && h'.system == h.system
    requires (h'.config, h'.tenantPool, h'.allocatedRate, h'.tenantCount, h'.totalFlows, h'.eras)
          == (h.config, h.tenantPool, h.allocatedRate, h.tenantCount, h.totalFlows, h.eras)
    ensures Fixed(h')
  {
  }

  lemma SweepAir(h: Hier, now: nat)
    requires AirOk(h.tenants, h.airborne) && |h.inFlight| == |h.airborne| && PlacesOk(h)
    ensures AirOk(h.tenants, Staying(h.inFlight, h.airborne, now))
  {
    hide PlacesOk, TimedOut, Staying, Leaving;
    PlacesRecorded(h);
    var up := Staying(h.inFlight, h.airborne, now);
    SweepSplits(h.inFlight, h.airborne, now);
    forall k | 0 <= k < |up|
      ensures up[k] in h.airborne
    {
    }
  }

  lemma PlacesRecorded(h: Hier)
    requires PlacesOk(h)
    ensures Recorded(h.contexts, h.airborne)
  {
  }
}
