/**
 The delay guarantee carried over to the two levels: while sessions come and go, no tenant waits
 past its virtual finish time.
 */
module TenantDelay {
  import opened Machine
  import opened Wfq
  import opened Lateness
  import opened Rates
  import opened Rebasing
  import opened Jobs
  import opened Hierarchy
  import opened Coupling
  import opened Backlogs
  import opened Flights
  import opened Conduct
  import opened Movement
  import opened Scheduling
  import opened HierarchyLaws

  predicate MovesSessions(r: Request) {
    r.DoEnqueue? || r.DoDequeue? || r.DoComplete? || r.DoCancel? || r.DoCheckTimeouts?
  }

  // The largest session of the system scheduler is the quantum, and it is also the only one.
  predicate QuantumFits(s: Sched) {
    s.capacity <= TIME_SCALE * TENANT_QUANTUM
  }

  ghost predicate TenantsOnTime(s: Sched) {
    Inv(s, TENANT_QUANTUM) && QuantumFits(s)
  }

  // A registration is at most one arrival in the system scheduler.
  lemma RegisterOnTime(h: Hier, t: nat)
    requires t in h.tenants && TenantsOnTime(h.system) && Unsaturated(Register(h, t).system)
    ensures TenantsOnTime(Register(h, t).system)
  {
    hide Inv, EnqueueStatus, NewSession;
    var s := h.system;
    if !h.tenants[t].hasBacklog && EnqueueStatus(s, t, TENANT_QUANTUM) == Success {
      var e := Arrive(t, TENANT_QUANTUM, t);
      var q := Wfq.Enqueue(s, t, TENANT_QUANTUM, t).queue;
      assert Register(h, t).system == Apply(s, e);
      assert q[|q| - 1] in q;
      assert Lateness.Fitting(s, e, TENANT_QUANTUM);
      ApplyKeeps(s, e, TENANT_QUANTUM);
      EnqueueEffect(s, t, TENANT_QUANTUM, t);
    }
  }

  lemma ServeOnTime(h: Hier, i: nat)
    requires TenantsOnTime(h.system) && CanServe(h.system, i) && h.system.queue[i].data in h.tenants
    ensures TenantsOnTime(ServeTenant(h, i).system)
  {
    hide Inv, IsBest, Update, Take;
    var s := h.system;
    ApplyKeeps(s, Serve(i), TENANT_QUANTUM);
    TakeConfig(s, i, s.queue[i].work);
  }

  lemma EnqueueOnTime(h: Hier, t: nat, f: nat, work: nat, data: nat, timeout: nat)
    requires TenantsOnTime(h.system) && Unsaturated(Hierarchy.Enqueue(h, t, f, work, data, timeout).0.system)
    ensures TenantsOnTime(Hierarchy.Enqueue(h, t, f, work, data, timeout).0.system)
  {
    hide TenantsOnTime, Unsaturated, Register, EnqueueAnswer, Submit;
    if EnqueueAnswer(h, t, f, work) == Success {
      AnswerMeans(h, t, f, work);
      var x := Context(|h.contexts|, t, h.tenants[t].era, f, work, data, timeout);
      RegisterOnTime(SetTenant(h, t, Submit(h.tenants[t], f, work, x.serial)).(contexts := h.contexts + [x]), t);
    }
  }

  lemma AnswerMeans(h: Hier, t: nat, f: nat, work: nat)
    requires EnqueueAnswer(h, t, f, work) == Success
    ensures t in h.tenants && EnqueueStatus(h.tenants[t].flows, f, work) == Success
  {
  }

  // What comes after the tenant's turn is at most one registration.
  lemma AfterTurnOnTime(g: Hier, t: nat, j: nat, x: Context, now: nat)
    requires t in g.tenants && j < |g.tenants[t].flows.queue| && TenantsOnTime(g.system)
    ensures var g1 := SetTenant(g, t, g.tenants[t].(flows := Take(g.tenants[t].flows, j)));
      && (Unsaturated(PutBack(g1, t, x).system) ==> TenantsOnTime(PutBack(g1, t, x).system))
      && (Unsaturated(HandOut(g1, t, x, now).system) ==> TenantsOnTime(HandOut(g1, t, x, now).system))
  {
    hide TenantsOnTime, Unsaturated, Register, Take, Update, EnqueueStatus, Wfq.Enqueue;
    var n := g.tenants[t];
    var g1 := SetTenant(g, t, n.(flows := Take(n.flows, j)));
    PutBackSystem(g1, t, x);
    HandOutSystem(g1, t, x, now);
    if Unsaturated(PutBack(g1, t, x).system) {
      RegisterOnTime(g1, t);
    }
    var h1 := InTheAir(g1, t, x, now);
    if Unsaturated(HandOut(g1, t, x, now).system) && h1.tenants[t].flows.queue != [] {
      RegisterOnTime(h1, t);
    }
  }

  lemma DequeueOnTime(h: Hier, i: Option<nat>, j: Option<nat>, now: nat)
    requires Sound(h) && Quiet(h) && MayChoose(h, i, j) && TenantsOnTime(h.system)
    requires Unsaturated(Dequeue(h, i, j, now).0.system)
    ensures TenantsOnTime(Dequeue(h, i, j, now).0.system)
  {
    hide TenantsOnTime, Unsaturated, Sound, Quiet, Dequeue, ServeTenant, PutBack, HandOut, ExceedsCapacity, IsBest,
         MayChooseFlow;
    var x := DequeueCases(h, i, j, now);
    if i.None? {
      EmptyTake(h);
    } else {
      ServeOnTime(h, i.value);
      var t := h.system.queue[i.value].data;
      ServeKeepsQueue(h, i.value);
      AfterTurnOnTime(ServeTenant(h, i.value), t, j.value, x, now);
    }
  }

  lemma ServeKeepsQueue(h: Hier, i: nat)
    requires i < |h.system.queue| && h.system.queue[i].data in h.tenants
    ensures var t := h.system.queue[i].data;
      t in ServeTenant(h, i).tenants && ServeTenant(h, i).tenants[t].flows == h.tenants[t].flows
  {
  }

  lemma NextOnTime(h: Hier, r: Request)
    requires Sound(h) && Quiet(h) && CanHappen(h, r) && MovesSessions(r)
    requires TenantsOnTime(h.system) && Unsaturated(Next(h, r).system)
    ensures TenantsOnTime(Next(h, r).system)
  {
    hide TenantsOnTime, Unsaturated, Sound, Quiet, Dequeue, Hierarchy.Enqueue, Complete, Hierarchy.Cancel;
    match r
    case DoEnqueue(t, f, work, data, timeout) => EnqueueOnTime(h, t, f, work, data, timeout);
    case DoDequeue(i, j, now) => DequeueOnTime(h, i, j, now);
    case DoComplete(data, t, f) => CompleteCases(h, data, t, f);
    case DoCancel(data, t, f) => CancelCases(h, data, t, f);
    case DoCheckTimeouts(now) =>
  }

  lemma {:induction false} ConductOnTime(h: Hier, requests: seq<Request>)
    requires Sound(h) && IsConduct(h, requests) && Quiet(Conducted(h, requests))
    requires forall k | 0 <= k < |requests| :: MovesSessions(requests[k])
    requires TenantsOnTime(h.system)
    ensures TenantsOnTime(Conducted(h, requests).system)
    decreases requests
  {
    hide Sound, TenantsOnTime, Next, HierarchyLaws.Fitting, CanHappen, MovesSessions, Unsaturated;
    if requests != [] {
      var h' := Next(h, requests[0]);
      NextKeeps(h, requests[0]);
      assert Quiet(h');
      QuietMeans(h');
      NextOnTime(h, requests[0]);
      ConductOnTime(h', requests[1..]);
    }
  }

  // From any sound state with no tenant waiting in which the doubled rates of the tenants fit the
  // capacity, and that is at most 2^32, and over any run of enqueues, dequeues, completions,
  // cancellations and timeout checks: the virtual time of the system scheduler never passes the
  // finish time of a waiting tenant.
  lemma NoTenantIsLate(h: Hier, requests: seq<Request>)
    requires Sound(h) && IsConduct(h, requests) && Quiet(Conducted(h, requests))
    requires forall k | 0 <= k < |requests| :: MovesSessions(requests[k])
    requires h.system.queue == [] && h.system.capacity <= TIME_SCALE * TENANT_QUANTUM
    requires Guaranteed(h.system)
    ensures var s := Conducted(h, requests).system;
      forall x :: x in s.queue ==> s.v <= x.finish
  {
    hide Sound, IsConduct, Conducted, Guaranteed;
    TimesAreTimed(h);
    IdleInv(h.system, TENANT_QUANTUM);
    ConductOnTime(h, requests);
    ConductKeeps(h, requests);
    var h' := Conducted(h, requests);
    OnTimeMeans(h');
  }

  lemma OnTimeMeans(h: Hier)
    requires Sound(h) && TenantsOnTime(h.system)
    ensures forall x :: x in h.system.queue ==> h.system.v <= x.finish
  {
    hide Fixed, AirOk, FlightsOk, PlacesOk, QueueOk, BacklogOk, OnTime;
    var s := h.system;
    EachOnTime(s, TENANT_QUANTUM);
    forall x | x in s.queue
      ensures s.v <= x.finish
    {
      var i :| 0 <= i < |s.queue| && s.queue[i] == x;
      WaitingMember(s.queue, Backlogged(h.tenants), i);
      Order(s.capacity, s.v, x.finish);
    }
  }

  // ---------- Both levels run as single-level schedulers ----------

  // A dequeue that succeeds is one service at each level, virtual time update included, and one
  // arrival in the system scheduler exactly when the tenant has more. So what holds of every run of
  // a single-level scheduler holds at both levels.
  lemma BothLevelsServe(h: Hier, i: nat, j: nat, t: nat, x: Context, now: nat)
    requires Sound(h) && Chosen(h, i, j, t, x) && CanServe(h.system, i) && CanServe(h.tenants[t].flows, j)
    ensures var h' := HandedOut(h, i, j, x, now);
      && t in h'.tenants
      && h'.tenants[t].flows == Apply(h.tenants[t].flows, Serve(j))
      && var served, again := Apply(h.system, Serve(i)), Arrive(t, TENANT_QUANTUM, t);
         if h'.tenants[t].flows.queue == [] then h'.system == served
         else Enabled(served, again) && h'.system == Apply(served, again)
  {
    hide Sound, Update, Take, EnqueueStatus, IsBest, Wfq.Enqueue;
    ChosenWork(h, i, j, t, x);
    TurnEnables(h, i);
    var g := ServeTenant(h, i);
    var s := h.tenants[t].flows;
    var g1 := SetTenant(g, t, g.tenants[t].(flows := Take(s, j)));
    HandOutSystem(g1, t, x, now);
    HandOutFlows(g1, t, x, now, t);
  }

  // A dequeue without room is a service of the system scheduler too, and the tenant comes back at
  // once.
  lemma RefusalServes(h: Hier, i: nat, j: nat, t: nat, x: Context)
    requires Sound(h) && Chosen(h, i, j, t, x) && CanServe(h.system, i)
    ensures var served, again := Apply(h.system, Serve(i)), Arrive(t, TENANT_QUANTUM, t);
      Enabled(served, again) && Rejected(h, i, j, x).system == Apply(served, again)
  {
    hide Sound, Update, Take, EnqueueStatus, IsBest, Wfq.Enqueue;
    TurnEnables(h, i);
    var g := ServeTenant(h, i);
    PutBackSystem(SetTenant(g, t, g.tenants[t].(flows := Take(h.tenants[t].flows, j))), t, x);
  }

  lemma TurnEnables(h: Hier, i: nat)
    requires Sound(h) && i < |h.system.queue|
    ensures h.system.queue[i].data in h.tenants
    ensures EnqueueStatus(ServeTenant(h, i).system, h.system.queue[i].data, TENANT_QUANTUM) == Success
  {
    hide Fixed, AirOk, FlightsOk, PlacesOk, QueueOk, BacklogOk, Coupled, Consistent, EnqueueStatus;
    FixedHasSystem(h);
    ServeTenantEffect(h, i);
    Enqueueable(ServeTenant(h, i).system, h.system.queue[i].data, TENANT_QUANTUM);
  }

  // An accepted session is one arrival in the scheduler of its tenant.
  lemma EnqueueArrives(h: Hier, t: nat, f: nat, work: nat, data: nat, timeout: nat)
    requires EnqueueAnswer(h, t, f, work) == Success
    ensures var h' := Hierarchy.Enqueue(h, t, f, work, data, timeout).0;
      && t in h.tenants && t in h'.tenants && Enabled(h.tenants[t].flows, Arrive(f, work, |h.contexts|))
      && h'.tenants[t].flows == Apply(h.tenants[t].flows, Arrive(f, work, |h.contexts|))
  {
    hide EnqueueStatus, Register, Wfq.Enqueue;
    var x := Context(|h.contexts|, t, h.tenants[t].era, f, work, data, timeout);
    RegisterFlows(SetTenant(h, t, Submit(h.tenants[t], f, work, x.serial)).(contexts := h.contexts + [x]), t, t);
  }

  // ---------- Within a tenant ----------

  // Sessions enqueued for tenant t are of a size that the delay bound allows.
  predicate SizedFor(r: Request, t: nat, capacity: nat, lmax: nat) {
    r.DoEnqueue? && r.t == t ==> Sized(r.work, capacity, lmax)
  }

  ghost predicate FlowsOnTime(h: Hier, t: nat, capacity: nat, lmax: nat) {
    t in h.tenants && h.tenants[t].flows.capacity == capacity && Inv(h.tenants[t].flows, lmax)
  }

  // An arrival in the scheduler of a tenant.
  lemma ArrivalOnTime(s: Sched, f: nat, work: nat, serial: nat, lmax: nat)
    requires Inv(s, lmax) && TIME_SCALE * lmax <= U64_MAX && Sized(work, s.capacity, lmax)
    requires EnqueueStatus(s, f, work) == Success && Unsaturated(Wfq.Enqueue(s, f, work, serial))
    ensures Inv(Wfq.Enqueue(s, f, work, serial), lmax) && Wfq.Enqueue(s, f, work, serial).capacity == s.capacity
  {
    hide Inv, EnqueueStatus, NewSession;
    var q := Wfq.Enqueue(s, f, work, serial).queue;
    assert q[|q| - 1] in q;
    ApplyKeeps(s, Arrive(f, work, serial), lmax);
  }

  lemma EnqueueFlowsOnTime(h: Hier, r: Request, t: nat, capacity: nat, lmax: nat)
    requires r.DoEnqueue? && SizedFor(r, t, capacity, lmax) && TIME_SCALE * lmax <= U64_MAX
    requires FlowsOnTime(h, t, capacity, lmax)
    requires var h' := Hierarchy.Enqueue(h, r.t, r.f, r.work, r.data, r.timeout).0;
      t in h'.tenants ==> Unsaturated(h'.tenants[t].flows)
    ensures FlowsOnTime(Hierarchy.Enqueue(h, r.t, r.f, r.work, r.data, r.timeout).0, t, capacity, lmax)
  {
    hide Inv, Unsaturated, Register, EnqueueAnswer, EnqueueStatus, Wfq.Enqueue;
    if EnqueueAnswer(h, r.t, r.f, r.work) == Success {
      AnswerMeans(h, r.t, r.f, r.work);
      var x := Context(|h.contexts|, r.t, h.tenants[r.t].era, r.f, r.work, r.data, r.timeout);
      var h1 := SetTenant(h, r.t, Submit(h.tenants[r.t], r.f, r.work, x.serial)).(contexts := h.contexts + [x]);
      RegisterFlows(h1, r.t, t);
      if r.t == t {
        ArrivalOnTime(h.tenants[t].flows, r.f, r.work, x.serial, lmax);
      }
    }
  }

  // The session chosen is one of those queued, with the work it was enqueued with.
  lemma ChosenWork(h: Hier, i: nat, j: nat, t: nat, x: Context)
    requires Chosen(h, i, j, t, x)
    ensures var y := h.tenants[t].flows.queue[j];
      x.work == y.work && x.flow == y.entry && x.serial == y.data && x.flow in h.tenants[t].flows.entries
  {
  }

  // Handing out is a service of the tenant's scheduler; putting back is a service that is not
  // accounted for, and an arrival.
  lemma ServiceOnTime(s: Sched, j: nat, x: Context, lmax: nat)
    requires Inv(s, lmax) && TIME_SCALE * lmax <= U64_MAX && CanServe(s, j)
    requires x.work == s.queue[j].work
    ensures Inv(Update(Take(s, j), x.work), lmax) && Update(Take(s, j), x.work).capacity == s.capacity
    ensures var r := Take(s, j);
      EnqueueStatus(r, x.flow, x.work) == Success && Unsaturated(Wfq.Enqueue(r, x.flow, x.work, x.serial)) ==>
        Inv(Wfq.Enqueue(r, x.flow, x.work, x.serial), lmax)
          && Wfq.Enqueue(r, x.flow, x.work, x.serial).capacity == s.capacity
    ensures Inv(Take(s, j), lmax) && Take(s, j).capacity == s.capacity
  {
    hide EnqueueStatus, Unsaturated, IsBest, Update, OnTime, NewSession;
    ApplyKeeps(s, Serve(j), lmax);
    UpdateEffect(Take(s, j), x.work);
    TakeKeeps(s, j, lmax);
    assert s.queue[j] in s.queue;
    var r := Take(s, j);
    if EnqueueStatus(r, x.flow, x.work) == Success && Unsaturated(Wfq.Enqueue(r, x.flow, x.work, x.serial)) {
      ArrivalOnTime(r, x.flow, x.work, x.serial, lmax);
    }
  }

  lemma DequeueFlowsOnTime(h: Hier, i: Option<nat>, j: Option<nat>, now: nat, t: nat, capacity: nat, lmax: nat)
    requires Sound(h) && Quiet(h) && MayChoose(h, i, j) && TIME_SCALE * lmax <= U64_MAX
    requires FlowsOnTime(h, t, capacity, lmax)
    requires var h' := Dequeue(h, i, j, now).0; t in h'.tenants ==> Unsaturated(h'.tenants[t].flows)
    ensures FlowsOnTime(Dequeue(h, i, j, now).0, t, capacity, lmax)
  {
    hide Inv, Unsaturated, Sound, Quiet, Dequeue, ServeTenant, PutBack, HandOut, ExceedsCapacity, IsBest, Update, Take,
         EnqueueStatus, Wfq.Enqueue, CanServe;
    var x := DequeueCases(h, i, j, now);
    if i.None? {
      EmptyTake(h);
    } else {
      var u := h.system.queue[i.value].data;
      ServeKeepsQueue(h, i.value);
      ServeKeepsOthers(h, i.value, t);
      var g := ServeTenant(h, i.value);
      var s := h.tenants[u].flows;
      var g1 := SetTenant(g, u, g.tenants[u].(flows := Take(s, j.value)));
      PutBackFlows(g1, u, x, t);
      HandOutFlows(g1, u, x, now, t);
      ChosenWork(h, i.value, j.value, u, x);
      if u == t {
        ServiceOnTime(s, j.value, x, lmax);
      }
    }
  }

  lemma ServeKeepsOthers(h: Hier, i: nat, t: nat)
    requires i < |h.system.queue| && h.system.queue[i].data in h.tenants && t in h.tenants
    ensures t in ServeTenant(h, i).tenants && ServeTenant(h, i).tenants[t].flows == h.tenants[t].flows
  {
  }

  lemma LandFlows(h: Hier, k: nat, done: set<nat>, dropped: set<nat>, t: nat)
    requires k < |h.inFlight| && k < |h.airborne| && t in h.tenants
    ensures t in Landed(h, k, done, dropped).tenants
      && Landed(h, k, done, dropped).tenants[t].flows == h.tenants[t].flows
  {
  }

  lemma NextFlowsOnTime(h: Hier, r: Request, t: nat, capacity: nat, lmax: nat)
    requires Sound(h) && Quiet(h) && CanHappen(h, r) && MovesSessions(r) && SizedFor(r, t, capacity, lmax)
    requires TIME_SCALE * lmax <= U64_MAX && FlowsOnTime(h, t, capacity, lmax)
    requires t in Next(h, r).tenants ==> Unsaturated(Next(h, r).tenants[t].flows)
    ensures FlowsOnTime(Next(h, r), t, capacity, lmax)
  {
    hide Unsaturated, Sound, Quiet, Dequeue, Hierarchy.Enqueue, Complete, Hierarchy.Cancel, Inv, Sized, Find, Landed,
         MayChoose;
    match r
    case DoEnqueue(_, f, work, data, timeout) => EnqueueFlowsOnTime(h, r, t, capacity, lmax);
    case DoDequeue(i, j, now) => DequeueFlowsOnTime(h, i, j, now, t, capacity, lmax);
    case DoComplete(data, u, f) =>
      CompleteCases(h, data, u, f);
      if Find(h.inFlight, data, u, f).Some? {
        var k := Find(h.inFlight, data, u, f).value;
        LandFlows(h, k, h.completed + {h.airborne[k].serial}, h.cancelled, t);
      }
    case DoCancel(data, u, f) =>
      CancelCases(h, data, u, f);
      if Find(h.inFlight, data, u, f).Some? {
        var k := Find(h.inFlight, data, u, f).value;
        LandFlows(h, k, h.completed, h.cancelled + {h.airborne[k].serial}, t);
      }
    case DoCheckTimeouts(now) =>
  }

  lemma {:induction false} ConductFlowsOnTime(h: Hier, requests: seq<Request>, t: nat, capacity: nat, lmax: nat)
    requires Sound(h) && IsConduct(h, requests) && Quiet(Conducted(h, requests))
    requires forall k | 0 <= k < |requests| :: MovesSessions(requests[k]) && SizedFor(requests[k], t, capacity, lmax)
    requires TIME_SCALE * lmax <= U64_MAX && FlowsOnTime(h, t, capacity, lmax)
    ensures FlowsOnTime(Conducted(h, requests), t, capacity, lmax)
    decreases requests
  {
    hide Sound, FlowsOnTime, Next, HierarchyLaws.Fitting, CanHappen, MovesSessions, SizedFor, Unsaturated;
    if requests != [] {
      var h' := Next(h, requests[0]);
      NextKeeps(h, requests[0]);
      assert Quiet(h');
      QuietMeans(h');
      assert MovesSessions(requests[0]) && SizedFor(requests[0], t, capacity, lmax);
      NextFlowsOnTime(h, requests[0], t, capacity, lmax);
      ConductFlowsOnTime(h', requests[1..], t, capacity, lmax);
    }
  }

  // The delay bound inside a tenant. From any sound state in which a tenant has nothing queued and
  // its flows' doubled rates fit its capacity, and over any run of session calls, with dequeues that
  // find no room among them: each queued session x of the tenant satisfies
  // capacity * V + 2^20 * work <= capacity * finish + 2^20 * lmax in the tenant's scheduler.
  lemma NoFlowIsLate(h: Hier, requests: seq<Request>, t: nat, lmax: nat)
    requires Sound(h) && IsConduct(h, requests) && Quiet(Conducted(h, requests))
    requires t in h.tenants && h.tenants[t].flows.queue == []
    requires Guaranteed(h.tenants[t].flows) && TIME_SCALE * lmax <= U64_MAX
    requires forall k | 0 <= k < |requests| ::
      MovesSessions(requests[k]) && SizedFor(requests[k], t, h.tenants[t].flows.capacity, lmax)
    ensures var h' := Conducted(h, requests);
      && t in h'.tenants
      && var s := h'.tenants[t].flows;
         forall x :: x in s.queue ==>
           s.capacity * s.v + TIME_SCALE * x.work <= s.capacity * x.finish + TIME_SCALE * lmax
  {
    hide Sound, IsConduct, Conducted, Quiet, MovesSessions, SizedFor, Guaranteed, Inv;
    TimesAreTimed(h);
    IdleInv(h.tenants[t].flows, lmax);
    ConductFlowsOnTime(h, requests, t, h.tenants[t].flows.capacity, lmax);
    EachOnTime(Conducted(h, requests).tenants[t].flows, lmax);
  }
}
