/**
 What each call of the interface answers, and what it does, in terms of its arguments and the state
 before it.
 */
module Effects {
  import opened Machine
  import opened Wfq
  import opened Lateness
  import opened Rates
  import opened Rebasing
  import opened Jobs
  import opened Pools
  import opened Flights
  import opened Hierarchy
  import opened Coupling
  import opened Backlogs
  import opened Conduct
  import opened Scheduling
  import opened Administration
  import opened HierarchyLaws
  import FlowOrder

  // ---------- Configuration of one scheduler ----------

  // A configuration that succeeds gives the entry its allocation and no past; everything else but the
  // rates of the weights is as it was.
  lemma ConfigureDoes(s: Sched, id: nat, a: Allocation)
    requires Configure(s, id, a, true).1 == Success
    ensures var t := Configure(s, id, a, true).0;
      && t.entries.Keys == s.entries.Keys + {id}
      && t.entries[id].allocation == a && t.entries[id].lastFinish == 0
      && (forall k | k in s.entries && k != id ::
            t.entries[k].allocation == s.entries[k].allocation && t.entries[k].lastFinish == s.entries[k].lastFinish)
      && (t.capacity, t.v, t.epoch, t.queue) == (s.capacity, s.v, s.epoch, s.queue)
      && (t.maxEntries, t.groups) == (s.maxEntries, s.groups)
  {
    hide RateFor;
  }

  lemma UnconfigureDoes(s: Sched, id: nat)
    requires id in s.entries && id < s.maxEntries
    ensures var (t, status) := Unconfigure(s, id);
      && status == Success && t.entries.Keys == s.entries.Keys - {id}
      && (forall k | k in t.entries ::
            t.entries[k].allocation == s.entries[k].allocation && t.entries[k].lastFinish == s.entries[k].lastFinish)
      && (t.capacity, t.v, t.epoch, t.queue) == (s.capacity, s.v, s.epoch, s.queue)
      && (t.maxEntries, t.groups) == (s.maxEntries, s.groups)
  {
    hide RateFor, Without;
  }

  // The rates reserved in a scheduler.
  ghost function Reserved(s: Sched): nat
    requires Listed(s)
  {
    Total(s.order, RatesOf(s.entries))
  }

  // When a configuration is refused: its rate and those that the others have reserved exceed the
  // capacity.
  lemma ConfigureAnswers(s: Sched, id: nat, a: Allocation)
    requires Consistent(s) && NoWrap(s, a) && id < s.maxEntries && ValidAllocation(a)
    ensures Listed(s) && Reserved(s) <= s.capacity
    ensures var others := Reserved(s) - if id in s.entries then RateOf(s.entries[id]) else 0;
      Configure(s, id, a, true).1 == if a.Rate? && others + a.rate > s.capacity then Overbooked else Success
    ensures Configure(s, id, a, true).1 != Success ==> Configure(s, id, a, true).0 == s
  {
    hide Configure, Total, RatesOf, WeightsOf, EffectiveRate;
    ConsistentTallied(s);
    ConfigureSucceeds(s, id, a, true);
    ConfigureKeeps(s, id, a, true);
    StatusIs(s, id, a);
  }

  lemma StatusIs(s: Sched, id: nat, a: Allocation)
    requires id < s.maxEntries && ValidAllocation(a)
    ensures Configure(s, id, a, true).1 in {Success, Overbooked}
  {
  }

  // ---------- Enqueue ----------

  lemma EnqueueAnswers(h: Hier, t: nat, f: nat, work: nat, data: nat, timeout: nat)
    requires Sound(h)
    ensures var (h', status) := Hierarchy.Enqueue(h, t, f, work, data, timeout);
      && status ==
           (if work == 0 || t >= h.config.maxTenants || f == 0 then InvalidArg
            else if t !in h.tenants || f !in h.tenants[t].flows.entries then NotFound
            else Success)
      && (status != Success ==> h' == h)
  {
    hide Fixed, Moving, AllTimed, Register, EnqueueStatus, Wfq.Enqueue;
    EnqueueAccepts(h, t, f, work);
    if t in h.tenants {
      TenantIdFits(h, t);
      NotReserved(h, t);
    }
  }

  lemma NotReserved(h: Hier, t: nat)
    requires Sound(h) && t in h.tenants
    ensures RESERVED_FLOW !in h.tenants[t].flows.entries
  {
    hide Moving, AllTimed, SystemOk, LedgerOk, ErasOk, Consistent, Live;
  }

  // A session that is accepted is recorded with all its arguments, and queued last with its flow.
  lemma EnqueueDoes(h: Hier, t: nat, f: nat, work: nat, data: nat, timeout: nat)
    requires Hierarchy.Enqueue(h, t, f, work, data, timeout).1 == Success
    ensures t in h.tenants && f in h.tenants[t].flows.entries
    ensures var h' := Hierarchy.Enqueue(h, t, f, work, data, timeout).0;
      && h'.contexts == h.contexts + [Context(|h.contexts|, t, h.tenants[t].era, f, work, data, timeout)]
      && t in h'.tenants && h'.tenants == h.tenants[t := h'.tenants[t]]
      && var q, q' := h.tenants[t].flows.queue, h'.tenants[t].flows.queue;
         |q'| == |q| + 1 && q'[..|q|] == q && JobOf(q'[|q|]) == Job(f, work, |h.contexts|)
  {
    hide EnqueueStatus, Wfq.Enqueue, ServiceRate;
    EnqueueNeeds(h, t, f, work);
    EnqueueEffect(h.tenants[t].flows, f, work, |h.contexts|);
  }

  // A tenant that had nothing queued comes into the system scheduler with a session of work 4096; one
  // that had is there already.
  lemma EnqueueRegisters(h: Hier, t: nat, f: nat, work: nat, data: nat, timeout: nat)
    requires Sound(h) && Hierarchy.Enqueue(h, t, f, work, data, timeout).1 == Success
    ensures t in h.tenants
    ensures var q, q' := h.system.queue, Hierarchy.Enqueue(h, t, f, work, data, timeout).0.system.queue;
      if h.tenants[t].flows.queue != [] then q' == q
      else |q'| == |q| + 1 && q'[..|q|] == q && JobOf(q'[|q|]) == Job(t, 4096, t)
  {
    hide Fixed, Moving, AllTimed, EnqueueStatus, Wfq.Enqueue, Consistent;
    EnqueueNeeds(h, t, f, work);
    FlagMeansQueued(h, t);
    Enqueueable(h.system, t, TENANT_QUANTUM);
    EnqueueEffect(h.system, t, TENANT_QUANTUM, t);
  }

  lemma FlagMeansQueued(h: Hier, t: nat)
    requires Sound(h) && t in h.tenants
    ensures h.tenants[t].hasBacklog <==> h.tenants[t].flows.queue != []
    ensures Consistent(h.system) && h.system.groups >= 16 && t in h.system.entries && t < h.system.maxEntries
  {
    hide AllTimed, AirOk, FlightsOk, PlacesOk, QueueOk, BacklogOk, Waiting, LedgerOk, ErasOk, TenantOk, Consistent;
    assert TenantCoupled(h.tenants[t]);
  }

  lemma EnqueueNeeds(h: Hier, t: nat, f: nat, work: nat)
    requires EnqueueAnswer(h, t, f, work) == Success
    ensures t in h.tenants && f in h.tenants[t].flows.entries && EnqueueStatus(h.tenants[t].flows, f, work) == Success
  {
  }

  // ---------- Flows ----------

  // Nothing but tenant t and the total of flows has changed.
  predicate OnlyFlowsOf(h: Hier, h': Hier, t: nat) {
    t in h.tenants && t in h'.tenants && h' == SetTenant(h, t, h'.tenants[t]).(totalFlows := h'.totalFlows)
  }

  // Of tenant t nothing but its flows' scheduler and their ids has changed, and no session has moved.
  predicate SameButFlows(n: Tenant, n': Tenant) {
    && n' == n.(flows := n'.flows, pool := n'.pool)
    && (n'.flows.capacity, n'.flows.v, n'.flows.epoch, n'.flows.queue)
       == (n.flows.capacity, n.flows.v, n.flows.epoch, n.flows.queue)
  }

  // All flows but f are as they were.
  predicate OtherFlowsStay(s: Sched, s': Sched, f: nat) {
    forall k | k in s.entries && k != f ::
      k in s'.entries && s'.entries[k].allocation == s.entries[k].allocation
      && s'.entries[k].lastFinish == s.entries[k].lastFinish
  }

  // A tenant can have so many flows, next to the id that is reserved.
  function MostFlows(c: Config): nat {
    Min(c.maxFlowsPerTenant, MOST_IDS - 1)
  }

  ghost predicate RoomForFlow(h: Hier, t: nat)
    requires t in h.tenants
  {
    && (h.config.maxTotalFlows == 0 || h.totalFlows < h.config.maxTotalFlows)
    && |h.tenants[t].flows.entries| < MostFlows(h.config)
  }

  lemma FlowIds(h: Hier, t: nat)
    requires Sound(h) && t in h.tenants
    ensures var n := h.tenants[t];
      && Consistent(n.flows) && n.flows.entries.Keys == Live(n.pool) - {RESERVED_FLOW} && Good(n.pool)
      && (forall f | f in n.flows.entries :: f < n.flows.maxEntries)
      && (Alloc(n.pool).1.None? <==> |n.flows.entries| >= MostFlows(h.config))
      && (Alloc(n.pool).1.Some? ==>
            Alloc(n.pool).1.value !in n.flows.entries && Alloc(n.pool).1.value < n.flows.maxEntries)
  {
    hide Moving, AllTimed, SystemOk, LedgerOk, ErasOk, Consistent, Live, Alloc, Good;
    assert TenantOk(h.config, h.tenants[t]);
    FlowIdsOf(h.config, h.tenants[t]);
  }

  lemma FlowIdsOf(c: Config, n: Tenant)
    requires ConfigOk(c) && TenantOk(c, n)
    ensures forall f | f in n.flows.entries :: f < n.flows.maxEntries
    ensures Alloc(n.pool).1.None? <==> |n.flows.entries| >= MostFlows(c)
    ensures Alloc(n.pool).1.Some? ==>
      Alloc(n.pool).1.value !in n.flows.entries && Alloc(n.pool).1.value < n.flows.maxEntries
  {
    hide Consistent, Live, Alloc, Good;
    LiveBelow(n.pool);
    AllocFailsWhenFull(n.pool);
    WrapSmall(c.maxFlowsPerTenant + 1);
    OneMore(n.flows.entries.Keys, Live(n.pool), RESERVED_FLOW);
    assert |n.flows.entries.Keys| == |n.flows.entries|;
    if Alloc(n.pool).1.Some? {
      AllocGivesFresh(n.pool);
    }
  }

  lemma LiveBelow(p: Pool)
    requires Good(p)
    ensures |Live(p)| <= MOST_IDS && forall id | id in Live(p) :: id < Limit(p)
  {
    FreeCount(p);
  }

  lemma OneMore(a: set<nat>, b: set<nat>, x: nat)
    requires x in b && a == b - {x}
    ensures |b| == |a| + 1
  {
    assert b == a + {x};
  }

  // When a flow is added, and what is answered otherwise.
  lemma AddFlowAnswers(h: Hier, t: nat, a: Allocation)
    requires Sound(h) && (t in h.tenants ==> NoWrap(h.tenants[t].flows, a))
    ensures t in h.tenants ==> Listed(h.tenants[t].flows)
    ensures AddFlow(h, t, a).1 ==
      if t >= h.config.maxTenants || !ValidAllocation(a) then InvalidArg
      else if t !in h.tenants then NotFound
      else if !RoomForFlow(h, t) then NoMemory
      else if a.Rate? && Reserved(h.tenants[t].flows) + a.rate > h.tenants[t].flows.capacity then Overbooked
      else Success
  {
    hide Sound, Consistent, Configure, Alloc, Release, Live, Good, Reserved, Listed;
    if t in h.tenants {
      FlowIds(h, t);
      var n := h.tenants[t];
      FlowsAreListed(n.flows);
      if ValidAllocation(a) && Alloc(n.pool).1.Some? {
        ConfigureAnswers(n.flows, Alloc(n.pool).1.value, a);
      }
    }
  }

  lemma FlowsAreListed(s: Sched)
    requires Consistent(s)
    ensures Listed(s)
  {
  }

  // What adding a flow does: one id that was free is now a flow with the given allocation.
  lemma AddFlowDoes(h: Hier, t: nat, a: Allocation)
    requires Sound(h) && (t in h.tenants ==> NoWrap(h.tenants[t].flows, a))
    ensures var (h', status) := AddFlow(h, t, a);
      && (status != Success ==> h'.tenants.Keys == h.tenants.Keys && h'.totalFlows == h.totalFlows)
      && (status == Success ==>
            && OnlyFlowsOf(h, h', t) && SameButFlows(h.tenants[t], h'.tenants[t])
            && h'.totalFlows == Wrap32(h.totalFlows + 1)
            && var s, s' := h.tenants[t].flows, h'.tenants[t].flows;
               exists f: nat ::
                 && f !in s.entries && f != RESERVED_FLOW && s'.entries.Keys == s.entries.Keys + {f}
                 && s'.entries[f].allocation == a && s'.entries[f].lastFinish == 0 && OtherFlowsStay(s, s', f))
  {
    hide Sound, Consistent, Configure, Alloc, Release, Live, Good, Wrap32;
    if AddFlow(h, t, a).1 == Success {
      FlowIds(h, t);
      var n, f := h.tenants[t], Alloc(h.tenants[t].pool).1.value;
      GivenFlowIsNotReserved(h, t);
      ConfigureDoes(n.flows, f, a);
      assert AddFlow(h, t, a).0.tenants[t].flows == Configure(n.flows, f, a, true).0;
    }
  }

  lemma GivenFlowIsNotReserved(h: Hier, t: nat)
    requires Sound(h) && t in h.tenants && Alloc(h.tenants[t].pool).1.Some?
    ensures Alloc(h.tenants[t].pool).1.value != RESERVED_FLOW
  {
    hide Moving, AllTimed, SystemOk, LedgerOk, ErasOk, Consistent, Live, Alloc, Good;
    assert TenantOk(h.config, h.tenants[t]);
    AllocGivesFresh(h.tenants[t].pool);
  }

  // A flow that is not added leaves the schedulers as they were.
  lemma AddFlowRefused(h: Hier, t: nat, a: Allocation)
    requires Sound(h) && (t in h.tenants ==> NoWrap(h.tenants[t].flows, a)) && AddFlow(h, t, a).1 != Success
    ensures var h' := AddFlow(h, t, a).0;
      && h'.system == h.system && h'.tenants.Keys == h.tenants.Keys
      && (forall u | u in h.tenants :: h'.tenants[u].flows == h.tenants[u].flows)
      && (forall u | u in h.tenants :: Live(h'.tenants[u].pool) == Live(h.tenants[u].pool))
  {
    hide Sound, Consistent, Configure, Alloc, Release, Live, Good;
    if t in h.tenants {
      FlowIds(h, t);
      var n := h.tenants[t];
      if ValidAllocation(a) && Alloc(n.pool).1.Some? {
        ConfigureAnswers(n.flows, Alloc(n.pool).1.value, a);
        AllocGivesFresh(n.pool);
        ReleaseTakesBack(Alloc(n.pool).0, Alloc(n.pool).1.value);
        assert Live(Release(Alloc(n.pool).0, Alloc(n.pool).1.value)) == Live(n.pool);
      }
    }
  }

  // What removing a flow does: its id is free, and only the others are left.
  lemma RemoveFlowDoes(h: Hier, t: nat, f: nat)
    requires Sound(h) && RemoveFlow(h, t, f).1 == Success
    ensures var h' := RemoveFlow(h, t, f).0;
      && OnlyFlowsOf(h, h', t) && SameButFlows(h.tenants[t], h'.tenants[t])
      && h'.totalFlows == Minus(h.totalFlows, 1)
      && var n, n' := h.tenants[t], h'.tenants[t];
         && n'.flows.entries.Keys == n.flows.entries.Keys - {f} && OtherFlowsStay(n.flows, n'.flows, f)
         && Live(n'.pool) == Live(n.pool) - {f}
  {
    hide Sound, Consistent, Unconfigure, Release, Live, Good;
    FlowIds(h, t);
    var n := h.tenants[t];
    UnconfigureDoes(n.flows, f);
    ReleaseTakesBack(n.pool, f);
  }

  // When a flow is reconfigured, and what is answered otherwise; then nothing changes.
  lemma ReconfigureFlowAnswers(h: Hier, t: nat, f: nat, a: Allocation)
    requires Sound(h) && (t in h.tenants ==> NoWrap(h.tenants[t].flows, a))
    ensures t in h.tenants ==> Listed(h.tenants[t].flows)
    ensures var (h', status) := ReconfigureFlow(h, t, f, a);
      && status ==
           (if f == RESERVED_FLOW || t >= h.config.maxTenants || !ValidAllocation(a) then InvalidArg
            else if t !in h.tenants || f !in h.tenants[t].flows.entries then NotFound
            else
              var s := h.tenants[t].flows;
              if a.Rate? && Reserved(s) - RateOf(s.entries[f]) + a.rate > s.capacity then Overbooked else Success)
      && (status != Success ==> h' == h)
  {
    hide Sound, Consistent, Configure, Live, Good, Reserved, Alloc;
    if t in h.tenants {
      FlowIds(h, t);
      FlowsAreListed(h.tenants[t].flows);
      if f in h.tenants[t].flows.entries && ValidAllocation(a) {
        ConfigureAnswers(h.tenants[t].flows, f, a);
        assert h.tenants[t := h.tenants[t]] == h.tenants;
      }
    }
  }

  // What reconfiguring a flow does: it has the new allocation and no past; the other flows and all
  // sessions are as they were.
  lemma ReconfigureFlowDoes(h: Hier, t: nat, f: nat, a: Allocation)
    requires Sound(h) && ReconfigureFlow(h, t, f, a).1 == Success
    ensures var h' := ReconfigureFlow(h, t, f, a).0;
      && OnlyFlowsOf(h, h', t) && SameButFlows(h.tenants[t], h'.tenants[t]) && h'.totalFlows == h.totalFlows
      && var s, s' := h.tenants[t].flows, h'.tenants[t].flows;
         && h'.tenants[t].pool == h.tenants[t].pool && s'.entries.Keys == s.entries.Keys
         && f in s.entries && s'.entries[f].allocation == a && s'.entries[f].lastFinish == 0 && OtherFlowsStay(s, s', f)
  {
    hide Sound, Configure;
    var n := h.tenants[t];
    ConfigureDoes(n.flows, f, a);
  }

  // ---------- Completion and cancellation ----------

  predicate IsFlight(f: Flight, data: nat, t: nat, flow: nat) {
    f.data == data && f.tenant == t && f.flow == flow
  }

  predicate OfFlow(f: Flight, t: nat, flow: nat) {
    f.tenant == t && f.flow == flow
  }

  // The flight at position k is the one meant: with user data the latest with that data of that flow,
  // without the first of the flow.
  predicate Meant(fs: seq<Flight>, data: nat, t: nat, flow: nat, k: nat) {
    && k < |fs|
    && if data != 0 then IsFlight(fs[k], data, t, flow) && forall j | k < j < |fs| :: !IsFlight(fs[j], data, t, flow)
       else OfFlow(fs[k], t, flow) && forall j | 0 <= j < k :: !OfFlow(fs[j], t, flow)
  }

  lemma FindIsMeant(fs: seq<Flight>, data: nat, t: nat, flow: nat)
    ensures Find(fs, data, t, flow).None? <==>
      forall k | 0 <= k < |fs| :: !(if data != 0 then IsFlight(fs[k], data, t, flow) else OfFlow(fs[k], t, flow))
    ensures forall k: nat :: Find(fs, data, t, flow) == Some(k) <==> Meant(fs, data, t, flow, k)
  {
    LastMatchIs(fs, data, t, flow);
    FirstOfIs(fs, t, flow);
    forall k | 0 <= k < |fs|
      ensures fs[k] in fs && (IsFlight(fs[k], data, t, flow) <==> Matches(fs[k], data, t, flow))
    {
    }
  }

  // Exactly the k-th flight is taken out, with its work.
  predicate TakenOut(h: Hier, h': Hier, k: nat) {
    && k < |h.inFlight| == |h.airborne|
    && h'.inFlight == h.inFlight[..k] + h.inFlight[k + 1..] && h'.airborne == h.airborne[..k] + h.airborne[k + 1..]
    && h'.inFlightWork + h.inFlight[k].work == h.inFlightWork
    && h'.contexts == h.contexts && h'.timedOut == h.timedOut
  }

  // A completion succeeds exactly when the session meant is in flight, and takes exactly that one out.
  lemma CompleteDoes(h: Hier, data: nat, t: nat, f: nat)
    requires Sound(h)
    ensures var (h', status) := Complete(h, data, t, f);
      && status in {Success, NotFound}
      && (status == Success <==>
            exists k :: 0 <= k < |h.inFlight|
              && if data != 0 then IsFlight(h.inFlight[k], data, t, f) else OfFlow(h.inFlight[k], t, f))
      && (status == NotFound ==> h' == h)
      && forall k: nat | Meant(h.inFlight, data, t, f, k) ::
           TakenOut(h, h', k) && h'.completed == h.completed + {h.airborne[k].serial} && h'.cancelled == h.cancelled
  {
    hide Sound, Complete, Find, Meant, IsFlight, OfFlow;
    FindIsMeant(h.inFlight, data, t, f);
    CompleteCases(h, data, t, f);
    if Find(h.inFlight, data, t, f).Some? {
      var k := Find(h.inFlight, data, t, f).value;
      LandedIs(h, k, h.completed + {h.airborne[k].serial}, h.cancelled);
    }
  }

  // And so with a cancellation.
  lemma CancelDoes(h: Hier, data: nat, t: nat, f: nat)
    requires Sound(h)
    ensures var (h', status) := Hierarchy.Cancel(h, data, t, f);
      && status in {Success, NotFound}
      && (status == Success <==>
            exists k :: 0 <= k < |h.inFlight|
              && if data != 0 then IsFlight(h.inFlight[k], data, t, f) else OfFlow(h.inFlight[k], t, f))
      && (status == NotFound ==> h' == h)
      && forall k: nat | Meant(h.inFlight, data, t, f, k) ::
           TakenOut(h, h', k) && h'.cancelled == h.cancelled + {h.airborne[k].serial} && h'.completed == h.completed
  {
    hide Sound, Hierarchy.Cancel, Find, Meant, IsFlight, OfFlow;
    FindIsMeant(h.inFlight, data, t, f);
    CancelCases(h, data, t, f);
    if Find(h.inFlight, data, t, f).Some? {
      var k := Find(h.inFlight, data, t, f).value;
      LandedIs(h, k, h.completed, h.cancelled + {h.airborne[k].serial});
    }
  }

  lemma LandedIs(h: Hier, k: nat, done: set<nat>, dropped: set<nat>)
    requires Sound(h) && k < |h.inFlight| == |h.airborne|
    ensures var h' := Landed(h, k, done, dropped);
      TakenOut(h, h', k) && h'.completed == done && h'.cancelled == dropped
  {
    hide Fixed, Coupled, AirOk, PlacesOk, QueueOk, BacklogOk, AllTimed, CountOut;
    CapacityFits(h);
    WorkOfRemove(h.inFlight, k);
    WrapSmall(h.inFlightWork - h.inFlight[k].work);
  }

  lemma CapacityFits(h: Hier)
    requires Sound(h)
    ensures h.config.capacity <= U64_MAX
  {
    hide Moving, AllTimed, SystemOk, LedgerOk, ErasOk, TenantOk;
  }

  // ---------- Dequeue ----------

  // A session that is handed out is in flight from then on, as the latest, with the arguments it was
  // enqueued with and the time of the dequeue.
  lemma DequeueDoes(h: Hier, i: Option<nat>, j: Option<nat>, now: nat)
    requires Sound(h) && Quiet(h) && MayChoose(h, i, j)
    ensures var (h', answer) := Dequeue(h, i, j, now);
      && (answer.session.Some? <==> answer.status == Success)
      && h'.contexts == h.contexts && h'.timedOut == h.timedOut
      && (answer.session.None? ==> h'.inFlight == h.inFlight && h'.airborne == h.airborne)
      && (answer.session.Some? ==>
            var x := answer.session.value;
            && x in h.contexts && h'.airborne == h.airborne + [x]
            && h'.inFlight == h.inFlight + [Flight(x.tenant, x.flow, x.work, x.data, now, x.timeout)])
  {
    hide Sound, Quiet, Dequeue, MayChoose, ServeTenant, ExceedsCapacity, PutBack, HandOut, Take, Carries;
    var x := DequeueCases(h, i, j, now);
    if i.None? {
      EmptyTake(h);
    } else {
      var g := ServeTenant(h, i.value);
      var t := h.system.queue[i.value].data;
      ServeKeepsFlows(h, i.value, t);
      var g1 := SetTenant(g, t, g.tenants[t].(flows := Take(g.tenants[t].flows, j.value)));
      TurnLeavesFlights(h, i.value);
      AfterTurnFlights(g1, t, x, now);
    }
  }

  lemma TurnLeavesFlights(h: Hier, i: nat)
    requires i < |h.system.queue| && h.system.queue[i].data in h.tenants
    ensures var g := ServeTenant(h, i);
      (g.contexts, g.inFlight, g.airborne, g.timedOut) == (h.contexts, h.inFlight, h.airborne, h.timedOut)
  {
  }

  lemma AfterTurnFlights(g: Hier, t: nat, x: Context, now: nat)
    requires t in g.tenants
    ensures var b := PutBack(g, t, x);
      (b.contexts, b.inFlight, b.airborne, b.timedOut) == (g.contexts, g.inFlight, g.airborne, g.timedOut)
    ensures var o := HandOut(g, t, x, now);
      && (o.contexts, o.timedOut) == (g.contexts, g.timedOut) && o.airborne == g.airborne + [x]
      && o.inFlight == g.inFlight + [Flight(x.tenant, x.flow, x.work, x.data, now, x.timeout)]
  {
    hide EnqueueStatus, Wfq.Enqueue, Update;
  }

  // ---------- Timeouts ----------

  // Time from one reading of the 64-bit clock to another.
  function Elapsed(since: nat, now: nat): int {
    if since <= now then now - since else now - since + 0x1_0000_0000_0000_0000
  }

  lemma TimedOutMeans(f: Flight, now: nat)
    requires f.dequeued <= U64_MAX && now <= U64_MAX
    ensures TimedOut(f, now) <==> f.timeout > 0 && Elapsed(f.dequeued, now) >= f.timeout
  {
  }

  lemma {:induction false} StaysWhere(fs: seq<Flight>, xs: seq<Context>, now: nat, k: nat)
    requires |fs| == |xs| && k < |fs|
    ensures !TimedOut(fs[k], now) ==> xs[k] in Staying(fs, xs, now)
    ensures TimedOut(fs[k], now) ==> xs[k] in Leaving(fs, xs, now)
  {
    hide TimedOut;
    if k < |fs| - 1 {
      StaysWhere(fs[..|fs| - 1], xs[..|xs| - 1], now, k);
    }
  }

  lemma {:induction false} SweepMembers(fs: seq<Flight>, xs: seq<Context>, now: nat)
    requires |fs| == |xs|
    ensures forall x :: x in Staying(fs, xs, now) || x in Leaving(fs, xs, now) ==> x in xs
    ensures forall x :: x in Staying(fs, xs, now) ==> exists k :: 0 <= k < |fs| && xs[k] == x && !TimedOut(fs[k], now)
    ensures forall x :: x in Leaving(fs, xs, now) ==> exists k :: 0 <= k < |fs| && xs[k] == x && TimedOut(fs[k], now)
  {
    hide TimedOut;
    if fs != [] {
      var n := |fs| - 1;
      SweepMembers(fs[..n], xs[..n], now);
      assert forall k | 0 <= k < n :: fs[..n][k] == fs[k] && xs[..n][k] == xs[k];
    }
  }

  // A sweep takes a session out of flight exactly when its timeout is set and that much time has gone
  // by since it was dequeued, and all others stay.
  lemma CheckTimeoutsDoes(h: Hier, now: nat, k: nat)
    requires Sound(h) && k < |h.airborne| == |h.inFlight|
    requires h.inFlight[k].dequeued <= U64_MAX && now <= U64_MAX
    ensures var h', f := CheckTimeouts(h, now), h.inFlight[k];
      && (h.airborne[k] in h'.timedOut <==> f.timeout > 0 && Elapsed(f.dequeued, now) >= f.timeout)
      && (h.airborne[k] in h'.airborne <==> !(f.timeout > 0 && Elapsed(f.dequeued, now) >= f.timeout))
  {
    hide TimedOut, Kept, Expired, Staying, Leaving, WorkOf;
    var fs, xs := h.inFlight, h.airborne;
    TimedOutMeans(fs[k], now);
    StaysWhere(fs, xs, now, k);
    SweepMembers(fs, xs, now);
    FlightsDiffer(h, k);
  }

  // A context in the air is in one place only.
  lemma FlightsDiffer(h: Hier, k: nat)
    requires Sound(h) && k < |h.airborne|
    ensures h.airborne[k] !in h.timedOut
    ensures forall j | 0 <= j < |h.airborne| && j != k :: h.airborne[j] != h.airborne[k]
  {
    hide Fixed, Coupled, AirOk, FlightsOk, QueueOk, BacklogOk, AllTimed, Queued;
    var c := h.airborne[k];
    assert h.contexts[c.serial] == c && Places(h, c) == 1;
    assert c in h.airborne;
  }

  // ---------- Tenants ----------

  // The capacity of the scheduler of a tenant that is added with allocation a.
  function CapacityFor(c: Config, a: Allocation): nat {
    if a.Rate? then a.rate else c.capacity
  }

  lemma SystemIsListed(h: Hier)
    requires Sound(h)
    ensures Listed(h.system) && Consistent(h.system) && h.system.capacity == h.config.capacity
    ensures h.allocatedRate == h.system.allocatedRate == Reserved(h.system)
    ensures h.system.entries.Keys == h.tenants.Keys == Live(h.tenantPool) && Good(h.tenantPool)
    ensures forall t | t in h.tenants :: h.system.entries[t].allocation == h.tenants[t].allocation
  {
    hide Moving, AllTimed, ErasOk, TenantOk, Live, Good;
  }

  // When a tenant is added, and what is answered otherwise; then nothing changes.
  lemma AddTenantAnswers(h: Hier, a: Allocation)
    requires Sound(h) && NoWrap(h.system, a)
    ensures Listed(h.system)
    ensures var (h', status) := AddTenant(h, a);
      && status ==
           (if !ValidAllocation(a) then InvalidArg
            else if |h.tenants| >= h.config.maxTenants then NoMemory
            else if a.Rate? && Reserved(h.system) + a.rate > h.config.capacity then Overbooked
            else if |h.tenants| == MOST_IDS then NoMemory
            else Success)
      && (status != Success ==> h' == h)
  {
    hide Fixed, Moving, AllTimed, Configure, Alloc, Release, WouldExceed, FreeTenant, Reserved, Listed, NoWrap;
    SystemIsListed(h);
    FreeTenantMeans(h);
    FullPool(h);
    AdmissionMeans(h, a);
    if ValidAllocation(a) && FreeTenant(h) && !WouldExceed(h, a, None) && Alloc(h.tenantPool).1.Some? {
      AddTenantIs(h, a);
    }
  }

  // A tenant as it is added: its flows are to share the rate it has, or the whole capacity; it has none
  // yet, and nothing queued.
  ghost predicate IsAdded(c: Config, n: Tenant, a: Allocation, era: nat) {
    && n.allocation == a && n.flows.capacity == CapacityFor(c, a) && n.era == era
    && n.flows.entries == map[] && n.flows.queue == [] && n.flows.v == 0
    && !n.hasBacklog && n.backlog == 0 && n.flowBacklog == map[] && Live(n.pool) == {RESERVED_FLOW}
  }

  lemma NewTenantIsAdded(c: Config, a: Allocation, era: nat)
    requires ConfigOk(c)
    ensures IsAdded(c, NewTenant(c, a, era), a, era)
  {
  }

  // What adding a tenant does: an id that was free is the new tenant, configured in the system
  // scheduler; no other tenant and no session is touched.
  lemma AddTenantDoes(h: Hier, a: Allocation) returns (id: nat)
    requires Sound(h) && NoWrap(h.system, a) && AddTenant(h, a).1 == Success
    ensures var h' := AddTenant(h, a).0;
      && id !in h.tenants && id < h.config.maxTenants && id in h'.tenants
      && h'.tenants == h.tenants[id := h'.tenants[id]]
      && IsAdded(h.config, h'.tenants[id], a, h.eras) && h'.eras == h.eras + 1
      && h'.system.entries.Keys == h.system.entries.Keys + {id}
      && h'.system.entries[id].allocation == a && h'.system.entries[id].lastFinish == 0
      && OtherFlowsStay(h.system, h'.system, id) && (h'.system.queue, h'.system.v) == (h.system.queue, h.system.v)
      && (h'.contexts, h'.inFlight, h'.airborne, h'.timedOut) == (h.contexts, h.inFlight, h.airborne, h.timedOut)
      && h'.tenantCount == h.tenantCount + 1
  {
    hide Fixed, Moving, AllTimed, Configure, Alloc, WouldExceed, FreeTenant, NewTenant, NoWrap, AddTenant, IsAdded;
    AddTenantSucceeds(h, a);
    FreeTenantMeans(h);
    FullPool(h);
    AdmissionMeans(h, a);
    id := Alloc(h.tenantPool).1.value;
    AddTenantIs(h, a);
    GivenIdIsFree(h);
    ConfigureDoes(h.system, id, a);
    ConfigIsOk(h);
    NewTenantIsAdded(h.config, a, h.eras);
  }

  lemma ConfigIsOk(h: Hier)
    requires Sound(h)
    ensures ConfigOk(h.config) && h.tenantCount == |h.tenants|
  {
    hide Moving, AllTimed, SystemOk, ErasOk, TenantOk;
  }

  // The rate an allocation reserves.
  function ReservedBy(a: Allocation): nat {
    if a.Rate? then a.rate else 0
  }

  // When a tenant is reconfigured, and what is answered otherwise; then nothing changes.
  lemma ConfigureTenantAnswers(h: Hier, t: nat, a: Allocation)
    requires Sound(h) && NoWrap(h.system, a)
    ensures Listed(h.system)
    ensures var (h', status) := ConfigureTenant(h, t, a);
      && status ==
           (if t >= h.config.maxTenants || !ValidAllocation(a) then InvalidArg
            else if t !in h.tenants then NotFound
            else if a.Rate? && Reserved(h.system) + a.rate > h.config.capacity + ReservedBy(h.tenants[t].allocation)
            then Overbooked
            else Success)
      && (status != Success ==> h' == h)
  {
    hide Fixed, Moving, AllTimed, Configure, WouldExceed, Reserved, Listed, NoWrap;
    SystemIsListed(h);
    LevelsAgree(h, t);
    WouldExceedMeans(h, t, a);
  }

  // What reconfiguring a tenant does: it has the new allocation, in the system scheduler too, where it
  // has no past; its flows keep the capacity they have, and no session is touched.
  lemma ConfigureTenantDoes(h: Hier, t: nat, a: Allocation)
    requires Sound(h) && NoWrap(h.system, a) && ConfigureTenant(h, t, a).1 == Success
    ensures var h' := ConfigureTenant(h, t, a).0;
      && t in h.tenants && h'.tenants == h.tenants[t := h.tenants[t].(allocation := a)]
      && h'.system.entries.Keys == h.system.entries.Keys && t in h'.system.entries
      && h'.system.entries[t].allocation == a && h'.system.entries[t].lastFinish == 0
      && OtherFlowsStay(h.system, h'.system, t)
      && h' == h.(tenants := h'.tenants, system := h'.system, allocatedRate := h'.system.allocatedRate)
      && (h'.system.queue, h'.system.v) == (h.system.queue, h.system.v)
  {
    hide Fixed, Moving, AllTimed, Configure, NoWrap, ConfigureTenant;
    ConfigureTenantIs(h, t, a);
    SystemIsListed(h);
    ConfigureDoes(h.system, t, a);
  }

  // What removing a tenant does: its id is free, it is out of the system scheduler, and its flows are out
  // of the total; no other tenant and no session is touched.
  lemma RemoveTenantDoes(h: Hier, t: nat)
    requires Sound(h) && RemoveTenant(h, t).1 == Success
    ensures var h' := RemoveTenant(h, t).0;
      && t in h.tenants && h'.tenants == h.tenants - {t} && Live(h'.tenantPool) == Live(h.tenantPool) - {t}
      && h'.system.entries.Keys == h.system.entries.Keys - {t}
      && OtherFlowsStay(h.system, h'.system, t) && (h'.system.queue, h'.system.v) == (h.system.queue, h.system.v)
      && h'.tenantCount == h.tenantCount - 1 && h'.eras == h.eras
      && h'.totalFlows == Minus(h.totalFlows, |h.tenants[t].flows.entries|)
      && (h'.contexts, h'.inFlight, h'.airborne, h'.timedOut) == (h.contexts, h.inFlight, h.airborne, h.timedOut)
  {
    hide Fixed, Moving, AllTimed, Unconfigure, RemoveTenant, Release, Live, Good;
    RemovableMeans(h, t);
    RemoveTenantIs(h, t);
    SystemIsListed(h);
    ConfigIsOk(h);
    TenantIdIn(h, t);
    UnconfigureDoes(h.system, t);
    ReleaseTakesBack(h.tenantPool, t);
    FlowsAreCounted(h, t);
  }

  lemma RemovableMeans(h: Hier, t: nat)
    requires RemoveTenant(h, t).1 == Success
    ensures t in h.tenants && !h.tenants[t].hasBacklog
  {
  }

  lemma TenantIdIn(h: Hier, t: nat)
    requires Sound(h) && t in h.tenants
    ensures t < h.system.maxEntries && |h.tenants| > 0
  {
    hide Moving, AllTimed, ErasOk, TenantOk, Consistent;
  }

  lemma FlowsAreCounted(h: Hier, t: nat)
    requires Sound(h) && t in h.tenants
    ensures h.tenants[t].pool.configured == |h.tenants[t].flows.entries| + 1
  {
    hide Moving, AllTimed, SystemOk, LedgerOk, ErasOk, Consistent, Live, Good;
    var n := h.tenants[t];
    assert TenantOk(h.config, n);
    FreeCount(n.pool);
    OneMore(n.flows.entries.Keys, Live(n.pool), RESERVED_FLOW);
    assert |n.flows.entries.Keys| == |n.flows.entries|;
  }

  // ---------- Over runs of calls ----------

  lemma CapacityOfOps(s: Sched)
    ensures forall id, work, data | EnqueueStatus(s, id, work) == Success ::
      Wfq.Enqueue(s, id, work, data).capacity == s.capacity
    ensures forall work :: Update(s, work).capacity == s.capacity
    ensures forall i | 0 <= i < |s.queue| :: Take(s, i).capacity == s.capacity
    ensures TakeNone(s).capacity == s.capacity
    ensures forall id, a :: Configure(s, id, a, true).0.capacity == s.capacity
    ensures forall id :: Unconfigure(s, id).0.capacity == s.capacity
  {
    hide RateFor, ServiceRate, Interval, Delta, MinStart, Without, ChoiceTime;
  }

  // The capacity of a tenant's scheduler never changes.
  lemma CapacityStays(h: Hier, r: Request, t: nat)
    requires Sound(h) && Quiet(h) && CanHappen(h, r) && t in h.tenants && t in Next(h, r).tenants
    ensures var n' := Next(h, r).tenants[t];
      n'.era == h.tenants[t].era && n'.flows.capacity == h.tenants[t].flows.capacity
  {
    hide Sound, Quiet, MayChoose, Hierarchy.Enqueue, Dequeue, Complete, Hierarchy.Cancel, AddFlow;
    CapacityOfOps(h.tenants[t].flows);
    match r
    case DoEnqueue(u, f, work, data, timeout) => CapacityAfterEnqueue(h, u, f, work, data, timeout, t);
    case DoDequeue(i, j, now) => CapacityAfterDequeue(h, i, j, now, t);
    case DoComplete(data, u, f) => CapacityAfterLanding(h, data, u, f, t);
    case DoCancel(data, u, f) => CapacityAfterLanding(h, data, u, f, t);
    case DoAddTenant(a) => CapacityAfterAddTenant(h, a, t);
    case DoAddFlow(u, a) => CapacityAfterAddFlow(h, u, a, t);
    case _ =>
      hide Configure, Unconfigure, Release, WouldExceed, Kept, Expired, Staying, Leaving;
  }

  lemma CapacityAfterEnqueue(h: Hier, u: nat, f: nat, work: nat, data: nat, timeout: nat, t: nat)
    requires t in h.tenants
    ensures var h' := Hierarchy.Enqueue(h, u, f, work, data, timeout).0;
      t in h'.tenants && h'.tenants[t].era == h.tenants[t].era
        && h'.tenants[t].flows.capacity == h.tenants[t].flows.capacity
  {
    hide EnqueueStatus, Wfq.Enqueue, Register;
    if EnqueueAnswer(h, u, f, work) == Success {
      EnqueueNeeds(h, u, f, work);
      var g := SetTenant(h, u, Submit(h.tenants[u], f, work, |h.contexts|)).(
        contexts := h.contexts + [Context(|h.contexts|, u, h.tenants[u].era, f, work, data, timeout)]);
      CapacityOfOps(h.tenants[u].flows);
      RegisterFlows(g, u, t);
      RegisterKeepsEra(g, u, t);
    }
  }

  lemma RegisterKeepsEra(g: Hier, u: nat, t: nat)
    requires u in g.tenants && t in g.tenants
    ensures t in Register(g, u).tenants && Register(g, u).tenants[t].era == g.tenants[t].era
  {
  }

  lemma CapacityAfterDequeue(h: Hier, i: Option<nat>, j: Option<nat>, now: nat, t: nat)
    requires Sound(h) && Quiet(h) && MayChoose(h, i, j) && t in h.tenants
    ensures var h' := Dequeue(h, i, j, now).0;
      t in h'.tenants && h'.tenants[t].era == h.tenants[t].era
        && h'.tenants[t].flows.capacity == h.tenants[t].flows.capacity
  {
    hide Sound, Quiet, Dequeue, MayChoose, ServeTenant, ExceedsCapacity, PutBack, HandOut, Take, Carries, Update,
         EnqueueStatus, Wfq.Enqueue;
    var x := DequeueCases(h, i, j, now);
    if i.None? {
      EmptyTake(h);
    } else {
      var u := h.system.queue[i.value].data;
      ServeKeepsFlows(h, i.value, t);
      ServeKeepsFlows(h, i.value, u);
      TurnKeepsEra(h, i.value, t);
      var g := ServeTenant(h, i.value);
      var s := Take(g.tenants[u].flows, j.value);
      var g1 := SetTenant(g, u, g.tenants[u].(flows := s));
      CapacityOfOps(g.tenants[u].flows);
      CapacityOfOps(s);
      PutBackFlows(g1, u, x, t);
      HandOutFlows(g1, u, x, now, t);
      AfterTurnKeepsEra(g1, u, x, now, t);
    }
  }

  lemma TurnKeepsEra(h: Hier, i: nat, t: nat)
    requires i < |h.system.queue| && h.system.queue[i].data in h.tenants && t in h.tenants
    ensures t in ServeTenant(h, i).tenants && ServeTenant(h, i).tenants[t].era == h.tenants[t].era
  {
  }

  lemma AfterTurnKeepsEra(g: Hier, u: nat, x: Context, now: nat, t: nat)
    requires u in g.tenants && t in g.tenants
    ensures t in PutBack(g, u, x).tenants && PutBack(g, u, x).tenants[t].era == g.tenants[t].era
    ensures t in HandOut(g, u, x, now).tenants && HandOut(g, u, x, now).tenants[t].era == g.tenants[t].era
  {
    hide EnqueueStatus, Wfq.Enqueue, Update;
  }

  lemma CapacityAfterLanding(h: Hier, data: nat, u: nat, f: nat, t: nat)
    requires Sound(h) && t in h.tenants
    ensures var h' := Complete(h, data, u, f).0;
      t in h'.tenants && h'.tenants[t].era == h.tenants[t].era
        && h'.tenants[t].flows.capacity == h.tenants[t].flows.capacity
    ensures var h' := Hierarchy.Cancel(h, data, u, f).0;
      t in h'.tenants && h'.tenants[t].era == h.tenants[t].era
        && h'.tenants[t].flows.capacity == h.tenants[t].flows.capacity
  {
    hide Sound, Complete, Hierarchy.Cancel, Find;
    CompleteCases(h, data, u, f);
    CancelCases(h, data, u, f);
  }

  lemma CapacityAfterAddTenant(h: Hier, a: Allocation, t: nat)
    requires Sound(h) && t in h.tenants && t in AddTenant(h, a).0.tenants
    ensures AddTenant(h, a).0.tenants[t] == h.tenants[t]
  {
    hide Fixed, Moving, AllTimed, Configure, Alloc, Release, WouldExceed, FreeTenant, NewTenant;
    if Alloc(h.tenantPool).1.Some? {
      GivenIdIsFree(h);
    }
  }

  lemma CapacityAfterAddFlow(h: Hier, u: nat, a: Allocation, t: nat)
    requires t in h.tenants
    ensures var h' := AddFlow(h, u, a).0;
      t in h'.tenants && h'.tenants[t].era == h.tenants[t].era
        && h'.tenants[t].flows.capacity == h.tenants[t].flows.capacity
  {
    hide Configure, Alloc, Release;
    CapacityOfOps(h.tenants[t].flows);
    var id := Alloc(h.tenants[t].pool).1;
    if id.Some? {
      assert Configure(h.tenants[t].flows, id.value, a, true).0.capacity == h.tenants[t].flows.capacity;
    }
  }

  lemma {:induction false} CapacityAfterRun(h: Hier, requests: seq<Request>, t: nat, era: nat, capacity: nat)
    requires Sound(h) && IsConduct(h, requests) && era < h.eras
    requires t in h.tenants && h.tenants[t].era == era ==> h.tenants[t].flows.capacity == capacity
    ensures var h' := Conducted(h, requests);
      t in h'.tenants && h'.tenants[t].era == era ==> h'.tenants[t].flows.capacity == capacity
    decreases requests
  {
    hide Sound, Quiet, Next, HierarchyLaws.Fitting, CanHappen;
    if requests != [] {
      var r, h' := requests[0], Next(h, requests[0]);
      NextKeeps(h, r);
      if t in h'.tenants {
        if t in h.tenants {
          CapacityStays(h, r, t);
        } else {
          FlowOrder.NewcomerIsEmpty(h, r, t);
        }
      }
      ErasOnlyGrow(h, r);
      CapacityAfterRun(h', requests[1..], t, era, capacity);
    }
  }

  lemma ErasOnlyGrow(h: Hier, r: Request)
    requires CanHappen(h, r)
    ensures h.eras <= Next(h, r).eras
  {
    hide EnqueueStatus, Wfq.Enqueue, Update, Take, TakeNone, MayChooseFlow, CanServe, CanServeNone, Configure,
         Unconfigure, Find, Alloc, Release, WouldExceed, FreeTenant, Kept, Expired, Staying, Leaving;
  }

  // A tenant that was added with a rate never has flows that together reserve more than that rate, and
  // one added with a weight never more than the capacity, whatever it is reconfigured to.
  lemma FlowsFitTenant(h: Hier, a: Allocation, requests: seq<Request>) returns (t: nat)
    requires Sound(h) && NoWrap(h.system, a) && AddTenant(h, a).1 == Success
    requires IsConduct(AddTenant(h, a).0, requests)
    ensures t !in h.tenants && t in AddTenant(h, a).0.tenants
    ensures var h' := Conducted(AddTenant(h, a).0, requests);
      t in h'.tenants && h'.tenants[t].era == h.eras ==>
        && h'.tenants[t].flows.capacity == CapacityFor(h.config, a)
        && Listed(h'.tenants[t].flows) && Reserved(h'.tenants[t].flows) <= CapacityFor(h.config, a)
  {
    hide Sound, AddTenant, Conducted, IsConduct, Reserved, Listed, NoWrap, Consistent;
    t := AddTenantDoes(h, a);
    var h1 := AddTenant(h, a).0;
    AddTenantKeeps(h, a);
    CapacityAfterRun(h1, requests, t, h.eras, CapacityFor(h.config, a));
    ConductKeeps(h1, requests);
    var h' := Conducted(h1, requests);
    if t in h'.tenants {
      FlowIds(h', t);
      ReservedFits(h'.tenants[t].flows);
    }
  }

  lemma ReservedFits(s: Sched)
    requires Consistent(s)
    ensures Listed(s) && Reserved(s) <= s.capacity
  {
  }

  // So a further flow of such a tenant is refused exactly when what is reserved leaves no room for it.
  lemma FlowOverbooks(h: Hier, a: Allocation, requests: seq<Request>, x: Allocation) returns (t: nat)
    requires Sound(h) && NoWrap(h.system, a) && AddTenant(h, a).1 == Success
    requires IsConduct(AddTenant(h, a).0, requests)
    ensures t !in h.tenants && t in AddTenant(h, a).0.tenants
    ensures var h' := Conducted(AddTenant(h, a).0, requests);
      && t in h'.tenants && h'.tenants[t].era == h.eras && NoWrap(h'.tenants[t].flows, x) ==>
        && Listed(h'.tenants[t].flows)
        && (AddFlow(h', t, x).1 == Overbooked <==>
              && ValidAllocation(x) && RoomForFlow(h', t)
              && x.Rate? && Reserved(h'.tenants[t].flows) + x.rate > CapacityFor(h.config, a))
        && (AddFlow(h', t, x).1 == Success <==>
              && ValidAllocation(x) && RoomForFlow(h', t)
              && (x.Rate? ==> Reserved(h'.tenants[t].flows) + x.rate <= CapacityFor(h.config, a)))
  {
    hide Sound, AddTenant, AddFlow, Conducted, IsConduct, Reserved, Listed, NoWrap, RoomForFlow;
    t := FlowsFitTenant(h, a, requests);
    AddTenantKeeps(h, a);
    ConductKeeps(AddTenant(h, a).0, requests);
    var h' := Conducted(AddTenant(h, a).0, requests);
    if t in h'.tenants && NoWrap(h'.tenants[t].flows, x) {
      AddFlowAnswers(h', t, x);
      SoundTenantId(h', t);
    }
  }

  lemma SoundTenantId(h: Hier, t: nat)
    requires Sound(h) && t in h.tenants
    ensures t < h.config.maxTenants
  {
    hide Fixed, Moving, AllTimed;
    TenantIdFits(h, t);
  }
}
