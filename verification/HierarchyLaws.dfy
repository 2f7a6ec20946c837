/**
 The laws of the two-level scheduler over whole runs of calls.
 */
module HierarchyLaws {
  import opened Machine
  import opened Wfq
  import opened Lateness
  import opened Rates
  import opened Rebasing
  import opened Saturation
  import opened Jobs
  import opened Pools
  import opened Flights
  import opened Hierarchy
  import opened Coupling
  import opened Backlogs
  import opened Conduct
  import opened Movement
  import opened Scheduling
  import opened Administration

  // A call of the interface. A dequeue comes with the positions the two schedulers choose.
  datatype Request =
    | DoEnqueue(t: nat, f: nat, work: nat, data: nat, timeout: nat)
    | DoDequeue(i: Option<nat>, j: Option<nat>, now: nat)
    | DoComplete(data: nat, t: nat, f: nat)
    | DoCancel(data: nat, t: nat, f: nat)
    | DoCheckTimeouts(now: nat)
    | DoAddTenant(a: Allocation)
    | DoConfigureTenant(t: nat, a: Allocation)
    | DoRemoveTenant(t: nat)
    | DoAddFlow(t: nat, a: Allocation)
    | DoRemoveFlow(t: nat, f: nat)
    | DoReconfigureFlow(t: nat, f: nat, a: Allocation)

  predicate CanHappen(h: Hier, r: Request) {
    match r
    case DoDequeue(i, j, _) => MayChoose(h, i, j)
    case _ => |h.inFlight| == |h.airborne|
  }

  function Next(h: Hier, r: Request): Hier
    requires CanHappen(h, r)
  {
    match r
    case DoEnqueue(t, f, work, data, timeout) => Hierarchy.Enqueue(h, t, f, work, data, timeout).0
    case DoDequeue(i, j, now) => Dequeue(h, i, j, now).0
    case DoComplete(data, t, f) => Complete(h, data, t, f).0
    case DoCancel(data, t, f) => Hierarchy.Cancel(h, data, t, f).0
    case DoCheckTimeouts(now) => CheckTimeouts(h, now)
    case DoAddTenant(a) => AddTenant(h, a).0
    case DoConfigureTenant(t, a) => ConfigureTenant(h, t, a).0
    case DoRemoveTenant(t) => RemoveTenant(h, t).0
    case DoAddFlow(t, a) => AddFlow(h, t, a).0
    case DoRemoveFlow(t, f) => RemoveFlow(h, t, f).0
    case DoReconfigureFlow(t, f, a) => ReconfigureFlow(h, t, f, a).0
  }

  // No machine sum wraps, and no completion or cancellation is counted out of a tenant that has
  // taken over the id of the session's own.
  predicate Fitting(h: Hier, r: Request)
    requires CanHappen(h, r)
  {
    match r
    case DoEnqueue(t, _, _, _, _) => t in h.tenants ==> h.tenants[t].backlog + 1 < 0x1_0000_0000
    case DoDequeue(i, j, now) =>
      var session := Dequeue(h, i, j, now).1.session;
      session.Some? ==> h.inFlightWork + session.value.work <= U64_MAX
    case DoAddTenant(a) => NoWrap(h.system, a)
    case DoConfigureTenant(_, a) => NoWrap(h.system, a)
    case DoComplete(data, t, f) => FindsRight(h, data, t, f)
    case DoCancel(data, t, f) => FindsRight(h, data, t, f)
    case DoAddFlow(t, a) => h.totalFlows + 1 < 0x1_0000_0000 && (t in h.tenants ==> NoWrap(h.tenants[t].flows, a))
    case DoReconfigureFlow(t, _, a) => t in h.tenants ==> NoWrap(h.tenants[t].flows, a)
    case _ => true
  }

  // Any run of calls at all.
  predicate AreRequests(h: Hier, requests: seq<Request>)
    decreases requests
  {
    requests == [] || (CanHappen(h, requests[0]) && AreRequests(Next(h, requests[0]), requests[1..]))
  }

  function AfterRequests(h: Hier, requests: seq<Request>): Hier
    requires AreRequests(h, requests)
    decreases requests
  {
    if requests == [] then h else AfterRequests(Next(h, requests[0]), requests[1..])
  }

  // A run on which no finish time saturates and no sum wraps.
  ghost predicate IsConduct(h: Hier, requests: seq<Request>)
    decreases requests
  {
    requests == [] ||
    (Quiet(h) && CanHappen(h, requests[0]) && Fitting(h, requests[0]) && IsConduct(Next(h, requests[0]), requests[1..]))
  }

  ghost function Conducted(h: Hier, requests: seq<Request>): Hier
    requires IsConduct(h, requests)
    decreases requests
  {
    if requests == [] then h else Conducted(Next(h, requests[0]), requests[1..])
  }

  // ---------- What holds between calls holds over every run ----------

  lemma DequeueKeeps(h: Hier, i: Option<nat>, j: Option<nat>, now: nat)
    requires Sound(h) && Quiet(h) && MayChoose(h, i, j) && Fitting(h, DoDequeue(i, j, now))
    ensures Sound(Dequeue(h, i, j, now).0)
  {
    hide Sound, Quiet, MayChoose, Dequeue, Chosen, ExceedsCapacity, Rejected, HandedOut;
    var x := DequeueCases(h, i, j, now);
    if i.Some? {
      var t := h.system.queue[i.value].data;
      if ExceedsCapacity(h, x.work) {
        RejectKeeps(h, i.value, j.value, t, x);
      } else {
        HandOutKeeps(h, i.value, j.value, t, x, now);
      }
    } else {
      EmptyTake(h);
    }
  }

  // A dequeue on an empty scheduler changes nothing at all.
  lemma EmptyTake(h: Hier)
    requires h.system.queue == []
    ensures h.(system := TakeNone(h.system)) == h
  {
    assert !AnyEligible(h.system.queue, h.system.v);
  }

  lemma NextKeeps(h: Hier, r: Request)
    requires Sound(h) && Quiet(h) && CanHappen(h, r) && Fitting(h, r)
    ensures Sound(Next(h, r))
  {
    hide Sound, Quiet, MayChoose, Hierarchy.Enqueue, Dequeue, Complete, Hierarchy.Cancel, CheckTimeouts, AddTenant,
         ConfigureTenant, RemoveTenant, AddFlow, RemoveFlow, ReconfigureFlow, NoWrap;
    match r
    case DoEnqueue(t, f, work, data, timeout) => EnqueueKeeps(h, t, f, work, data, timeout);
    case DoDequeue(i, j, now) => DequeueKeeps(h, i, j, now);
    case DoComplete(data, t, f) => CompleteKeepsExactly(h, data, t, f);
    case DoCancel(data, t, f) => CancelKeepsExactly(h, data, t, f);
    case DoCheckTimeouts(now) => TimeoutsKeep(h, now);
    case DoAddTenant(a) => AddTenantKeeps(h, a);
    case DoConfigureTenant(t, a) => ConfigureTenantKeeps(h, t, a);
    case DoRemoveTenant(t) => RemoveTenantKeeps(h, t);
    case DoAddFlow(t, a) => AddFlowKeeps(h, t, a);
    case DoRemoveFlow(t, f) => RemoveFlowKeeps(h, t, f);
    case DoReconfigureFlow(t, f, a) => ReconfigureFlowKeeps(h, t, f, a);
  }

  lemma {:induction false} ConductKeeps(h: Hier, requests: seq<Request>)
    requires Sound(h) && IsConduct(h, requests)
    ensures Sound(Conducted(h, requests))
    decreases requests
  {
    hide Sound, Quiet, Next, Fitting, CanHappen;
    if requests != [] {
      NextKeeps(h, requests[0]);
      ConductKeeps(Next(h, requests[0]), requests[1..]);
    }
  }

  // A state that some run from the beginning comes to.
  ghost predicate Reachable(h: Hier) {
    exists c: Config, requests: seq<Request> ::
      ConfigOk(c) && IsConduct(Init(c), requests) && h == Conducted(Init(c), requests)
  }

  lemma ReachableIsSound(h: Hier)
    requires Reachable(h)
    ensures Sound(h)
  {
    var c: Config, requests: seq<Request> :|
      ConfigOk(c) && IsConduct(Init(c), requests) && h == Conducted(Init(c), requests);
    InitIsSound(c);
    ConductKeeps(Init(c), requests);
  }

  // ---------- Coupling ----------

  // A tenant has its flag set exactly while it has sessions queued, and exactly while the system
  // scheduler holds a session of it, of which there is never more than one.
  lemma HierarchyCoupled(h: Hier, t: nat)
    requires Reachable(h) && t in h.tenants
    ensures h.tenants[t].hasBacklog <==> h.tenants[t].flows.queue != []
    ensures h.tenants[t].hasBacklog <==> exists i :: 0 <= i < |h.system.queue| && h.system.queue[i].data == t
    ensures forall i, j | 0 <= i < |h.system.queue| && 0 <= j < |h.system.queue| ::
      h.system.queue[i].data == h.system.queue[j].data ==> i == j
  {
    hide Reachable, Fixed, AirOk, FlightsOk, PlacesOk, QueueOk, BacklogOk;
    ReachableIsSound(h);
    assert t in Backlogged(h.tenants) <==> h.tenants[t].hasBacklog;
    assert TenantCoupled(h.tenants[t]);
  }

  // No session of a tenant that is gone is left in the system scheduler.
  lemma SystemServesTenants(h: Hier, i: nat)
    requires Reachable(h) && i < |h.system.queue|
    ensures h.system.queue[i].data in h.tenants && h.system.queue[i].entry == h.system.queue[i].data
  {
    hide Reachable, Fixed, AirOk, FlightsOk, PlacesOk, QueueOk, BacklogOk;
    ReachableIsSound(h);
    WaitingMember(h.system.queue, Backlogged(h.tenants), i);
  }

  // ---------- Dequeue ----------

  // The session that a dequeue comes to, whether or not there is room for it.
  function Candidate(h: Hier, i: nat, j: nat): Context
    requires i < |h.system.queue| && h.system.queue[i].data in h.tenants
    requires j < |h.tenants[h.system.queue[i].data].flows.queue|
    requires h.tenants[h.system.queue[i].data].flows.queue[j].data < |h.contexts|
  {
    h.contexts[h.tenants[h.system.queue[i].data].flows.queue[j].data]
  }

  // A dequeue never fails inside. It has no work exactly when nothing is queued at all or the
  // session it comes to does not fit, and otherwise hands that session out.
  lemma DequeueAnswers(h: Hier, i: Option<nat>, j: Option<nat>, now: nat)
    requires Reachable(h) && Quiet(h) && MayChoose(h, i, j)
    ensures Dequeue(h, i, j, now).1.status in {Success, NoWork}
    ensures i.None? <==> forall t | t in h.tenants :: h.tenants[t].flows.queue == []
    ensures i.Some? ==>
      && j.Some? && i.value < |h.system.queue| && h.system.queue[i.value].data in h.tenants
      && j.value < |h.tenants[h.system.queue[i.value].data].flows.queue|
      && h.tenants[h.system.queue[i.value].data].flows.queue[j.value].data < |h.contexts|
    ensures Dequeue(h, i, j, now).1 ==
      if i.Some? && !ExceedsCapacity(h, Candidate(h, i.value, j.value).work)
      then Answer(Success, Some(Candidate(h, i.value, j.value)))
      else Answer(NoWork, None)
  {
    hide Reachable, Sound, Quiet, MayChoose, Dequeue, ExceedsCapacity, Rejected, HandedOut;
    ReachableIsSound(h);
    var x := DequeueCases(h, i, j, now);
    NothingWaits(h);
  }

  lemma NothingWaits(h: Hier)
    requires Sound(h)
    ensures h.system.queue == [] <==> forall t | t in h.tenants :: h.tenants[t].flows.queue == []
  {
    hide Fixed, AirOk, FlightsOk, PlacesOk, QueueOk, BacklogOk;
    if h.system.queue != [] {
      WaitingMember(h.system.queue, Backlogged(h.tenants), 0);
      assert TenantCoupled(h.tenants[h.system.queue[0].data]);
    } else {
      forall t | t in h.tenants
        ensures h.tenants[t].flows.queue == []
      {
        assert TenantCoupled(h.tenants[t]) && t !in Backlogged(h.tenants);
      }
    }
  }

  // A dequeue that has no work leaves every session where it was.
  lemma NoWorkMovesNothing(h: Hier, i: Option<nat>, j: Option<nat>, now: nat)
    requires Reachable(h) && Quiet(h) && MayChoose(h, i, j) && Dequeue(h, i, j, now).1.status == NoWork
    ensures var h' := Dequeue(h, i, j, now).0;
      && h'.tenants.Keys == h.tenants.Keys && h'.contexts == h.contexts
      && (forall t | t in h.tenants ::
            && Tickets(h'.tenants[t].flows.queue) == Tickets(h.tenants[t].flows.queue)
            && |h'.tenants[t].flows.queue| == |h.tenants[t].flows.queue|)
      && (h'.inFlight, h'.inFlightWork, h'.inFlightCount, h'.airborne)
         == (h.inFlight, h.inFlightWork, h.inFlightCount, h.airborne)
  {
    hide Reachable, Sound, Quiet, MayChoose, Dequeue, ExceedsCapacity, Rejected, HandedOut, Moved, Tickets;
    ReachableIsSound(h);
    var x := DequeueCases(h, i, j, now);
    if i.Some? {
      var t := h.system.queue[i.value].data;
      RejectKeeps(h, i.value, j.value, t, x);
      OthersSame(h, Dequeue(h, i, j, now).0, t);
    }
  }

  // A dequeue without room puts the session it came to last in its queue, to start no earlier than
  // the last of its flow finishes: sessions of the same flow that arrived after it are now before it.
  lemma NoRoomGoesBehind(h: Hier, i: nat, j: nat, t: nat, x: Context)
    requires Sound(h) && Chosen(h, i, j, t, x)
    ensures var h' := Rejected(h, i, j, x);
      t in h'.tenants
      && var q, q' := h.tenants[t].flows.queue, h'.tenants[t].flows.queue;
         && |q'| == |q| && q'[..|q| - 1] == RemoveAt(q, j) && q'[|q| - 1].data == q[j].data
         && x.flow in h.tenants[t].flows.entries
         && q'[|q| - 1].start >= h.tenants[t].flows.entries[x.flow].lastFinish
  {
    hide Moving, Fixed, Update, EnqueueStatus, Register, Take, PutBack, TenantOk, SystemOk, Consistent, SameConfig,
         Waiting;
    SoundMoving(h);
    var g := ServeTenant(h, i);
    FixedHasSystem(h);
    MovingCouples(h);
    ServeTenantEffect(h, i);
    SameWithoutBacklog(h.config, h.tenants[t], false);
    PutBackMoves(g, t, j, x);
    PutBackStart(g, t, j, x);
    var q' := Rejected(h, i, j, x).tenants[t].flows.queue;
    assert q'[|q'| - 1].data == JobOf(q'[|q'| - 1]).data;
  }

  // Dequeues one after another that come to a session and find no room for it.
  predicate FindNoRoom(h: Hier, requests: seq<Request>)
    decreases requests
  {
    requests == [] ||
    (requests[0].DoDequeue? && CanHappen(h, requests[0]) && requests[0].i.Some?
     && Dequeue(h, requests[0].i, requests[0].j, requests[0].now).1.status == NoWork
     && FindNoRoom(Next(h, requests[0]), requests[1..]))
  }

  lemma {:induction false} NoRoomIsRun(h: Hier, requests: seq<Request>)
    requires FindNoRoom(h, requests)
    ensures AreRequests(h, requests)
    decreases requests
  {
    hide CanHappen, Next;
    if requests != [] {
      NoRoomIsRun(Next(h, requests[0]), requests[1..]);
    }
  }

  lemma NoRoomCase(h: Hier, i: nat, j: Option<nat>, now: nat) returns (t: nat, x: Context)
    requires Sound(h) && MayChoose(h, Some(i), j) && Dequeue(h, Some(i), j, now).1.status == NoWork
    ensures j.Some? && Chosen(h, i, j.value, t, x)
    ensures Dequeue(h, Some(i), j, now).0 == Rejected(h, i, j.value, x)
  {
    hide Fixed, AirOk, FlightsOk, PlacesOk, BacklogOk, IsBest, CanServeNone, PutBack, HandOut, Take, Update, AllTimed;
    WaitingMember(h.system.queue, Backlogged(h.tenants), i);
    t := h.system.queue[i].data;
    var s := h.tenants[t].flows;
    assert ServeTenant(h, i).tenants[t].flows == s;
    assert QueueOk(h.contexts, t, h.tenants[t]) && Carries(h.contexts, t, h.tenants[t], s.queue[j.value]);
    x := h.contexts[s.queue[j.value].data];
  }

  // Whether a dequeue with these choices comes to a session of flow f of tenant t.
  predicate ComesTo(h: Hier, i: nat, j: Option<nat>, t: nat, f: nat) {
    && i < |h.system.queue| && h.system.queue[i].data == t && t in h.tenants
    && j.Some? && j.value < |h.tenants[t].flows.queue| && h.tenants[t].flows.queue[j.value].entry == f
  }

  // How many of the dequeues do.
  function Refusals(h: Hier, requests: seq<Request>, t: nat, f: nat): nat
    requires FindNoRoom(h, requests)
    decreases requests
  {
    if requests == [] then 0
    else
      Refusals(Next(h, requests[0]), requests[1..], t, f)
      + One(ComesTo(h, requests[0].i.value, requests[0].j, t, f))
  }

  // The last finish time of a flow after one such dequeue.
  lemma NoRoomStep(h: Hier, i: nat, j: nat, u: nat, x: Context, t: nat, f: nat)
    requires Sound(h) && Chosen(h, i, j, u, x) && t in h.tenants && f in h.tenants[t].flows.entries
    ensures var h' := Rejected(h, i, j, x);
      && t in h'.tenants && f in h'.tenants[t].flows.entries
      && var s, s' := h.tenants[t].flows, h'.tenants[t].flows;
         && s'.epoch == s.epoch
         && s'.entries[f].lastFinish >= Min(U64_MAX, s.entries[f].lastFinish + One(ComesTo(h, i, Some(j), t, f)))
  {
    hide Moving, Fixed, Update, EnqueueStatus, Register, Take, PutBack, TenantOk, SystemOk, Consistent, SameConfig,
         Timed, Wfq.Enqueue;
    SoundMoving(h);
    TimesAreTimed(h);
    FixedHasSystem(h);
    var g := ServeTenant(h, i);
    ServeKeepsFlows(h, i, t);
    ServeKeepsFlows(h, i, u);
    var n := h.tenants[u];
    var r := Take(n.flows, j);
    var g1 := SetTenant(g, u, g.tenants[u].(flows := r));
    PutBackFlows(g1, u, x, t);
    if u == t {
      TakeSameConfig(n.flows, j);
      StaysOk(h.config, n, n.(flows := r));
      TakeKeepsEntries(n.flows, j);
      FlowEnqueueable(h.config, n.(flows := r), x.flow, x.work);
      TimedLast(n.flows, f);
      ArrivalMovesOn(r, x.flow, x.work, x.serial, f);
    }
    TimedLast(h.tenants[t].flows, f);
  }

  lemma TakeKeepsEntries(s: Sched, j: nat)
    requires j < |s.queue|
    ensures Take(s, j).entries == s.entries && Take(s, j).epoch == s.epoch
  {
  }

  lemma TimedLast(s: Sched, f: nat)
    requires Timed(s) && f in s.entries
    ensures s.entries[f].lastFinish <= U64_MAX
  {
  }

  lemma ArrivalMovesOn(s: Sched, id: nat, work: nat, data: nat, f: nat)
    requires EnqueueStatus(s, id, work) == Success && f in s.entries && s.entries[f].lastFinish <= U64_MAX
    ensures var t := Wfq.Enqueue(s, id, work, data);
      && f in t.entries && t.epoch == s.epoch
      && t.entries[f].lastFinish >= Min(U64_MAX, s.entries[f].lastFinish + One(id == f))
  {
    hide ServiceRate;
  }

  // Dequeues without room use up the virtual time of a tenant's scheduler for good: there is no
  // rebase on this path, and each session put back moves the last finish time of its flow on. So
  // enough of them take it to UINT64_MAX.
  lemma {:induction false} NoRoomUsesUpTime(h: Hier, requests: seq<Request>, t: nat, f: nat)
    requires Sound(h) && FindNoRoom(h, requests) && t in h.tenants && f in h.tenants[t].flows.entries
    ensures AreRequests(h, requests)
    ensures var h' := AfterRequests(h, requests);
      && t in h'.tenants && f in h'.tenants[t].flows.entries && h'.tenants[t].flows.epoch == h.tenants[t].flows.epoch
      && h'.tenants[t].flows.entries[f].lastFinish
         >= Min(U64_MAX, h.tenants[t].flows.entries[f].lastFinish + Refusals(h, requests, t, f))
    decreases requests
  {
    hide Sound, Dequeue, Rejected, MayChoose, Carries, ComesTo;
    if requests != [] {
      var r := requests[0];
      NoRoomIsRun(h, requests);
      var u, x := NoRoomCase(h, r.i.value, r.j, r.now);
      NoRoomStep(h, r.i.value, r.j.value, u, x, t, f);
      RejectKeeps(h, r.i.value, r.j.value, u, x);
      NoRoomUsesUpTime(Next(h, r), requests[1..], t, f);
    }
  }

  // Some queued session of the scheduler can be chosen: its finish time has not saturated, and
  // virtual time has reached it or jumps to it.
  predicate Servable(s: Sched) {
    exists x :: x in s.queue && x.finish < U64_MAX
                && (x.start <= s.v || (!AnyEligible(s.queue, s.v) && x.start == MinStart(s.queue)))
  }

  // A dequeue fails inside exactly when it comes to a tenant none of whose sessions can be chosen.
  lemma InternalExactly(h: Hier, i: Option<nat>, j: Option<nat>, now: nat)
    requires Sound(h) && MayChoose(h, i, j)
    ensures i.Some? ==> i.value < |h.system.queue| && h.system.queue[i.value].data in h.tenants
    ensures Dequeue(h, i, j, now).1.status == Internal <==>
      i.Some? && !Servable(h.tenants[h.system.queue[i.value].data].flows)
  {
    hide Fixed, AirOk, FlightsOk, PlacesOk, BacklogOk, IsBest, CanServeNone, PutBack, HandOut, Take, Update, ChoiceTime,
         AnyEligible, MinStart;
    if i.Some? {
      WaitingMember(h.system.queue, Backlogged(h.tenants), i.value);
      var t := h.system.queue[i.value].data;
      var s := h.tenants[t].flows;
      assert ServeTenant(h, i.value).tenants[t].flows == s;
      forall k | 0 <= k < |s.queue|
        ensures s.queue[k].data < |h.contexts|
      {
        assert QueueOk(h.contexts, t, h.tenants[t]) && Carries(h.contexts, t, h.tenants[t], s.queue[k]);
      }
      DequeueFinds(s);
    }
  }

  lemma MovingCouples(h: Hier)
    requires Moving(h)
    ensures Coupled(h)
  {
  }

  lemma PutBackStart(g: Hier, t: nat, j: nat, x: Context)
    requires t in g.tenants && j < |g.tenants[t].flows.queue| && x.flow in g.tenants[t].flows.entries
    ensures var q := g.tenants[t].flows.queue;
      var h' := PutBack(SetTenant(g, t, g.tenants[t].(flows := Take(g.tenants[t].flows, j))), t, x);
      t in h'.tenants && (|h'.tenants[t].flows.queue| == |q| ==>
        h'.tenants[t].flows.queue[|q| - 1].start >= g.tenants[t].flows.entries[x.flow].lastFinish)
  {
  }

  // ---------- Every session is in one place ----------

  // Each accepted session is in exactly one of: the queue of its tenant, in flight, completed,
  // cancelled, timed out.
  lemma EverySessionInOnePlace(h: Hier, x: nat)
    requires Reachable(h) && x < |h.contexts|
    ensures h.contexts[x].serial == x && Places(h, h.contexts[x]) == 1
  {
    hide Reachable;
    ReachableIsSound(h);
  }

  // No place holds a session twice, or one that was never accepted.
  lemma NothingElseIsAnywhere(h: Hier)
    requires Reachable(h)
    ensures forall t, i | t in h.tenants && 0 <= i < |h.tenants[t].flows.queue| ::
      h.tenants[t].flows.queue[i].data < |h.contexts| && Queued(h.tenants, h.contexts[h.tenants[t].flows.queue[i].data])
    ensures forall t, i, j | t in h.tenants && 0 <= i < j < |h.tenants[t].flows.queue| ::
      h.tenants[t].flows.queue[i].data != h.tenants[t].flows.queue[j].data
    ensures forall x :: x in h.airborne || x in h.timedOut ==> x in h.contexts
    ensures forall serial | serial in h.completed + h.cancelled :: serial < |h.contexts|
    ensures forall i, j | 0 <= i < j < |h.airborne| :: h.airborne[i] != h.airborne[j]
    ensures forall i, j | 0 <= i < j < |h.timedOut| :: h.timedOut[i] != h.timedOut[j]
  {
    hide Reachable, Fixed, Coupled, BacklogOk, AirOk, FlightsOk, AllTimed;
    ReachableIsSound(h);
    forall t, i | t in h.tenants && 0 <= i < |h.tenants[t].flows.queue|
      ensures h.tenants[t].flows.queue[i].data < |h.contexts|
      ensures Queued(h.tenants, h.contexts[h.tenants[t].flows.queue[i].data])
    {
      QueuedOnly(h, t, i);
    }
  }

  // The sessions that have left the queues.
  predicate Out(h: Hier, c: Context) {
    c in h.airborne || c.serial in h.completed || c.serial in h.cancelled || c in h.timedOut
  }

  // A session that has been handed out stays out.
  lemma OutStays(h: Hier, r: Request, c: Context)
    requires Sound(h) && Quiet(h) && CanHappen(h, r) && Out(h, c)
    ensures Out(Next(h, r), c)
  {
    hide Sound, Quiet;
    match r
    case DoEnqueue(t, f, work, data, timeout) => OutAfterEnqueue(h, t, f, work, data, timeout, c);
    case DoDequeue(i, j, now) => OutAfterDequeue(h, i, j, now, c);
    case DoComplete(data, t, f) => OutAfterLanding(h, data, t, f, c);
    case DoCancel(data, t, f) => OutAfterLanding(h, data, t, f, c);
    case DoCheckTimeouts(now) => OutAfterSweep(h, now, c);
    case DoAddTenant(a) => OutAfterAdmin(h, r, c);
    case DoConfigureTenant(t, a) => OutAfterAdmin(h, r, c);
    case DoRemoveTenant(t) => OutAfterAdmin(h, r, c);
    case DoAddFlow(t, a) => OutAfterAdmin(h, r, c);
    case DoRemoveFlow(t, f) => OutAfterAdmin(h, r, c);
    case DoReconfigureFlow(t, f, a) => OutAfterAdmin(h, r, c);
  }

  lemma OutAfterEnqueue(h: Hier, t: nat, f: nat, work: nat, data: nat, timeout: nat, c: Context)
    requires Sound(h) && Out(h, c)
    ensures Out(Hierarchy.Enqueue(h, t, f, work, data, timeout).0, c)
  {
    hide Sound, Moved, Waiting, Submit, Out;
    if EnqueueAnswer(h, t, f, work) == Success {
      EnqueueMoves(h, t, f, work, data, timeout);
      OutSame(h, Hierarchy.Enqueue(h, t, f, work, data, timeout).0, c);
    }
  }

  lemma OutSame(h: Hier, h': Hier, c: Context)
    requires (h'.airborne, h'.completed, h'.cancelled, h'.timedOut)
      == (h.airborne, h.completed, h.cancelled, h.timedOut)
    ensures Out(h', c) <==> Out(h, c)
  {
  }

  lemma OutAfterDequeue(h: Hier, i: Option<nat>, j: Option<nat>, now: nat, c: Context)
    requires Sound(h) && Quiet(h) && MayChoose(h, i, j) && Out(h, c)
    ensures Out(Dequeue(h, i, j, now).0, c)
  {
    hide Sound, Quiet, MayChoose, Dequeue, ExceedsCapacity, Register, Moved, ServeTenant;
    var x := DequeueCases(h, i, j, now);
    if i.Some? {
      DequeueLedgers(h, i.value, j.value, h.system.queue[i.value].data, x, now);
    }
  }

  lemma DequeueLedgers(h: Hier, i: nat, j: nat, t: nat, x: Context, now: nat)
    requires Sound(h) && Chosen(h, i, j, t, x)
    ensures var h' := HandedOut(h, i, j, x, now);
      (h'.airborne, h'.completed, h'.cancelled, h'.timedOut) == (h.airborne + [x], h.completed, h.cancelled, h.timedOut)
    ensures var h' := Rejected(h, i, j, x);
      (h'.airborne, h'.completed, h'.cancelled, h'.timedOut) == (h.airborne, h.completed, h.cancelled, h.timedOut)
  {
    hide Moved, Register, Update, Take, EnqueueStatus;
    RejectKeeps(h, i, j, t, x);
    var g := ServeTenant(h, i);
    var g1 := SetTenant(g, t, g.tenants[t].(flows := Take(g.tenants[t].flows, j)));
    HandOutLedgers(g1, t, x, now);
  }

  lemma HandOutLedgers(g: Hier, t: nat, x: Context, now: nat)
    requires t in g.tenants
    ensures var h' := HandOut(g, t, x, now);
      (h'.airborne, h'.completed, h'.cancelled, h'.timedOut) == (g.airborne + [x], g.completed, g.cancelled, g.timedOut)
  {
  }

  lemma OutAfterLanding(h: Hier, data: nat, t: nat, f: nat, c: Context)
    requires Sound(h) && Out(h, c)
    ensures Out(Complete(h, data, t, f).0, c) && Out(Hierarchy.Cancel(h, data, t, f).0, c)
  {
    hide Sound, Complete, Hierarchy.Cancel, Find;
    CompleteCases(h, data, t, f);
    CancelCases(h, data, t, f);
    if Find(h.inFlight, data, t, f).Some? {
      if c in h.airborne {
        LandedStill(h.airborne, Find(h.inFlight, data, t, f).value, c);
      }
    }
  }

  lemma LandedStill(xs: seq<Context>, k: nat, c: Context)
    requires k < |xs| && c in xs
    ensures c in RemoveAt(xs, k) || c == xs[k]
  {
    var i :| 0 <= i < |xs| && xs[i] == c;
    if i != k {
      assert RemoveAt(xs, k)[if i < k then i else i - 1] == c;
    }
  }

  lemma OutAfterSweep(h: Hier, now: nat, c: Context)
    requires Sound(h) && |h.inFlight| == |h.airborne| && Out(h, c)
    ensures Out(CheckTimeouts(h, now), c)
  {
    hide Fixed, Coupled, BacklogOk, AirOk, FlightsOk, QueueOk, TimedOut;
    PlacesRecorded(h);
    SweepSplits(h.inFlight, h.airborne, now);
  }

  lemma OutAfterAdmin(h: Hier, r: Request, c: Context)
    requires CanHappen(h, r) && Out(h, c)
    requires r.DoAddTenant? || r.DoConfigureTenant? || r.DoRemoveTenant?
      || r.DoAddFlow? || r.DoRemoveFlow? || r.DoReconfigureFlow?
    ensures Out(Next(h, r), c)
  {
    hide Configure, Unconfigure, Alloc, Release, WouldExceed, FreeTenant;
  }

  // The sessions that a run hands out, in order.
  ghost function Deliveries(h: Hier, requests: seq<Request>): seq<Context>
    requires IsConduct(h, requests)
    decreases requests
  {
    if requests == [] then []
    else
      var rest := Deliveries(Next(h, requests[0]), requests[1..]);
      match requests[0]
      case DoDequeue(i, j, now) =>
        var session := Dequeue(h, i, j, now).1.session;
        if session.Some? then [session.value] + rest else rest
      case _ => rest
  }

  // A run hands out no session that was out before.
  lemma {:induction false} DeliveriesAreNew(h: Hier, requests: seq<Request>)
    requires Sound(h) && IsConduct(h, requests)
    ensures forall k | 0 <= k < |Deliveries(h, requests)| :: !Out(h, Deliveries(h, requests)[k])
    ensures forall k, m | 0 <= k < m < |Deliveries(h, requests)| ::
      Deliveries(h, requests)[k] != Deliveries(h, requests)[m]
    decreases requests
  {
    hide Sound, Quiet, Next, Fitting, Out, Dequeue;
    if requests != [] {
      var r, h' := requests[0], Next(h, requests[0]);
      NextKeeps(h, r);
      DeliveriesAreNew(h', requests[1..]);
      var rest := Deliveries(h', requests[1..]);
      forall k | 0 <= k < |rest|
        ensures !Out(h, rest[k])
      {
        if Out(h, rest[k]) {
          OutStays(h, r, rest[k]);
        }
      }
      if r.DoDequeue? && Dequeue(h, r.i, r.j, r.now).1.session.Some? {
        DeliveryGoesOut(h, r);
      }
    }
  }

  lemma DeliveryGoesOut(h: Hier, r: Request)
    requires Sound(h) && Quiet(h) && CanHappen(h, r) && r.DoDequeue? && Dequeue(h, r.i, r.j, r.now).1.session.Some?
    ensures var x := Dequeue(h, r.i, r.j, r.now).1.session.value;
      !Out(h, x) && Out(Next(h, r), x)
  {
    hide Quiet, MayChoose, Dequeue, ExceedsCapacity, Fixed, Coupled, BacklogOk, AirOk, FlightsOk, PlacesOk, QueueOk;
    var x := DequeueCases(h, r.i, r.j, r.now);
    if r.i.Some? {
      var t := h.system.queue[r.i.value].data;
      DequeueLedgers(h, r.i.value, r.j.value, t, x, r.now);
      QueuedOnly(h, t, r.j.value);
    }
  }

  // Over every run from the beginning, no session is handed out twice.
  lemma HandedOutOnce(c: Config, requests: seq<Request>)
    requires ConfigOk(c) && IsConduct(Init(c), requests)
    ensures var d := Deliveries(Init(c), requests);
      forall k, m | 0 <= k < m < |d| :: d[k] != d[m]
  {
    InitIsSound(c);
    DeliveriesAreNew(Init(c), requests);
  }

  // ---------- Work in flight ----------

  // The work in flight is counted exactly and never exceeds the capacity, which also bounds the
  // number of sessions in flight. That number is counted in 32 bits. A session in flight is of a
  // flow that is still there, if its tenant is.
  lemma InFlightIsBounded(h: Hier)
    requires Reachable(h)
    ensures |h.inFlight| <= h.inFlightWork == WorkOf(h.inFlight) <= h.config.capacity
    ensures h.inFlightCount == Wrap32(|h.inFlight|)
    ensures h.inFlightCount == |h.inFlight| <==> |h.inFlight| < 0x1_0000_0000
    ensures |h.airborne| == |h.inFlight| && forall k | 0 <= k < |h.inFlight| :: Embodies(h.inFlight[k], h.airborne[k])
    ensures forall k | 0 <= k < |h.airborne| && Present(h.tenants, h.airborne[k]) ::
      h.airborne[k].flow in h.tenants[h.airborne[k].tenant].flows.entries
  {
    hide Reachable, Fixed, Coupled, BacklogOk, PlacesOk, QueueOk, AllTimed;
    ReachableIsSound(h);
    forall f | f in h.inFlight
      ensures f.work > 0
    {
      var k :| 0 <= k < |h.inFlight| && h.inFlight[k] == f;
      assert Embodies(h.inFlight[k], h.airborne[k]);
    }
    WorkOfAtLeast(h.inFlight);
  }

  // The test for room is right exactly when its sum does not wrap into the capacity.
  lemma RoomTest(h: Hier, work: nat)
    requires h.inFlightWork <= h.config.capacity <= U64_MAX && 0 < h.config.capacity && work <= U64_MAX
    ensures (!ExceedsCapacity(h, work) <==> h.inFlightWork + work <= h.config.capacity)
       <==> !(h.inFlightWork + work > U64_MAX && h.inFlightWork + work - U64_MAX - 1 <= h.config.capacity)
  {
  }

  // ---------- Backlogs and removals ----------

  // The counters of a tenant and of each flow count what is queued, in flight and timed out.
  lemma BacklogsAreExact(h: Hier, t: nat, f: nat)
    requires Reachable(h) && t in h.tenants
    ensures var n := h.tenants[t];
      && n.backlog == |n.flows.queue| + Count(h.airborne, n.era, None) + Count(h.timedOut, n.era, None)
      && FlowBacklog(n, f) == CountJobs(n.flows.queue, Some(f)) + Count(h.airborne, n.era, Some(f))
                              + Count(h.timedOut, n.era, Some(f))
  {
    hide Reachable, Fixed, Coupled, PlacesOk, QueueOk, AirOk, FlightsOk;
    ReachableIsSound(h);
    var n := h.tenants[t];
    CountJobsLess(n.flows.queue, f);
    assert Owed(n, None) == n.backlog && Owed(n, Some(f)) == FlowBacklog(n, f);
  }

  // A flow can be removed exactly when it has nothing queued, nothing in flight, and has never had
  // a session time out.
  lemma RemoveFlowSucceeds(h: Hier, t: nat, f: nat)
    requires Reachable(h)
    ensures RemoveFlow(h, t, f).1 == Success <==>
      && t in h.tenants && f in h.tenants[t].flows.entries
      && var n := h.tenants[t];
         && (forall i | 0 <= i < |n.flows.queue| :: n.flows.queue[i].entry != f)
         && (forall k | 0 <= k < |h.airborne| :: !(h.airborne[k].era == n.era && h.airborne[k].flow == f))
         && forall k | 0 <= k < |h.timedOut| :: !(h.timedOut[k].era == n.era && h.timedOut[k].flow == f)
    ensures RemoveFlow(h, t, f).1 == InvalidArg <==> t >= h.config.maxTenants
    ensures RemoveFlow(h, t, f).1 == NotFound <==>
      t < h.config.maxTenants && !(t in h.tenants && f in h.tenants[t].flows.entries)
    ensures RemoveFlow(h, t, f).1 in {Success, InvalidArg, NotFound, HasBacklog}
    ensures RemoveFlow(h, t, f).1 != Success ==> RemoveFlow(h, t, f).0 == h
  {
    hide Reachable, Sound, Unconfigure;
    ReachableIsSound(h);
    if t in h.tenants {
      SoundTenant(h, t);
      var n := h.tenants[t];
      BacklogsAreExact(h, t, f);
      if FlowBacklog(n, f) == 0 {
        NothingOwed(n, h.airborne, h.timedOut, f);
      } else {
        CountsFlow(n, h.airborne, h.timedOut, f);
      }
    }
  }

  lemma SoundTenant(h: Hier, t: nat)
    requires Sound(h) && t in h.tenants
    ensures t < h.config.maxTenants && BacklogOk(h.tenants[t], h.airborne, h.timedOut)
  {
    hide Moving, BacklogOk;
    TenantIdFits(h, t);
    assert BacklogOk(h.tenants[t], h.airborne, h.timedOut) by { SoundMoving(h); MovingHasBacklogs(h); }
  }

  lemma SoundMoving(h: Hier)
    requires Sound(h)
    ensures Moving(h) && Fixed(h)
  {
  }

  // What a counter that is not zero counts.
  lemma CountsFlow(n: Tenant, airborne: seq<Context>, timedOut: seq<Context>, f: nat)
    requires CountJobs(n.flows.queue, Some(f)) + Count(airborne, n.era, Some(f)) + Count(timedOut, n.era, Some(f)) > 0
    ensures
      || (exists i :: 0 <= i < |n.flows.queue| && n.flows.queue[i].entry == f)
      || (exists k :: 0 <= k < |airborne| && airborne[k].era == n.era && airborne[k].flow == f)
      || (exists k :: 0 <= k < |timedOut| && timedOut[k].era == n.era && timedOut[k].flow == f)
  {
    CountJobsFinds(n.flows.queue, f);
    CountFinds(airborne, n.era, f);
    CountFinds(timedOut, n.era, f);
  }

  lemma {:induction false} CountJobsFinds(q: seq<Session>, f: nat)
    ensures CountJobs(q, Some(f)) > 0 ==> exists i :: 0 <= i < |q| && q[i].entry == f
  {
    if q != [] {
      var front := q[..|q| - 1];
      CountJobsFinds(front, f);
      if i :| 0 <= i < |front| && front[i].entry == f {
        assert q[i].entry == f;
      }
    }
  }

  lemma {:induction false} CountFinds(xs: seq<Context>, era: nat, f: nat)
    ensures Count(xs, era, Some(f)) > 0 ==> exists k :: 0 <= k < |xs| && xs[k].era == era && xs[k].flow == f
  {
    if xs != [] {
      var front := xs[..|xs| - 1];
      CountFinds(front, era, f);
      if k :| 0 <= k < |front| && front[k].era == era && front[k].flow == f {
        assert xs[k].era == era && xs[k].flow == f;
      }
    }
  }

  // A tenant can be removed exactly when it has nothing queued, whatever it has in flight.
  lemma RemoveTenantSucceeds(h: Hier, t: nat)
    requires Reachable(h)
    ensures RemoveTenant(h, t).1 == Success <==> t in h.tenants && h.tenants[t].flows.queue == []
    ensures RemoveTenant(h, t).1 == InvalidArg <==> t >= h.config.maxTenants
    ensures RemoveTenant(h, t).1 == NotFound <==> t < h.config.maxTenants && t !in h.tenants
    ensures RemoveTenant(h, t).1 in {Success, InvalidArg, NotFound, HasBacklog}
    ensures RemoveTenant(h, t).1 != Success ==> RemoveTenant(h, t).0 == h
  {
    hide Reachable, Sound, Unconfigure;
    ReachableIsSound(h);
    if t in h.tenants {
      SoundTenant(h, t);
      HierarchyCoupled(h, t);
    }
  }

  lemma TimedOutStays(h: Hier, r: Request, c: Context)
    requires Sound(h) && Quiet(h) && CanHappen(h, r) && c in h.timedOut
    ensures c in Next(h, r).timedOut
  {
    hide Sound, Quiet, MayChoose;
    match r
    case DoEnqueue(t, f, work, data, timeout) =>
      if EnqueueAnswer(h, t, f, work) == Success {
        hide Hierarchy.Enqueue, Moved, Waiting, Submit;
        EnqueueMoves(h, t, f, work, data, timeout);
      }
    case DoDequeue(i, j, now) =>
      hide Dequeue, Register, ServeTenant;
      var x := DequeueCases(h, i, j, now);
      if i.Some? {
        DequeueLedgers(h, i.value, j.value, h.system.queue[i.value].data, x, now);
      }
    case DoComplete(data, t, f) => CompleteCases(h, data, t, f);
    case DoCancel(data, t, f) => CancelCases(h, data, t, f);
    case _ =>
      hide Configure, Unconfigure, Alloc, Release, WouldExceed, FreeTenant;
  }

  // A flow one of whose sessions has timed out can never be removed again, as long as its tenant
  // is the same.
  lemma {:induction false} TimedOutFlowStays(h: Hier, requests: seq<Request>, c: Context)
    requires Sound(h) && IsConduct(h, requests) && c in h.timedOut
    ensures var h' := Conducted(h, requests);
      c.tenant in h'.tenants && h'.tenants[c.tenant].era == c.era ==> RemoveFlow(h', c.tenant, c.flow).1 != Success
    decreases requests
  {
    hide Sound, Quiet, Next, Fitting, CanHappen, RemoveFlow;
    if requests == [] {
      if c.tenant in h.tenants && h.tenants[c.tenant].era == c.era {
        LapsedBlocks(h, c);
      }
    } else {
      NextKeeps(h, requests[0]);
      TimedOutStays(h, requests[0], c);
      TimedOutFlowStays(Next(h, requests[0]), requests[1..], c);
    }
  }

  lemma LapsedBlocks(h: Hier, c: Context)
    requires Sound(h) && c in h.timedOut && c.tenant in h.tenants && h.tenants[c.tenant].era == c.era
    ensures RemoveFlow(h, c.tenant, c.flow).1 != Success
  {
    hide Sound, Unconfigure;
    SoundTenant(h, c.tenant);
    var n := h.tenants[c.tenant];
    var k :| 0 <= k < |h.timedOut| && h.timedOut[k] == c;
    CountPositive(h.timedOut, k, n.era, Some(c.flow));
    assert Owed(n, Some(c.flow)) == FlowBacklog(n, c.flow);
  }

  // What the condition on removing tenants is for: a completion of a session of an earlier tenant
  // with the same id counts down the new one, and then a flow can be removed over a queued session.
  lemma EarlierFlightStrands(h: Hier, t: nat, f: nat, j: nat)
    requires t in h.tenants && t < h.config.maxTenants && |h.inFlight| == |h.airborne|
    requires var n := h.tenants[t];
      && f in n.flows.entries && f < n.flows.maxEntries && FlowBacklog(n, f) == 1 && n.hasBacklog
      && j < |n.flows.queue| && n.flows.queue[j].entry == f
    requires FirstOf(h.inFlight, t, f).Some?
    ensures var (h1, status) := Complete(h, 0, t, f);
      && status == Success
      && RemoveFlow(h1, t, f).1 == Success
      && var n' := RemoveFlow(h1, t, f).0.tenants[t];
         n'.flows.queue == h.tenants[t].flows.queue && n'.flows.queue[j].entry !in n'.flows.entries
  {
    hide FirstOf, Unconfigure;
    FirstOfIs(h.inFlight, t, f);
    var h1 := Complete(h, 0, t, f).0;
    UnconfigureEffect(h1.tenants[t].flows, f);
  }

  // ---------- Ledgers ----------

  // The totals kept in two places agree, and the sums they stand for fit.
  lemma LedgersAgree(h: Hier)
    requires Reachable(h)
    ensures h.allocatedRate == h.system.allocatedRate
    ensures Consistent(h.system) && h.system.capacity == h.config.capacity
    ensures forall t | t in h.tenants ::
      t in h.system.entries && h.system.entries[t].allocation == h.tenants[t].allocation
    ensures h.tenantCount == |h.tenants| <= h.config.maxTenants
    ensures forall t | t in h.tenants :: |h.tenants[t].flows.entries| == FlowCounts(h.tenants)[t]
    ensures Listed(h.system) && h.system.entries.Keys == h.tenants.Keys
    ensures h.totalFlows == Total(h.system.order, FlowCounts(h.tenants))
    ensures h.config.maxTotalFlows > 0 ==> h.totalFlows <= h.config.maxTotalFlows
  {
    hide Reachable, Moving, Consistent, TenantOk;
    ReachableIsSound(h);
    forall t | t in h.tenants
      ensures |h.tenants[t].flows.entries| == FlowCounts(h.tenants)[t]
    {
      FlowsAreCounted(h.config, h.tenants[t]);
    }
    FreeCount(h.tenantPool);
    assert |h.tenants.Keys| == |h.tenants|;
  }

  lemma FlowsAreCounted(c: Config, n: Tenant)
    requires TenantOk(c, n)
    ensures |n.flows.entries| == Minus(n.pool.configured, 1)
  {
    hide Consistent;
    FreeCount(n.pool);
    var live := Live(n.pool);
    assert |live - {RESERVED_FLOW}| == |live| - 1;
    assert |n.flows.entries.Keys| == |n.flows.entries|;
  }

  // The answer of the system scheduler, which a reconfiguration of a tenant ignores, is success.
  lemma IgnoredAnswerIsSuccess(h: Hier, t: nat, a: Allocation)
    requires Reachable(h) && NoWrap(h.system, a)
    ensures ConfigureTenant(h, t, a).1 == Success ==> Configure(h.system, t, a, true).1 == Success
    ensures ConfigureTenant(h, t, a).1 == Overbooked <==>
      && t in h.tenants && ValidAllocation(a) && a.Rate?
      && h.allocatedRate + a.rate > h.config.capacity
         + if h.tenants[t].allocation.Rate? then h.tenants[t].allocation.rate else 0
  {
    hide Reachable, Moving, Configure, WouldExceed, Consistent, LedgerOk, SystemOk, RateAt, NoWrap, Fixed;
    ReachableIsSound(h);
    SoundMoving(h);
    LevelsAgree(h, t);
    WouldExceedMeans(h, t, a);
    if t in h.tenants {
      TenantIdFits(h, t);
      if ConfigureTenant(h, t, a).1 == Success {
        AdmittedIsAccepted(h, t, a);
      }
    }
  }

  // A new tenant never takes the id of another.
  lemma NoTenantIsOverwritten(h: Hier, a: Allocation)
    requires Reachable(h) && NoWrap(h.system, a)
    ensures AddTenant(h, a).1 == Success ==>
      exists id: nat :: id !in h.tenants && AddTenant(h, a).0.tenants.Keys == h.tenants.Keys + {id}
    ensures AddTenant(h, a).1 == Success <==>
      && ValidAllocation(a) && |h.tenants| < h.config.maxTenants && |h.tenants| < MOST_IDS
      && (a.Rate? ==> h.allocatedRate + a.rate <= h.config.capacity)
  {
    hide Reachable, Moving, Configure, WouldExceed, Consistent, LedgerOk, SystemOk, NoWrap, Fixed, Alloc, Release,
         FreeTenant;
    ReachableIsSound(h);
    SoundMoving(h);
    AddTenantSucceeds(h, a);
    if AddTenant(h, a).1 == Success {
      GivenIdIsFree(h);
      assert AddTenant(h, a).0.tenants.Keys == h.tenants.Keys + {Alloc(h.tenantPool).1.value};
    }
  }
}
