/**
 The two levels together: what the calls do to each scheduler is a run of its own, so a session
 that waits in the scheduler of its tenant, which in turn waits in the system scheduler, is handed
 out after a bounded number of dequeues.
 */
module TwoLevels {
  import opened Machine
  import opened Wfq
  import opened Lateness
  import opened TimeLaws
  import opened Proportional
  import opened Rates
  import opened Rebasing
  import opened Jobs
  import opened Delays
  import opened Flights
  import opened Hierarchy
  import opened Coupling
  import opened Backlogs
  import opened Conduct
  import opened Scheduling
  import opened HierarchyLaws
  import opened TenantDelay

  // ---------- Runs put together ----------

  // A run of the system scheduler in which tenant t, whose session is at position p, is served
  // turns times out of n, and comes back at once each time.
  ghost predicate SystemRun(s: Sched, events: seq<Event>, s': Sched, t: nat, p: Option<nat>, n: nat, turns: nat,
                            longest: map<nat, nat>)
  {
    && IsRun(s, events) && Run(s, events) == s'
    && FittingRun(s, events, TENANT_QUANTUM) && IntervalsWithin(s, events, longest)
    && Steady(s, events, t, p, TENANT_QUANTUM)
    && Services(events) == n && Turns(s, events, t) == turns
  }

  // A run of n services of the scheduler of a tenant, in which the session at position k waits.
  ghost predicate FlowRun(s: Sched, events: seq<Event>, s': Sched, k: nat, n: nat, lmax: nat, longest: map<nat, nat>)
  {
    && IsRun(s, events) && Run(s, events) == s'
    && FittingRun(s, events, lmax) && IntervalsWithin(s, events, longest)
    && Waits(s, events, k) && Services(events) == n
  }

  // An event that may be put before a run.
  ghost predicate Fits(s: Sched, e: Event, lmax: nat, longest: map<nat, nat>) {
    && Enabled(s, e) && Lateness.Fitting(s, e, lmax)
    && (e.Arrive? ==> e.entry in longest && NewSession(s, e.entry, e.work, e.data).interval <= longest[e.entry])
  }

  lemma SystemCons(s: Sched, e: Event, events: seq<Event>, s': Sched, t: nat, p: Option<nat>, n: nat, turns: nat,
                   longest: map<nat, nat>)
    requires Fits(s, e, TENANT_QUANTUM, longest) && Alone(s, t, p, TENANT_QUANTUM)
    requires e.Arrive? ==> (p.None? <==> e.entry == t)
    requires e.Serve? ==> p.Some?
    requires SystemRun(Apply(s, e), events, s', t, NextPlace(s, t, p, e), n, turns, longest)
    ensures SystemRun(s, [e] + events, s', t, p, n + (if e.Serve? then 1 else 0),
                      turns + (if e.Serve? && s.queue[e.i].entry == t then 1 else 0), longest)
  {
    hide Alone, NewSession, Apply, CanServe, NextPlace, EnqueueStatus;
    assert ([e] + events)[1..] == events;
  }

  lemma FlowCons(s: Sched, e: Event, events: seq<Event>, s': Sched, k: nat, n: nat, lmax: nat, longest: map<nat, nat>)
    requires Fits(s, e, lmax, longest) && k < |s.queue| && e != Serve(k)
    requires FlowRun(Apply(s, e), events, s', PlaceAfter(k, e), n, lmax, longest)
    ensures FlowRun(s, [e] + events, s', k, n + (if e.Serve? then 1 else 0), lmax, longest)
  {
    hide NewSession, Apply, CanServe, PlaceAfter, EnqueueStatus;
    assert ([e] + events)[1..] == events;
  }

  // ---------- What one event leaves of the place of a tenant ----------

  lemma ArriveAlone(s: Sched, u: nat, t: nat, p: Option<nat>)
    requires EnqueueStatus(s, u, TENANT_QUANTUM) == Success && Alone(s, t, p, TENANT_QUANTUM)
    requires p.None? <==> u == t
    ensures var e := Arrive(u, TENANT_QUANTUM, u);
      NextPlace(s, t, p, e).Some? && Alone(Apply(s, e), t, NextPlace(s, t, p, e), TENANT_QUANTUM)
  {
    hide EnqueueStatus, ServiceRate, Interval;
    var s' := Wfq.Enqueue(s, u, TENANT_QUANTUM, u);
    assert s'.queue[..|s.queue|] == s.queue;
    assert forall j | 0 <= j < |s.queue| :: s'.queue[j] == s.queue[j];
  }

  lemma ServeAlone(s: Sched, i: nat, t: nat, p: nat)
    requires CanServe(s, i) && Alone(s, t, Some(p), TENANT_QUANTUM)
    ensures Alone(Apply(s, Serve(i)), t, NextPlace(s, t, Some(p), Serve(i)), TENANT_QUANTUM)
  {
    hide IsBest, Update;
    var r, s' := Take(s, i), Apply(s, Serve(i));
    RemovedIndex(s.queue, i);
    hide RemoveAt;
    UpdateEffect(r, s.queue[i].work);
    assert forall j | 0 <= j < |s'.queue| ::
      JobOf(s'.queue[j]) == JobOf(r.queue[j]) && r.queue[j] == s.queue[if j < i then j else j + 1];
    forall x | x in s'.queue
      ensures x.work == TENANT_QUANTUM
    {
      var j :| 0 <= j < |s'.queue| && s'.queue[j] == x;
      assert s.queue[if j < i then j else j + 1] in s.queue;
      assert JobOf(s'.queue[j]).work == TENANT_QUANTUM;
    }
    forall j | 0 <= j < |s'.queue|
      ensures s'.queue[j].entry == s.queue[if j < i then j else j + 1].entry
    {
      assert JobOf(s'.queue[j]) == JobOf(r.queue[j]);
    }
  }

  // The session of a tenant in the system scheduler.
  lemma AloneInSystem(h: Hier, t: nat, p: nat)
    requires Sound(h) && p < |h.system.queue| && h.system.queue[p].data == t
    ensures Alone(h.system, t, Some(p), TENANT_QUANTUM)
  {
    hide Fixed, AirOk, FlightsOk, PlacesOk, QueueOk, BacklogOk, AllTimed;
    forall j | 0 <= j < |h.system.queue|
      ensures h.system.queue[j].work == TENANT_QUANTUM && h.system.queue[j].entry == h.system.queue[j].data
    {
      WaitingMember(h.system.queue, Backlogged(h.tenants), j);
    }
  }

  // ---------- What the calls are to the system scheduler ----------

  // The service intervals of the queued sessions are bounded, entry by entry.
  predicate Brief(s: Sched, longest: map<nat, nat>) {
    forall x :: x in s.queue ==> x.entry in longest && x.interval <= longest[x.entry]
  }

  lemma FitsArrival(s: Sched, e: Event, lmax: nat, longest: map<nat, nat>)
    requires Enabled(s, e) && e.Arrive? && Sized(e.work, s.capacity, lmax)
    requires Unsaturated(Apply(s, e)) && Brief(Apply(s, e), longest)
    ensures Fits(s, e, lmax, longest)
  {
    hide ServiceRate, Interval, GroupIndex;
    ArriveFrame(s, e);
    var x := NewSession(s, e.entry, e.work, e.data);
    assert x in Apply(s, e).queue;
  }

  lemma OnePlace(s: Sched, t: nat, p: nat, p': nat)
    requires Alone(s, t, Some(p), TENANT_QUANTUM) && Alone(s, t, Some(p'), TENANT_QUANTUM)
    ensures p == p'
  {
    assert s.queue[p].entry == t;
  }

  // A registration of another tenant, or of one that waits already.
  lemma RegisterProjects(h: Hier, u: nat, t: nat, p: nat, p1: nat, sys1: seq<Event>, s': Sched, n: nat, turns: nat,
                         longest: map<nat, nat>) returns (sys: seq<Event>)
    requires u in h.tenants && (u == t ==> h.tenants[u].hasBacklog) && QuantumFits(h.system)
    requires Alone(h.system, t, Some(p), TENANT_QUANTUM)
    requires var s1 := Register(h, u).system;
      && Unsaturated(s1) && Brief(s1, longest) && Alone(s1, t, Some(p1), TENANT_QUANTUM)
      && SystemRun(s1, sys1, s', t, Some(p1), n, turns, longest)
    ensures SystemRun(h.system, sys, s', t, Some(p), n, turns, longest)
  {
    hide SystemRun, Alone, EnqueueStatus, Wfq.Enqueue, Unsaturated, Brief, Fits, NextPlace;
    var s1 := Register(h, u).system;
    if !h.tenants[u].hasBacklog && EnqueueStatus(h.system, u, TENANT_QUANTUM) == Success {
      var e := Arrive(u, TENANT_QUANTUM, u);
      FitsArrival(h.system, e, TENANT_QUANTUM, longest);
      ArriveAlone(h.system, u, t, Some(p));
      OnePlace(s1, t, p1, NextPlace(h.system, t, Some(p), e).value);
      SystemCons(h.system, e, sys1, s', t, Some(p), n, turns, longest);
      sys := [e] + sys1;
    } else {
      OnePlace(h.system, t, p, p1);
      sys := sys1;
    }
  }

  // A turn of a tenant, and what comes after it: t is served if it is the tenant, and comes back.
  lemma TurnProjects(s: Sched, i: nat, u: nat, again: bool, t: nat, p: nat, p1: nat, sys1: seq<Event>, s': Sched,
                     n: nat, turns: nat, longest: map<nat, nat>) returns (sys: seq<Event>)
    requires CanServe(s, i) && s.queue[i].entry == u && (u == t ==> again)
    requires s.capacity <= TIME_SCALE * TENANT_QUANTUM && Alone(s, t, Some(p), TENANT_QUANTUM)
    requires again ==> EnqueueStatus(Apply(s, Serve(i)), u, TENANT_QUANTUM) == Success
    requires var served := Apply(s, Serve(i));
      var s1 := if again then Apply(served, Arrive(u, TENANT_QUANTUM, u)) else served;
      && Unsaturated(s1) && Brief(s1, longest) && Alone(s1, t, Some(p1), TENANT_QUANTUM)
      && SystemRun(s1, sys1, s', t, Some(p1), n, turns, longest)
    ensures SystemRun(s, sys, s', t, Some(p), n + 1, turns + One(u == t), longest)
  {
    hide SystemRun, EnqueueStatus, Wfq.Enqueue, Unsaturated, Brief, IsBest, Update, Take;
    var served := Apply(s, Serve(i));
    TakeConfig(s, i, s.queue[i].work);
    ServeAlone(s, i, t, p);
    var q := NextPlace(s, t, Some(p), Serve(i));
    var rest := sys1;
    assert u == t <==> i == p;
    hide Alone, Apply;
    if again {
      var e := Arrive(u, TENANT_QUANTUM, u);
      FitsArrival(served, e, TENANT_QUANTUM, longest);
      ArriveAlone(served, u, t, q);
      OnePlace(Apply(served, e), t, p1, NextPlace(served, t, q, e).value);
      SystemCons(served, e, sys1, s', t, q, n, turns, longest);
      rest := [e] + sys1;
    } else {
      OnePlace(served, t, p1, q.value);
    }
    SystemCons(s, Serve(i), rest, s', t, Some(p), n, turns, longest);
    sys := [Serve(i)] + rest;
  }

  // ---------- What the calls are to the scheduler of a tenant ----------

  // No two sessions of a queue carry the same number.
  predicate Numbered(q: seq<Session>) {
    forall i, j | 0 <= i < j < |q| :: q[i].data != q[j].data
  }

  // The session with a number is at position k, and stays in the queue when another is served.
  lemma StaysQueued(s: Sched, j: nat, k: nat, k1: nat)
    requires CanServe(s, j) && k < |s.queue| && Numbered(s.queue)
    requires var s1 := Apply(s, Serve(j)); k1 < |s1.queue| && s1.queue[k1].data == s.queue[k].data
    ensures j != k && k1 == PlaceAfter(k, Serve(j))
  {
    hide IsBest, Update;
    var r, s1 := Take(s, j), Apply(s, Serve(j));
    RemovedIndex(s.queue, j);
    hide RemoveAt;
    UpdateEffect(r, s.queue[j].work);
    assert JobOf(s1.queue[k1]) == JobOf(r.queue[k1]);
    assert r.queue[k1] == s.queue[if k1 < j then k1 else k1 + 1];
  }

  // Where tenant t and its session are.
  ghost predicate Placed(h: Hier, t: nat, serial: nat, k: nat, p: nat) {
    && t in h.tenants && k < |h.tenants[t].flows.queue| && h.tenants[t].flows.queue[k].data == serial
    && p < |h.system.queue| && h.system.queue[p].data == t
  }

  lemma FindPlaces(h: Hier, t: nat, serial: nat) returns (k: nat, p: nat)
    requires Sound(h) && t in h.tenants && serial in Tickets(h.tenants[t].flows.queue)
    ensures Placed(h, t, serial, k, p)
  {
    hide Fixed, AirOk, FlightsOk, PlacesOk, QueueOk, BacklogOk, AllTimed;
    k :| 0 <= k < |h.tenants[t].flows.queue| && h.tenants[t].flows.queue[k].data == serial;
    assert TenantCoupled(h.tenants[t]) && t in Backlogged(h.tenants);
    p :| 0 <= p < |h.system.queue| && h.system.queue[p].data == t;
  }

  lemma PlacedMeans(h: Hier, t: nat, serial: nat, k: nat, p: nat)
    requires Sound(h) && Placed(h, t, serial, k, p)
    ensures h.tenants[t].hasBacklog && Numbered(h.tenants[t].flows.queue)
    ensures Alone(h.system, t, Some(p), TENANT_QUANTUM)
  {
    hide Fixed, AirOk, FlightsOk, PlacesOk, BacklogOk, AllTimed, Carries, Waiting, Alone;
    AloneInSystem(h, t, p);
    assert TenantCoupled(h.tenants[t]) && QueueOk(h.contexts, t, h.tenants[t]);
  }

  lemma SamePlace(q: seq<Session>, k: nat, k1: nat)
    requires Numbered(q) && k < |q| && k1 < |q| && q[k].data == q[k1].data
    ensures k == k1
  {
  }

  // ---------- One call ----------

  ghost predicate Both(h: Hier, t: nat, k: nat, p: nat, sys: seq<Event>, fl: seq<Event>, sE: Sched, fE: Sched,
                       n: nat, turns: nat, lmax: nat, ls: map<nat, nat>, lf: map<nat, nat>)
    requires t in h.tenants
  {
    && SystemRun(h.system, sys, sE, t, Some(p), n, turns, ls)
    && FlowRun(h.tenants[t].flows, fl, fE, k, turns, lmax, lf)
  }

  // No service interval is too long, and no finish time has saturated.
  ghost predicate Even(h: Hier, t: nat, ls: map<nat, nat>, lf: map<nat, nat>)
    requires t in h.tenants
  {
    Quiet(h) && Brief(h.system, ls) && Brief(h.tenants[t].flows, lf)
  }

  lemma EvenMeans(h: Hier, t: nat, ls: map<nat, nat>, lf: map<nat, nat>)
    requires Sound(h) && t in h.tenants && Even(h, t, ls, lf)
    ensures Unsaturated(h.system) && Unsaturated(h.tenants[t].flows)
    ensures Brief(h.system, ls) && Brief(h.tenants[t].flows, lf)
  {
    hide Sound;
    QuietMeans(h);
  }

  lemma EnqueueProjects(h: Hier, r: Request, t: nat, serial: nat, k: nat, p: nat, k1: nat, p1: nat,
                        sys1: seq<Event>, fl1: seq<Event>, sE: Sched, fE: Sched, n: nat, turns: nat,
                        lmax: nat, ls: map<nat, nat>, lf: map<nat, nat>)
    returns (sys: seq<Event>, fl: seq<Event>)
    requires Sound(h) && r.DoEnqueue? && EnqueueAnswer(h, r.t, r.f, r.work) == Success && Placed(h, t, serial, k, p)
    requires QuantumFits(h.system) && SizedFor(r, t, h.tenants[t].flows.capacity, lmax)
    requires var h1 := Hierarchy.Enqueue(h, r.t, r.f, r.work, r.data, r.timeout).0;
      && Sound(h1) && Placed(h1, t, serial, k1, p1) && Even(h1, t, ls, lf)
      && Both(h1, t, k1, p1, sys1, fl1, sE, fE, n, turns, lmax, ls, lf)
    ensures Both(h, t, k, p, sys, fl, sE, fE, n, turns, lmax, ls, lf)
  {
    hide Sound, EnqueueStatus, Register, Wfq.Enqueue, SystemRun, FlowRun, Even, Brief, Alone, Numbered, Unsaturated,
         Fits;
    var h1 := Hierarchy.Enqueue(h, r.t, r.f, r.work, r.data, r.timeout).0;
    PlacedMeans(h, t, serial, k, p);
    PlacedMeans(h1, t, serial, k1, p1);
    EvenMeans(h1, t, ls, lf);
    var x := Context(|h.contexts|, r.t, h.tenants[r.t].era, r.f, r.work, r.data, r.timeout);
    var g := SetTenant(h, r.t, Submit(h.tenants[r.t], r.f, r.work, x.serial)).(contexts := h.contexts + [x]);
    RegisterFlows(g, r.t, t);
    sys := RegisterProjects(g, r.t, t, p, p1, sys1, sE, n, turns, ls);
    if r.t == t {
      fl := ArrivalProjects(h.tenants[t].flows, Arrive(r.f, r.work, x.serial), k, k1, fl1, fE, turns, lmax, lf);
    } else {
      SamePlace(h.tenants[t].flows.queue, k, k1);
      fl := fl1;
    }
  }

  lemma ArrivalProjects(s: Sched, e: Event, k: nat, k1: nat, fl1: seq<Event>, fE: Sched, n: nat, lmax: nat,
                        longest: map<nat, nat>) returns (fl: seq<Event>)
    requires e.Arrive? && Enabled(s, e) && Sized(e.work, s.capacity, lmax)
    requires k < |s.queue| && k1 < |Apply(s, e).queue| && Apply(s, e).queue[k1].data == s.queue[k].data
    requires Numbered(Apply(s, e).queue) && Unsaturated(Apply(s, e)) && Brief(Apply(s, e), longest)
    requires FlowRun(Apply(s, e), fl1, fE, k1, n, lmax, longest)
    ensures FlowRun(s, fl, fE, k, n, lmax, longest)
  {
    hide EnqueueStatus, Wfq.Enqueue, FlowRun, Brief, Unsaturated, Fits;
    EnqueueEffect(s, e.entry, e.work, e.data);
    assert Apply(s, e).queue[..|s.queue|][k] == s.queue[k];
    SamePlace(Apply(s, e).queue, k, k1);
    FitsArrival(s, e, lmax, longest);
    FlowCons(s, e, fl1, fE, k, n, lmax, longest);
    fl := [e] + fl1;
  }

  // A dequeue that comes to tenant t has room for its session.
  predicate HasRoom(h: Hier, i: nat, j: Option<nat>, now: nat, t: nat)
    requires MayChoose(h, Some(i), j)
  {
    i < |h.system.queue| && h.system.queue[i].data == t ==> Dequeue(h, Some(i), j, now).1.status == Success
  }

  lemma DequeueProjects(h: Hier, i: nat, j: Option<nat>, now: nat, t: nat, serial: nat, k: nat, p: nat,
                        k1: nat, p1: nat,
                        sys1: seq<Event>, fl1: seq<Event>, sE: Sched, fE: Sched, n: nat, turns: nat,
                        lmax: nat, ls: map<nat, nat>, lf: map<nat, nat>)
    returns (sys: seq<Event>, fl: seq<Event>, turns': nat)
    requires Sound(h) && Quiet(h) && MayChoose(h, Some(i), j) && HasRoom(h, i, j, now, t)
    requires Placed(h, t, serial, k, p) && QuantumFits(h.system)
    requires var h1 := Dequeue(h, Some(i), j, now).0;
      && Sound(h1) && Placed(h1, t, serial, k1, p1) && Even(h1, t, ls, lf)
      && Both(h1, t, k1, p1, sys1, fl1, sE, fE, n, turns, lmax, ls, lf)
    ensures Both(h, t, k, p, sys, fl, sE, fE, n + 1, turns', lmax, ls, lf)
  {
    hide Sound, Quiet, Dequeue, IsBest, Update, Take, SystemRun, FlowRun, Even, Brief, Alone, Numbered, Unsaturated,
         HandOut, ServeTenant, ExceedsCapacity, EnqueueStatus, Wfq.Enqueue, Carries, Apply, Rejected;
    var h1 := Dequeue(h, Some(i), j, now).0;
    PlacedMeans(h, t, serial, k, p);
    PlacedMeans(h1, t, serial, k1, p1);
    EvenMeans(h1, t, ls, lf);
    var x := DequeueCases(h, Some(i), j, now);
    var u := h.system.queue[i].data;
    SystemEntry(h, i);
    var again := true;
    if ExceedsCapacity(h, x.work) {
      RefusalServes(h, i, j.value, u, x);
      RefusedFlows(h, i, j.value, x, t);
    } else {
      BothLevelsServe(h, i, j.value, u, x, now);
      again := h1.tenants[u].flows.queue != [];
    }
    sys := TurnProjects(h.system, i, u, again, t, p, p1, sys1, sE, n, turns, ls);
    turns' := turns + One(u == t);
    var s := h.tenants[t].flows;
    if u == t {
      StaysQueued(s, j.value, k, k1);
      FlowCons(s, Serve(j.value), fl1, fE, k, turns, lmax, lf);
      fl := [Serve(j.value)] + fl1;
    } else {
      if !ExceedsCapacity(h, x.work) {
        OtherFlows(h, i, j.value, x, now, t);
      }
      SamePlace(s.queue, k, k1);
      fl := fl1;
    }
  }

  lemma SystemEntry(h: Hier, i: nat)
    requires Sound(h) && i < |h.system.queue|
    ensures h.system.queue[i].entry == h.system.queue[i].data
  {
    hide Fixed, AirOk, FlightsOk, PlacesOk, QueueOk, BacklogOk, AllTimed;
    WaitingMember(h.system.queue, Backlogged(h.tenants), i);
  }

  lemma OtherFlows(h: Hier, i: nat, j: nat, x: Context, now: nat, t: nat)
    requires i < |h.system.queue| && h.system.queue[i].data in h.tenants && t in h.tenants
    requires j < |h.tenants[h.system.queue[i].data].flows.queue| && t != h.system.queue[i].data
    ensures t in HandedOut(h, i, j, x, now).tenants
    ensures HandedOut(h, i, j, x, now).tenants[t].flows == h.tenants[t].flows
  {
    hide ServeTenant, HandOut, Take;
    var u := h.system.queue[i].data;
    ServeKeepsFlows(h, i, t);
    ServeKeepsFlows(h, i, u);
    var g := ServeTenant(h, i);
    HandOutFlows(SetTenant(g, u, g.tenants[u].(flows := Take(g.tenants[u].flows, j))), u, x, now, t);
  }

  lemma RefusedFlows(h: Hier, i: nat, j: nat, x: Context, t: nat)
    requires i < |h.system.queue| && h.system.queue[i].data in h.tenants && t in h.tenants
    requires j < |h.tenants[h.system.queue[i].data].flows.queue| && t != h.system.queue[i].data
    ensures t in Rejected(h, i, j, x).tenants && Rejected(h, i, j, x).tenants[t].flows == h.tenants[t].flows
  {
    hide ServeTenant, PutBack, Take;
    var u := h.system.queue[i].data;
    ServeKeepsFlows(h, i, t);
    ServeKeepsFlows(h, i, u);
    var g := ServeTenant(h, i);
    PutBackFlows(SetTenant(g, u, g.tenants[u].(flows := Take(g.tenants[u].flows, j))), u, x, t);
  }

  // ---------- Runs of calls ----------

  // A call that moves sessions; a dequeue that comes to tenant t has room for its session.
  predicate Goes(h: Hier, r: Request, t: nat, lmax: nat)
    requires CanHappen(h, r) && t in h.tenants
  {
    && MovesSessions(r) && SizedFor(r, t, h.tenants[t].flows.capacity, lmax)
    && (r.DoDequeue? && r.i.Some? ==> HasRoom(h, r.i.value, r.j, r.now, t))
  }

  // All through a run of such calls a session stays queued with tenant t.
  ghost predicate Awaits(h: Hier, requests: seq<Request>, t: nat, serial: nat, lmax: nat, ls: map<nat, nat>,
                         lf: map<nat, nat>)
    decreases requests
  {
    && t in h.tenants && serial in Tickets(h.tenants[t].flows.queue)
    && Brief(h.system, ls) && Brief(h.tenants[t].flows, lf)
    && (requests == [] ||
        (&& CanHappen(h, requests[0]) && Goes(h, requests[0], t, lmax)
         && Awaits(Next(h, requests[0]), requests[1..], t, serial, lmax, ls, lf)))
  }

  // The dequeues that come to a session.
  function Visits(requests: seq<Request>): nat {
    if requests == [] then 0
    else (if requests[0].DoDequeue? && requests[0].i.Some? then 1 else 0) + Visits(requests[1..])
  }

  lemma QuantumStillFits(h: Hier, r: Request)
    requires Sound(h) && CanHappen(h, r) && MovesSessions(r) && Sound(Next(h, r)) && QuantumFits(h.system)
    ensures QuantumFits(Next(h, r).system)
  {
    hide Moving, AllTimed, SystemOk, ErasOk, TenantOk, ConfigOk, Next, CanHappen, MovesSessions, Listed, Total;
    ConfigStays(h, r);
  }

  lemma ConfigStays(h: Hier, r: Request)
    requires CanHappen(h, r) && MovesSessions(r)
    ensures Next(h, r).config == h.config
  {
    hide EnqueueStatus, Wfq.Enqueue, Find, Update, Take, TakeNone, MayChooseFlow, CanServe, CanServeNone, Kept, Expired,
         Staying, Leaving;
  }

  lemma StillProjects(h: Hier, h1: Hier, t: nat, serial: nat, k: nat, p: nat, k1: nat, p1: nat, sys: seq<Event>,
                      fl: seq<Event>,
                      sE: Sched, fE: Sched, n: nat, turns: nat, lmax: nat, ls: map<nat, nat>, lf: map<nat, nat>)
    requires Sound(h) && Placed(h, t, serial, k, p) && Placed(h1, t, serial, k1, p1)
    requires h1.system == h.system && h1.tenants[t].flows == h.tenants[t].flows
    requires Both(h1, t, k1, p1, sys, fl, sE, fE, n, turns, lmax, ls, lf)
    ensures Both(h, t, k, p, sys, fl, sE, fE, n, turns, lmax, ls, lf)
  {
    hide Sound, SystemRun, FlowRun, Numbered, Alone;
    PlacedMeans(h, t, serial, k, p);
    AloneInSystem(h, t, p1);
    SamePlace(h.tenants[t].flows.queue, k, k1);
    OnePlace(h.system, t, p, p1);
  }

  // Completions, cancellations, timeout checks and refusals leave the schedulers alone.
  lemma SchedulersSame(h: Hier, r: Request, t: nat)
    requires Sound(h) && Quiet(h) && CanHappen(h, r) && MovesSessions(r) && t in h.tenants
    requires r.DoEnqueue? ==> EnqueueAnswer(h, r.t, r.f, r.work) != Success
    requires r.DoDequeue? ==> r.i.None?
    ensures t in Next(h, r).tenants && Next(h, r).system == h.system
      && Next(h, r).tenants[t].flows == h.tenants[t].flows
  {
    hide Sound, Quiet, Dequeue, Complete, Hierarchy.Cancel, Find, Landed, MayChoose, EnqueueAnswer;
    match r
    case DoEnqueue(_, _, _, _, _) =>
    case DoDequeue(i, j, now) =>
      var x := DequeueCases(h, i, j, now);
      EmptyTake(h);
    case DoComplete(data, u, f) =>
      CompleteCases(h, data, u, f);
      if Find(h.inFlight, data, u, f).Some? {
        var n := Find(h.inFlight, data, u, f).value;
        LandSame(h, n, h.completed + {h.airborne[n].serial}, h.cancelled, t);
      }
    case DoCancel(data, u, f) =>
      CancelCases(h, data, u, f);
      if Find(h.inFlight, data, u, f).Some? {
        var n := Find(h.inFlight, data, u, f).value;
        LandSame(h, n, h.completed, h.cancelled + {h.airborne[n].serial}, t);
      }
    case DoCheckTimeouts(now) =>
  }

  lemma LandSame(h: Hier, k: nat, done: set<nat>, dropped: set<nat>, t: nat)
    requires k < |h.inFlight| && k < |h.airborne| && t in h.tenants
    ensures var h' := Landed(h, k, done, dropped);
      h'.system == h.system && t in h'.tenants && h'.tenants[t].flows == h.tenants[t].flows
  {
  }

  // What a run of calls is to the two schedulers.
  lemma {:induction false} Projects(h: Hier, requests: seq<Request>, t: nat, serial: nat, k: nat, p: nat,
                                    lmax: nat, ls: map<nat, nat>, lf: map<nat, nat>)
    returns (sys: seq<Event>, fl: seq<Event>, turns: nat)
    requires Sound(h) && IsConduct(h, requests) && Quiet(Conducted(h, requests)) && QuantumFits(h.system)
    requires Awaits(h, requests, t, serial, lmax, ls, lf) && Placed(h, t, serial, k, p)
    ensures var h' := Conducted(h, requests);
      t in h'.tenants
      && Both(h, t, k, p, sys, fl, h'.system, h'.tenants[t].flows, Visits(requests), turns, lmax, ls, lf)
    decreases requests
  {
    hide Sound, Next, HierarchyLaws.Fitting, CanHappen, MovesSessions, SizedFor, Unreached, QuantumFits, Both, Brief,
         Tickets, Placed, Dequeue, EnqueueAnswer;
    if requests == [] {
      sys, fl, turns := [], [], 0;
      NothingProjects(h, t, serial, k, p, lmax, ls, lf);
    } else {
      var r := requests[0];
      var h1 := Next(h, r);
      NextKeeps(h, r);
      QuantumStillFits(h, r);
      assert Quiet(h1);
      assert Awaits(h1, requests[1..], t, serial, lmax, ls, lf);
      assert Even(h1, t, ls, lf);
      var k1, p1 := FindPlaces(h1, t, serial);
      sys, fl, turns := Projects(h1, requests[1..], t, serial, k1, p1, lmax, ls, lf);
      var e, n := Conducted(h, requests), Visits(requests[1..]);
      sys, fl, turns := OneProjects(h, r, t, serial, k, p, k1, p1, sys, fl, e.system, e.tenants[t].flows, n, turns,
                                    lmax, ls, lf);
    }
  }

  lemma NothingProjects(h: Hier, t: nat, serial: nat, k: nat, p: nat, lmax: nat, ls: map<nat, nat>, lf: map<nat, nat>)
    requires Sound(h) && Placed(h, t, serial, k, p)
    ensures Both(h, t, k, p, [], [], h.system, h.tenants[t].flows, 0, 0, lmax, ls, lf)
  {
    hide Sound, Alone;
    PlacedMeans(h, t, serial, k, p);
  }

  lemma OneProjects(h: Hier, r: Request, t: nat, serial: nat, k: nat, p: nat, k1: nat, p1: nat,
                    sys1: seq<Event>, fl1: seq<Event>, sE: Sched, fE: Sched, n: nat, turns1: nat,
                    lmax: nat, ls: map<nat, nat>, lf: map<nat, nat>)
    returns (sys: seq<Event>, fl: seq<Event>, turns: nat)
    requires Sound(h) && Quiet(h) && CanHappen(h, r) && Placed(h, t, serial, k, p) && QuantumFits(h.system)
    requires Goes(h, r, t, lmax)
    requires var h1 := Next(h, r);
      && Sound(h1) && Placed(h1, t, serial, k1, p1) && Even(h1, t, ls, lf)
      && Both(h1, t, k1, p1, sys1, fl1, sE, fE, n, turns1, lmax, ls, lf)
    ensures Both(h, t, k, p, sys, fl, sE, fE, n + Visits([r]), turns, lmax, ls, lf)
  {
    hide Sound, Quiet, Both, Even, QuantumFits, SizedFor, Dequeue, Hierarchy.Enqueue, EnqueueAnswer, MayChoose;
    turns := turns1;
    if r.DoEnqueue? && EnqueueAnswer(h, r.t, r.f, r.work) == Success {
      sys, fl := EnqueueProjects(h, r, t, serial, k, p, k1, p1, sys1, fl1, sE, fE, n, turns1, lmax, ls, lf);
    } else if r.DoDequeue? && r.i.Some? {
      sys, fl, turns := DequeueProjects(h, r.i.value, r.j, r.now, t, serial, k, p, k1, p1, sys1, fl1, sE, fE, n, turns1,
                                        lmax, ls, lf);
    } else {
      SchedulersSame(h, r, t);
      StillProjects(h, Next(h, r), t, serial, k, p, k1, p1, sys1, fl1, sE, fE, n, turns1, lmax, ls, lf);
      sys, fl := sys1, fl1;
    }
  }

  // ---------- Both schedulers stay gentle ----------

  ghost predicate BothGentle(h: Hier, t: nat, lmax: nat, ls: map<nat, nat>, lf: map<nat, nat>) {
    && t in h.tenants && QuantumFits(h.system)
    && Gentle(h.system, TENANT_QUANTUM, ls) && Gentle(h.tenants[t].flows, lmax, lf)
  }

  lemma RegisterGentle(h: Hier, u: nat, ls: map<nat, nat>)
    requires u in h.tenants && QuantumFits(h.system) && Gentle(h.system, TENANT_QUANTUM, ls)
    requires Unsaturated(Register(h, u).system) && Brief(Register(h, u).system, ls)
    ensures Gentle(Register(h, u).system, TENANT_QUANTUM, ls)
  {
    hide Gentle, EnqueueStatus, Wfq.Enqueue, Unsaturated, Brief;
    if !h.tenants[u].hasBacklog && EnqueueStatus(h.system, u, TENANT_QUANTUM) == Success {
      var e := Arrive(u, TENANT_QUANTUM, u);
      FitsArrival(h.system, e, TENANT_QUANTUM, ls);
      GentleApply(h.system, e, TENANT_QUANTUM, ls);
    }
  }

  lemma EnqueueGentle(h: Hier, r: Request, t: nat, lmax: nat, ls: map<nat, nat>, lf: map<nat, nat>)
    requires BothGentle(h, t, lmax, ls, lf) && r.DoEnqueue? && EnqueueAnswer(h, r.t, r.f, r.work) == Success
    requires SizedFor(r, t, h.tenants[t].flows.capacity, lmax)
    requires var h1 := Hierarchy.Enqueue(h, r.t, r.f, r.work, r.data, r.timeout).0;
      && t in h1.tenants && Unsaturated(h1.system) && Unsaturated(h1.tenants[t].flows)
      && Brief(h1.system, ls) && Brief(h1.tenants[t].flows, lf)
    ensures var h1 := Hierarchy.Enqueue(h, r.t, r.f, r.work, r.data, r.timeout).0;
      && Gentle(h1.system, TENANT_QUANTUM, ls) && Gentle(h1.tenants[t].flows, lmax, lf)
  {
    hide Gentle, EnqueueStatus, Register, Wfq.Enqueue, Unsaturated, Brief, Fits;
    var x := Context(|h.contexts|, r.t, h.tenants[r.t].era, r.f, r.work, r.data, r.timeout);
    var g := SetTenant(h, r.t, Submit(h.tenants[r.t], r.f, r.work, x.serial)).(contexts := h.contexts + [x]);
    RegisterFlows(g, r.t, t);
    RegisterGentle(g, r.t, ls);
    if r.t == t {
      var s, e := h.tenants[t].flows, Arrive(r.f, r.work, x.serial);
      FitsArrival(s, e, lmax, lf);
      FitsMeans(s, e, lmax, lf);
      GentleApply(s, e, lmax, lf);
    }
  }

  lemma FitsMeans(s: Sched, e: Event, lmax: nat, longest: map<nat, nat>)
    requires Fits(s, e, lmax, longest)
    ensures Enabled(s, e) && Lateness.Fitting(s, e, lmax)
    ensures e.Arrive? ==> e.entry in longest && NewSession(s, e.entry, e.work, e.data).interval <= longest[e.entry]
  {
  }

  lemma DequeueGentle(h: Hier, i: nat, j: Option<nat>, now: nat, t: nat, lmax: nat, ls: map<nat, nat>,
                      lf: map<nat, nat>)
    requires Sound(h) && Quiet(h) && MayChoose(h, Some(i), j) && HasRoom(h, i, j, now, t)
    requires BothGentle(h, t, lmax, ls, lf)
    requires var h1 := Dequeue(h, Some(i), j, now).0; Unsaturated(h1.system) && Brief(h1.system, ls)
    ensures var h1 := Dequeue(h, Some(i), j, now).0;
      t in h1.tenants && Gentle(h1.system, TENANT_QUANTUM, ls) && Gentle(h1.tenants[t].flows, lmax, lf)
  {
    hide Sound, Quiet, Dequeue, IsBest, Update, Take, Gentle, Brief, Unsaturated, HandOut, ServeTenant, ExceedsCapacity,
         EnqueueStatus, Wfq.Enqueue, Carries, Rejected, Fits;
    var x := DequeueCases(h, Some(i), j, now);
    var u := h.system.queue[i].data;
    var refused := ExceedsCapacity(h, x.work);
    if refused {
      RefusalServes(h, i, j.value, u, x);
    } else {
      BothLevelsServe(h, i, j.value, u, x, now);
    }
    var served, e := Apply(h.system, Serve(i)), Arrive(u, TENANT_QUANTUM, u);
    GentleApply(h.system, Serve(i), TENANT_QUANTUM, ls);
    if refused || HandedOut(h, i, j.value, x, now).tenants[u].flows.queue != [] {
      FitsArrival(served, e, TENANT_QUANTUM, ls);
      FitsMeans(served, e, TENANT_QUANTUM, ls);
      GentleApply(served, e, TENANT_QUANTUM, ls);
    }
    if u == t {
      GentleApply(h.tenants[t].flows, Serve(j.value), lmax, lf);
    } else if refused {
      RefusedFlows(h, i, j.value, x, t);
    } else {
      OtherFlows(h, i, j.value, x, now, t);
    }
  }

  lemma NextGentle(h: Hier, r: Request, t: nat, lmax: nat, ls: map<nat, nat>, lf: map<nat, nat>)
    requires Sound(h) && Quiet(h) && CanHappen(h, r) && BothGentle(h, t, lmax, ls, lf) && Goes(h, r, t, lmax)
    requires Sound(Next(h, r)) && t in Next(h, r).tenants && Even(Next(h, r), t, ls, lf)
    ensures BothGentle(Next(h, r), t, lmax, ls, lf)
  {
    hide Sound, Quiet, Even, QuantumFits, SizedFor, Gentle, Dequeue, Hierarchy.Enqueue, EnqueueAnswer, MayChoose;
    var h1 := Next(h, r);
    EvenMeans(h1, t, ls, lf);
    QuantumStillFits(h, r);
    if r.DoEnqueue? && EnqueueAnswer(h, r.t, r.f, r.work) == Success {
      EnqueueGentle(h, r, t, lmax, ls, lf);
    } else if r.DoDequeue? && r.i.Some? {
      DequeueGentle(h, r.i.value, r.j, r.now, t, lmax, ls, lf);
    } else {
      SchedulersSame(h, r, t);
    }
  }

  // A run of calls that go, at short service intervals.
  ghost predicate Proceeds(h: Hier, requests: seq<Request>, t: nat, lmax: nat, ls: map<nat, nat>, lf: map<nat, nat>)
    decreases requests
  {
    && t in h.tenants && Brief(h.system, ls) && Brief(h.tenants[t].flows, lf)
    && (requests == [] ||
        (&& CanHappen(h, requests[0]) && Goes(h, requests[0], t, lmax)
         && Proceeds(Next(h, requests[0]), requests[1..], t, lmax, ls, lf)))
  }

  lemma {:induction false} GentleConduct(h: Hier, requests: seq<Request>, t: nat, lmax: nat, ls: map<nat, nat>,
                                         lf: map<nat, nat>)
    requires Sound(h) && IsConduct(h, requests) && Quiet(Conducted(h, requests))
    requires Proceeds(h, requests, t, lmax, ls, lf) && BothGentle(h, t, lmax, ls, lf)
    ensures Sound(Conducted(h, requests)) && BothGentle(Conducted(h, requests), t, lmax, ls, lf)
    decreases requests
  {
    hide Sound, Next, HierarchyLaws.Fitting, CanHappen, MovesSessions, SizedFor, Unreached, BothGentle, Brief;
    if requests != [] {
      var h1 := Next(h, requests[0]);
      NextKeeps(h, requests[0]);
      assert Quiet(h1);
      assert Proceeds(h1, requests[1..], t, lmax, ls, lf);
      assert Even(h1, t, ls, lf);
      NextGentle(h, requests[0], t, lmax, ls, lf);
      GentleConduct(h1, requests[1..], t, lmax, ls, lf);
    }
  }

  // ---------- The theorem ----------

  lemma AwaitBound(h: Hier, requests: seq<Request>, t: nat, serial: nat, lmax: nat,
                   ls: map<nat, nat>, lf: map<nat, nat>, m: nat)
    returns (k: nat, p: nat, turns: nat)
    requires Sound(h) && IsConduct(h, requests) && Quiet(Conducted(h, requests))
    requires Awaits(h, requests, t, serial, lmax, ls, lf) && BothGentle(h, t, lmax, ls, lf)
    requires forall u | u in ls :: ls[u] <= m
    ensures Placed(h, t, serial, k, p)
    ensures var f, x := h.tenants[t].flows, h.tenants[t].flows.queue[k];
      f.capacity * turns + f.capacity * f.v + TIME_SCALE * x.work <= f.capacity * x.finish + TIME_SCALE * lmax
    ensures var s := h.system;
      && turns <= Visits(requests)
      && Delta(s.capacity, TENANT_QUANTUM) * (Visits(requests) - turns)
         <= s.queue[p].finish - s.v + 2 * m * turns
  {
    hide Sound, IsConduct, Conducted, Quiet, QuantumFits, Gentle, Delta, Run, IsRun, FittingRun, IntervalsWithin,
         Steady, Waits, WorkServed, Turns;
    k, p := FindPlaces(h, t, serial);
    var sys, fl;
    sys, fl, turns := Projects(h, requests, t, serial, k, p, lmax, ls, lf);
    WaitBound(h.tenants[t].flows, fl, k, lmax, lf);
    TurnsBound(h.system, sys, t, Some(p), TENANT_QUANTUM, ls, m);
  }

  // No session starves: after any run of session calls in which dequeues that come to tenant t have
  // room, take any further such run all through which a session x of t stays queued. The turns of the
  // tenant are no more than the virtual time up to x's finish time in the tenant's scheduler allows; and
  // the dequeues that come to other tenants, with room or without, no more than the virtual time up to
  // the tenant's finish time in the system scheduler, and two longest intervals for each turn, allow.
  lemma NoSessionStarves(h: Hier, before: seq<Request>, wait: seq<Request>, t: nat, serial: nat, lmax: nat,
                         ls: map<nat, nat>, lf: map<nat, nat>, m: nat)
    returns (k: nat, p: nat, turns: nat)
    requires Sound(h) && t in h.tenants && QuantumFits(h.system)
    requires Idle(h.system, TENANT_QUANTUM, ls) && Idle(h.tenants[t].flows, lmax, lf)
    requires forall u | u in ls :: ls[u] <= m
    requires IsConduct(h, before) && Proceeds(h, before, t, lmax, ls, lf)
    requires IsConduct(Conducted(h, before), wait) && Quiet(Conducted(Conducted(h, before), wait))
    requires Awaits(Conducted(h, before), wait, t, serial, lmax, ls, lf)
    ensures var g, d := Conducted(h, before), Visits(wait);
      && Placed(g, t, serial, k, p)
      && (var f, x := g.tenants[t].flows, g.tenants[t].flows.queue[k];
          f.capacity * turns + f.capacity * f.v + TIME_SCALE * x.work <= f.capacity * x.finish + TIME_SCALE * lmax)
      && turns <= d
      && Delta(g.system.capacity, TENANT_QUANTUM) * (d - turns) <= g.system.queue[p].finish - g.system.v + 2 * m * turns
  {
    hide Sound, Quiet, QuantumFits, Gentle, Idle, Proceeds, Awaits, Next, CanHappen, HierarchyLaws.Fitting;
    IdleIsGentle(h.system, TENANT_QUANTUM, ls);
    IdleIsGentle(h.tenants[t].flows, lmax, lf);
    assert Quiet(Conducted(h, before));
    GentleConduct(h, before, t, lmax, ls, lf);
    k, p, turns := AwaitBound(Conducted(h, before), wait, t, serial, lmax, ls, lf, m);
  }
}
