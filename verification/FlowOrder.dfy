/**
 The order in which the sessions of a flow are handed out, over runs of calls: the order in which
 they were accepted.
 */
module FlowOrder {
  import opened Machine
  import opened Wfq
  import opened Lateness
  import opened TimeLaws
  import opened Proportional
  import opened Rates
  import opened Rebasing
  import opened Jobs
  import opened Delays
  import opened Pools
  import opened Flights
  import opened Hierarchy
  import opened Coupling
  import opened Backlogs
  import opened Conduct
  import opened Scheduling
  import opened Administration
  import opened HierarchyLaws
  import opened TenantDelay
  import opened TwoLevels

  // ---------- One scheduler ----------

  // The queued sessions of an entry carry rising numbers, all of them below n.
  predicate Rising(q: seq<Session>, n: nat) {
    && (forall x :: x in q ==> x.data < n)
    && forall i, j | 0 <= i < j < |q| && q[i].entry == q[j].entry :: q[i].data < q[j].data
  }

  ghost predicate InLine(s: Sched, n: nat) {
    Ordered(s) && Rising(s.queue, n)
  }

  // All sessions of an entry that are queued have numbers above one.
  predicate Past(q: seq<Session>, entry: nat, number: nat) {
    forall x :: x in q && x.entry == entry ==> number < x.data
  }

  predicate NoneQueued(s: Sched, id: nat) {
    forall x :: x in s.queue ==> x.entry != id
  }

  // What a call may do to the scheduler of a tenant: n is the number of the next session accepted.
  datatype Change =
    | Unmoved
    | Arrival(entry: nat, work: nat)
    | Service(j: nat)
    | Addition(id: nat, a: Allocation)
    | Removal(id: nat)

  predicate CanChange(s: Sched, c: Change) {
    match c
    case Unmoved => true
    case Arrival(entry, work) => EnqueueStatus(s, entry, work) == Success
    case Service(j) => CanServe(s, j)
    case Addition(id, _) => NoneQueued(s, id)
    case Removal(id) => NoneQueued(s, id)
  }

  function Changed(s: Sched, c: Change, n: nat): Sched
    requires CanChange(s, c)
  {
    match c
    case Unmoved => s
    case Arrival(entry, work) => Wfq.Enqueue(s, entry, work, n)
    case Service(j) => Apply(s, Serve(j))
    case Addition(id, a) => Configure(s, id, a, true).0
    case Removal(id) => Unconfigure(s, id).0
  }

  // The number of the next session after a change.
  function Count(c: Change, n: nat): nat {
    if c.Arrival? then n + 1 else n
  }

  lemma ServedNumbers(s: Sched, j: nat)
    requires CanServe(s, j)
    ensures var q := Apply(s, Serve(j)).queue;
      && |q| == |s.queue| - 1
      && forall k | 0 <= k < |q| ::
           && q[k].data == s.queue[if k < j then k else k + 1].data
           && q[k].entry == s.queue[if k < j then k else k + 1].entry
  {
    hide IsBest, Update;
    RemovedIndex(s.queue, j);
    hide RemoveAt;
    var r, q := Take(s, j), Apply(s, Serve(j)).queue;
    UpdateEffect(r, s.queue[j].work);
    assert forall k | 0 <= k < |q| :: JobOf(q[k]) == JobOf(r.queue[k]);
  }

  lemma RisingAfter(s: Sched, c: Change, n: nat)
    requires CanChange(s, c) && Rising(s.queue, n)
    ensures Rising(Changed(s, c, n).queue, Count(c, n))
  {
    hide EnqueueStatus, ServiceRate, Interval, CanServe, Apply;
    match c
    case Unmoved =>
    case Arrival(entry, work) =>
      EnqueueEffect(s, entry, work, n);
      var q := Changed(s, c, n).queue;
      assert forall k | 0 <= k < |s.queue| :: q[k] == s.queue[k];
      assert JobOf(q[|s.queue|]).data == n;
    case Service(j) =>
      ServedNumbers(s, j);
      var q := Changed(s, c, n).queue;
      forall x | x in q
        ensures x.data < n
      {
        var k :| 0 <= k < |q| && q[k] == x;
        assert s.queue[if k < j then k else k + 1] in s.queue;
      }
    case Addition(id, a) => ConfigureEffect(s, id, a, true);
    case Removal(id) => UnconfigureQueue(s, id);
  }

  lemma UnconfigureQueue(s: Sched, id: nat)
    ensures Unconfigure(s, id).0.queue == s.queue
  {
  }

  lemma PastAfter(s: Sched, c: Change, n: nat, entry: nat, number: nat)
    requires CanChange(s, c) && Past(s.queue, entry, number) && number < n
    ensures Past(Changed(s, c, n).queue, entry, number)
  {
    hide EnqueueStatus, ServiceRate, Interval, CanServe, Apply;
    match c
    case Unmoved =>
    case Arrival(e, work) =>
    case Service(j) =>
      ServedNumbers(s, j);
      var q := Changed(s, c, n).queue;
      forall x | x in q && x.entry == entry
        ensures number < x.data
      {
        var k :| 0 <= k < |q| && q[k] == x;
        assert s.queue[if k < j then k else k + 1] in s.queue;
      }
    case Addition(id, a) => ConfigureEffect(s, id, a, true);
    case Removal(id) => UnconfigureQueue(s, id);
  }

  lemma OrderedConfigured(s: Sched, id: nat, a: Allocation)
    requires Ordered(s) && NoneQueued(s, id)
    ensures Ordered(Configure(s, id, a, true).0)
  {
    hide RateFor;
    var t := Configure(s, id, a, true).0;
    SameLasts(s, t);
  }

  lemma OrderedUnconfigured(s: Sched, id: nat)
    requires Ordered(s) && NoneQueued(s, id)
    ensures Ordered(Unconfigure(s, id).0)
  {
    hide RateFor, Without;
    var t := Unconfigure(s, id).0;
    SameLasts(s, t);
  }

  // Order is kept where the last finish times of the queued sessions' entries are.
  lemma SameLasts(s: Sched, t: Sched)
    requires Ordered(s) && t.queue == s.queue && t.v == s.v
    requires forall id :: id in t.entries ==> t.entries[id].lastFinish <= U64_MAX
    requires forall x :: x in s.queue ==>
      x.entry in t.entries && x.entry in s.entries && t.entries[x.entry].lastFinish == s.entries[x.entry].lastFinish
    ensures Ordered(t)
  {
  }

  lemma OrderedAfter(s: Sched, c: Change, n: nat)
    requires CanChange(s, c) && Ordered(s)
    ensures Ordered(Changed(s, c, n))
  {
    hide EnqueueStatus, CanServe, Ordered, Configure, Unconfigure, Update, Take, Wfq.Enqueue;
    match c
    case Unmoved =>
    case Arrival(entry, work) => OrderedArrive(s, Arrive(entry, work, n));
    case Service(j) => OrderedServe(s, j);
    case Addition(id, a) => OrderedConfigured(s, id, a);
    case Removal(id) => OrderedUnconfigured(s, id);
  }

  lemma InLineAfter(s: Sched, c: Change, n: nat)
    requires CanChange(s, c) && InLine(s, n)
    ensures InLine(Changed(s, c, n), Count(c, n))
  {
    hide Ordered, Rising, CanChange, Changed;
    OrderedAfter(s, c, n);
    RisingAfter(s, c, n);
  }

  // A session that takes time is served before all later ones of its entry: those left have higher
  // numbers.
  lemma ServedFirst(s: Sched, j: nat, n: nat)
    requires InLine(s, n) && CanServe(s, j) && s.queue[j].start < s.queue[j].finish
    ensures Past(Apply(s, Serve(j)).queue, s.queue[j].entry, s.queue[j].data)
  {
    hide IsBest, Apply;
    FifoPerEntry(s, [], j);
    ServedNumbers(s, j);
    var q := Apply(s, Serve(j)).queue;
    forall x | x in q && x.entry == s.queue[j].entry
      ensures s.queue[j].data < x.data
    {
      var k :| 0 <= k < |q| && q[k] == x;
      var k' := if k < j then k else k + 1;
      assert s.queue[k'].entry == x.entry && s.queue[k'].data == x.data;
    }
  }

  // ---------- One call ----------

  // No session of tenant t is refused or comes to its turn with times clamped to a point, and no flow
  // of it is reconfigured with sessions queued.
  predicate Regular(h: Hier, r: Request, t: nat)
    requires CanHappen(h, r)
  {
    match r
    case DoDequeue(i, j, now) =>
      i.Some? && i.value < |h.system.queue| && h.system.queue[i.value].data == t && t in h.tenants ==>
        && Dequeue(h, i, j, now).1.status == Success
        && j.Some? && j.value < |h.tenants[t].flows.queue|
        && h.tenants[t].flows.queue[j.value].start < h.tenants[t].flows.queue[j.value].finish
    case DoReconfigureFlow(u, f, _) => u == t && t in h.tenants ==> NoneQueued(h.tenants[t].flows, f)
    case _ => true
  }

  // What a call does to the scheduler of tenant t, if the tenant is still there.
  ghost predicate Changes(h: Hier, h': Hier, t: nat, c: Change)
    requires t in h.tenants
  {
    && |h.contexts| <= |h'.contexts| && h.eras <= h'.eras
    && (t in h'.tenants ==>
          && h'.tenants[t].era == h.tenants[t].era && CanChange(h.tenants[t].flows, c)
          && h'.tenants[t].flows == Changed(h.tenants[t].flows, c, |h.contexts|)
          && Count(c, |h.contexts|) <= |h'.contexts|)
  }

  lemma EnqueueChanges(h: Hier, u: nat, f: nat, work: nat, data: nat, timeout: nat, t: nat) returns (c: Change)
    requires t in h.tenants
    ensures Changes(h, Hierarchy.Enqueue(h, u, f, work, data, timeout).0, t, c)
  {
    hide EnqueueStatus, EnqueueAnswer, Wfq.Enqueue, Register;
    c := Unmoved;
    if EnqueueAnswer(h, u, f, work) == Success {
      AnswerMeans(h, u, f, work);
      var x := Context(|h.contexts|, u, h.tenants[u].era, f, work, data, timeout);
      var g := SetTenant(h, u, Submit(h.tenants[u], f, work, x.serial)).(contexts := h.contexts + [x]);
      RegisterLeaves(g, u, t);
      RegisterFlows(g, u, t);
      if u == t {
        c := Arrival(f, work);
      }
    }
  }

  lemma RegisterLeaves(g: Hier, u: nat, t: nat)
    requires u in g.tenants && t in g.tenants
    ensures var g' := Register(g, u);
      g'.contexts == g.contexts && g'.eras == g.eras && t in g'.tenants && g'.tenants[t].era == g.tenants[t].era
  {
    hide EnqueueStatus, Wfq.Enqueue;
  }

  lemma DequeueLeaves(h: Hier, i: Option<nat>, j: Option<nat>, now: nat, t: nat)
    requires MayChoose(h, i, j) && t in h.tenants
    ensures var h' := Dequeue(h, i, j, now).0;
      h'.contexts == h.contexts && h'.eras == h.eras && t in h'.tenants && h'.tenants[t].era == h.tenants[t].era
  {
    hide EnqueueStatus, Wfq.Enqueue, Update, Take, TakeNone, MayChooseFlow, CanServe, CanServeNone;
  }

  lemma DequeueChanges(h: Hier, i: Option<nat>, j: Option<nat>, now: nat, t: nat) returns (c: Change)
    requires Sound(h) && Quiet(h) && MayChoose(h, i, j) && t in h.tenants && Regular(h, DoDequeue(i, j, now), t)
    ensures Changes(h, Dequeue(h, i, j, now).0, t, c)
  {
    hide Sound, Quiet, Dequeue, IsBest, Update, Take, HandOut, PutBack, ServeTenant, ExceedsCapacity, Carries, Apply;
    c := Unmoved;
    DequeueLeaves(h, i, j, now, t);
    var x := DequeueCases(h, i, j, now);
    if i.None? {
      EmptyTake(h);
    } else {
      var u := h.system.queue[i.value].data;
      if ExceedsCapacity(h, x.work) {
        RefusedFlows(h, i.value, j.value, x, t);
      } else if u == t {
        BothLevelsServe(h, i.value, j.value, u, x, now);
        c := Service(j.value);
      } else {
        OtherFlows(h, i.value, j.value, x, now, t);
      }
    }
  }

  lemma LandingLeaves(h: Hier, r: Request, t: nat)
    requires CanHappen(h, r) && t in h.tenants && (r.DoComplete? || r.DoCancel? || r.DoCheckTimeouts?)
    ensures var h' := Next(h, r);
      h'.contexts == h.contexts && h'.eras == h.eras && t in h'.tenants && h'.tenants[t].era == h.tenants[t].era
  {
    hide Find, EnqueueStatus, Wfq.Enqueue, Kept, Expired, Staying, Leaving;
  }

  lemma LandingChanges(h: Hier, r: Request, t: nat)
    requires Sound(h) && Quiet(h) && CanHappen(h, r) && t in h.tenants
    requires r.DoComplete? || r.DoCancel? || r.DoCheckTimeouts?
    ensures Changes(h, Next(h, r), t, Unmoved)
  {
    hide Sound, Quiet, Next, CanHappen;
    SchedulersSame(h, r, t);
    LandingLeaves(h, r, t);
  }

  lemma TenantChanges(h: Hier, r: Request, t: nat)
    requires Sound(h) && CanHappen(h, r) && t in h.tenants
    requires r.DoAddTenant? || r.DoConfigureTenant? || r.DoRemoveTenant?
    ensures Changes(h, Next(h, r), t, Unmoved)
  {
    hide Sound, Configure, Unconfigure, Alloc, Release, WouldExceed, FreeTenant, NewTenant;
    if r.DoAddTenant? && Alloc(h.tenantPool).1.Some? {
      NewIdIsFree(h);
    }
  }

  lemma NewIdIsFree(h: Hier)
    requires Sound(h) && Alloc(h.tenantPool).1.Some?
    ensures Alloc(h.tenantPool).1.value !in h.tenants
  {
    hide Fixed, Moving, AllTimed;
    GivenIdIsFree(h);
  }

  lemma AddFlowChanges(h: Hier, u: nat, a: Allocation, t: nat) returns (c: Change)
    requires Sound(h) && t in h.tenants
    ensures Changes(h, AddFlow(h, u, a).0, t, c)
  {
    hide Configure, Alloc, Release, Sound;
    c := Unmoved;
    if u == t && Alloc(h.tenants[t].pool).1.Some? && AddFlow(h, u, a).0.tenants[t].flows != h.tenants[t].flows {
      var id := Alloc(h.tenants[t].pool).1.value;
      GivenFlowIsNew(h, t);
      c := Addition(id, a);
    }
  }

  lemma GivenFlowIsNew(h: Hier, t: nat)
    requires Sound(h) && t in h.tenants && Alloc(h.tenants[t].pool).1.Some?
    ensures NoneQueued(h.tenants[t].flows, Alloc(h.tenants[t].pool).1.value)
  {
    hide Consistent, Good, Live, SystemOk, LedgerOk, AllTimed, ErasOk, BacklogOk, PlacesOk, AirOk, FlightsOk, Coupled,
         QueueOk, Alloc, ConfigOk;
    assert TenantOk(h.config, h.tenants[t]);
    AllocGivesFresh(h.tenants[t].pool);
    QueueEntries(h, t);
  }

  lemma RemoveFlowChanges(h: Hier, u: nat, f: nat, t: nat) returns (c: Change)
    requires Sound(h) && t in h.tenants
    ensures Changes(h, RemoveFlow(h, u, f).0, t, c)
  {
    hide Unconfigure, Release, Sound;
    c := Unmoved;
    if u == t && RemoveFlow(h, u, f).1 == Success {
      RemoveFlowKeeps(h, t, f);
      c := Removal(f);
    }
  }

  lemma ReconfigureChanges(h: Hier, u: nat, f: nat, a: Allocation, t: nat) returns (c: Change)
    requires t in h.tenants && (u == t ==> NoneQueued(h.tenants[t].flows, f))
    ensures Changes(h, ReconfigureFlow(h, u, f, a).0, t, c)
  {
    hide Configure;
    c := if u == t && ReconfigureFlow(h, u, f, a).0 != h then Addition(f, a) else Unmoved;
  }

  lemma CallChanges(h: Hier, r: Request, t: nat) returns (c: Change)
    requires Sound(h) && Quiet(h) && CanHappen(h, r) && t in h.tenants && Regular(h, r, t)
    ensures Changes(h, Next(h, r), t, c)
  {
    hide Sound, Quiet, MayChoose, Hierarchy.Enqueue, Dequeue, AddFlow, RemoveFlow, ReconfigureFlow, Changes, NoneQueued;
    match r
    case DoEnqueue(u, f, work, data, timeout) => c := EnqueueChanges(h, u, f, work, data, timeout, t);
    case DoDequeue(i, j, now) => c := DequeueChanges(h, i, j, now, t);
    case DoAddFlow(u, a) => c := AddFlowChanges(h, u, a, t);
    case DoRemoveFlow(u, f) => c := RemoveFlowChanges(h, u, f, t);
    case DoReconfigureFlow(u, f, a) => c := ReconfigureChanges(h, u, f, a, t);
    case _ =>
      c := Unmoved;
      if r.DoComplete? || r.DoCancel? || r.DoCheckTimeouts? {
        LandingChanges(h, r, t);
      } else {
        TenantChanges(h, r, t);
      }
  }

  // A tenant that comes has nothing queued, and an era of its own.
  lemma NewcomerIsEmpty(h: Hier, r: Request, t: nat)
    requires CanHappen(h, r) && t !in h.tenants && t in Next(h, r).tenants
    ensures var n := Next(h, r).tenants[t];
      n.flows.queue == [] && InLine(n.flows, |Next(h, r).contexts|) && n.era == h.eras
    ensures Next(h, r).contexts == h.contexts && Next(h, r).eras == h.eras + 1
  {
    if r.DoAddTenant? {
      hide Configure, Alloc, Release, WouldExceed, FreeTenant;
    } else {
      NoNewcomers(h, r);
    }
  }

  lemma NoNewcomers(h: Hier, r: Request)
    requires CanHappen(h, r) && !r.DoAddTenant?
    ensures forall t | t in Next(h, r).tenants :: t in h.tenants
  {
    hide EnqueueStatus, Wfq.Enqueue, Update, Take, TakeNone, MayChooseFlow, CanServe, CanServeNone, Configure,
         Unconfigure, Find, Alloc, Release, WouldExceed, Kept, Expired, Staying, Leaving;
  }

  // ---------- Runs of calls ----------

  ghost predicate AllInLine(h: Hier, t: nat) {
    t in h.tenants ==> InLine(h.tenants[t].flows, |h.contexts|)
  }

  // The sessions of x's flow that are still to be handed out were accepted after x.
  predicate Behind(h: Hier, x: Context) {
    && x.serial < |h.contexts| && x.era < h.eras
    && (Present(h.tenants, x) ==> Past(h.tenants[x.tenant].flows.queue, x.flow, x.serial))
  }

  ghost predicate RegularRun(h: Hier, requests: seq<Request>, t: nat)
    decreases requests
  {
    requests == [] ||
    (CanHappen(h, requests[0]) && Regular(h, requests[0], t) && RegularRun(Next(h, requests[0]), requests[1..], t))
  }

  predicate SameFlow(x: Context, y: Context) {
    (x.tenant, x.era, x.flow) == (y.tenant, y.era, y.flow)
  }

  lemma RisingBelow(q: seq<Session>, n: nat, m: nat)
    requires Rising(q, n) && n <= m
    ensures Rising(q, m)
  {
  }

  lemma NextInLine(h: Hier, r: Request, t: nat)
    requires Sound(h) && Quiet(h) && CanHappen(h, r) && Regular(h, r, t) && AllInLine(h, t)
    ensures AllInLine(Next(h, r), t)
  {
    hide Sound, Quiet, Next, CanHappen, Regular, Ordered, CanChange, Changed, Rising;
    var h' := Next(h, r);
    if t in h'.tenants {
      if t in h.tenants {
        var c := CallChanges(h, r, t);
        var s := h.tenants[t].flows;
        InLineAfter(s, c, |h.contexts|);
        RisingBelow(h'.tenants[t].flows.queue, Count(c, |h.contexts|), |h'.contexts|);
      } else {
        NewcomerIsEmpty(h, r, t);
      }
    }
  }

  lemma NextBehind(h: Hier, r: Request, x: Context)
    requires Sound(h) && Quiet(h) && CanHappen(h, r) && Regular(h, r, x.tenant) && Behind(h, x)
    ensures Behind(Next(h, r), x)
  {
    hide Sound, Quiet, Next, CanHappen, Regular, CanChange, Changed, Past;
    var h', t := Next(h, r), x.tenant;
    if t in h.tenants {
      var c := CallChanges(h, r, t);
      if Present(h'.tenants, x) {
        PastAfter(h.tenants[t].flows, c, |h.contexts|, x.flow, x.serial);
      }
    } else if t in h'.tenants {
      NewcomerIsEmpty(h, r, t);
    } else {
      NothingShrinks(h, r);
    }
  }

  lemma NothingShrinks(h: Hier, r: Request)
    requires CanHappen(h, r)
    ensures |h.contexts| <= |Next(h, r).contexts| && h.eras <= Next(h, r).eras
  {
    hide EnqueueStatus, Wfq.Enqueue, Update, Take, TakeNone, MayChooseFlow, CanServe, CanServeNone, Configure,
         Unconfigure, Find, Alloc, Release, WouldExceed, FreeTenant, Kept, Expired, Staying, Leaving;
  }

  // What a dequeue that succeeds hands out.
  lemma DeliveryIs(h: Hier, i: Option<nat>, j: Option<nat>, now: nat) returns (x: Context)
    requires Sound(h) && Quiet(h) && MayChoose(h, i, j) && Dequeue(h, i, j, now).1.session.Some?
    ensures Dequeue(h, i, j, now).1 == Answer(Success, Some(x))
    ensures i.Some? && j.Some? && i.value < |h.system.queue| && h.system.queue[i.value].data == x.tenant
    ensures Present(h.tenants, x) && x.serial < |h.contexts| && x.era < h.eras
    ensures var s, s' := h.tenants[x.tenant].flows, Dequeue(h, i, j, now).0.tenants;
      && CanServe(s, j.value) && s.queue[j.value].entry == x.flow && s.queue[j.value].data == x.serial
      && x.tenant in s' && s'[x.tenant].flows == Apply(s, Serve(j.value))
  {
    hide Fixed, Moving, AllTimed, Quiet, Dequeue, IsBest, Update, Take, HandOut, PutBack, ServeTenant, ExceedsCapacity,
         Apply, Rejected;
    x := DequeueCases(h, i, j, now);
    if i.Some? {
      var u := h.system.queue[i.value].data;
      ErasBelow(h, u);
      BothLevelsServe(h, i.value, j.value, u, x, now);
    }
  }

  lemma ErasBelow(h: Hier, t: nat)
    requires Sound(h) && t in h.tenants
    ensures h.tenants[t].era < h.eras
  {
    hide Moving, AllTimed, SystemOk, LedgerOk, TenantOk, ConfigOk;
  }

  lemma DeliveredFirst(h: Hier, i: Option<nat>, j: Option<nat>, now: nat, t: nat)
    requires Sound(h) && Quiet(h) && MayChoose(h, i, j) && AllInLine(h, t) && Regular(h, DoDequeue(i, j, now), t)
    requires Dequeue(h, i, j, now).1.session.Some? && Dequeue(h, i, j, now).1.session.value.tenant == t
    ensures Behind(Dequeue(h, i, j, now).0, Dequeue(h, i, j, now).1.session.value)
  {
    hide Sound, Quiet, Dequeue, MayChoose, Apply, CanServe, Ordered, Rising, Past;
    var x := DeliveryIs(h, i, j, now);
    ServedFirst(h.tenants[t].flows, j.value, |h.contexts|);
    hide Next;
    NothingShrinks(h, DoDequeue(i, j, now));
    NextIsDequeue(h, i, j, now);
  }

  lemma NextIsDequeue(h: Hier, i: Option<nat>, j: Option<nat>, now: nat)
    requires MayChoose(h, i, j)
    ensures Next(h, DoDequeue(i, j, now)) == Dequeue(h, i, j, now).0
  {
  }

  predicate AllBehind(d: seq<Context>, x: Context) {
    forall k | 0 <= k < |d| && SameFlow(d[k], x) :: x.serial < d[k].serial
  }

  predicate InOrder(d: seq<Context>, t: nat) {
    forall k, m | 0 <= k < m < |d| && d[k].tenant == t && SameFlow(d[m], d[k]) :: d[k].serial < d[m].serial
  }

  lemma EmptyIsBehind(x: Context)
    ensures AllBehind([], x)
  {
  }

  lemma EmptyInOrder(t: nat)
    ensures InOrder([], t)
  {
  }

  lemma ConsBehind(y: Context, rest: seq<Context>, x: Context)
    requires AllBehind(rest, x) && (SameFlow(y, x) ==> x.serial < y.serial)
    ensures AllBehind([y] + rest, x)
  {
  }

  lemma ConsInOrder(x: Context, rest: seq<Context>, t: nat)
    requires InOrder(rest, t) && (x.tenant == t ==> AllBehind(rest, x))
    ensures InOrder([x] + rest, t)
  {
    var d := [x] + rest;
    forall k, m | 0 <= k < m < |d| && d[k].tenant == t && SameFlow(d[m], d[k])
      ensures d[k].serial < d[m].serial
    {
      assert d[m] == rest[m - 1] && (k > 0 ==> d[k] == rest[k - 1]);
    }
  }

  // What comes after x in its flow was accepted after it.
  lemma {:induction false} RestIsBehind(h: Hier, requests: seq<Request>, x: Context)
    requires Sound(h) && IsConduct(h, requests) && RegularRun(h, requests, x.tenant) && Behind(h, x)
    ensures AllBehind(Deliveries(h, requests), x)
    decreases requests
  {
    hide Sound, Quiet, Next, HierarchyLaws.Fitting, MayChoose, Regular, Dequeue, Behind, AllBehind;
    EmptyIsBehind(x);
    if requests != [] {
      var r := requests[0];
      NextKeeps(h, r);
      NextBehind(h, r, x);
      RestIsBehind(Next(h, r), requests[1..], x);
      var d, rest := Deliveries(h, requests), Deliveries(Next(h, r), requests[1..]);
      if r.DoDequeue? && Dequeue(h, r.i, r.j, r.now).1.session.Some? {
        var y := Dequeue(h, r.i, r.j, r.now).1.session.value;
        DeliveryIsBehind(h, r.i, r.j, r.now, x);
        ConsBehind(y, rest, x);
        assert d == [y] + rest;
      } else {
        assert d == rest;
      }
    }
  }

  lemma DeliveryIsBehind(h: Hier, i: Option<nat>, j: Option<nat>, now: nat, x: Context)
    requires Sound(h) && Quiet(h) && MayChoose(h, i, j) && Behind(h, x)
    requires Dequeue(h, i, j, now).1.session.Some?
    ensures var y := Dequeue(h, i, j, now).1.session.value; SameFlow(y, x) ==> x.serial < y.serial
  {
    hide Sound, Quiet, Dequeue, MayChoose, Apply, IsBest;
    var y := DeliveryIs(h, i, j, now);
    if SameFlow(y, x) {
      assert h.tenants[y.tenant].flows.queue[j.value] in h.tenants[y.tenant].flows.queue;
    }
  }

  // Sessions of a flow are handed out in the order in which they were accepted: over any run of calls,
  // administration among them, in which no session of tenant t is refused, none is chosen with its
  // times clamped to a point, and no flow of the tenant is reconfigured with sessions queued.
  lemma {:induction false} HandedOutInOrder(h: Hier, requests: seq<Request>, t: nat)
    requires Sound(h) && IsConduct(h, requests) && RegularRun(h, requests, t) && AllInLine(h, t)
    ensures InOrder(Deliveries(h, requests), t)
    decreases requests
  {
    hide Sound, Quiet, Next, HierarchyLaws.Fitting, MayChoose, Regular, Dequeue, Behind, AllInLine, AllBehind,
         InOrder;
    EmptyInOrder(t);
    if requests != [] {
      var r := requests[0];
      NextKeeps(h, r);
      NextInLine(h, r, t);
      HandedOutInOrder(Next(h, r), requests[1..], t);
      var d, rest := Deliveries(h, requests), Deliveries(Next(h, r), requests[1..]);
      if r.DoDequeue? && Dequeue(h, r.i, r.j, r.now).1.session.Some? {
        var x := Dequeue(h, r.i, r.j, r.now).1.session.value;
        assert d == [x] + rest;
        if x.tenant == t {
          DeliveredFirst(h, r.i, r.j, r.now, t);
          NextIsDequeue(h, r.i, r.j, r.now);
          RestIsBehind(Next(h, r), requests[1..], x);
        }
        ConsInOrder(x, rest, t);
      } else {
        assert d == rest;
      }
    }
  }

  // In particular from the beginning.
  lemma FlowsInOrder(c: Config, requests: seq<Request>, t: nat)
    requires ConfigOk(c) && IsConduct(Init(c), requests) && RegularRun(Init(c), requests, t)
    ensures var d := Deliveries(Init(c), requests);
      forall k, m | 0 <= k < m < |d| && d[k].tenant == t && SameFlow(d[m], d[k]) :: d[k].serial < d[m].serial
  {
    InitIsSound(c);
    HandedOutInOrder(Init(c), requests, t);
  }

  // ---------- Under the conditions of the delay bound no times are clamped ----------

  predicate Proper(s: Sched) {
    forall x :: x in s.queue ==> x.start < x.finish
  }

  lemma ProperShift(s: Sched, offset: nat)
    requires Proper(s) && offset <= s.v && forall x :: x in s.queue ==> offset < x.finish
    ensures Proper(Shift(s, offset))
  {
    ShiftMembers(s.queue, offset);
  }

  lemma ProperService(s: Sched, j: nat, lmax: nat, longest: map<nat, nat>)
    requires Gentle(s, lmax, longest) && Proper(s) && CanServe(s, j)
    ensures Proper(Apply(s, Serve(j)))
  {
    hide Inv, Ordered, TimeLaws.Leads, MinStart, Delta, IsBest, ChoiceTime;
    var t := Advance(Take(s, j), s.queue[j].work);
    ServeAdvanceKeeps(s, j, lmax);
    RemovedFrom(s.queue, j);
    if t.v >= REBASE_THRESHOLD {
      RebaseClampsNoFinish(t, lmax);
      ProperShift(t, t.v / 2);
    }
  }

  lemma ProperArrival(s: Sched, entry: nat, work: nat, n: nat)
    requires Proper(s) && EnqueueStatus(s, entry, work) == Success && Unsaturated(Wfq.Enqueue(s, entry, work, n))
    ensures Proper(Wfq.Enqueue(s, entry, work, n))
  {
    hide ServiceRate, GroupIndex;
    var s' := Wfq.Enqueue(s, entry, work, n);
    assert NewSession(s, entry, work, n) in s'.queue;
  }

  lemma ProperAfter(s: Sched, c: Change, n: nat, lmax: nat, longest: map<nat, nat>)
    requires CanChange(s, c) && Gentle(s, lmax, longest) && Proper(s) && Unsaturated(Changed(s, c, n))
    ensures Proper(Changed(s, c, n))
  {
    hide EnqueueStatus, CanServe, Gentle, Wfq.Enqueue, Apply, Unsaturated;
    match c
    case Unmoved =>
    case Arrival(entry, work) => ProperArrival(s, entry, work, n);
    case Service(j) => ProperService(s, j, lmax, longest);
    case Addition(id, a) => ConfigureEffect(s, id, a, true);
    case Removal(id) => UnconfigureQueue(s, id);
  }

  lemma GoesIsRegular(h: Hier, r: Request, t: nat, lmax: nat)
    requires Sound(h) && Quiet(h) && CanHappen(h, r) && t in h.tenants && Goes(h, r, t, lmax)
      && Proper(h.tenants[t].flows)
    ensures Regular(h, r, t)
  {
    hide Sound, Quiet, Dequeue, SizedFor;
    if r.DoDequeue? {
      var x := DequeueCases(h, r.i, r.j, r.now);
    }
  }

  lemma {:induction false} GentleIsRegular(h: Hier, requests: seq<Request>, t: nat, lmax: nat, ls: map<nat, nat>,
                                           lf: map<nat, nat>)
    requires Sound(h) && IsConduct(h, requests) && Quiet(Conducted(h, requests))
    requires Proceeds(h, requests, t, lmax, ls, lf) && BothGentle(h, t, lmax, ls, lf) && Proper(h.tenants[t].flows)
    ensures RegularRun(h, requests, t)
    decreases requests
  {
    hide Sound, Next, HierarchyLaws.Fitting, CanHappen, Goes, Unreached, Gentle, QuantumFits, Brief, Regular, Proper,
         CanChange, Changed;
    if requests != [] {
      var r, h1 := requests[0], Next(h, requests[0]);
      NextKeeps(h, r);
      assert Quiet(h1) && Proceeds(h1, requests[1..], t, lmax, ls, lf);
      assert Even(h1, t, ls, lf);
      NextGentle(h, r, t, lmax, ls, lf);
      GoesIsRegular(h, r, t, lmax);
      var c := CallChanges(h, r, t);
      EvenMeans(h1, t, ls, lf);
      ProperAfter(h.tenants[t].flows, c, |h.contexts|, lmax, lf);
      GentleIsRegular(h1, requests[1..], t, lmax, ls, lf);
    }
  }

  // So from an idle tenant, over any run of session calls in which dequeues have room for what they
  // come to, its flows are served in order, whatever rebases there are.
  lemma InOrderWhenGentle(h: Hier, requests: seq<Request>, t: nat, lmax: nat, ls: map<nat, nat>, lf: map<nat, nat>)
    requires Sound(h) && t in h.tenants && QuantumFits(h.system)
    requires Idle(h.system, TENANT_QUANTUM, ls) && Idle(h.tenants[t].flows, lmax, lf)
    requires IsConduct(h, requests) && Quiet(Conducted(h, requests)) && Proceeds(h, requests, t, lmax, ls, lf)
    ensures InOrder(Deliveries(h, requests), t)
  {
    hide Sound, Quiet, Conducted, Proceeds, Gentle, QuantumFits, RegularRun, InOrder;
    IdleIsGentle(h.system, TENANT_QUANTUM, ls);
    IdleIsGentle(h.tenants[t].flows, lmax, lf);
    GentleIsRegular(h, requests, t, lmax, ls, lf);
    HandedOutInOrder(h, requests, t);
  }
}
