/**
 The backlog counters of a tenant and its flows: what they count, and how the calls that move a
 session change both sides alike.
 */
module Backlogs {
  import opened Machine
  import opened Wfq
  import opened Jobs
  import opened Flights
  import opened Hierarchy

  // A key is a flow, or None for all flows of the tenant.
  predicate Counts(key: Option<nat>, flow: nat) {
    key.None? || key.value == flow
  }

  // Queued sessions of a flow.
  function CountJobs(q: seq<Session>, key: Option<nat>): nat {
    if q == [] then 0
    else CountJobs(q[..|q| - 1], key) + if Counts(key, q[|q| - 1].entry) then 1 else 0
  }

  // Sessions of a flow in the era of one tenant.
  function Count(xs: seq<Context>, era: nat, key: Option<nat>): nat {
    if xs == [] then 0
    else
      var x := xs[|xs| - 1];
      Count(xs[..|xs| - 1], era, key) + if x.era == era && Counts(key, x.flow) then 1 else 0
  }

  // The counter for a key.
  function Owed(n: Tenant, key: Option<nat>): nat {
    match key
    case None => n.backlog
    case Some(f) => FlowBacklog(n, f)
  }

  // Every counter is exact: it counts the sessions queued, in flight, and timed out.
  ghost predicate BacklogOk(n: Tenant, airborne: seq<Context>, timedOut: seq<Context>) {
    forall key :: Owed(n, key)
                  == CountJobs(n.flows.queue, key) + Count(airborne, n.era, key) + Count(timedOut, n.era, key)
  }

  // ---------- Queued sessions ----------

  lemma CountJobsAppend(q: seq<Session>, q': seq<Session>, key: Option<nat>)
    requires |q'| == |q| + 1 && q'[..|q|] == q
    ensures CountJobs(q', key) == CountJobs(q, key) + if Counts(key, q'[|q|].entry) then 1 else 0
  {
  }

  lemma {:induction false} CountJobsRemove(q: seq<Session>, k: nat, key: Option<nat>)
    requires k < |q|
    ensures CountJobs(RemoveAt(q, k), key) + (if Counts(key, q[k].entry) then 1 else 0) == CountJobs(q, key)
  {
    if k == |q| - 1 {
      assert RemoveAt(q, k) == q[..k];
    } else {
      var front := q[..|q| - 1];
      CountJobsRemove(front, k, key);
      assert RemoveAt(q, k)[..|q| - 2] == RemoveAt(front, k);
    }
  }

  lemma {:induction false} CountJobsSame(q: seq<Session>, q': seq<Session>, key: Option<nat>)
    requires SameJobs(q, q')
    ensures CountJobs(q', key) == CountJobs(q, key)
  {
    if q != [] {
      assert JobOf(q'[|q| - 1]) == JobOf(q[|q| - 1]);
      CountJobsSame(q[..|q| - 1], q'[..|q| - 1], key);
    }
  }

  lemma {:induction false} CountJobsPositive(q: seq<Session>, k: nat, key: Option<nat>)
    requires k < |q| && Counts(key, q[k].entry)
    ensures CountJobs(q, key) > 0
  {
    if k < |q| - 1 {
      CountJobsPositive(q[..|q| - 1], k, key);
    }
  }

  // ---------- Sessions handed out ----------

  lemma CountAppend(xs: seq<Context>, x: Context, era: nat, key: Option<nat>)
    ensures Count(xs + [x], era, key) == Count(xs, era, key) + if x.era == era && Counts(key, x.flow) then 1 else 0
  {
    assert (xs + [x])[..|xs|] == xs;
  }

  lemma {:induction false} CountConcat(xs: seq<Context>, ys: seq<Context>, era: nat, key: Option<nat>)
    ensures Count(xs + ys, era, key) == Count(xs, era, key) + Count(ys, era, key)
  {
    if ys == [] {
      assert xs + ys == xs;
    } else {
      var front, y := ys[..|ys| - 1], ys[|ys| - 1];
      CountConcat(xs, front, era, key);
      CountAppend(xs + front, y, era, key);
      assert xs + ys == xs + front + [y];
    }
  }

  lemma {:induction false} CountRemove(xs: seq<Context>, k: nat, era: nat, key: Option<nat>)
    requires k < |xs|
    ensures Count(RemoveAt(xs, k), era, key) + (if xs[k].era == era && Counts(key, xs[k].flow) then 1 else 0)
         == Count(xs, era, key)
  {
    if k == |xs| - 1 {
      assert RemoveAt(xs, k) == xs[..k];
    } else {
      var front := xs[..|xs| - 1];
      CountRemove(front, k, era, key);
      assert RemoveAt(xs, k)[..|xs| - 2] == RemoveAt(front, k);
    }
  }

  lemma {:induction false} CountPositive(xs: seq<Context>, k: nat, era: nat, key: Option<nat>)
    requires k < |xs| && xs[k].era == era && Counts(key, xs[k].flow)
    ensures Count(xs, era, key) > 0
  {
    if k < |xs| - 1 {
      CountPositive(xs[..|xs| - 1], k, era, key);
    }
  }

  lemma {:induction false} CountNone(xs: seq<Context>, era: nat, key: Option<nat>)
    requires forall x :: x in xs ==> x.era != era
    ensures Count(xs, era, key) == 0
  {
    if xs != [] {
      CountNone(xs[..|xs| - 1], era, key);
    }
  }

  // A sweep moves sessions from one ledger to the other.
  lemma {:induction false} CountSweep(fs: seq<Flight>, xs: seq<Context>, now: nat, era: nat, key: Option<nat>)
    requires |fs| == |xs|
    ensures Count(Staying(fs, xs, now), era, key) + Count(Leaving(fs, xs, now), era, key) == Count(xs, era, key)
  {
    hide TimedOut;
    if fs != [] {
      var fs', xs', x := fs[..|fs| - 1], xs[..|xs| - 1], xs[|xs| - 1];
      CountSweep(fs', xs', now, era, key);
      if TimedOut(fs[|fs| - 1], now) {
        assert Staying(fs, xs, now) == Staying(fs', xs', now);
        CountAppend(Leaving(fs', xs', now), x, era, key);
      } else {
        assert Leaving(fs, xs, now) == Leaving(fs', xs', now);
        CountAppend(Staying(fs', xs', now), x, era, key);
      }
    }
  }

  // A flow owes no more than its tenant.
  lemma FlowOwesLess(n: Tenant, airborne: seq<Context>, timedOut: seq<Context>, f: nat)
    requires BacklogOk(n, airborne, timedOut)
    ensures FlowBacklog(n, f) <= n.backlog
  {
    assert Owed(n, None) == n.backlog && Owed(n, Some(f)) == FlowBacklog(n, f);
    CountJobsLess(n.flows.queue, f);
    CountLess(airborne, n.era, f);
    CountLess(timedOut, n.era, f);
  }

  lemma {:induction false} CountJobsLess(q: seq<Session>, f: nat)
    ensures CountJobs(q, Some(f)) <= CountJobs(q, None) == |q|
  {
    if q != [] {
      CountJobsLess(q[..|q| - 1], f);
    }
  }

  lemma {:induction false} CountLess(xs: seq<Context>, era: nat, f: nat)
    ensures Count(xs, era, Some(f)) <= Count(xs, era, None)
  {
    if xs != [] {
      CountLess(xs[..|xs| - 1], era, f);
    }
  }

  // ---------- The calls ----------

  lemma SubmitCounts(n: Tenant, airborne: seq<Context>, timedOut: seq<Context>, f: nat, work: nat, serial: nat)
    requires BacklogOk(n, airborne, timedOut) && n.backlog + 1 < 0x1_0000_0000
    requires EnqueueStatus(n.flows, f, work) == Success
    ensures BacklogOk(Submit(n, f, work, serial), airborne, timedOut)
  {
    hide EnqueueStatus, Wfq.Enqueue, SameConfig;
    var n' := Submit(n, f, work, serial);
    FlowOwesLess(n, airborne, timedOut, f);
    EnqueueEffect(n.flows, f, work, serial);
    assert JobOf(n'.flows.queue[|n.flows.queue|]).entry == f;
    forall key
      ensures Owed(n', key)
           == CountJobs(n'.flows.queue, key) + Count(airborne, n'.era, key) + Count(timedOut, n'.era, key)
    {
      assert Owed(n, key) == CountJobs(n.flows.queue, key) + Count(airborne, n.era, key) + Count(timedOut, n.era, key);
      CountJobsAppend(n.flows.queue, n'.flows.queue, key);
    }
  }

  // A session handed out is counted with those in flight instead of those queued.
  lemma HandOutCounts(n: Tenant, n': Tenant, airborne: seq<Context>, timedOut: seq<Context>, j: nat, x: Context)
    requires BacklogOk(n, airborne, timedOut) && j < |n.flows.queue|
    requires x.era == n.era && x.flow == n.flows.queue[j].entry
    requires SameJobs(RemoveAt(n.flows.queue, j), n'.flows.queue)
    requires (n'.backlog, n'.flowBacklog, n'.era) == (n.backlog, n.flowBacklog, n.era)
    ensures BacklogOk(n', airborne + [x], timedOut)
  {
    forall key
      ensures Owed(n', key)
           == CountJobs(n'.flows.queue, key) + Count(airborne + [x], n'.era, key) + Count(timedOut, n'.era, key)
    {
      assert Owed(n', key) == Owed(n, key);
      CountJobsRemove(n.flows.queue, j, key);
      CountJobsSame(RemoveAt(n.flows.queue, j), n'.flows.queue, key);
      CountAppend(airborne, x, n.era, key);
    }
  }

  // A session put back is one of those queued again.
  lemma PutBackCounts(n: Tenant, n': Tenant, airborne: seq<Context>, timedOut: seq<Context>, j: nat)
    requires BacklogOk(n, airborne, timedOut) && j < |n.flows.queue|
    requires |n'.flows.queue| == |n.flows.queue| && n'.flows.queue[..|n.flows.queue| - 1] == RemoveAt(n.flows.queue, j)
    requires JobOf(n'.flows.queue[|n.flows.queue| - 1]) == JobOf(n.flows.queue[j])
    requires (n'.backlog, n'.flowBacklog, n'.era) == (n.backlog, n.flowBacklog, n.era)
    ensures BacklogOk(n', airborne, timedOut)
  {
    forall key
      ensures Owed(n', key)
           == CountJobs(n'.flows.queue, key) + Count(airborne, n'.era, key) + Count(timedOut, n'.era, key)
    {
      assert Owed(n', key) == Owed(n, key);
      CountJobsRemove(n.flows.queue, j, key);
      CountJobsAppend(RemoveAt(n.flows.queue, j), n'.flows.queue, key);
    }
  }

  // A session that lands is counted out, and the counters do not stop at zero.
  lemma CountOutCounts(n: Tenant, airborne: seq<Context>, timedOut: seq<Context>, k: nat)
    requires BacklogOk(n, airborne, timedOut) && k < |airborne|
    requires airborne[k].era == n.era && airborne[k].flow in n.flows.entries
    ensures BacklogOk(CountOut(n, airborne[k].flow), RemoveAt(airborne, k), timedOut)
    ensures n.backlog > 0 && FlowBacklog(n, airborne[k].flow) > 0
  {
    var f := airborne[k].flow;
    var n' := CountOut(n, f);
    CountPositive(airborne, k, n.era, None);
    CountPositive(airborne, k, n.era, Some(f));
    assert Owed(n, None) == n.backlog && Owed(n, Some(f)) == FlowBacklog(n, f);
    forall key
      ensures Owed(n', key)
           == CountJobs(n'.flows.queue, key) + Count(RemoveAt(airborne, k), n'.era, key) + Count(timedOut, n'.era, key)
    {
      assert Owed(n, key) == CountJobs(n.flows.queue, key) + Count(airborne, n.era, key) + Count(timedOut, n.era, key);
      CountRemove(airborne, k, n.era, key);
    }
  }

  // Counting out of a tenant that owes nothing changes no counter.
  lemma CountOutNothing(n: Tenant, airborne: seq<Context>, timedOut: seq<Context>, k: nat)
    requires BacklogOk(n, airborne, timedOut) && k < |airborne| && airborne[k].era != n.era && n.backlog == 0
    ensures BacklogOk(CountOut(n, airborne[k].flow), RemoveAt(airborne, k), timedOut)
  {
    var n' := CountOut(n, airborne[k].flow);
    FlowOwesLess(n, airborne, timedOut, airborne[k].flow);
    forall key
      ensures Owed(n', key)
           == CountJobs(n'.flows.queue, key) + Count(RemoveAt(airborne, k), n'.era, key) + Count(timedOut, n'.era, key)
    {
      assert Owed(n', key) == Owed(n, key);
      CountRemove(airborne, k, n.era, key);
    }
  }

  // Counting a session of another era out of a tenant that owes something makes a counter wrong.
  lemma CountOutWrong(n: Tenant, airborne: seq<Context>, timedOut: seq<Context>, k: nat)
    requires BacklogOk(n, airborne, timedOut) && k < |airborne| && airborne[k].era != n.era && n.backlog > 0
    ensures !BacklogOk(CountOut(n, airborne[k].flow), RemoveAt(airborne, k), timedOut)
  {
    var n' := CountOut(n, airborne[k].flow);
    CountRemove(airborne, k, n.era, None);
    assert Owed(n', None) == Owed(n, None) - 1;
  }

  lemma SweepCounts(n: Tenant, fs: seq<Flight>, airborne: seq<Context>, timedOut: seq<Context>, now: nat)
    requires BacklogOk(n, airborne, timedOut) && |fs| == |airborne|
    ensures BacklogOk(n, Staying(fs, airborne, now), timedOut + Leaving(fs, airborne, now))
  {
    forall key
      ensures Owed(n, key)
           == CountJobs(n.flows.queue, key) + Count(Staying(fs, airborne, now), n.era, key)
              + Count(timedOut + Leaving(fs, airborne, now), n.era, key)
    {
      CountSweep(fs, airborne, now, n.era, key);
      CountConcat(timedOut, Leaving(fs, airborne, now), n.era, key);
    }
  }

  // Sessions of other tenants do not matter.
  lemma OthersAppend(n: Tenant, airborne: seq<Context>, timedOut: seq<Context>, x: Context)
    requires BacklogOk(n, airborne, timedOut) && x.era != n.era
    ensures BacklogOk(n, airborne + [x], timedOut)
  {
    forall key
      ensures Owed(n, key)
           == CountJobs(n.flows.queue, key) + Count(airborne + [x], n.era, key) + Count(timedOut, n.era, key)
    {
      CountAppend(airborne, x, n.era, key);
    }
  }

  lemma OthersRemove(n: Tenant, airborne: seq<Context>, timedOut: seq<Context>, k: nat)
    requires BacklogOk(n, airborne, timedOut) && k < |airborne| && airborne[k].era != n.era
    ensures BacklogOk(n, RemoveAt(airborne, k), timedOut)
  {
    forall key
      ensures Owed(n, key)
           == CountJobs(n.flows.queue, key) + Count(RemoveAt(airborne, k), n.era, key) + Count(timedOut, n.era, key)
    {
      CountRemove(airborne, k, n.era, key);
    }
  }

  // A flow that owes nothing has nothing queued, in flight or timed out.
  lemma NothingOwed(n: Tenant, airborne: seq<Context>, timedOut: seq<Context>, f: nat)
    requires BacklogOk(n, airborne, timedOut) && FlowBacklog(n, f) == 0
    ensures forall i | 0 <= i < |n.flows.queue| :: n.flows.queue[i].entry != f
    ensures forall i | 0 <= i < |airborne| :: !(airborne[i].era == n.era && airborne[i].flow == f)
    ensures forall i | 0 <= i < |timedOut| :: !(timedOut[i].era == n.era && timedOut[i].flow == f)
  {
    assert Owed(n, Some(f)) == 0;
    var key := Some(f);
    forall i | 0 <= i < |n.flows.queue|
      ensures n.flows.queue[i].entry != f
    {
      if n.flows.queue[i].entry == f { CountJobsPositive(n.flows.queue, i, key); }
    }
    forall i | 0 <= i < |airborne|
      ensures !(airborne[i].era == n.era && airborne[i].flow == f)
    {
      if airborne[i].era == n.era && airborne[i].flow == f { CountPositive(airborne, i, n.era, key); }
    }
    forall i | 0 <= i < |timedOut|
      ensures !(timedOut[i].era == n.era && timedOut[i].flow == f)
    {
      if timedOut[i].era == n.era && timedOut[i].flow == f { CountPositive(timedOut, i, n.era, key); }
    }
  }
}
