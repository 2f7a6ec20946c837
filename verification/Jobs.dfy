/**
 What the calls of the single-level scheduler leave alone: the identities of the queued sessions,
 which rebasing does not touch, and the configuration, which queueing does not touch.
 */
module Jobs {
  import opened Machine
  import opened Wfq
  import opened Lateness
  import opened Rates
  import opened Rebasing

  datatype Job = Job(entry: nat, work: nat, data: nat)

  function JobOf(x: Session): Job {
    Job(x.entry, x.work, x.data)
  }

  predicate SameJobs(q: seq<Session>, q': seq<Session>) {
    |q| == |q'| && forall i | 0 <= i < |q| :: JobOf(q'[i]) == JobOf(q[i])
  }

  predicate SameConfig(s: Sched, t: Sched) {
    && (t.capacity, t.maxEntries, t.groups, t.order, t.totalWeight, t.allocatedRate)
       == (s.capacity, s.maxEntries, s.groups, s.order, s.totalWeight, s.allocatedRate)
    && t.entries.Keys == s.entries.Keys
    && forall id | id in s.entries ::
         t.entries[id].allocation == s.entries[id].allocation
         && t.entries[id].calculatedRate == s.entries[id].calculatedRate
  }

  lemma SameConfigTrans(s: Sched, t: Sched, u: Sched)
    requires SameConfig(s, t) && SameConfig(t, u)
    ensures SameConfig(s, u)
  {
  }

  lemma SameConfigConsistent(s: Sched, t: Sched)
    requires SameConfig(s, t) && Consistent(s)
    ensures Consistent(t)
  {
    hide RateFor, Total;
    assert RatesOf(t.entries) == RatesOf(s.entries);
    assert WeightsOf(t.entries) == WeightsOf(s.entries);
  }

  lemma EnqueueEffect(s: Sched, id: nat, work: nat, data: nat)
    requires EnqueueStatus(s, id, work) == Success
    ensures var t := Enqueue(s, id, work, data);
      && |t.queue| == |s.queue| + 1 && t.queue[..|s.queue|] == s.queue
      && JobOf(t.queue[|s.queue|]) == Job(id, work, data)
      && SameConfig(s, t)
  {
    hide ServiceRate, GroupIndex, Interval;
  }

  lemma UpdateEffect(s: Sched, work: nat)
    ensures SameJobs(s.queue, Update(s, work).queue) && SameConfig(s, Update(s, work))
  {
    hide Delta, MinStart;
  }

  lemma ConfigureEffect(s: Sched, id: nat, a: Allocation, stored: bool)
    ensures var (t, status) := Configure(s, id, a, stored);
      && t.queue == s.queue
      && (t.capacity, t.maxEntries, t.groups) == (s.capacity, s.maxEntries, s.groups)
      && (status == Success ==>
            && t.entries.Keys == s.entries.Keys + {id}
            && t.entries[id].allocation == a
            && (forall k | k in s.entries && k != id :: t.entries[k].allocation == s.entries[k].allocation)
            && t.order == if id in s.entries then s.order else [id] + s.order)
  {
    hide RateFor;
  }

  lemma UnconfigureEffect(s: Sched, id: nat)
    requires id in s.entries && id < s.maxEntries
    ensures var t := Unconfigure(s, id).0;
      && t.queue == s.queue
      && (t.capacity, t.maxEntries, t.groups) == (s.capacity, s.maxEntries, s.groups)
      && t.entries.Keys == s.entries.Keys - {id}
      && (forall k | k in t.entries :: t.entries[k].allocation == s.entries[k].allocation)
      && t.order == Without(s.order, id)
  {
    hide RateFor;
  }

  // With the default number of groups a session of a configured entry is always accepted.
  lemma Enqueueable(s: Sched, id: nat, work: nat)
    requires Consistent(s) && s.groups >= 16 && id in s.entries && id < s.maxEntries && work > 0
    ensures EnqueueStatus(s, id, work) == Success
  {
    WeightIsCounted(s, id);
  }

  lemma WeightIsCounted(s: Sched, id: nat)
    requires Consistent(s) && id in s.entries
    ensures ServiceRate(s, s.entries[id]) != 0
  {
    TotalMember(s.order, WeightsOf(s.entries), id);
  }

  // ---------- Every sequence of calls ----------

  // No configuration wraps a total.
  predicate NoneWraps(s: Sched, calls: seq<Call>)
    requires AreCalls(s, calls)
    decreases calls
  {
    calls == [] ||
    ((calls[0].ConfigureEntry? ==> NoWrap(s, calls[0].allocation)) && NoneWraps(After(s, calls[0]), calls[1..]))
  }

  lemma AfterKeepsConsistent(s: Sched, c: Call)
    requires Consistent(s) && Possible(s, c) && (c.ConfigureEntry? ==> NoWrap(s, c.allocation))
    ensures Consistent(After(s, c))
  {
    hide Consistent, Configure, Unconfigure, Update, EnqueueStatus, NoWrap, Wfq.Enqueue, IsBest;
    match c
    case ConfigureEntry(id, a, stored) => ConfigureKeeps(s, id, a, stored);
    case RemoveEntry(id) => UnconfigureKeeps(s, id);
    case EnqueueSession(id, work, data) =>
      if EnqueueStatus(s, id, work) == Success {
        EnqueueEffect(s, id, work, data);
        SameConfigConsistent(s, Wfq.Enqueue(s, id, work, data));
      }
    case UpdateTime(work) =>
      UpdateEffect(s, work);
      SameConfigConsistent(s, Update(s, work));
    case _ =>
      SameConfigConsistent(s, After(s, c));
  }

  // Over every sequence of calls the configured list is exact, the totals are its sums, and the
  // stored rate of every entry is the one its allocation comes to now.
  lemma {:induction false} AlwaysConsistent(s: Sched, calls: seq<Call>)
    requires Consistent(s) && AreCalls(s, calls) && NoneWraps(s, calls)
    ensures Consistent(AfterAll(s, calls))
    decreases calls
  {
    hide Consistent, After, Possible, NoWrap;
    if calls != [] {
      AfterKeepsConsistent(s, calls[0]);
      AlwaysConsistent(After(s, calls[0]), calls[1..]);
    }
  }
}
