/**
 What holds of virtual time and of the order of service in every run of the single-level
 scheduler, whatever the configuration and the sizes of the sessions.
 */
module TimeLaws {
  import opened Machine
  import opened Wfq
  import opened Lateness

  // ---------- The invariant of every run ----------

  ghost predicate Ordered(s: Sched) {
    && s.v <= U64_MAX
    && (forall id :: id in s.entries ==> s.entries[id].lastFinish <= U64_MAX)
    && Chained(s.queue, Lasts(s))
  }

  lemma OrderedArrive(s: Sched, e: Event)
    requires Ordered(s) && Enabled(s, e) && e.Arrive?
    ensures Ordered(Apply(s, e))
  {
    ArriveFrame(s, e);
    ChainedAppend(s.queue, Lasts(s), NewSession(s, e.entry, e.work, e.data));
  }

  lemma OrderedTake(s: Sched, i: nat, v': nat)
    requires Ordered(s) && i < |s.queue| && v' <= U64_MAX
    ensures Ordered(s.(v := v', queue := RemoveAt(s.queue, i)))
  {
    assert Lasts(s.(v := v', queue := RemoveAt(s.queue, i))) == Lasts(s);
    ChainedRemove(s.queue, Lasts(s), i);
  }

  lemma OrderedShift(s: Sched, offset: nat)
    requires Ordered(s) && offset <= s.v
    ensures Ordered(Shift(s, offset))
  {
    ShiftFrame(s, offset);
    ChainedShift(s.queue, Lasts(s), Lasts(Shift(s, offset)), offset);
  }

  lemma OrderedServe(s: Sched, i: nat)
    requires Ordered(s) && CanServe(s, i)
    ensures Ordered(Take(s, i)) && Ordered(Advance(Take(s, i), s.queue[i].work))
    ensures Ordered(Update(Take(s, i), s.queue[i].work))
  {
    var advanced := Advance(Take(s, i), s.queue[i].work);
    MinStartIsLeast(s.queue);
    OrderedTake(s, i, ChoiceTime(s));
    MinStartIsLeast(advanced.queue);
    OrderedTake(s, i, advanced.v);
    assert advanced == s.(v := advanced.v, queue := RemoveAt(s.queue, i));
    OrderedShift(advanced, advanced.v / 2);
  }

  lemma {:induction false} OrderedRun(s: Sched, events: seq<Event>)
    requires Ordered(s) && IsRun(s, events)
    ensures Ordered(Run(s, events))
    decreases events
  {
    if events != [] {
      match events[0] {
        case Arrive(_, _, _) => OrderedArrive(s, events[0]);
        case Serve(i) => OrderedServe(s, i);
      }
      OrderedRun(Apply(s, events[0]), events[1..]);
    }
  }

  // ---------- First in, first out ----------

  // Sessions of one entry leave in the order in which they arrived. The exception is a session
  // whose start and finish coincide; only rebasing and saturation make such sessions.
  lemma FifoPerEntry(s: Sched, events: seq<Event>, i: nat)
    requires Ordered(s) && IsRun(s, events)
    requires CanServe(Run(s, events), i)
    ensures var q := Run(s, events).queue;
      q[i].start < q[i].finish ==> forall j | 0 <= j < i :: q[j].entry != q[i].entry
  {
    OrderedRun(s, events);
    var t := Run(s, events);
    forall j | 0 <= j < i && t.queue[j].entry == t.queue[i].entry
      ensures t.queue[i].start >= t.queue[i].finish
    {
      assert t.queue[j] in t.queue && t.queue[i] in t.queue;
      assert Eligible(t.queue[j], ChoiceTime(t));
    }
  }

  // An earlier session of the same entry, queued at j, that may leave as well and takes no virtual
  // time to tell from the later one at i.
  predicate Coincides(s: Sched, j: nat, i: nat)
    requires j < i < |s.queue|
  {
    && s.queue[j].entry == s.queue[i].entry && CanServe(s, j)
    && s.queue[j].finish == s.queue[i].start == s.queue[i].finish <= ChoiceTime(s)
  }

  // Exactly when a scan may answer a session before an earlier one of its entry.
  lemma OvertakesExactly(s: Sched, events: seq<Event>, i: nat)
    requires Ordered(s) && IsRun(s, events) && i < |Run(s, events).queue|
    ensures var t := Run(s, events);
      CanServe(t, i) && (exists j | 0 <= j < i :: t.queue[j].entry == t.queue[i].entry)
      <==> exists j | 0 <= j < i :: Coincides(t, j, i)
  {
    OrderedRun(s, events);
    var t := Run(s, events);
    forall j | 0 <= j < i && t.queue[j].entry == t.queue[i].entry
      ensures CanServe(t, i) ==> Coincides(t, j, i)
      ensures Coincides(t, j, i) ==> CanServe(t, i)
    {
      assert t.queue[j] in t.queue && t.queue[i] in t.queue;
      assert t.queue[j].start <= t.queue[j].finish <= t.queue[i].start <= t.queue[i].finish;
    }
  }

  // ---------- One-interval lead ----------

  // No session starts more than its entry's longest interval ahead of virtual time, unless an
  // earlier session of its entry is still queued and reaches up to it.
  ghost predicate Leads(s: Sched, longest: map<nat, nat>) {
    && (forall id :: id in s.entries ==> id in longest)
    && (forall x :: x in s.queue ==>
          x.entry in s.entries && x.interval <= longest[x.entry] && x.finish <= x.start + x.interval)
    && (forall i | 0 <= i < |s.queue| :: HeadLeads(s, longest, i))
    && (forall id :: id in s.entries ==> LastLeads(s, longest, id))
  }

  ghost predicate HeadLeads(s: Sched, longest: map<nat, nat>, i: nat)
    requires i < |s.queue| && s.queue[i].entry in longest
  {
    || s.queue[i].start <= s.v + longest[s.queue[i].entry]
    || exists j :: 0 <= j < i && s.queue[j].entry == s.queue[i].entry && s.queue[i].start <= s.queue[j].finish
  }

  ghost predicate LastLeads(s: Sched, longest: map<nat, nat>, id: nat)
    requires id in s.entries && id in longest
  {
    || s.entries[id].lastFinish <= s.v + longest[id]
    || exists j :: 0 <= j < |s.queue| && s.queue[j].entry == id && s.entries[id].lastFinish <= s.queue[j].finish
  }

  lemma LeadsArrive(s: Sched, e: Event, longest: map<nat, nat>)
    requires Leads(s, longest) && Enabled(s, e) && e.Arrive?
    requires NewSession(s, e.entry, e.work, e.data).interval <= longest[e.entry]
    ensures Leads(Apply(s, e), longest)
  {
    var s' := Apply(s, e);
    var x := NewSession(s, e.entry, e.work, e.data);
    var n := |s.queue|;
    assert s'.queue == s.queue + [x];
    forall i | 0 <= i < |s'.queue|
      ensures HeadLeads(s', longest, i)
    {
      if i < n {
        assert HeadLeads(s, longest, i);
        if j :| 0 <= j < i && s.queue[j].entry == s.queue[i].entry && s.queue[i].start <= s.queue[j].finish {
          assert s'.queue[j] == s.queue[j];
        }
      } else {
        assert LastLeads(s, longest, e.entry);
        if j :| 0 <= j < n && s.queue[j].entry == e.entry && s.entries[e.entry].lastFinish <= s.queue[j].finish {
          assert s'.queue[j] == s.queue[j];
        }
      }
    }
    forall id | id in s'.entries
      ensures LastLeads(s', longest, id)
    {
      if id == e.entry {
        assert s'.queue[n] == x;
      } else {
        assert LastLeads(s, longest, id);
        if j :| 0 <= j < n && s.queue[j].entry == id && s.entries[id].lastFinish <= s.queue[j].finish {
          assert s'.queue[j] == s.queue[j];
        }
      }
    }
  }

  // Position of what was at j before position i was removed.
  function Slid(j: nat, i: nat): nat
    requires j != i
  {
    if j < i then j else j - 1
  }

  lemma LeadsTake(s: Sched, i: nat, longest: map<nat, nat>, v': nat)
    requires Leads(s, longest) && i < |s.queue|
    requires s.queue[i].start <= v' && s.v <= v'
    ensures Leads(s.(v := v', queue := RemoveAt(s.queue, i)), longest)
  {
    var x := s.queue[i];
    var s' := s.(v := v', queue := RemoveAt(s.queue, i));
    assert x in s.queue && x.finish <= v' + longest[x.entry];
    RemovedFrom(s.queue, i);
    forall k | 0 <= k < |s'.queue|
      ensures HeadLeads(s', longest, k)
    {
      var oldK := if k < i then k else k + 1;
      assert s'.queue[k] == s.queue[oldK];
      assert HeadLeads(s, longest, oldK);
      if j :| 0 <= j < oldK && s.queue[j].entry == s.queue[oldK].entry && s.queue[oldK].start <= s.queue[j].finish {
        if j != i {
          assert s'.queue[Slid(j, i)] == s.queue[j];
        }
      }
    }
    forall id | id in s'.entries
      ensures LastLeads(s', longest, id)
    {
      assert LastLeads(s, longest, id);
      if j :| 0 <= j < |s.queue| && s.queue[j].entry == id && s.entries[id].lastFinish <= s.queue[j].finish {
        if j != i {
          assert s'.queue[Slid(j, i)] == s.queue[j];
        }
      }
    }
  }

  lemma LeadsShift(s: Sched, offset: nat, longest: map<nat, nat>)
    requires Leads(s, longest) && offset <= s.v
    ensures Leads(Shift(s, offset), longest)
  {
    var s' := Shift(s, offset);
    forall x | x in s'.queue
      ensures x.entry in s.entries && x.interval <= longest[x.entry] && x.finish <= x.start + x.interval
    {
      var k :| 0 <= k < |s'.queue| && s'.queue[k] == x;
      assert s.queue[k] in s.queue;
    }
    forall i | 0 <= i < |s'.queue|
      ensures HeadLeads(s', longest, i)
    {
      assert HeadLeads(s, longest, i);
      if j :| 0 <= j < i && s.queue[j].entry == s.queue[i].entry && s.queue[i].start <= s.queue[j].finish {
        assert s'.queue[j] == ShiftSession(s.queue[j], offset);
      }
    }
    forall id | id in s'.entries
      ensures LastLeads(s', longest, id)
    {
      assert LastLeads(s, longest, id);
      if j :| 0 <= j < |s.queue| && s.queue[j].entry == id && s.entries[id].lastFinish <= s.queue[j].finish {
        assert s'.queue[j] == ShiftSession(s.queue[j], offset);
      }
    }
  }

  lemma LeadsServe(s: Sched, i: nat, longest: map<nat, nat>)
    requires Ordered(s) && Leads(s, longest) && CanServe(s, i)
    ensures Leads(Update(Take(s, i), s.queue[i].work), longest)
  {
    var advanced := Advance(Take(s, i), s.queue[i].work);
    MinStartIsLeast(s.queue);
    MinStartIsLeast(advanced.queue);
    LeadsTake(s, i, longest, advanced.v);
    assert advanced == s.(v := advanced.v, queue := RemoveAt(s.queue, i));
    LeadsShift(advanced, advanced.v / 2, longest);
  }

  // longest bounds the interval of every session that arrives in the run.
  ghost predicate IntervalsWithin(s: Sched, events: seq<Event>, longest: map<nat, nat>)
    requires IsRun(s, events)
    decreases events
  {
    events == [] ||
    (&& (var e := events[0];
         e.Arrive? ==> e.entry in longest && NewSession(s, e.entry, e.work, e.data).interval <= longest[e.entry])
     && IntervalsWithin(Apply(s, events[0]), events[1..], longest))
  }

  lemma {:induction false} LeadsRun(s: Sched, events: seq<Event>, longest: map<nat, nat>)
    requires Ordered(s) && Leads(s, longest) && IsRun(s, events) && IntervalsWithin(s, events, longest)
    ensures Leads(Run(s, events), longest)
    decreases events
  {
    if events != [] {
      match events[0] {
        case Arrive(_, _, _) =>
          LeadsArrive(s, events[0], longest);
          OrderedArrive(s, events[0]);
        case Serve(i) =>
          LeadsServe(s, i, longest);
          OrderedServe(s, i);
      }
      LeadsRun(Apply(s, events[0]), events[1..], longest);
    }
  }

  // In every run the first queued session of an entry starts at most the entry's longest interval
  // ahead of virtual time, and an entry with nothing queued has a last finish time that is at most
  // that far ahead.
  lemma OneIntervalLead(s: Sched, events: seq<Event>, longest: map<nat, nat>)
    requires Ordered(s) && s.queue == [] && IsRun(s, events) && IntervalsWithin(s, events, longest)
    requires forall id :: id in s.entries ==> id in longest && s.entries[id].lastFinish <= s.v + longest[id]
    ensures var t := Run(s, events);
      && (forall i | 0 <= i < |t.queue| && (forall j | 0 <= j < i :: t.queue[j].entry != t.queue[i].entry) ::
            t.queue[i].entry in longest && t.queue[i].start <= t.v + longest[t.queue[i].entry])
      && (forall id | id in t.entries && (forall x | x in t.queue :: x.entry != id) ::
            id in longest && t.entries[id].lastFinish <= t.v + longest[id])
  {
    forall id | id in s.entries
      ensures LastLeads(s, longest, id)
    {
    }
    LeadsRun(s, events, longest);
    var t := Run(s, events);
    forall i | 0 <= i < |t.queue| && (forall j | 0 <= j < i :: t.queue[j].entry != t.queue[i].entry)
      ensures t.queue[i].entry in longest && t.queue[i].start <= t.v + longest[t.queue[i].entry]
    {
      assert t.queue[i] in t.queue && HeadLeads(t, longest, i);
    }
    forall id | id in t.entries && (forall x | x in t.queue :: x.entry != id)
      ensures id in longest && t.entries[id].lastFinish <= t.v + longest[id]
    {
      assert LastLeads(t, longest, id);
      assert forall j | 0 <= j < |t.queue| :: t.queue[j] in t.queue;
    }
  }
}
