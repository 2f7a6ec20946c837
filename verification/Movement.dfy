/**
 What a session's way through the scheduler does to the pieces of the state: queues, tickets,
 ledgers and the sessions in flight.
 */
module Movement {
  import opened Machine
  import opened Wfq
  import opened Jobs
  import opened Flights
  import opened Hierarchy
  import opened Backlogs
  import opened Conduct

  // ---------- Queues ----------

  lemma QueueFrame(contexts: seq<Context>, contexts': seq<Context>, t: nat, n: Tenant)
    requires QueueOk(contexts, t, n) && contexts <= contexts'
    ensures QueueOk(contexts', t, n)
  {
    forall i | 0 <= i < |n.flows.queue|
      ensures Carries(contexts', t, n, n.flows.queue[i])
    {
      assert Carries(contexts, t, n, n.flows.queue[i]);
    }
  }

  lemma QueueAppend(contexts: seq<Context>, t: nat, n: Tenant, n': Tenant)
    requires QueueOk(contexts, t, n) && Stays(n, n')
    requires var q, q' := n.flows.queue, n'.flows.queue;
      && |q'| == |q| + 1 && q'[..|q|] == q
      && Carries(contexts, t, n', q'[|q|]) && q'[|q|].data !in Tickets(q)
    ensures QueueOk(contexts, t, n')
    ensures Tickets(n'.flows.queue) == Tickets(n.flows.queue) + {n'.flows.queue[|n.flows.queue|].data}
  {
    var q, q' := n.flows.queue, n'.flows.queue;
    forall i | 0 <= i < |q'|
      ensures Carries(contexts, t, n', q'[i])
    {
      if i < |q| {
        assert q'[i] == q'[..|q|][i] == q[i] && Carries(contexts, t, n, q[i]);
      }
    }
    assert forall i | 0 <= i < |q| :: q'[i] == q'[..|q|][i] == q[i] && q[i].data in Tickets(q);
  }

  lemma StaysEntries(n: Tenant, n': Tenant)
    requires Stays(n, n')
    ensures n'.flows.entries.Keys == n.flows.entries.Keys && n'.era == n.era
  {
  }

  lemma QueueRemove(contexts: seq<Context>, t: nat, n: Tenant, n': Tenant, k: nat)
    requires QueueOk(contexts, t, n) && Stays(n, n') && k < |n.flows.queue|
    requires n'.flows.queue == RemoveAt(n.flows.queue, k)
    ensures QueueOk(contexts, t, n')
    ensures Tickets(n'.flows.queue) == Tickets(n.flows.queue) - {n.flows.queue[k].data}
  {
    hide RemoveAt, SameConfig;
    RemovedIndex(n.flows.queue, k);
    StaysEntries(n, n');
    var q, q' := n.flows.queue, n'.flows.queue;
    forall i | 0 <= i < |q'|
      ensures Carries(contexts, t, n', q'[i])
    {
      assert Carries(contexts, t, n, q[if i < k then i else i + 1]);
    }
    forall d | d in Tickets(q) - {q[k].data}
      ensures d in Tickets(q')
    {
      var i :| 0 <= i < |q| && q[i].data == d;
      assert q'[if i < k then i else i - 1].data == d;
    }
  }

  lemma QueueSame(contexts: seq<Context>, t: nat, n: Tenant, n': Tenant)
    requires QueueOk(contexts, t, n) && Stays(n, n') && SameJobs(n.flows.queue, n'.flows.queue)
    ensures QueueOk(contexts, t, n')
    ensures Tickets(n'.flows.queue) == Tickets(n.flows.queue)
  {
    var q, q' := n.flows.queue, n'.flows.queue;
    forall i | 0 <= i < |q'|
      ensures Carries(contexts, t, n', q'[i]) && q'[i].data == q[i].data
    {
      assert JobOf(q'[i]) == JobOf(q[i]) && Carries(contexts, t, n, q[i]);
    }
    assert forall i | 0 <= i < |q| :: q[i].data == q'[i].data;
  }

  // ---------- Where a session is ----------

  // Whether a session is queued after the sessions of tenant t have moved.
  lemma QueuedAfter(tenants: map<nat, Tenant>, t: nat, n': Tenant, c: Context)
    requires t in tenants && n'.era == tenants[t].era
    ensures Queued(tenants[t := n'], c) ==
      if c.tenant == t && c.era == n'.era then c.serial in Tickets(n'.flows.queue) else Queued(tenants, c)
  {
  }

  // A session in a queue is in no other place.
  lemma QueuedOnly(h: Hier, t: nat, j: nat)
    requires PlacesOk(h) && t in h.tenants && QueueOk(h.contexts, t, h.tenants[t]) && j < |h.tenants[t].flows.queue|
    ensures var x := h.tenants[t].flows.queue[j];
      && x.data < |h.contexts| && Queued(h.tenants, h.contexts[x.data])
      && var c := h.contexts[x.data];
         c !in h.airborne && c !in h.timedOut && c.serial !in h.completed && c.serial !in h.cancelled
  {
    var n := h.tenants[t];
    assert Carries(h.contexts, t, n, n.flows.queue[j]);
    assert Places(h, h.contexts[n.flows.queue[j].data]) == 1;
  }

  // A session in flight is in no other place.
  lemma AirborneOnly(h: Hier, k: nat)
    requires PlacesOk(h) && k < |h.airborne|
    ensures var c := h.airborne[k];
      && c.serial < |h.contexts| && h.contexts[c.serial] == c
      && !Queued(h.tenants, c) && c !in h.timedOut && c.serial !in h.completed && c.serial !in h.cancelled
  {
    var c := h.airborne[k];
    assert Places(h, h.contexts[c.serial]) == 1;
  }

  lemma RecordedFrame(contexts: seq<Context>, contexts': seq<Context>, xs: seq<Context>)
    requires Recorded(contexts, xs) && contexts <= contexts'
    ensures Recorded(contexts', xs)
  {
  }

  lemma RecordedAppend(contexts: seq<Context>, xs: seq<Context>, x: Context)
    requires Recorded(contexts, xs) && x !in xs && x.serial < |contexts| && contexts[x.serial] == x
    ensures Recorded(contexts, xs + [x])
  {
  }

  lemma RecordedRemove(contexts: seq<Context>, xs: seq<Context>, k: nat)
    requires Recorded(contexts, xs) && k < |xs|
    ensures Recorded(contexts, RemoveAt(xs, k))
    ensures forall x :: x in RemoveAt(xs, k) <==> x in xs && x != xs[k]
  {
    var r := RemoveAt(xs, k);
    assert forall i | 0 <= i < |r| :: r[i] == xs[if i < k then i else i + 1];
    forall x | x in xs && x != xs[k]
      ensures x in r
    {
      var i :| 0 <= i < |xs| && xs[i] == x;
      assert r[if i < k then i else i - 1] == x;
    }
  }

  // ---------- Places after each kind of move ----------

  // A session that has not been accepted yet is nowhere.
  lemma NotYet(h: Hier, x: Context)
    requires PlacesOk(h) && x.serial >= |h.contexts|
    ensures x !in h.airborne && x !in h.timedOut && x.serial !in h.completed && x.serial !in h.cancelled
  {
    assert forall k | 0 <= k < |h.airborne| :: h.airborne[k] != x;
    assert forall k | 0 <= k < |h.timedOut| :: h.timedOut[k] != x;
    assert x.serial !in h.completed + h.cancelled;
  }

  lemma QueuedHere(tenants: map<nat, Tenant>, c: Context)
    ensures c.tenant in tenants && tenants[c.tenant].era == c.era ==>
      (Queued(tenants, c) <==> c.serial in Tickets(tenants[c.tenant].flows.queue))
  {
  }

  // A new session is queued, and the places of the others are as they were.
  lemma PlacesAfterEnqueue(h: Hier, h': Hier, t: nat, x: Context)
    requires PlacesOk(h) && Moved(h, h', t)
    requires x.serial == |h.contexts| && x.tenant == t && x.era == h.tenants[t].era < h.eras
    requires h'.contexts == h.contexts + [x]
    requires (h'.airborne, h'.completed, h'.cancelled, h'.timedOut)
      == (h.airborne, h.completed, h.cancelled, h.timedOut)
    requires Tickets(h'.tenants[t].flows.queue) == Tickets(h.tenants[t].flows.queue) + {x.serial}
    ensures PlacesOk(h')
  {
    hide SameConfig, Queued;
    RecordedFrame(h.contexts, h'.contexts, h.airborne);
    RecordedFrame(h.contexts, h'.contexts, h.timedOut);
    NotYet(h, x);
    forall i | 0 <= i < |h'.contexts|
      ensures h'.contexts[i].serial == i && Places(h', h'.contexts[i]) == 1
    {
      var c := h'.contexts[i];
      QueuedAfter(h.tenants, t, h'.tenants[t], c);
      if i < |h.contexts| {
        assert c == h.contexts[i] && Places(h, c) == 1;
        QueuedHere(h.tenants, c);
        assert Queued(h'.tenants, c) == Queued(h.tenants, c);
      }
    }
  }

  // Nothing changes place.
  lemma PlacesSame(h: Hier, h': Hier, t: nat)
    requires PlacesOk(h) && Moved(h, h', t) && h'.contexts == h.contexts
    requires (h'.airborne, h'.completed, h'.cancelled, h'.timedOut)
      == (h.airborne, h.completed, h.cancelled, h.timedOut)
    requires Tickets(h'.tenants[t].flows.queue) == Tickets(h.tenants[t].flows.queue)
    ensures PlacesOk(h')
  {
    hide SameConfig;
    forall i | 0 <= i < |h.contexts|
      ensures Places(h', h.contexts[i]) == 1
    {
      QueuedAfter(h.tenants, t, h'.tenants[t], h.contexts[i]);
      assert Places(h, h.contexts[i]) == 1;
    }
  }

  // A queued session goes up.
  lemma PlacesAfterHandOut(h: Hier, h': Hier, t: nat, j: nat, x: Context)
    requires PlacesOk(h) && Moved(h, h', t) && h'.contexts == h.contexts
    requires QueueOk(h.contexts, t, h.tenants[t]) && j < |h.tenants[t].flows.queue|
    requires h.tenants[t].flows.queue[j].data < |h.contexts| && x == h.contexts[h.tenants[t].flows.queue[j].data]
    requires h'.airborne == h.airborne + [x]
    requires (h'.completed, h'.cancelled, h'.timedOut) == (h.completed, h.cancelled, h.timedOut)
    requires Tickets(h'.tenants[t].flows.queue) == Tickets(h.tenants[t].flows.queue) - {x.serial}
    ensures PlacesOk(h')
  {
    hide SameConfig;
    QueuedOnly(h, t, j);
    assert Carries(h.contexts, t, h.tenants[t], h.tenants[t].flows.queue[j]);
    RecordedAppend(h.contexts, h.airborne, x);
    forall i | 0 <= i < |h.contexts|
      ensures Places(h', h.contexts[i]) == 1
    {
      QueuedAfter(h.tenants, t, h'.tenants[t], h.contexts[i]);
      assert Places(h, h.contexts[i]) == 1;
    }
  }

  // A session in flight lands among the completed or the cancelled.
  lemma PlacesAfterLanding(h: Hier, h': Hier, t: nat, k: nat)
    requires PlacesOk(h) && Moved(h, h', t) && h'.contexts == h.contexts && k < |h.airborne|
    requires h'.airborne == RemoveAt(h.airborne, k) && h'.timedOut == h.timedOut
    requires
      || (h'.completed, h'.cancelled) == (h.completed + {h.airborne[k].serial}, h.cancelled)
      || (h'.completed, h'.cancelled) == (h.completed, h.cancelled + {h.airborne[k].serial})
    requires h'.tenants[t].flows.queue == h.tenants[t].flows.queue
    ensures PlacesOk(h')
  {
    hide SameConfig;
    AirborneOnly(h, k);
    RecordedRemove(h.contexts, h.airborne, k);
    assert forall x | x in h'.completed + h'.cancelled :: x in h.completed + h.cancelled || x == h.airborne[k].serial;
    forall i | 0 <= i < |h.contexts|
      ensures Places(h', h.contexts[i]) == 1
    {
      QueuedAfter(h.tenants, t, h'.tenants[t], h.contexts[i]);
      assert Places(h, h.contexts[i]) == 1;
    }
  }

  // The same when the tenant of the session is not there, and no tenant changes.
  lemma PlacesAfterStrayLanding(h: Hier, h': Hier, k: nat)
    requires PlacesOk(h) && k < |h.airborne| && h'.tenants == h.tenants && h'.eras == h.eras
    requires h'.contexts == h.contexts && h'.airborne == RemoveAt(h.airborne, k) && h'.timedOut == h.timedOut
    requires
      || (h'.completed, h'.cancelled) == (h.completed + {h.airborne[k].serial}, h.cancelled)
      || (h'.completed, h'.cancelled) == (h.completed, h.cancelled + {h.airborne[k].serial})
    ensures PlacesOk(h')
  {
    hide Queued;
    AirborneOnly(h, k);
    RecordedRemove(h.contexts, h.airborne, k);
    assert forall x | x in h'.completed + h'.cancelled :: x in h.completed + h.cancelled || x == h.airborne[k].serial;
    forall i | 0 <= i < |h.contexts|
      ensures Places(h', h.contexts[i]) == 1
    {
      assert Places(h, h.contexts[i]) == 1;
    }
  }

  // ---------- Sweeps ----------

  lemma {:induction false} SweepPairs(fs: seq<Flight>, xs: seq<Context>, now: nat)
    requires |fs| == |xs| && forall k | 0 <= k < |fs| :: Embodies(fs[k], xs[k])
    ensures |Kept(fs, now)| == |Staying(fs, xs, now)| && |Expired(fs, now)| == |Leaving(fs, xs, now)|
    ensures |Kept(fs, now)| + |Expired(fs, now)| == |fs|
    ensures forall k | 0 <= k < |Kept(fs, now)| :: Embodies(Kept(fs, now)[k], Staying(fs, xs, now)[k])
  {
    hide TimedOut, Embodies;
    if fs != [] {
      SweepPairs(fs[..|fs| - 1], xs[..|xs| - 1], now);
    }
  }

  // A sweep splits the sessions in flight.
  lemma {:induction false} SweepSplits(fs: seq<Flight>, xs: seq<Context>, now: nat)
    requires |fs| == |xs| && forall i, j | 0 <= i < j < |xs| :: xs[i] != xs[j]
    ensures forall x :: x in xs <==> x in Staying(fs, xs, now) || x in Leaving(fs, xs, now)
    ensures forall x :: !(x in Staying(fs, xs, now) && x in Leaving(fs, xs, now))
    ensures forall i, j | 0 <= i < j < |Staying(fs, xs, now)| :: Staying(fs, xs, now)[i] != Staying(fs, xs, now)[j]
    ensures forall i, j | 0 <= i < j < |Leaving(fs, xs, now)| :: Leaving(fs, xs, now)[i] != Leaving(fs, xs, now)[j]
  {
    hide TimedOut;
    if fs != [] {
      var front, x := xs[..|xs| - 1], xs[|xs| - 1];
      SweepSplits(fs[..|fs| - 1], front, now);
      assert xs == front + [x] && x !in front;
    }
  }

  lemma SweepRecorded(contexts: seq<Context>, xs: seq<Context>, up: seq<Context>)
    requires Recorded(contexts, xs) && (forall x | x in up :: x in xs)
    requires forall i, j | 0 <= i < j < |up| :: up[i] != up[j]
    ensures Recorded(contexts, up)
  {
    forall k | 0 <= k < |up|
      ensures up[k].serial < |contexts| && contexts[up[k].serial] == up[k]
    {
      assert up[k] in xs;
    }
  }

  lemma RecordedConcat(contexts: seq<Context>, xs: seq<Context>, ys: seq<Context>)
    requires Recorded(contexts, xs) && Recorded(contexts, ys) && forall y | y in ys :: y !in xs
    ensures Recorded(contexts, xs + ys)
  {
    var zs := xs + ys;
    forall i, j | 0 <= i < j < |zs|
      ensures zs[i] != zs[j]
    {
      if i < |xs| <= j {
        assert ys[j - |xs|] in ys && xs[i] in xs;
      }
    }
  }

  lemma SweepLedgers(h: Hier, now: nat)
    requires PlacesOk(h) && |h.inFlight| == |h.airborne|
    ensures var h' := CheckTimeouts(h, now);
      && Recorded(h.contexts, h'.airborne) && Recorded(h.contexts, h'.timedOut)
      && (forall x :: x in h.airborne <==> x in h'.airborne || (x in h'.timedOut && x !in h.timedOut))
      && (forall x :: x in h'.timedOut ==> x !in h'.airborne || x in h.timedOut)
      && (forall x | x in h.timedOut :: x in h'.timedOut)
  {
    hide TimedOut, Staying, Leaving, Places;
    var down := Leaving(h.inFlight, h.airborne, now);
    SweepSplits(h.inFlight, h.airborne, now);
    forall x | x in down
      ensures x !in h.timedOut
    {
      var k :| 0 <= k < |h.airborne| && h.airborne[k] == x;
      AirborneOnly(h, k);
    }
    SweepRecorded(h.contexts, h.airborne, Staying(h.inFlight, h.airborne, now));
    SweepRecorded(h.contexts, h.airborne, down);
    RecordedConcat(h.contexts, h.timedOut, down);
  }

  lemma PlacesAfterSweep(h: Hier, now: nat)
    requires PlacesOk(h) && |h.inFlight| == |h.airborne|
    ensures PlacesOk(CheckTimeouts(h, now))
  {
    hide TimedOut, Staying, Leaving, Recorded, Queued;
    SweepLedgers(h, now);
    var h' := CheckTimeouts(h, now);
    forall i | 0 <= i < |h.contexts|
      ensures Places(h', h.contexts[i]) == 1
    {
      assert Places(h, h.contexts[i]) == 1;
    }
  }
}
