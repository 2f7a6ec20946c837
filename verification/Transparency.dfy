/**
 Rebases make no difference to what a scheduler does, however often and whenever they happen:
 schedulers whose times are alike, counted from their virtual time, stay alike for ever.
 */
module Transparency {
  import opened Machine
  import opened Wfq
  import opened Lateness
  import opened Rates
  import opened Rebasing
  import opened Jobs
  import opened Proportional

  // No time has saturated.
  ghost predicate Clear(s: Sched) {
    && s.v <= U64_MAX
    && (forall id | id in s.entries :: s.entries[id].lastFinish <= U64_MAX)
    && forall x :: x in s.queue ==> x.start <= x.finish < U64_MAX
  }

  // The same session, as seen from virtual times v and w: a start that has been reached is as good
  // as any other.
  predicate AlikeSession(x: Session, v: nat, y: Session, w: nat) {
    && JobOf(x) == JobOf(y) && x.interval == y.interval
    && Minus(x.start, v) == Minus(y.start, w)
    && x.finish - v == y.finish - w
  }

  ghost predicate AlikeQueue(p: seq<Session>, v: nat, q: seq<Session>, w: nat) {
    |p| == |q| && forall i | 0 <= i < |p| :: AlikeSession(p[i], v, q[i], w)
  }

  ghost predicate AlikeEntries(s: Sched, t: Sched) {
    SameConfig(s, t)
    && forall id | id in s.entries :: Minus(s.entries[id].lastFinish, s.v) == Minus(t.entries[id].lastFinish, t.v)
  }

  ghost predicate Alike(s: Sched, t: Sched) {
    AlikeEntries(s, t) && AlikeQueue(s.queue, s.v, t.queue, t.v)
  }

  lemma AlikeSymmetric(s: Sched, t: Sched)
    requires Alike(s, t)
    ensures Alike(t, s)
  {
  }

  lemma AlikeTransitive(s: Sched, t: Sched, u: Sched)
    requires Alike(s, t) && Alike(t, u)
    ensures Alike(s, u)
  {
  }

  // Moving all times down makes no difference as long as no finish time is clamped.
  lemma ShiftAlike(s: Sched, offset: nat)
    requires offset <= s.v && forall x :: x in s.queue ==> offset <= x.finish
    ensures Alike(s, Shift(s, offset))
  {
    var t := Shift(s, offset);
    forall i | 0 <= i < |s.queue|
      ensures AlikeSession(s.queue[i], s.v, t.queue[i], t.v)
    {
      assert s.queue[i] in s.queue;
    }
  }

  // ---------- Arrivals ----------

  lemma AlikeServiceRate(s: Sched, t: Sched, id: nat)
    requires SameConfig(s, t) && id in s.entries
    ensures ServiceRate(t, t.entries[id]) == ServiceRate(s, s.entries[id])
  {
    hide RateFor;
  }

  lemma AlikeArrive(s: Sched, t: Sched, e: Event)
    requires Alike(s, t) && e.Arrive?
    ensures Enabled(s, e) <==> Enabled(t, e)
    ensures Enabled(s, e) && NewSession(s, e.entry, e.work, e.data).finish < U64_MAX
            && NewSession(t, e.entry, e.work, e.data).finish < U64_MAX ==>
      Alike(Apply(s, e), Apply(t, e))
  {
    hide ServiceRate, Interval, GroupIndex;
    if e.entry in s.entries {
      AlikeServiceRate(s, t, e.entry);
    }
    if Enabled(s, e) {
      var x, y := NewSession(s, e.entry, e.work, e.data), NewSession(t, e.entry, e.work, e.data);
      if x.finish < U64_MAX && y.finish < U64_MAX {
        assert AlikeSession(x, s.v, y, t.v);
      }
    }
  }

  // ---------- Choices ----------

  // The least starts are alike, as far as virtual time has not reached them.
  lemma AlikeMinStart(p: seq<Session>, v: nat, q: seq<Session>, w: nat)
    requires AlikeQueue(p, v, q, w) && p != []
    requires (forall x :: x in p ==> x.start < U64_MAX) && forall y :: y in q ==> y.start < U64_MAX
    ensures Minus(MinStart(p), v) == Minus(MinStart(q), w)
  {
    MinStartIsLeast(p);
    MinStartIsLeast(q);
    assert p[0] in p && q[0] in q;
    var i :| 0 <= i < |p| && p[i].start == MinStart(p);
    var j :| 0 <= j < |q| && q[j].start == MinStart(q);
    assert AlikeSession(p[i], v, q[i], w) && AlikeSession(p[j], v, q[j], w);
    assert q[i] in q && p[j] in p;
  }

  lemma AlikeChoiceTime(s: Sched, t: Sched)
    requires Alike(s, t) && Clear(s) && Clear(t)
    ensures ChoiceTime(s) - s.v == ChoiceTime(t) - t.v >= 0
  {
    MinStartIsLeast(s.queue);
    MinStartIsLeast(t.queue);
    if s.queue != [] {
      AlikeMinStart(s.queue, s.v, t.queue, t.v);
      assert s.queue[0] in s.queue && t.queue[0] in t.queue;
      AnyAlike(s.queue, s.v, t.queue, t.v);
    }
  }

  lemma AnyAlike(p: seq<Session>, v: nat, q: seq<Session>, w: nat)
    requires AlikeQueue(p, v, q, w)
    requires (forall x :: x in p ==> x.finish < U64_MAX) && forall y :: y in q ==> y.finish < U64_MAX
    ensures AnyEligible(p, v) <==> AnyEligible(q, w)
  {
    if x :| x in p && Eligible(x, v) {
      var i :| 0 <= i < |p| && p[i] == x;
      assert AlikeSession(p[i], v, q[i], w) && q[i] in q;
      assert Eligible(q[i], w);
    }
    if y :| y in q && Eligible(y, w) {
      var i :| 0 <= i < |q| && q[i] == y;
      assert AlikeSession(p[i], v, q[i], w) && p[i] in p;
      assert Eligible(p[i], v);
    }
  }

  // Alike schedulers at virtual times moved on by the same amount.
  lemma AlikeLater(s: Sched, t: Sched, v: nat, w: nat)
    requires Alike(s, t) && v >= s.v && v - s.v == w - t.v
    ensures Alike(s.(v := v), t.(v := w))
  {
    forall i | 0 <= i < |s.queue|
      ensures AlikeSession(s.queue[i], v, t.queue[i], w)
    {
      assert AlikeSession(s.queue[i], s.v, t.queue[i], t.v);
    }
  }

  lemma AlikeCanServe(s: Sched, t: Sched, i: nat)
    requires Alike(s, t) && Clear(s) && Clear(t)
    ensures CanServe(s, i) ==> CanServe(t, i)
  {
    hide ChoiceTime;
    AlikeChoiceTime(s, t);
    var v, w := ChoiceTime(s), ChoiceTime(t);
    AlikeLater(s, t, v, w);
    if CanServe(s, i) {
      assert AlikeSession(s.queue[i], v, t.queue[i], w) && s.queue[i] in s.queue && t.queue[i] in t.queue;
      forall y | y in t.queue && Eligible(y, w)
        ensures t.queue[i].finish <= y.finish
      {
        var k :| 0 <= k < |t.queue| && t.queue[k] == y;
        assert AlikeSession(s.queue[k], v, t.queue[k], w) && s.queue[k] in s.queue;
      }
    }
  }

  lemma AlikeTake(s: Sched, t: Sched, i: nat)
    requires Alike(s, t) && Clear(s) && Clear(t) && i < |s.queue|
    ensures Alike(Take(s, i), Take(t, i)) && Clear(Take(s, i)) && Clear(Take(t, i))
  {
    hide ChoiceTime;
    AlikeChoiceTime(s, t);
    ChoiceFits(s);
    ChoiceFits(t);
    var s1, t1 := s.(v := ChoiceTime(s)), t.(v := ChoiceTime(t));
    AlikeLater(s, t, s1.v, t1.v);
    RemovedIndex(s.queue, i);
    RemovedIndex(t.queue, i);
    RemovedFrom(s.queue, i);
    RemovedFrom(t.queue, i);
  }

  lemma ChoiceFits(s: Sched)
    requires Clear(s)
    ensures ChoiceTime(s) <= U64_MAX
  {
    MinStartIsLeast(s.queue);
  }

  // ---------- Virtual time ----------

  lemma AlikeParts(s: Sched, t: Sched)
    requires Alike(s, t) && Clear(s) && Clear(t)
    ensures AlikeQueue(s.queue, s.v, t.queue, t.v) && |s.queue| == |t.queue| && s.capacity == t.capacity
    ensures s.v <= U64_MAX && t.v <= U64_MAX
    ensures (forall x :: x in s.queue ==> x.start < U64_MAX) && forall y :: y in t.queue ==> y.start < U64_MAX
  {
  }

  lemma ClearLater(s: Sched, v: nat)
    requires Clear(s) && v <= U64_MAX
    ensures Clear(s.(v := v))
  {
  }

  // With nothing queued both come to the end of the range.
  lemma AlikeAtEnd(s: Sched, t: Sched)
    requires Alike(s, t) && Clear(s) && Clear(t) && s.queue == []
    ensures Alike(s.(v := U64_MAX), t.(v := U64_MAX))
  {
  }

  lemma AlikeAdvance(s: Sched, t: Sched, work: nat)
    requires Alike(s, t) && Clear(s) && Clear(t)
    requires s.v + Delta(s.capacity, work) <= U64_MAX && t.v + Delta(t.capacity, work) <= U64_MAX
    ensures Alike(Advance(s, work), Advance(t, work)) && Clear(Advance(s, work)) && Clear(Advance(t, work))
  {
    hide Delta, MinStart, Alike, Clear;
    MinStartIsLeast(s.queue);
    MinStartIsLeast(t.queue);
    AlikeParts(s, t);
    if s.queue != [] {
      AlikeMinStart(s.queue, s.v, t.queue, t.v);
      AlikeLater(s, t, Advance(s, work).v, Advance(t, work).v);
    } else {
      AlikeAtEnd(s, t);
    }
    ClearLater(s, Advance(s, work).v);
    ClearLater(t, Advance(t, work).v);
  }

  lemma RebaseAlike(s: Sched, lmax: nat)
    requires Inv(s, lmax) && SmallSessions(s.capacity, lmax) && Clear(s)
    ensures Alike(s, Rebase(s)) && Clear(Rebase(s))
  {
    hide Inv;
    if s.v >= REBASE_THRESHOLD {
      RebaseClampsNoFinish(s, lmax);
      ShiftAlike(s, s.v / 2);
      ShiftMembers(s.queue, s.v / 2);
    } else {
      AlikeSelf(s);
    }
  }

  lemma AlikeSelf(s: Sched)
    ensures Alike(s, s)
  {
  }

  // ---------- Runs ----------

  // An event on which nothing saturates.
  predicate Roomy(s: Sched, e: Event, lmax: nat)
    requires Enabled(s, e)
  {
    Fitting(s, e, lmax)
    && (e.Serve? ==> ChoiceTime(s) + Delta(s.capacity, s.queue[e.i].work) <= U64_MAX)
  }

  lemma AlikeServe(s: Sched, t: Sched, i: nat, lmax: nat)
    requires Alike(s, t) && Clear(s) && Clear(t) && CanServe(s, i) && CanServe(t, i)
    requires Inv(s, lmax) && Inv(t, lmax) && SmallSessions(s.capacity, lmax)
    requires Roomy(s, Serve(i), lmax) && Roomy(t, Serve(i), lmax)
    ensures var e := Serve(i);
      Alike(Apply(s, e), Apply(t, e)) && Clear(Apply(s, e)) && Clear(Apply(t, e))
  {
    hide Inv, Alike, Clear, ChoiceTime, Advance, Rebase, SmallSessions;
    var work := s.queue[i].work;
    SameWork(s, t, i);
    AlikeTake(s, t, i);
    AlikeAdvance(Take(s, i), Take(t, i), work);
    var a, b := Advance(Take(s, i), work), Advance(Take(t, i), work);
    ServeAdvanceKeeps(s, i, lmax);
    ServeAdvanceKeeps(t, i, lmax);
    SameCapacities(s, t, i, work);
    RebaseAlike(a, lmax);
    RebaseAlike(b, lmax);
    AlikeSymmetric(a, Rebase(a));
    AlikeTransitive(Rebase(a), a, b);
    AlikeTransitive(Rebase(a), b, Rebase(b));
  }

  lemma SameWork(s: Sched, t: Sched, i: nat)
    requires Alike(s, t) && i < |s.queue|
    ensures |t.queue| == |s.queue| && t.queue[i].work == s.queue[i].work
  {
    assert AlikeSession(s.queue[i], s.v, t.queue[i], t.v);
    assert s.queue[i].work == JobOf(s.queue[i]).work;
  }

  lemma SameCapacities(s: Sched, t: Sched, i: nat, work: nat)
    requires Alike(s, t) && i < |s.queue|
    ensures Advance(Take(s, i), work).capacity == Advance(Take(t, i), work).capacity == s.capacity == t.capacity
    ensures |t.queue| == |s.queue|
  {
  }

  // Neither of two schedulers saturates as they take the same events.
  ghost predicate BothRoomy(s: Sched, t: Sched, events: seq<Event>, lmax: nat)
    decreases events
  {
    events == [] ||
    ((Enabled(s, events[0]) ==> Roomy(s, events[0], lmax))
     && (Enabled(t, events[0]) ==> Roomy(t, events[0], lmax))
     && (Enabled(s, events[0]) && Enabled(t, events[0]) ==>
           BothRoomy(Apply(s, events[0]), Apply(t, events[0]), events[1..], lmax)))
  }

  lemma AlikeEnabled(s: Sched, t: Sched, e: Event)
    requires Alike(s, t) && Clear(s) && Clear(t)
    ensures Enabled(s, e) <==> Enabled(t, e)
  {
    hide Clear, Alike;
    if e.Arrive? {
      AlikeArrive(s, t, e);
    } else {
      AlikeSymmetric(s, t);
      AlikeCanServe(s, t, e.i);
      AlikeCanServe(t, s, e.i);
    }
  }

  lemma AlikeApply(s: Sched, t: Sched, e: Event, lmax: nat)
    requires Alike(s, t) && Clear(s) && Clear(t) && Enabled(s, e) && Enabled(t, e)
    requires Inv(s, lmax) && Inv(t, lmax) && SmallSessions(s.capacity, lmax)
    requires Roomy(s, e, lmax) && Roomy(t, e, lmax)
    ensures Alike(Apply(s, e), Apply(t, e)) && Clear(Apply(s, e)) && Clear(Apply(t, e))
    ensures Inv(Apply(s, e), lmax) && Inv(Apply(t, e), lmax) && Apply(s, e).capacity == s.capacity
  {
    hide Inv, Alike;
    SameCapacity(s, [e]);
    ApplyKeeps(s, e, lmax);
    ApplyKeeps(t, e, lmax);
    if e.Arrive? {
      AlikeArrive(s, t, e);
      ClearArrive(s, e);
      ClearArrive(t, e);
    } else {
      AlikeServe(s, t, e.i, lmax);
      UpdateEffect(Take(s, e.i), s.queue[e.i].work);
    }
  }

  lemma ClearArrive(s: Sched, e: Event)
    requires Clear(s) && e.Arrive? && Enabled(s, e) && NewSession(s, e.entry, e.work, e.data).finish < U64_MAX
    ensures Clear(Apply(s, e))
  {
    hide ServiceRate, Interval;
  }

  // Schedulers that are alike allow the same runs and end alike, each with its own rebases on the
  // way, under the conditions of the delay bound.
  lemma {:induction false} RebasesMakeNoDifference(s: Sched, t: Sched, events: seq<Event>, lmax: nat)
    requires Alike(s, t) && Clear(s) && Clear(t)
    requires Inv(s, lmax) && Inv(t, lmax) && SmallSessions(s.capacity, lmax) && BothRoomy(s, t, events, lmax)
    ensures IsRun(s, events) <==> IsRun(t, events)
    ensures IsRun(s, events) ==> Alike(Run(s, events), Run(t, events))
    decreases events
  {
    hide Alike, Clear, Inv, SmallSessions, Enabled, Apply, Roomy;
    if events != [] {
      var e := events[0];
      AlikeEnabled(s, t, e);
      if Enabled(s, e) {
        AlikeApply(s, t, e, lmax);
        RebasesMakeNoDifference(Apply(s, e), Apply(t, e), events[1..], lmax);
      }
    }
  }

  // In particular it does not matter when a scheduler rebases, or by how much.
  lemma EarlyRebaseMakesNoDifference(s: Sched, offset: nat, events: seq<Event>, lmax: nat)
    requires Clear(s) && Inv(s, lmax) && SmallSessions(s.capacity, lmax)
    requires offset <= s.v && (forall x :: x in s.queue ==> offset <= x.finish)
    requires BothRoomy(s, Shift(s, offset), events, lmax)
    ensures IsRun(s, events) <==> IsRun(Shift(s, offset), events)
    ensures IsRun(s, events) ==> Alike(Run(s, events), Run(Shift(s, offset), events))
  {
    ShiftAlike(s, offset);
    ShiftKeeps(s, offset, lmax);
    ShiftMembers(s.queue, offset);
    RebasesMakeNoDifference(s, Shift(s, offset), events, lmax);
  }
}
