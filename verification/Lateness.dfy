/**
 The delay guarantee of WF2Q+: however the entries load the scheduler, a queued session is
 never later than its finish time by more than the virtual time that one largest session takes.
 */
module Lateness {
  import opened Machine
  import opened Wfq

  // ---------- Shares ----------

  // The part of the capacity an entry is sure of can be any that pays for the work of its sessions
  // in their service intervals. Twice the rate they are charged at always covers what integer
  // division loses.
  function Shares(s: Sched): map<nat, nat> {
    map id | id in s.entries :: 2 * ServiceRate(s, s.entries[id])
  }

  function Lasts(s: Sched): map<nat, nat> {
    map id | id in s.entries :: s.entries[id].lastFinish
  }

  ghost predicate Distinct(order: seq<nat>) {
    forall a, b | 0 <= a < b < |order| :: order[a] != order[b]
  }

  // The configured list names each configured entry once.
  ghost predicate Listed(s: Sched) {
    && Distinct(s.order)
    && (forall id :: id in s.order <==> id in s.entries)
  }

  function Total(order: seq<nat>, share: map<nat, nat>): nat
    requires forall id :: id in order ==> id in share
  {
    if order == [] then 0 else share[order[0]] + Total(order[1..], share)
  }

  // Each configured entry has a share.
  ghost predicate Covers(s: Sched, share: map<nat, nat>) {
    Listed(s) && forall id :: id in share <==> id in s.entries
  }

  // The shares of all entries together fit the capacity.
  ghost predicate Backed(s: Sched, share: map<nat, nat>) {
    s.capacity > 0 && Covers(s, share) && Total(s.order, share) <= s.capacity
  }

  ghost predicate Guaranteed(s: Sched) {
    Backed(s, Shares(s))
  }

  // ---------- Work due by a deadline, and the room left before it ----------

  // Work of the queued sessions that should have finished by virtual time d.
  function WorkDue(queue: seq<Session>, d: nat): nat {
    if queue == [] then 0
    else
      var x := queue[|queue| - 1];
      WorkDue(queue[..|queue| - 1], d) + if x.finish <= d then x.work else 0
  }

  // Virtual time before d in which an entry with last finish time l can still place new sessions.
  function Room(d: nat, t: nat, l: nat): nat {
    Minus(d, Max(t, l))
  }

  function Slack(order: seq<nat>, share: map<nat, nat>, last: map<nat, nat>, d: nat, t: nat): nat
    requires forall id :: id in order ==> id in share && id in last
  {
    if order == [] then 0
    else share[order[0]] * Room(d, t, last[order[0]]) + Slack(order[1..], share, last, d, t)
  }

  lemma {:induction false} SlackChange(order: seq<nat>, share: map<nat, nat>, last: map<nat, nat>, d: nat, t: nat,
                                       e: nat, l: nat)
    requires Distinct(order) && forall id :: id in order ==> id in share && id in last
    requires e in share && e in last
    ensures e !in order ==> Slack(order, share, last[e := l], d, t) == Slack(order, share, last, d, t)
    ensures e in order ==>
      Slack(order, share, last[e := l], d, t) + share[e] * Room(d, t, last[e])
      == Slack(order, share, last, d, t) + share[e] * Room(d, t, l)
  {
    if order != [] {
      SlackChange(order[1..], share, last, d, t, e, l);
      assert order == [order[0]] + order[1..];
    }
  }

  lemma {:induction false} SlackShrinks(order: seq<nat>, share: map<nat, nat>, last: map<nat, nat>, d: nat,
                                        t: nat, t': nat)
    requires forall id :: id in order ==> id in share && id in last
    requires t <= t'
    ensures Slack(order, share, last, d, t') <= Slack(order, share, last, d, t)
  {
    if order != [] {
      SlackShrinks(order[1..], share, last, d, t, t');
      Scale(share[order[0]], Room(d, t', last[order[0]]), Room(d, t, last[order[0]]));
    }
  }

  lemma {:induction false} SlackAtMost(order: seq<nat>, share: map<nat, nat>, last: map<nat, nat>, d: nat, t: nat)
    requires forall id :: id in order ==> id in share && id in last
    requires t <= d
    ensures Slack(order, share, last, d, t) <= Total(order, share) * (d - t)
  {
    if order != [] {
      SlackAtMost(order[1..], share, last, d, t);
      Scale(share[order[0]], Room(d, t, last[order[0]]), d - t);
      Split(d - t, share[order[0]], Total(order[1..], share));
    }
  }

  lemma Scale(k: nat, a: nat, b: nat)
    requires a <= b
    ensures k * a <= k * b
  {
  }

  lemma Split(k: nat, a: nat, b: nat)
    ensures k * (a + b) == k * a + k * b
    ensures (a + b) * k == a * k + b * k
  {
  }

  lemma Order(c: nat, a: nat, b: nat)
    requires c > 0
    ensures c * a <= c * b ==> a <= b
  {
    if a > b {
      Scale(c, b + 1, a);
      Split(c, b, 1);
    }
  }

  lemma Scale2(k: nat, a: nat, b: nat, c: nat)
    requires a + b <= c
    ensures k * a + k * b <= k * c
  {
    Split(k, a, b);
    Scale(k, a + b, c);
  }

  // ---------- The demand bound ----------

  // Sessions of one entry occupy disjoint stretches of virtual time, in order of arrival, and
  // the entry's last finish time is past all of them.
  ghost predicate Chained(queue: seq<Session>, last: map<nat, nat>) {
    && (forall x :: x in queue ==> x.entry in last && x.start <= x.finish <= last[x.entry])
    && (forall a, b | 0 <= a < b < |queue| && queue[a].entry == queue[b].entry ::
          queue[a].finish <= queue[b].start)
  }

  // The session's stretch of virtual time pays for its work at its entry's share.
  predicate Paid(x: Session, share: map<nat, nat>) {
    x.entry in share && x.start <= x.finish && TIME_SCALE * x.work <= share[x.entry] * (x.finish - x.start)
  }

  // Taking back the arrival of x frees at least the room its work needs.
  lemma TakeBack(order: seq<nat>, share: map<nat, nat>, last: map<nat, nat>, x: Session, d: nat, t: nat)
    requires Distinct(order) && forall id :: id in order ==> id in share && id in last
    requires x.entry in order && x.start <= x.finish <= last[x.entry]
    requires x.finish <= d ==> t <= x.start && Paid(x, share)
    ensures Slack(order, share, last, d, t) + (if x.finish <= d then TIME_SCALE * x.work else 0)
            <= Slack(order, share, last[x.entry := x.start], d, t)
  {
    var e := x.entry;
    SlackChange(order, share, last, d, t, e, x.start);
    if x.finish <= d {
      Scale2(share[e], Room(d, t, last[e]), x.finish - x.start, Room(d, t, x.start));
    } else {
      Scale(share[e], Room(d, t, last[e]), Room(d, t, x.start));
    }
  }

  lemma ChainedFront(queue: seq<Session>, last: map<nat, nat>)
    requires Chained(queue, last) && queue != []
    ensures var x := queue[|queue| - 1];
      Chained(queue[..|queue| - 1], last[x.entry := x.start])
  {
    var front, x := queue[..|queue| - 1], queue[|queue| - 1];
    forall y | y in front
      ensures y in queue && (y.entry == x.entry ==> y.finish <= x.start)
    {
      var k :| 0 <= k < |front| && front[k] == y;
      assert queue[k] == y;
    }
  }

  // If every session due by d starts at t or later, the work due by d and all the work that can
  // still be placed before d fit what the shares deliver between t and d. By induction on the
  // queue, taking back the latest arrival and, with it, its entry's last finish time.
  lemma {:induction false} DemandFits(order: seq<nat>, share: map<nat, nat>, last: map<nat, nat>,
                                      queue: seq<Session>, d: nat, t: nat)
    requires Distinct(order)
    requires forall id :: id in order <==> id in share
    requires forall id :: id in order <==> id in last
    requires t <= d
    requires Chained(queue, last)
    requires forall x :: x in queue && x.finish <= d ==> t <= x.start && Paid(x, share)
    ensures TIME_SCALE * WorkDue(queue, d) + Slack(order, share, last, d, t) <= Total(order, share) * (d - t)
  {
    if queue == [] {
      SlackAtMost(order, share, last, d, t);
    } else {
      var front, x := queue[..|queue| - 1], queue[|queue| - 1];
      assert x in queue;
      ChainedFront(queue, last);
      assert forall y :: y in front ==> y in queue;
      DemandFits(order, share, last[x.entry := x.start], front, d, t);
      TakeBack(order, share, last, x, d, t);
    }
  }

  // ---------- The invariant ----------

  // Seen from deadline d, the scheduler is behind by less than one session of size lmax.
  ghost predicate Within(s: Sched, share: map<nat, nat>, lmax: nat, d: nat)
    requires Covers(s, share)
  {
    s.capacity * s.v + TIME_SCALE * WorkDue(s.queue, d) + Slack(s.order, share, Lasts(s), d, s.v)
    <= s.capacity * d + TIME_SCALE * lmax
  }

  ghost predicate OnTime(s: Sched, share: map<nat, nat>, lmax: nat)
    requires Covers(s, share)
  {
    forall d: nat | d >= s.v || WorkDue(s.queue, d) > 0 :: Within(s, share, lmax, d)
  }

  // Sessions are no larger than lmax, and large enough that the division by the capacity in the
  // virtual time update does not round to zero.
  predicate Sized(work: nat, capacity: nat, lmax: nat) {
    0 < work <= lmax && capacity <= TIME_SCALE * work
  }

  ghost predicate Base(s: Sched, share: map<nat, nat>, lmax: nat) {
    && Backed(s, share)
    && s.v <= U64_MAX
    && Chained(s.queue, Lasts(s))
    && (forall x :: x in s.queue ==> Sized(x.work, s.capacity, lmax) && (x.start == 0 || Paid(x, share)))
  }

  ghost predicate Holds(s: Sched, share: map<nat, nat>, lmax: nat) {
    Base(s, share, lmax) && OnTime(s, share, lmax)
  }

  lemma {:induction false} WorkDueHasSession(queue: seq<Session>, d: nat)
    requires WorkDue(queue, d) > 0
    ensures exists x :: x in queue && x.finish <= d
  {
    var front, x := queue[..|queue| - 1], queue[|queue| - 1];
    if x.finish <= d {
      assert x in queue;
    } else {
      WorkDueHasSession(front, d);
    }
  }

  lemma {:induction false} WorkDueRemove(queue: seq<Session>, i: nat, d: nat)
    requires i < |queue|
    ensures WorkDue(queue, d) == WorkDue(RemoveAt(queue, i), d) + if queue[i].finish <= d then queue[i].work else 0
  {
    var front, n := queue[..|queue| - 1], |queue| - 1;
    if i == n {
      assert RemoveAt(queue, i) == front;
    } else {
      WorkDueRemove(front, i, d);
      var r := RemoveAt(queue, i);
      assert r[..|r| - 1] == RemoveAt(front, i) && r[|r| - 1] == queue[n];
    }
  }

  lemma {:induction false} WorkDueAtLeast(queue: seq<Session>, x: Session)
    requires x in queue
    ensures WorkDue(queue, x.finish) >= x.work
  {
    var front, last := queue[..|queue| - 1], queue[|queue| - 1];
    if x != last {
      assert x in front by {
        var k :| 0 <= k < |queue| && queue[k] == x;
        assert front[k] == x;
      }
      WorkDueAtLeast(front, x);
    }
  }

  // ---------- Virtual time standing at or before every start ----------

  lemma Deliver(due: nat, total: nat, capacity: nat, v: nat, d: nat)
    requires v <= d && total <= capacity && due <= total * (d - v)
    ensures due <= capacity * d - capacity * v
  {
    assert capacity * (d - v) == capacity * d - capacity * v;
    assert total * (d - v) <= capacity * (d - v);
  }

  // When virtual time has not passed the start of anything due by d, nothing is behind at all.
  lemma NothingBehind(s: Sched, share: map<nat, nat>, d: nat)
    requires Backed(s, share) && Chained(s.queue, Lasts(s))
    requires forall x :: x in s.queue && x.finish <= d ==> s.v <= x.start && Paid(x, share)
    requires d >= s.v || WorkDue(s.queue, d) > 0
    ensures s.capacity * s.v + TIME_SCALE * WorkDue(s.queue, d) + Slack(s.order, share, Lasts(s), d, s.v)
            <= s.capacity * d
  {
    if WorkDue(s.queue, d) > 0 {
      WorkDueHasSession(s.queue, d);
    }
    DemandFits(s.order, share, Lasts(s), s.queue, d, s.v);
    Deliver(TIME_SCALE * WorkDue(s.queue, d) + Slack(s.order, share, Lasts(s), d, s.v),
            Total(s.order, share), s.capacity, s.v, d);
  }

  lemma OnTimeBeforeStarts(s: Sched, share: map<nat, nat>, lmax: nat)
    requires Backed(s, share) && Chained(s.queue, Lasts(s))
    requires forall x :: x in s.queue ==> s.v <= x.start && Paid(x, share)
    ensures OnTime(s, share, lmax)
  {
    forall d: nat | d >= s.v || WorkDue(s.queue, d) > 0
      ensures Within(s, share, lmax, d)
    {
      NothingBehind(s, share, d);
    }
  }

  // ---------- Arrivals ----------

  // The conditions of the delay guarantee on an arriving session: its size, and that its finish
  // time does not saturate.
  predicate Fitting(s: Sched, e: Event, lmax: nat)
    requires Enabled(s, e)
  {
    match e
    case Arrive(id, work, data) =>
      Sized(work, s.capacity, lmax) && NewSession(s, id, work, data).finish < U64_MAX
    case Serve(_) => true
  }

  lemma ArriveFrame(s: Sched, e: Event)
    requires Enabled(s, e) && e.Arrive?
    ensures var x := NewSession(s, e.entry, e.work, e.data);
      && Apply(s, e).queue == s.queue + [x]
      && Shares(Apply(s, e)) == Shares(s)
      && Lasts(Apply(s, e)) == Lasts(s)[e.entry := x.finish]
  {
  }

  // The share of its entry pays for an arriving session.
  predicate PaidFor(s: Sched, e: Event, share: map<nat, nat>)
    requires Enabled(s, e)
  {
    e.Arrive? ==> Paid(NewSession(s, e.entry, e.work, e.data), share)
  }

  lemma ArriveBase(s: Sched, e: Event, share: map<nat, nat>, lmax: nat)
    requires Base(s, share, lmax) && Enabled(s, e) && e.Arrive? && Fitting(s, e, lmax) && PaidFor(s, e, share)
    ensures Base(Apply(s, e), share, lmax)
  {
    var s' := Apply(s, e);
    var x := NewSession(s, e.entry, e.work, e.data);
    ArriveFrame(s, e);
    assert Lasts(s)[e.entry] <= x.start;
    ChainedAppend(s.queue, Lasts(s), x);
  }

  lemma ChainedAppend(queue: seq<Session>, last: map<nat, nat>, x: Session)
    requires Chained(queue, last)
    requires x.entry in last && last[x.entry] <= x.start <= x.finish
    ensures Chained(queue + [x], last[x.entry := x.finish])
  {
    forall a | 0 <= a < |queue|
      ensures queue[a] in queue
    {
    }
  }

  lemma ArriveWithin(s: Sched, e: Event, share: map<nat, nat>, lmax: nat, d: nat)
    requires Holds(s, share, lmax)
    requires Enabled(s, e) && e.Arrive?
    requires Paid(NewSession(s, e.entry, e.work, e.data), share)
    requires d >= s.v || WorkDue(Apply(s, e).queue, d) > 0
    requires Covers(Apply(s, e), share)
    ensures Within(Apply(s, e), share, lmax, d)
  {
    var s' := Apply(s, e);
    var x := NewSession(s, e.entry, e.work, e.data);
    ArriveFrame(s, e);
    assert s'.queue[..|s'.queue| - 1] == s.queue;
    PlaceArrival(s.order, share, Lasts(s), x, d, s.v);
    assert WorkDue(s'.queue, d) == WorkDue(s.queue, d) + if x.finish <= d then x.work else 0;
    assert Within(s, share, lmax, d);
  }

  // An arrival that is due by d uses no more room than the room that was left.
  lemma PlaceArrival(order: seq<nat>, share: map<nat, nat>, last: map<nat, nat>, x: Session, d: nat, t: nat)
    requires Distinct(order) && forall id :: id in order ==> id in share && id in last
    requires x.entry in order && x.start == Max(t, last[x.entry]) && Paid(x, share)
    ensures Slack(order, share, last[x.entry := x.finish], d, t) + (if x.finish <= d then TIME_SCALE * x.work else 0)
            <= Slack(order, share, last, d, t)
  {
    var e := x.entry;
    SlackChange(order, share, last, d, t, e, x.finish);
    if x.finish <= d {
      Scale2(share[e], Room(d, t, x.finish), x.finish - x.start, Room(d, t, last[e]));
    } else {
      Scale(share[e], Room(d, t, x.finish), Room(d, t, last[e]));
    }
  }

  lemma ArriveHolds(s: Sched, e: Event, share: map<nat, nat>, lmax: nat)
    requires Holds(s, share, lmax) && Enabled(s, e) && e.Arrive? && Fitting(s, e, lmax) && PaidFor(s, e, share)
    ensures Holds(Apply(s, e), share, lmax)
  {
    ArriveBase(s, e, share, lmax);
    var s' := Apply(s, e);
    forall d: nat | d >= s'.v || WorkDue(s'.queue, d) > 0
      ensures Within(s', share, lmax, d)
    {
      ArriveWithin(s, e, share, lmax, d);
    }
  }

  // ---------- Service ----------

  lemma DeltaIsPaid(capacity: nat, work: nat)
    requires 0 < capacity <= TIME_SCALE * work
    ensures capacity * Delta(capacity, work) <= TIME_SCALE * work
  {
    var scaled := Wrap64(work * TIME_SCALE);
    assert scaled <= work * TIME_SCALE;
    assert scaled == capacity * (scaled / capacity) + scaled % capacity;
  }

  lemma AdvanceIsPaid(capacity: nat, work: nat, v: nat, v': nat)
    requires 0 < capacity <= TIME_SCALE * work
    requires v <= v' <= v + Delta(capacity, work)
    ensures capacity * v' <= capacity * v + TIME_SCALE * work
  {
    DeltaIsPaid(capacity, work);
    Scale(capacity, v' - v, Delta(capacity, work));
    assert capacity * v' == capacity * v + capacity * (v' - v);
  }

  lemma JumpKeeps(s: Sched, share: map<nat, nat>, lmax: nat)
    requires Holds(s, share, lmax)
    ensures Holds(s.(v := ChoiceTime(s)), share, lmax)
  {
    var s' := s.(v := ChoiceTime(s));
    MinStartIsLeast(s.queue);
    assert Lasts(s') == Lasts(s);
    if s'.v != s.v {
      assert forall x :: x in s.queue ==> s'.v <= x.start && x.start != 0;
      OnTimeBeforeStarts(s', share, lmax);
    } else {
      assert s' == s;
    }
  }

  // Serving session i when virtual time needs no jump: the deadlines that i meets are relieved of
  // its work, and before the others only sessions that virtual time has not reached are due.
  lemma ServeWithin(s: Sched, i: nat, v': nat, share: map<nat, nat>, lmax: nat, d: nat)
    requires Holds(s, share, lmax) && i < |s.queue| && Eligible(s.queue[i], s.v)
    requires forall x :: x in s.queue && Eligible(x, s.v) ==> s.queue[i].finish <= x.finish
    requires s.v <= v' <= s.v + Delta(s.capacity, s.queue[i].work)
    requires d >= v' || WorkDue(RemoveAt(s.queue, i), d) > 0
    ensures Within(s.(v := v', queue := RemoveAt(s.queue, i)), share, lmax, d)
  {
    var x := s.queue[i];
    assert x in s.queue;
    WorkDueRemove(s.queue, i, d);
    AdvanceIsPaid(s.capacity, x.work, s.v, v');
    if x.finish <= d {
      assert Within(s, share, lmax, d);
    } else {
      assert forall y :: y in s.queue && y.finish <= d ==> !Eligible(y, s.v);
      NothingBehind(s, share, d);
    }
    ServeFrame(s, share, i, v', d);
  }

  lemma ServeFrame(s: Sched, share: map<nat, nat>, i: nat, v': nat, d: nat)
    requires Covers(s, share) && i < |s.queue| && s.v <= v'
    ensures var s' := s.(v := v', queue := RemoveAt(s.queue, i));
      && Lasts(s') == Lasts(s)
      && Slack(s'.order, share, Lasts(s'), d, v') <= Slack(s.order, share, Lasts(s), d, s.v)
  {
    var s' := s.(v := v', queue := RemoveAt(s.queue, i));
    assert Lasts(s') == Lasts(s);
    SlackShrinks(s.order, share, Lasts(s), d, s.v, v');
  }

  lemma RemovedFrom(queue: seq<Session>, i: nat)
    requires i < |queue|
    ensures forall x :: x in RemoveAt(queue, i) ==> x in queue
  {
  }

  lemma ChainedRemove(queue: seq<Session>, last: map<nat, nat>, i: nat)
    requires Chained(queue, last) && i < |queue|
    ensures Chained(RemoveAt(queue, i), last)
  {
    var r := RemoveAt(queue, i);
    forall a | 0 <= a < |r|
      ensures r[a] == queue[if a < i then a else a + 1]
    {
    }
  }

  lemma ServeBase(s: Sched, i: nat, v': nat, share: map<nat, nat>, lmax: nat)
    requires Base(s, share, lmax) && i < |s.queue| && v' <= U64_MAX
    ensures Base(s.(v := v', queue := RemoveAt(s.queue, i)), share, lmax)
  {
    var s' := s.(v := v', queue := RemoveAt(s.queue, i));
    assert Lasts(s') == Lasts(s);
    RemovedFrom(s.queue, i);
    ChainedRemove(s.queue, Lasts(s), i);
  }

  lemma ServeHolds(s: Sched, i: nat, share: map<nat, nat>, lmax: nat)
    requires Holds(s, share, lmax) && CanServe(s, i)
    ensures Holds(Advance(Take(s, i), s.queue[i].work), share, lmax)
  {
    var sJ := s.(v := ChoiceTime(s));
    var s' := Advance(Take(s, i), s.queue[i].work);
    JumpKeeps(s, share, lmax);
    MinStartIsLeast(s'.queue);
    ServeBase(sJ, i, s'.v, share, lmax);
    assert s' == sJ.(v := s'.v, queue := RemoveAt(sJ.queue, i));
    var normal := Saturating(sJ.v, Delta(s.capacity, s.queue[i].work));
    if s'.v > normal {
      assert forall x :: x in s'.queue ==> 0 < s'.v <= x.start;
      OnTimeBeforeStarts(s', share, lmax);
    } else {
      forall d: nat | d >= s'.v || WorkDue(s'.queue, d) > 0
        ensures Within(s', share, lmax, d)
      {
        ServeWithin(sJ, i, normal, share, lmax, d);
      }
    }
  }

  // A session that is taken and not accounted for leaves the others no later than they were.
  lemma TakeHolds(s: Sched, i: nat, share: map<nat, nat>, lmax: nat)
    requires Holds(s, share, lmax) && CanServe(s, i)
    ensures Holds(Take(s, i), share, lmax)
  {
    var sJ := s.(v := ChoiceTime(s));
    var s' := Take(s, i);
    JumpKeeps(s, share, lmax);
    ServeBase(sJ, i, sJ.v, share, lmax);
    assert s' == sJ.(v := s'.v, queue := RemoveAt(sJ.queue, i));
    forall d: nat | d >= s'.v || WorkDue(s'.queue, d) > 0
      ensures Within(s', share, lmax, d)
    {
      ServeWithin(sJ, i, sJ.v, share, lmax, d);
    }
  }

  // ---------- Rebasing ----------

  lemma {:induction false} WorkDueShift(queue: seq<Session>, offset: nat, d: nat)
    ensures WorkDue(ShiftQueue(queue, offset), d) == WorkDue(queue, d + offset)
  {
    if queue != [] {
      WorkDueShift(queue[..|queue| - 1], offset, d);
      var r := ShiftQueue(queue, offset);
      assert r[..|r| - 1] == ShiftQueue(queue[..|queue| - 1], offset);
    }
  }

  lemma {:induction false} SlackShift(order: seq<nat>, share: map<nat, nat>, last: map<nat, nat>, last': map<nat, nat>,
                                      d: nat, t: nat, offset: nat)
    requires forall id :: id in order ==> id in share && id in last && id in last'
    requires forall id :: id in order ==> last'[id] == Minus(last[id], offset)
    requires offset <= t
    ensures Slack(order, share, last', d, t - offset) == Slack(order, share, last, d + offset, t)
  {
    if order != [] {
      SlackShift(order[1..], share, last, last', d, t, offset);
      assert order[0] in order;
    }
  }

  lemma ShiftWithin(s: Sched, offset: nat, share: map<nat, nat>, lmax: nat, d: nat)
    requires offset <= s.v && Covers(s, share) && Covers(Shift(s, offset), share)
    requires Within(s, share, lmax, d + offset)
    ensures Within(Shift(s, offset), share, lmax, d)
  {
    ShiftFrame(s, offset);
    WorkDueShift(s.queue, offset, d);
    SlackShift(s.order, share, Lasts(s), Lasts(Shift(s, offset)), d, s.v, offset);
    Split(s.capacity, s.v - offset, offset);
    Split(s.capacity, d, offset);
  }

  lemma ShiftFrame(s: Sched, offset: nat)
    requires offset <= s.v
    ensures Shares(Shift(s, offset)) == Shares(s)
    ensures forall id ::
      id in Lasts(s) ==> id in Lasts(Shift(s, offset)) && Lasts(Shift(s, offset))[id] == Minus(Lasts(s)[id], offset)
    ensures Listed(s) ==> Listed(Shift(s, offset))
  {
  }

  lemma PaidShift(x: Session, share: map<nat, nat>, offset: nat)
    requires x.start == 0 || Paid(x, share)
    ensures ShiftSession(x, offset).start == 0 || Paid(ShiftSession(x, offset), share)
  {
    var y := ShiftSession(x, offset);
    if y.start != 0 {
      assert y.finish - y.start == x.finish - x.start;
    }
  }

  lemma ChainedShift(queue: seq<Session>, last: map<nat, nat>, last': map<nat, nat>, offset: nat)
    requires Chained(queue, last)
    requires forall id :: id in last ==> id in last' && last'[id] == Minus(last[id], offset)
    ensures Chained(ShiftQueue(queue, offset), last')
  {
    var r := ShiftQueue(queue, offset);
    forall x | x in r
      ensures x.entry in last' && x.start <= x.finish <= last'[x.entry]
    {
      var k :| 0 <= k < |r| && r[k] == x;
      assert queue[k] in queue;
    }
  }

  lemma ShiftBase(s: Sched, offset: nat, share: map<nat, nat>, lmax: nat)
    requires Base(s, share, lmax) && offset <= s.v
    ensures Base(Shift(s, offset), share, lmax)
  {
    var r := ShiftQueue(s.queue, offset);
    ShiftFrame(s, offset);
    ChainedShift(s.queue, Lasts(s), Lasts(Shift(s, offset)), offset);
    forall x | x in r
      ensures Sized(x.work, s.capacity, lmax) && (x.start == 0 || Paid(x, share))
    {
      var k :| 0 <= k < |r| && r[k] == x;
      assert s.queue[k] in s.queue;
      PaidShift(s.queue[k], share, offset);
    }
  }

  lemma ShiftHolds(s: Sched, offset: nat, share: map<nat, nat>, lmax: nat)
    requires Holds(s, share, lmax) && offset <= s.v
    ensures Holds(Shift(s, offset), share, lmax)
  {
    ShiftBase(s, offset, share, lmax);
    var s' := Shift(s, offset);
    forall d: nat | d >= s'.v || WorkDue(s'.queue, d) > 0
      ensures Within(s', share, lmax, d)
    {
      WorkDueShift(s.queue, offset, d);
      ShiftWithin(s, offset, share, lmax, d);
    }
  }

  // ---------- The theorem ----------

  ghost predicate FittingRun(s: Sched, events: seq<Event>, lmax: nat)
    requires IsRun(s, events)
    decreases events
  {
    events == [] || (Fitting(s, events[0], lmax) && FittingRun(Apply(s, events[0]), events[1..], lmax))
  }

  // The shares pay for all that arrives in a run.
  ghost predicate PaidRun(s: Sched, events: seq<Event>, share: map<nat, nat>)
    requires IsRun(s, events)
    decreases events
  {
    events == [] || (PaidFor(s, events[0], share) && PaidRun(Apply(s, events[0]), events[1..], share))
  }

  lemma ApplyHolds(s: Sched, e: Event, share: map<nat, nat>, lmax: nat)
    requires Holds(s, share, lmax) && Enabled(s, e) && Fitting(s, e, lmax) && PaidFor(s, e, share)
    ensures Holds(Apply(s, e), share, lmax)
  {
    match e
    case Arrive(_, _, _) => ArriveHolds(s, e, share, lmax);
    case Serve(i) =>
      ServeHolds(s, i, share, lmax);
      var s' := Advance(Take(s, i), s.queue[i].work);
      if s'.v >= REBASE_THRESHOLD {
        ShiftHolds(s', s'.v / 2, share, lmax);
      }
  }

  lemma {:induction false} RunHolds(s: Sched, events: seq<Event>, share: map<nat, nat>, lmax: nat)
    requires Holds(s, share, lmax) && IsRun(s, events) && FittingRun(s, events, lmax) && PaidRun(s, events, share)
    ensures Holds(Run(s, events), share, lmax)
    decreases events
  {
    if events != [] {
      ApplyHolds(s, events[0], share, lmax);
      RunHolds(Apply(s, events[0]), events[1..], share, lmax);
    }
  }

  lemma IdleHolds(s: Sched, share: map<nat, nat>, lmax: nat)
    requires Backed(s, share) && s.queue == [] && s.v <= U64_MAX
    ensures Holds(s, share, lmax)
  {
    OnTimeBeforeStarts(s, share, lmax);
  }

  // The bound on a single session, from the bound on all that is due with it.
  lemma EachWithin(s: Sched, share: map<nat, nat>, lmax: nat)
    requires Holds(s, share, lmax)
    ensures forall x :: x in s.queue ==>
      s.capacity * s.v + TIME_SCALE * x.work <= s.capacity * x.finish + TIME_SCALE * lmax
  {
    forall x | x in s.queue
      ensures s.capacity * s.v + TIME_SCALE * x.work <= s.capacity * x.finish + TIME_SCALE * lmax
    {
      WorkDueAtLeast(s.queue, x);
      assert Within(s, share, lmax, x.finish);
    }
  }

  // Bounded lateness, for any shares that fit the capacity and pay for the sessions that arrive: in
  // every state of every run from an idle scheduler, each queued session x satisfies
  // capacity * V + 2^20 * work <= capacity * finish + 2^20 * lmax.
  lemma LatenessAtShares(s: Sched, events: seq<Event>, share: map<nat, nat>, lmax: nat)
    requires Backed(s, share) && s.queue == [] && s.v <= U64_MAX
    requires IsRun(s, events) && FittingRun(s, events, lmax) && PaidRun(s, events, share)
    ensures var t := Run(s, events);
      forall x :: x in t.queue ==>
        t.capacity * t.v + TIME_SCALE * x.work <= t.capacity * x.finish + TIME_SCALE * lmax
  {
    IdleHolds(s, share, lmax);
    RunHolds(s, events, share, lmax);
    EachWithin(Run(s, events), share, lmax);
  }

  // ---------- Shares of twice the rate ----------

  ghost predicate Inv(s: Sched, lmax: nat) {
    Holds(s, Shares(s), lmax)
  }

  lemma IntervalPays(work: nat, rate: nat)
    requires rate != 0 && TIME_SCALE * work <= U64_MAX
    ensures TIME_SCALE * work <= 2 * rate * Interval(work, rate)
  {
    var n := TIME_SCALE * work;
    var q := n / rate;
    assert n == rate * q + n % rate;
    if q == 0 {
    } else {
      Scale(rate, 1, q);
      assert 2 * rate * q == rate * q + rate * q;
    }
  }

  // Twice the rate pays for every session.
  lemma DoublePays(s: Sched, e: Event, lmax: nat)
    requires TIME_SCALE * lmax <= U64_MAX && Enabled(s, e) && Fitting(s, e, lmax)
    ensures PaidFor(s, e, Shares(s))
  {
    if e.Arrive? {
      IntervalPays(e.work, ServiceRate(s, s.entries[e.entry]));
    }
  }

  lemma ArriveKeeps(s: Sched, e: Event, lmax: nat)
    requires Inv(s, lmax) && TIME_SCALE * lmax <= U64_MAX
    requires Enabled(s, e) && e.Arrive? && Fitting(s, e, lmax)
    ensures Inv(Apply(s, e), lmax)
  {
    hide Holds;
    DoublePays(s, e, lmax);
    ArriveFrame(s, e);
    ArriveHolds(s, e, Shares(s), lmax);
  }

  lemma ServeAdvanceKeeps(s: Sched, i: nat, lmax: nat)
    requires Inv(s, lmax) && CanServe(s, i)
    ensures Inv(Advance(Take(s, i), s.queue[i].work), lmax)
  {
    hide Holds;
    ServeHolds(s, i, Shares(s), lmax);
    assert Shares(Advance(Take(s, i), s.queue[i].work)) == Shares(s);
  }

  lemma TakeKeeps(s: Sched, i: nat, lmax: nat)
    requires Inv(s, lmax) && CanServe(s, i)
    ensures Inv(Take(s, i), lmax)
  {
    hide Holds;
    TakeHolds(s, i, Shares(s), lmax);
    assert Shares(Take(s, i)) == Shares(s);
  }

  lemma ShiftKeeps(s: Sched, offset: nat, lmax: nat)
    requires Inv(s, lmax) && offset <= s.v
    ensures Inv(Shift(s, offset), lmax)
  {
    hide Holds;
    ShiftHolds(s, offset, Shares(s), lmax);
    ShiftFrame(s, offset);
  }

  lemma ApplyKeeps(s: Sched, e: Event, lmax: nat)
    requires Inv(s, lmax) && TIME_SCALE * lmax <= U64_MAX
    requires Enabled(s, e) && Fitting(s, e, lmax)
    ensures Inv(Apply(s, e), lmax)
  {
    hide Holds;
    match e
    case Arrive(_, _, _) => ArriveKeeps(s, e, lmax);
    case Serve(i) =>
      ServeAdvanceKeeps(s, i, lmax);
      var s' := Advance(Take(s, i), s.queue[i].work);
      if s'.v >= REBASE_THRESHOLD {
        ShiftKeeps(s', s'.v / 2, lmax);
      }
  }

  lemma {:induction false} RunKeeps(s: Sched, events: seq<Event>, lmax: nat)
    requires Inv(s, lmax) && TIME_SCALE * lmax <= U64_MAX
    requires IsRun(s, events) && FittingRun(s, events, lmax)
    ensures Inv(Run(s, events), lmax)
    decreases events
  {
    hide Inv;
    if events != [] {
      ApplyKeeps(s, events[0], lmax);
      RunKeeps(Apply(s, events[0]), events[1..], lmax);
    }
  }

  lemma IdleInv(s: Sched, lmax: nat)
    requires Guaranteed(s) && s.queue == [] && s.v <= U64_MAX
    ensures Inv(s, lmax)
  {
    IdleHolds(s, Shares(s), lmax);
  }

  lemma EachOnTime(s: Sched, lmax: nat)
    requires Inv(s, lmax)
    ensures forall x :: x in s.queue ==>
      s.capacity * s.v + TIME_SCALE * x.work <= s.capacity * x.finish + TIME_SCALE * lmax
  {
    EachWithin(s, Shares(s), lmax);
  }

  // Bounded lateness with room for twice the rates: no matter how the division comes out.
  lemma BoundedLateness(s: Sched, events: seq<Event>, lmax: nat)
    requires Guaranteed(s) && s.queue == [] && s.v <= U64_MAX && TIME_SCALE * lmax <= U64_MAX
    requires IsRun(s, events) && FittingRun(s, events, lmax)
    ensures var t := Run(s, events);
      forall x :: x in t.queue ==>
        t.capacity * t.v + TIME_SCALE * x.work <= t.capacity * x.finish + TIME_SCALE * lmax
  {
    IdleInv(s, lmax);
    RunKeeps(s, events, lmax);
    EachOnTime(Run(s, events), lmax);
  }
}
