/**
 How much of the capacity can be booked. Shares of twice the rates always pay for the sessions; when
 service intervals are long, or divide exactly, less does. With the capacity booked in full and
 short intervals that do not divide, sessions fall behind without bound.
 */
module Booking {
  import opened Machine
  import opened Wfq
  import opened Lateness
  import opened Rebasing
  import opened Saturation
  import Bits

  // ---------- Long service intervals ----------

  // With intervals of n or more, an (n + 1)-th part on top of the rate pays.
  lemma LongPays(work: nat, rate: nat, n: nat, share: nat)
    requires rate != 0 && TIME_SCALE * work <= U64_MAX && 1 <= n <= Interval(work, rate)
    requires (n + 1) * rate <= n * share
    ensures TIME_SCALE * work <= share * Interval(work, rate)
  {
    var x, i := TIME_SCALE * work, Interval(work, rate);
    assert x == rate * (x / rate) + x % rate;
    Scale(rate, x / rate, i);
    Split(rate, i, 1);
    LongArithmetic(x, rate, i, n, share);
  }

  lemma LongArithmetic(x: nat, rate: nat, i: nat, n: nat, share: nat)
    requires x <= rate * (i + 1) && 1 <= n <= i && (n + 1) * rate <= n * share
    ensures x <= share * i
  {
    calc {
      n * x;
    <= { Scale(n, x, rate * (i + 1)); }
      n * (rate * (i + 1));
    == { Split(n * rate, i, 1); }
      n * rate * i + n * rate;
    <= { Scale(rate, n, i); }
      n * rate * i + rate * i;
    == { Split(i, n * rate, rate); }
      (n + 1) * rate * i;
    <= { Scale(i, (n + 1) * rate, n * share); }
      n * share * i;
    }
    Order(n, x, share * i);
  }

  // The shares are larger than the rates by an n-th part. (Shares(s) is twice the rates.)
  ghost predicate Exceeds(s: Sched, share: map<nat, nat>, n: nat) {
    Covers(s, share) && forall id | id in s.entries :: (n + 1) * Shares(s)[id] <= 2 * n * share[id]
  }

  // All sessions that arrive have intervals of n or more.
  ghost predicate LongRun(s: Sched, events: seq<Event>, n: nat)
    requires IsRun(s, events)
    decreases events
  {
    events == [] ||
    (&& (events[0].Arrive? ==> n <= NewSession(s, events[0].entry, events[0].work, events[0].data).interval)
     && LongRun(Apply(s, events[0]), events[1..], n))
  }

  lemma SharesStay(s: Sched, e: Event)
    requires Enabled(s, e)
    ensures Shares(Apply(s, e)) == Shares(s) && Apply(s, e).order == s.order
      && Apply(s, e).entries.Keys == s.entries.Keys
  {
    hide MinStart, Delta;
    if e.Arrive? {
      ArriveFrame(s, e);
    } else {
      var t := Advance(Take(s, e.i), s.queue[e.i].work);
      assert Shares(t) == Shares(s);
      if t.v >= REBASE_THRESHOLD {
        ShiftFrame(t, t.v / 2);
      }
    }
  }

  lemma LongIsPaid(s: Sched, e: Event, share: map<nat, nat>, n: nat, lmax: nat)
    requires Enabled(s, e) && Lateness.Fitting(s, e, lmax) && TIME_SCALE * lmax <= U64_MAX
    requires n >= 1 && Exceeds(s, share, n)
    requires e.Arrive? ==> n <= NewSession(s, e.entry, e.work, e.data).interval
    ensures PaidFor(s, e, share)
  {
    if e.Arrive? {
      var rate := ServiceRate(s, s.entries[e.entry]);
      assert Shares(s)[e.entry] == 2 * rate;
      Halve((n + 1) * rate, n * share[e.entry], n + 1, rate, n, share[e.entry]);
      LongPays(e.work, rate, n, share[e.entry]);
    }
  }

  lemma Halve(a: nat, b: nat, k: nat, x: nat, m: nat, y: nat)
    requires a == k * x && b == m * y && k * (2 * x) <= 2 * m * y
    ensures a <= b
  {
  }

  lemma {:induction false} LongRunIsPaid(s: Sched, events: seq<Event>, share: map<nat, nat>, n: nat, lmax: nat)
    requires IsRun(s, events) && FittingRun(s, events, lmax) && TIME_SCALE * lmax <= U64_MAX
    requires n >= 1 && Exceeds(s, share, n) && LongRun(s, events, n)
    ensures PaidRun(s, events, share)
    decreases events
  {
    if events != [] {
      LongIsPaid(s, events[0], share, n, lmax);
      SharesStay(s, events[0]);
      hide Apply, NewSession;
      LongRunIsPaid(Apply(s, events[0]), events[1..], share, n, lmax);
    }
  }

  // With service intervals of n or more the capacity can be booked but for an (n + 1)-th part, and no
  // session is late by more than one largest session.
  lemma BookedInPart(s: Sched, events: seq<Event>, share: map<nat, nat>, n: nat, lmax: nat)
    requires Backed(s, share) && Exceeds(s, share, n) && n >= 1
    requires s.queue == [] && s.v <= U64_MAX && TIME_SCALE * lmax <= U64_MAX
    requires IsRun(s, events) && FittingRun(s, events, lmax) && LongRun(s, events, n)
    ensures var t := Run(s, events);
      forall x :: x in t.queue ==>
        t.capacity * t.v + TIME_SCALE * x.work <= t.capacity * x.finish + TIME_SCALE * lmax
  {
    LongRunIsPaid(s, events, share, n, lmax);
    LatenessAtShares(s, events, share, lmax);
  }

  // ---------- Full booking with intervals that divide ----------

  function ServiceRates(s: Sched): map<nat, nat> {
    map id | id in s.entries :: ServiceRate(s, s.entries[id])
  }

  // The rate of each session that arrives divides its scaled work.
  ghost predicate ExactRun(s: Sched, events: seq<Event>)
    requires IsRun(s, events)
    decreases events
  {
    events == [] ||
    (&& (events[0].Arrive? ==> TIME_SCALE * events[0].work % ServiceRate(s, s.entries[events[0].entry]) == 0)
     && ExactRun(Apply(s, events[0]), events[1..]))
  }

  lemma ExactIsPaid(s: Sched, e: Event, lmax: nat)
    requires Enabled(s, e) && Lateness.Fitting(s, e, lmax) && TIME_SCALE * lmax <= U64_MAX
    requires e.Arrive? ==> TIME_SCALE * e.work % ServiceRate(s, s.entries[e.entry]) == 0
    ensures PaidFor(s, e, ServiceRates(s))
  {
    if e.Arrive? {
      var rate, x := ServiceRate(s, s.entries[e.entry]), TIME_SCALE * e.work;
      assert x == rate * (x / rate) + x % rate;
      Scale(rate, x / rate, Interval(e.work, rate));
    }
  }

  lemma RatesStay(s: Sched, e: Event)
    requires Enabled(s, e)
    ensures ServiceRates(Apply(s, e)) == ServiceRates(s)
  {
    SharesStay(s, e);
    var t := Apply(s, e);
    hide Apply, ServiceRate;
    forall id | id in s.entries
      ensures id in t.entries && ServiceRate(t, t.entries[id]) == ServiceRate(s, s.entries[id])
    {
      assert Shares(t)[id] == Shares(s)[id];
    }
  }

  lemma {:induction false} ExactRunIsPaid(s: Sched, events: seq<Event>, lmax: nat)
    requires IsRun(s, events) && FittingRun(s, events, lmax) && TIME_SCALE * lmax <= U64_MAX && ExactRun(s, events)
    ensures PaidRun(s, events, ServiceRates(s))
    decreases events
  {
    if events != [] {
      ExactIsPaid(s, events[0], lmax);
      RatesStay(s, events[0]);
      hide Apply, NewSession, ServiceRates, ServiceRate;
      ExactRunIsPaid(Apply(s, events[0]), events[1..], lmax);
    }
  }

  // With rates that divide the scaled work, the capacity can be booked in full.
  lemma BookedInFull(s: Sched, events: seq<Event>, lmax: nat)
    requires Backed(s, ServiceRates(s)) && s.queue == [] && s.v <= U64_MAX && TIME_SCALE * lmax <= U64_MAX
    requires IsRun(s, events) && FittingRun(s, events, lmax) && ExactRun(s, events)
    ensures var t := Run(s, events);
      forall x :: x in t.queue ==>
        t.capacity * t.v + TIME_SCALE * x.work <= t.capacity * x.finish + TIME_SCALE * lmax
  {
    ExactRunIsPaid(s, events, lmax);
    LatenessAtShares(s, events, ServiceRates(s), lmax);
  }

  // ---------- Full booking with intervals that do not divide ----------

  // Three rates that add up to a capacity of 2^20; sessions of work 1 have intervals 2, 2 and 3.
  const THIRD: nat := 349526
  const REST: nat := 349524

  function RateOf(id: nat): nat {
    if id < 2 then THIRD else REST
  }

  function StepOf(id: nat): nat {
    if id < 2 then 2 else 3
  }

  function EntryAt(id: nat, count: nat): Entry {
    Entry(Rate(RateOf(id)), RateOf(id), StepOf(id) * count)
  }

  // The scheduler after counts[id] sessions of each entry have arrived.
  function Loaded(counts: seq<nat>, q: seq<Session>): Sched
    requires |counts| == 3
  {
    Sched(TIME_SCALE, 4, 16, 0, 0, q,
          map[0 := EntryAt(0, counts[0]), 1 := EntryAt(1, counts[1]), 2 := EntryAt(2, counts[2])],
          [2, 1, 0], 0, TIME_SCALE)
  }

  function FullCalls(): seq<Call> {
    [ConfigureEntry(0, Rate(THIRD), true), ConfigureEntry(1, Rate(THIRD), true), ConfigureEntry(2, Rate(REST), true)]
  }

  // One of the rates is configured, and two.
  function OneBooked(): Sched {
    Sched(TIME_SCALE, 4, 16, 0, 0, [], map[0 := EntryAt(0, 0)], [0], 0, THIRD)
  }

  function TwoBooked(): Sched {
    Sched(TIME_SCALE, 4, 16, 0, 0, [], map[0 := EntryAt(0, 0), 1 := EntryAt(1, 0)], [1, 0], 0, 2 * THIRD)
  }

  lemma RateIsBooked(s: Sched, id: nat, rate: nat)
    requires id !in s.entries && id < s.maxEntries && rate > 0 && s.allocatedRate + rate <= s.capacity <= U64_MAX
    requires forall k | k in s.entries :: s.entries[k].allocation.Rate?
    ensures Configure(s, id, Rate(rate), true) ==
      (s.(entries := s.entries[id := Entry(Rate(rate), rate, 0)], order := [id] + s.order,
          allocatedRate := s.allocatedRate + rate),
       Success)
  {
    var c := Charge(s, id, Rate(rate));
    assert Recalculate(c).entries == c.entries;
  }

  lemma FullReached()
    ensures AreCalls(Empty(TIME_SCALE, 4, 16), FullCalls())
    ensures AfterAll(Empty(TIME_SCALE, 4, 16), FullCalls()) == Loaded([0, 0, 0], [])
  {
    hide Configure;
    var calls := FullCalls();
    RateIsBooked(Empty(TIME_SCALE, 4, 16), 0, THIRD);
    RateIsBooked(OneBooked(), 1, THIRD);
    RateIsBooked(TwoBooked(), 2, REST);
    var s1 := After(Empty(TIME_SCALE, 4, 16), calls[0]);
    assert s1 == OneBooked();
    assert After(s1, calls[1]) == TwoBooked();
    assert calls[1..][1..] == [calls[2]];
  }

  lemma FullIsBooked(counts: seq<nat>, q: seq<Session>)
    requires |counts| == 3
    ensures var s := Loaded(counts, q); Backed(s, ServiceRates(s)) && Total(s.order, ServiceRates(s)) == s.capacity
  {
    hide RateFor, Total;
    var s := Loaded(counts, q);
    ThreeTotal(ServiceRates(s));
  }

  lemma ThreeTotal(m: map<nat, nat>)
    requires 0 in m && 1 in m && 2 in m
    ensures Total([2, 1, 0], m) == m[2] + m[1] + m[0]
  {
    assert [2, 1, 0][1..] == [1, 0] && [1, 0][1..] == [0] && [0][1..] == [];
    assert Total([0], m) == m[0] && Total([1, 0], m) == m[1] + m[0];
  }

  lemma StepsAre(id: nat)
    requires id < 3
    ensures Interval(1, RateOf(id)) == StepOf(id) && GroupIndex(StepOf(id)) < 16
  {
  }

  // One more session of an entry arrives.
  lemma LoadOne(counts: seq<nat>, q: seq<Session>, id: nat)
    requires |counts| == 3 && id < 3 && StepOf(id) * (counts[id] + 1) < U64_MAX
    ensures var s, e := Loaded(counts, q), Arrive(id, 1, 0);
      && Enabled(s, e) && Lateness.Fitting(s, e, 1)
      && Apply(s, e) == Loaded(counts[id := counts[id] + 1],
           q + [Session(id, 1, 0, StepOf(id), StepOf(id) * counts[id], StepOf(id) * (counts[id] + 1))])
  {
    hide Interval, GroupIndex;
    StepsAre(id);
    var s, e := Loaded(counts, q), Arrive(id, 1, 0);
    assert ServiceRate(s, s.entries[id]) == RateOf(id);
    Split(StepOf(id), counts[id], 1);
    var counts' := counts[id := counts[id] + 1];
    assert Apply(s, e).entries == Loaded(counts', []).entries;
  }

  lemma {:induction false} FittingAppend(s: Sched, events: seq<Event>, e: Event, lmax: nat)
    requires IsRun(s, events) && FittingRun(s, events, lmax)
    requires Enabled(Run(s, events), e) && Lateness.Fitting(Run(s, events), e, lmax)
    ensures IsRun(s, events + [e]) && FittingRun(s, events + [e], lmax)
    decreases events
  {
    RunAppend(s, events, e);
    hide Enabled, Apply, Lateness.Fitting;
    if events == [] {
      assert [e][1..] == [];
    } else {
      FittingAppend(Apply(s, events[0]), events[1..], e, lmax);
      assert (events + [e])[1..] == events[1..] + [e];
    }
  }

  // All sessions are of work 1 and finish by d.
  predicate Due(q: seq<Session>, d: nat) {
    forall x :: x in q ==> x.work == 1 && x.start <= x.finish <= d
  }

  // A run that comes to a state.
  ghost predicate Reaches(s: Sched, events: seq<Event>, t: Sched) {
    IsRun(s, events) && FittingRun(s, events, 1) && Run(s, events) == t
  }

  // n sessions of an entry arrive.
  lemma {:induction false} LoadMany(s: Sched, before: seq<Event>, counts: seq<nat>, q: seq<Session>, id: nat,
                                    n: nat, d: nat)
    returns (events: seq<Event>, q': seq<Session>)
    requires |counts| == 3 && id < 3 && Reaches(s, before, Loaded(counts, q)) && Due(q, d)
    requires StepOf(id) * (counts[id] + n) <= d < U64_MAX
    ensures Reaches(s, events, Loaded(counts[id := counts[id] + n], q')) && Due(q', d) && |q'| == |q| + n
  {
    hide Reaches, Loaded;
    if n == 0 {
      assert counts[id := counts[id]] == counts;
      events, q' := before, q;
    } else {
      Split(StepOf(id), counts[id] + n - 1, 1);
      events, q' := LoadMany(s, before, counts, q, id, n - 1, d);
      var counts1 := counts[id := counts[id] + (n - 1)];
      events, q' := LoadNext(s, events, counts1, q', id, d);
      assert counts1[id := counts1[id] + 1] == counts[id := counts[id] + n];
    }
  }

  lemma LoadNext(s: Sched, before: seq<Event>, counts: seq<nat>, q: seq<Session>, id: nat, d: nat)
    returns (events: seq<Event>, q': seq<Session>)
    requires |counts| == 3 && id < 3 && Reaches(s, before, Loaded(counts, q)) && Due(q, d)
    requires StepOf(id) * (counts[id] + 1) <= d < U64_MAX
    ensures Reaches(s, events, Loaded(counts[id := counts[id] + 1], q')) && Due(q', d) && |q'| == |q| + 1
  {
    hide Apply, Loaded, Enabled, Lateness.Fitting, IsRun, Run, FittingRun;
    var e := Arrive(id, 1, 0);
    LoadOne(counts, q, id);
    RunAppend(s, before, e);
    FittingAppend(s, before, e, 1);
    Split(StepOf(id), counts[id], 1);
    q' := q + [Session(id, 1, 0, StepOf(id), StepOf(id) * counts[id], StepOf(id) * (counts[id] + 1))];
    events := before + [e];
  }

  // A service of such a queue, whatever its choice, moves virtual time by 1 or more, and not far.
  lemma DrainOne(s: Sched, i: nat, d: nat)
    requires s.capacity == TIME_SCALE && CanServe(s, i) && Due(s.queue, d) && |s.queue| > 1
    requires d <= 0x4000_0000_0000_0000 && s.v <= 0x4000_0000_0000_0000
    ensures var t := Apply(s, Serve(i));
      && t.capacity == TIME_SCALE && Due(t.queue, d) && |t.queue| == |s.queue| - 1
      && s.v + 1 <= t.v <= Max(s.v, d) + 1
  {
    hide MinStart, ChoiceTime, IsBest, RemoveAt;
    var rest := RemoveAt(s.queue, i);
    RemovedIndex(s.queue, i);
    RemovedFrom(s.queue, i);
    ChoiceIsDue(s, d);
    assert rest[0] in rest;
    MinStartIsLeast(rest);
    assert Delta(TIME_SCALE, 1) == 1;
  }

  lemma ChoiceIsDue(s: Sched, d: nat)
    requires Due(s.queue, d) && s.queue != []
    ensures s.v <= ChoiceTime(s) <= Max(s.v, d)
  {
    hide MinStart, AnyEligible;
    MinStartIsLeast(s.queue);
    assert s.queue[0] in s.queue;
  }

  // Serving n sessions of such a queue takes virtual time on by n or more, and leaves the rest.
  lemma {:induction false} DrainMany(s: Sched, before: seq<Event>, t: Sched, n: nat, d: nat)
    returns (events: seq<Event>, t': Sched)
    requires Reaches(s, before, t) && t.capacity == TIME_SCALE && Due(t.queue, d) && n < |t.queue|
    requires t.v == 0 && d + n <= 0x4000_0000_0000_0000
    ensures Reaches(s, events, t') && t'.capacity == TIME_SCALE && Due(t'.queue, d) && |t'.queue| == |t.queue| - n
    ensures n <= t'.v <= d + n
  {
    if n == 0 {
      events, t' := before, t;
    } else {
      var r;
      events, r := DrainMany(s, before, t, n - 1, d);
      WorkConserving(r);
      var i: nat :| CanServe(r, i);
      DrainOne(r, i, d);
      hide Apply, CanServe;
      RunAppend(s, events, Serve(i));
      FittingAppend(s, events, Serve(i), 1);
      events, t' := events + [Serve(i)], Apply(r, Serve(i));
    }
  }

  // With rates that do not divide, full booking goes wrong without bound: eight sessions are due in
  // six units of virtual time, each worth one unit. For every k some run of sessions of work 1 ends
  // with one that is late by 2k - 1.
  lemma FullBookingLags(k: nat) returns (events: seq<Event>)
    requires 1 <= k < 0x100_0000_0000_0000
    ensures var s := Loaded([0, 0, 0], []);
      && IsRun(s, events) && FittingRun(s, events, 1)
      && exists x :: x in Run(s, events).queue && Run(s, events).v >= x.finish + 2 * k - 1
  {
    hide Reaches, Loaded, IsRun, Run, FittingRun;
    var s, d := Loaded([0, 0, 0], []), 6 * k;
    StartReaches();
    var q;
    events, q := LoadMany(s, [], [0, 0, 0], [], 0, 3 * k, d);
    events, q := LoadMany(s, events, [0, 0, 0][0 := 3 * k], q, 1, 3 * k, d);
    events, q := LoadMany(s, events, [0, 0, 0][0 := 3 * k][1 := 3 * k], q, 2, 2 * k, d);
    LoadedIs([0, 0, 0][0 := 3 * k][1 := 3 * k][2 := 2 * k], q);
    var t;
    events, t := DrainMany(s, events, Loaded([0, 0, 0][0 := 3 * k][1 := 3 * k][2 := 2 * k], q), 8 * k - 1, d);
    ReachesMeans(s, events, t);
    assert t.queue[0] in t.queue;
  }

  lemma StartReaches()
    ensures Reaches(Loaded([0, 0, 0], []), [], Loaded([0, 0, 0], []))
  {
  }

  lemma LoadedIs(counts: seq<nat>, q: seq<Session>)
    requires |counts| == 3
    ensures var s := Loaded(counts, q); s.queue == q && s.v == 0 && s.capacity == TIME_SCALE
  {
  }

  lemma ReachesMeans(s: Sched, events: seq<Event>, t: Sched)
    requires Reaches(s, events, t)
    ensures IsRun(s, events) && FittingRun(s, events, 1) && Run(s, events) == t
  {
  }
}
