/**
 A session overtaking an earlier one of its own entry: a run of arrivals and services comes to it by
 a rebase, and the calendar queue does answer the later session.
 */
module Overtaking {
  import opened Machine
  import opened Wfq
  import opened Lateness
  import opened TimeLaws
  import opened Rebasing
  import opened Saturation
  import opened Calendars
  import Bits

  // A capacity of 3 that a rate books in full, and weights besides, each of which is charged at the
  // least rate there is.
  const WEIGHTS: nat := 13
  // A session of a weight moves virtual time by UNIT and takes three times that.
  const SHORT_WORK: nat := 2100000000000
  const UNIT: nat := 734003200000000000
  // A session of the rate takes a little longer.
  const LONG_WORK: nat := 6300000000002
  const STEP: nat := 2202009600000699050

  function Earlier(): Session {
    Session(0, LONG_WORK, 0, STEP, 0, STEP)
  }

  function Later(): Session {
    Session(0, LONG_WORK, 1, STEP, STEP, 2 * STEP)
  }

  function Other(id: nat): Session {
    Session(id, SHORT_WORK, 0, 3 * UNIT, 0, 3 * UNIT)
  }

  function Others(m: nat): seq<Session> {
    if m == 0 then [] else Others(m - 1) + [Other(m)]
  }

  function Down(n: nat): seq<nat> {
    if n == 0 then [0] else [n] + Down(n - 1)
  }

  // n weights are configured, and the last finish times are that of the rate and of the first m.
  function EntryOf(id: nat, last: nat, m: nat): Entry {
    if id == 0 then Entry(Rate(3), 3, last) else Entry(Weight(1), 1, if id <= m then 3 * UNIT else 0)
  }

  function Entries(n: nat, last: nat, m: nat): map<nat, Entry> {
    map id: nat {:trigger EntryOf(id, last, m)} | 0 <= id <= n :: EntryOf(id, last, m)
  }

  function State(n: nat, last: nat, m: nat, queue: seq<Session>, v: nat): Sched {
    Sched(3, 16, 16, v, 0, queue, Entries(n, last, m), Down(n), n, 3)
  }

  // ---------- Configuration ----------

  function ConfigCalls(n: nat): seq<Call> {
    if n == 0 then [ConfigureEntry(0, Rate(3), true)] else ConfigCalls(n - 1) + [ConfigureEntry(n, Weight(1), true)]
  }

  lemma FirstConfigured()
    ensures Configure(Empty(3, 16, 16), 0, Rate(3), true) == (State(0, 0, 0, [], 0), Success)
  {
    var c := Charge(Empty(3, 16, 16), 0, Rate(3));
    assert c.order == Down(0) && c.entries == Entries(0, 0, 0);
    assert Recalculate(c).entries == Entries(0, 0, 0);
  }

  // The next weight is entered, before rates are recalculated.
  function Entered(n: nat): Sched {
    State(n + 1, 0, 0, [], 0).(entries := Entries(n, 0, 0)[n + 1 := Entry(Weight(1), 0, 0)])
  }

  lemma NextEntered(n: nat)
    requires n < WEIGHTS
    ensures Charge(State(n, 0, 0, [], 0), n + 1, Weight(1)) == Entered(n)
  {
  }

  lemma NextRated(n: nat)
    requires n < WEIGHTS
    ensures Recalculate(Entered(n)) == State(n + 1, 0, 0, [], 0)
  {
    assert EffectiveRate(Entered(n), Weight(1)) == 1;
    assert Recalculate(Entered(n)).entries == Entries(n + 1, 0, 0);
  }

  lemma NextConfigured(n: nat)
    requires n < WEIGHTS
    ensures Configure(State(n, 0, 0, [], 0), n + 1, Weight(1), true) == (State(n + 1, 0, 0, [], 0), Success)
  {
    hide Charge, Recalculate, Entered;
    NextEntered(n);
    NextRated(n);
  }

  lemma {:induction false} ConfigReached(n: nat)
    requires n <= WEIGHTS
    ensures AreCalls(Empty(3, 16, 16), ConfigCalls(n))
    ensures AfterAll(Empty(3, 16, 16), ConfigCalls(n)) == State(n, 0, 0, [], 0)
  {
    hide Configure;
    if n == 0 {
      FirstConfigured();
    } else {
      ConfigReached(n - 1);
      NextConfigured(n - 1);
      hide State, After;
      ConfigureIsCall(State(n - 1, 0, 0, [], 0), n);
      CallsAppend(Empty(3, 16, 16), ConfigCalls(n - 1), ConfigureEntry(n, Weight(1), true));
    }
  }

  lemma ConfigureIsCall(s: Sched, n: nat)
    ensures After(s, ConfigureEntry(n, Weight(1), true)) == Configure(s, n, Weight(1), true).0
  {
  }

  // ---------- Arrivals ----------

  lemma LargeGroup(n: nat)
    requires n >= 65536
    ensures GroupIndex(n) == 15
  {
    hide Log2;
    assert Bits.Pow2(4) == 16 && Bits.Pow2(8) == 256 && Bits.Pow2(12) == 4096 && Bits.Pow2(16) == 65536;
    LogIsLarge(n, 16);
  }

  lemma IntervalsAre()
    ensures Interval(LONG_WORK, 3) == STEP && Interval(SHORT_WORK, 1) == 3 * UNIT
    ensures Delta(3, SHORT_WORK) == UNIT
  {
  }

  // The rate's two sessions, and then one of each of m weights.
  function Arrivals(m: nat): seq<Event> {
    if m == 0 then [Arrive(0, LONG_WORK, 0), Arrive(0, LONG_WORK, 1)]
    else Arrivals(m - 1) + [Arrive(m, SHORT_WORK, 0)]
  }

  function Both(): seq<Session> {
    [Earlier(), Later()]
  }

  function Arrived(m: nat): Sched {
    State(WEIGHTS, 2 * STEP, m, Both() + Others(m), 0)
  }

  lemma LongArrives(last: nat, queue: seq<Session>, data: nat)
    requires last + STEP < U64_MAX
    ensures var s := State(WEIGHTS, last, 0, queue, 0);
      && EnqueueStatus(s, 0, LONG_WORK) == Success
      && Wfq.Enqueue(s, 0, LONG_WORK, data)
         == State(WEIGHTS, last + STEP, 0, queue + [Session(0, LONG_WORK, data, STEP, last, last + STEP)], 0)
  {
    hide Interval, GroupIndex;
    IntervalsAre();
    LargeGroup(STEP);
    var s := State(WEIGHTS, last, 0, queue, 0);
    assert ServiceRate(s, s.entries[0]) == 3;
    assert Wfq.Enqueue(s, 0, LONG_WORK, data).entries == Entries(WEIGHTS, last + STEP, 0);
  }

  lemma ShortArrives(m: nat)
    requires m < WEIGHTS
    ensures EnqueueStatus(Arrived(m), m + 1, SHORT_WORK) == Success
    ensures Wfq.Enqueue(Arrived(m), m + 1, SHORT_WORK, 0) == Arrived(m + 1)
  {
    hide Interval, GroupIndex;
    IntervalsAre();
    LargeGroup(3 * UNIT);
    var s := Arrived(m);
    assert ServiceRate(s, s.entries[m + 1]) == 1;
    var t := Wfq.Enqueue(s, m + 1, SHORT_WORK, 0);
    assert t.entries == Entries(WEIGHTS, 2 * STEP, m + 1);
    assert t.queue == Both() + Others(m + 1);
  }

  lemma {:induction false} ArrivalsReach(m: nat)
    requires m <= WEIGHTS
    ensures IsRun(State(WEIGHTS, 0, 0, [], 0), Arrivals(m))
      && Run(State(WEIGHTS, 0, 0, [], 0), Arrivals(m)) == Arrived(m)
  {
    hide EnqueueStatus, Wfq.Enqueue, State;
    if m == 0 {
      LongArrives(0, [], 0);
      LongArrives(STEP, [Earlier()], 1);
      BothArrive();
    } else {
      ArrivalsReach(m - 1);
      ShortArrives(m - 1);
      RunAppend(State(WEIGHTS, 0, 0, [], 0), Arrivals(m - 1), Arrive(m, SHORT_WORK, 0));
    }
  }

  lemma BothArrive()
    ensures [] + [Earlier()] == [Earlier()] && [Earlier()] + [Later()] == Both() == Both() + Others(0)
    ensures Arrivals(0)[1..] == [Arrive(0, LONG_WORK, 1)] && Arrivals(0)[1..][1..] == []
  {
  }

  // ---------- Services ----------

  // The sessions of the weights finish first and are served, the last one first.
  function Services(k: nat): seq<Event>
    requires k <= WEIGHTS
  {
    if k == 0 then Arrivals(WEIGHTS) else Services(k - 1) + [Serve(WEIGHTS - k + 2)]
  }

  function Served(k: nat): Sched
    requires k <= WEIGHTS
  {
    State(WEIGHTS, 2 * STEP, WEIGHTS, Both() + Others(WEIGHTS - k), k * UNIT)
  }

  lemma {:induction false} OthersAre(m: nat)
    ensures |Others(m)| == m
    ensures forall x :: x in Others(m) ==> x.work == SHORT_WORK && x.start == 0 && x.finish == 3 * UNIT
  {
    if m > 0 {
      OthersAre(m - 1);
    }
  }

  // What stays at the head of the queue starts at 0.
  lemma LeastIsZero(queue: seq<Session>)
    requires queue != [] && queue[0].start == 0
    ensures MinStart(queue) == 0
  {
    MinStartIsLeast(queue);
    assert queue[0] in queue;
  }

  lemma QueueIs(m: nat)
    requires m > 0
    ensures var q := Both() + Others(m);
      && |q| == m + 2 && q[0] == Earlier() && q[m + 1] == Other(m)
      && RemoveAt(q, m + 1) == Both() + Others(m - 1) && |Others(m - 1)| == m - 1
      && MinStart(q) == 0 && MinStart(Both() + Others(m - 1)) == 0
      && forall x :: x in q ==> 3 * UNIT <= x.finish
  {
    hide MinStart;
    OthersAre(m);
    OthersAre(m - 1);
    LeastIsZero(Both() + Others(m));
    LeastIsZero(Both() + Others(m - 1));
    var q := Both() + Others(m);
    assert q[m + 1] == Other(m);
    assert RemoveAt(q, m + 1) == Both() + Others(m - 1);
  }

  lemma LastIsBest(k: nat)
    requires k < WEIGHTS
    ensures var s, i := Served(k), WEIGHTS - k + 1;
      CanServe(s, i) && s.queue[i].work == SHORT_WORK && ChoiceTime(s) == s.v
  {
    hide MinStart, RemoveAt, Others, Both, Entries;
    QueueIs(WEIGHTS - k);
    var s := Served(k);
    assert s.queue[0] in s.queue && Eligible(s.queue[0], s.v);
  }

  lemma ServeLast(k: nat)
    requires k < WEIGHTS
    ensures var s, i := Served(k), WEIGHTS - k + 1;
      && CanServe(s, i) && s.queue[i].work == SHORT_WORK
      && Advance(Take(s, i), SHORT_WORK) == Served(k + 1)
  {
    hide MinStart, Delta, RemoveAt, Others, Both, Entries, ChoiceTime, IsBest;
    LastIsBest(k);
    QueueIs(WEIGHTS - k);
    IntervalsAre();
  }

  // All but the last come before virtual time is far enough to rebase.
  lemma ServeStep(k: nat)
    requires k + 1 < WEIGHTS
    ensures Enabled(Served(k), Serve(WEIGHTS - k + 1)) && Apply(Served(k), Serve(WEIGHTS - k + 1)) == Served(k + 1)
  {
    hide IsBest, Advance, Take, Served;
    ServeLast(k);
    ServedTime(k + 1);
  }

  lemma ServedTime(k: nat)
    requires k <= WEIGHTS
    ensures Served(k).v == k * UNIT
  {
  }

  lemma {:induction false} ServicesReach(k: nat)
    requires k < WEIGHTS
    ensures IsRun(State(WEIGHTS, 0, 0, [], 0), Services(k))
      && Run(State(WEIGHTS, 0, 0, [], 0), Services(k)) == Served(k)
  {
    hide Enabled, Apply, Arrivals, Others, State;
    if k == 0 {
      ArrivalsReach(WEIGHTS);
    } else {
      ServicesReach(k - 1);
      ServeStep(k - 1);
      RunAppend(State(WEIGHTS, 0, 0, [], 0), Services(k - 1), Serve(WEIGHTS - k + 2));
    }
  }

  // The two sessions after the rebase: all their times are zero.
  function Clamped(): seq<Session> {
    [Earlier().(start := 0, finish := 0), Later().(start := 0, finish := 0)]
  }

  const OFFSET: nat := WEIGHTS * UNIT / 2

  lemma LastClamps()
    ensures Rebase(Served(WEIGHTS)).queue == Clamped()
  {
    assert Both() + Others(0) == Both();
    assert ShiftQueue(Both(), OFFSET) == Clamped();
  }

  lemma ClampedServes(s: Sched)
    requires s.queue == Clamped()
    ensures CanServe(s, 0) && CanServe(s, 1)
  {
    assert s.queue[0] in s.queue && Eligible(s.queue[0], s.v);
  }

  // From the empty scheduler: the entries are configured, sessions arrive and are served, the last
  // service rebases, and now a dequeue may answer the second session of an entry before its first.
  lemma RunOvertakes()
    ensures AreCalls(Empty(3, 16, 16), ConfigCalls(WEIGHTS))
    ensures var s := AfterAll(Empty(3, 16, 16), ConfigCalls(WEIGHTS));
      && IsRun(s, Services(WEIGHTS) + [Serve(1)])
      && IsRun(s, Services(WEIGHTS)) && Run(s, Services(WEIGHTS)).queue == Clamped()
  {
    hide IsBest, Advance, Take, Rebase, State, RemoveAt, Served;
    var s, e := State(WEIGHTS, 0, 0, [], 0), Serve(2);
    ConfigReached(WEIGHTS);
    ServicesReach(WEIGHTS - 1);
    ServeLast(WEIGHTS - 1);
    RunAppend(s, Services(WEIGHTS - 1), e);
    LastClamps();
    ClampedServes(Run(s, Services(WEIGHTS)));
    RunAppend(s, Services(WEIGHTS), Serve(1));
  }

  // ---------- The calendar queue ----------

  lemma BinsAre()
    ensures BinOffset(STEP, 15, 2048) == 1365 && BinOffset(2 * STEP, 15, 2048) == 682
  {
    assert Bits.Pow2(4) == 16 && Bits.Pow2(8) == 256 && Bits.Pow2(12) == 4096 && Bits.Pow2(16) == 65536;
  }

  method FileBoth() returns (calendar: Calendar, earlier: SessionNode, later: SessionNode)
    ensures calendar.Valid() && calendar.nodes == [earlier, later] && calendar.minStart != U64_MAX
    ensures fresh(calendar) && fresh(earlier) && fresh(later) && earlier != later
    ensures earlier.Value() == Earlier() && later.Value() == Later() && later.binIndex < earlier.binIndex
  {
    hide BinOffset, Calendar.Valid;
    LargeGroup(STEP);
    BinsAre();
    calendar := new Calendar(16, 2048);
    earlier := new SessionNode(Earlier());
    later := new SessionNode(Later());
    var status := calendar.Insert(earlier);
    status := calendar.Insert(later);
    assert calendar.nodes == [earlier, later];
    CachedFirst(calendar, earlier);
  }

  lemma CachedFirst(calendar: Calendar, n: SessionNode)
    requires calendar.Valid() && n in calendar.nodes
    ensures calendar.minStart <= n.start
  {
  }

  // The calendar queue resolves the tie: the bin of the later session is searched first.
  method SearchOvertakes() returns (earlier: SessionNode, later: SessionNode, answer: SessionNode?)
    ensures [earlier.Value(), later.Value()] == Clamped()
    ensures answer == later != earlier
  {
    hide Calendar.Valid, Values;
    var calendar;
    calendar, earlier, later := FileBoth();
    TimesFit(earlier, later);
    calendar.Rebase(OFFSET);
    answer := calendar.FindEligible(OFFSET);
    ValuesMembers(calendar.nodes);
    assert earlier in calendar.nodes && Eligible(earlier.Value(), OFFSET);
    assert later in calendar.nodes && Eligible(later.Value(), OFFSET);
  }

  lemma TimesFit(earlier: SessionNode, later: SessionNode)
    requires earlier.Value() == Earlier() && later.Value() == Later()
    ensures earlier.start <= earlier.finish && later.start <= later.finish
    ensures ShiftSession(earlier.Value(), OFFSET) == Clamped()[0]
    ensures ShiftSession(later.Value(), OFFSET) == Clamped()[1]
  {
  }
}
