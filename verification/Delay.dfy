/**
 How long a session waits: the lateness bound turned into a bound on the work served, and on the
 services, between now and the time the session is served.
 */
module Delays {
  import opened Machine
  import opened Wfq
  import opened Lateness
  import opened TimeLaws
  import opened Proportional

  // Work of the sessions served in a run.
  function WorkServed(s: Sched, events: seq<Event>): nat
    requires IsRun(s, events)
    decreases events
  {
    if events == [] then 0
    else
      (if events[0].Serve? then s.queue[events[0].i].work else 0) + WorkServed(Apply(s, events[0]), events[1..])
  }

  function Services(events: seq<Event>): nat {
    if events == [] then 0 else (if events[0].Serve? then 1 else 0) + Services(events[1..])
  }

  // Where the session at position k of the queue is after an event that does not serve it.
  function PlaceAfter(k: nat, e: Event): nat {
    if e.Serve? && e.i < k then k - 1 else k
  }

  function Place(k: nat, events: seq<Event>): nat {
    if events == [] then k else Place(PlaceAfter(k, events[0]), events[1..])
  }

  // The session at position k of the queue is not served during the run.
  predicate Waits(s: Sched, events: seq<Event>, k: nat)
    requires IsRun(s, events)
    decreases events
  {
    && k < |s.queue|
    && (events == [] || (events[0] != Serve(k) && Waits(Apply(s, events[0]), events[1..], PlaceAfter(k, events[0]))))
  }

  // A state of a run whose service intervals are so short that virtual time does not saturate.
  ghost predicate Gentle(s: Sched, lmax: nat, longest: map<nat, nat>) {
    && Inv(s, lmax) && Ordered(s) && Leads(s, longest) && SmallSessions(s.capacity, lmax)
    && s.v <= 0x8000_0000_0000_0000
    && forall id | id in longest :: longest[id] < 0x4000_0000_0000_0000
  }

  // An idle scheduler whose shares fit and whose service intervals are short.
  ghost predicate Idle(s: Sched, lmax: nat, longest: map<nat, nat>) {
    && Start(s, lmax, longest) && s.v <= 0x8000_0000_0000_0000
    && forall id | id in longest :: longest[id] < 0x4000_0000_0000_0000
  }

  lemma IdleIsGentle(s: Sched, lmax: nat, longest: map<nat, nat>)
    requires Idle(s, lmax, longest)
    ensures Gentle(s, lmax, longest)
  {
    hide Inv, Tight;
    StartState(s, lmax, longest);
  }

  // ---------- One service ----------

  // The first session of the queue starts within one interval of virtual time.
  lemma ChoiceIsNear(s: Sched, i: nat, longest: map<nat, nat>)
    requires Ordered(s) && Leads(s, longest) && CanServe(s, i)
    ensures exists id :: id in longest && s.v <= ChoiceTime(s) <= s.v + longest[id]
  {
    hide Chained;
    var x := s.queue[0];
    assert x in s.queue && HeadLeads(s, longest, 0);
    MinStartIsLeast(s.queue);
    assert s.v <= ChoiceTime(s) <= s.v + longest[x.entry];
  }

  lemma DeltaMeans(s: Sched, work: nat, lmax: nat)
    requires s.capacity > 0 && SmallSessions(s.capacity, lmax) && work <= lmax
    ensures 1 <= Delta(s.capacity, work) <= 0x4000_0000_0000_0000
    ensures TIME_SCALE * work <= s.capacity * Delta(s.capacity, work) + s.capacity
  {
    var n := TIME_SCALE * work;
    assert Wrap64(work * TIME_SCALE) == n;
    assert n == s.capacity * (n / s.capacity) + n % s.capacity;
    Scale(s.capacity, n / s.capacity, Delta(s.capacity, work));
    if n / s.capacity > 0x4000_0000_0000_0000 {
      Scale(s.capacity, 0x4000_0000_0000_0001, n / s.capacity);
    }
  }

  // Far from the end of its range virtual time advances in full, and rebasing keeps it unrebased.
  lemma TimeAfter(s: Sched, i: nat, d: nat)
    requires i < |s.queue| && d == Delta(s.capacity, s.queue[i].work) && d <= 0x4000_0000_0000_0000
    requires s.v <= ChoiceTime(s) < 0xC000_0000_0000_0000
    ensures var s' := Update(Take(s, i), s.queue[i].work);
      s'.v <= 0x8000_0000_0000_0000 && s'.capacity == s.capacity && s.v + s.epoch + d <= s'.v + s'.epoch
  {
    hide Delta, ChoiceTime, MinStart, RemoveAt;
    MinStartIsLeast(Take(s, i).queue);
  }

  // A service moves virtual time by what the work served is worth, or more.
  lemma ServeMovesTime(s: Sched, i: nat, lmax: nat, longest: map<nat, nat>)
    requires Gentle(s, lmax, longest) && CanServe(s, i)
    ensures var s', c, d := Apply(s, Serve(i)), s.capacity, Delta(s.capacity, s.queue[i].work);
      && s'.v <= 0x8000_0000_0000_0000 && s'.capacity == c
      && i < |s.queue| && d >= 1 && s.v + s.epoch + d <= s'.v + s'.epoch
      && TIME_SCALE * s.queue[i].work + c * (s.v + s.epoch) <= c * (s'.v + s'.epoch) + c
  {
    hide Chained, OnTime, Leads, ChoiceTime, Update, Take;
    var d := Delta(s.capacity, s.queue[i].work);
    assert s.queue[i] in s.queue;
    DeltaMeans(s, s.queue[i].work, lmax);
    ChoiceIsNear(s, i, longest);
    TimeAfter(s, i, d);
    hide Delta, Ordered, Inv, Gentle, CanServe, SmallSessions;
    var s' := Apply(s, Serve(i));
    Scale2(s.capacity, s.v + s.epoch, d, s'.v + s'.epoch);
  }

  // The sessions that wait keep their finish times, unrebased.
  lemma ServeKeepsFinish(s: Sched, i: nat, k: nat, lmax: nat, longest: map<nat, nat>)
    requires Gentle(s, lmax, longest) && CanServe(s, i) && k < |s.queue| && k != i
    ensures var s', k' := Apply(s, Serve(i)), PlaceAfter(k, Serve(i));
      && k' < |s'.queue|
      && s'.queue[k'].finish + s'.epoch == s.queue[k].finish + s.epoch
      && s'.queue[k'].entry == s.queue[k].entry && s'.queue[k'].work == s.queue[k].work
      && s'.queue[k'].data == s.queue[k].data
  {
    hide Inv, Ordered, Leads;
    ServeAdvanceKeeps(s, i, lmax);
    var t, k' := Advance(Take(s, i), s.queue[i].work), PlaceAfter(k, Serve(i));
    RemovedIndex(s.queue, i);
    hide RemoveAt, MinStart, Delta;
    assert t.queue[k'] == s.queue[k];
    assert t.queue[k'] in t.queue;
    if t.v >= REBASE_THRESHOLD {
      RebaseClampsNoFinish(t, lmax);
    }
  }

  lemma GentleApply(s: Sched, e: Event, lmax: nat, longest: map<nat, nat>)
    requires Gentle(s, lmax, longest) && Enabled(s, e) && Fitting(s, e, lmax)
    requires e.Arrive? ==>
      e.entry in longest && NewSession(s, e.entry, e.work, e.data).interval <= longest[e.entry]
    ensures Gentle(Apply(s, e), lmax, longest) && Apply(s, e).capacity == s.capacity
  {
    hide Inv, Ordered, Leads;
    ApplyKeeps(s, e, lmax);
    match e
    case Arrive(_, _, _) =>
      OrderedArrive(s, e);
      LeadsArrive(s, e, longest);
    case Serve(i) =>
      OrderedServe(s, i);
      LeadsServe(s, i, longest);
      ServeMovesTime(s, i, lmax, longest);
  }

  // ---------- A wait ----------

  lemma {:induction false} WaitKeeps(s: Sched, events: seq<Event>, k: nat, lmax: nat, longest: map<nat, nat>)
    requires Gentle(s, lmax, longest) && IsRun(s, events) && FittingRun(s, events, lmax)
    requires IntervalsWithin(s, events, longest) && Waits(s, events, k)
    ensures var t, k' := Run(s, events), Place(k, events);
      && Gentle(t, lmax, longest) && t.capacity == s.capacity && k' < |t.queue|
      && t.queue[k'].finish + t.epoch == s.queue[k].finish + s.epoch
      && t.queue[k'].work == s.queue[k].work
      && s.v + s.epoch + Services(events) <= t.v + t.epoch
      && TIME_SCALE * WorkServed(s, events) + s.capacity * (s.v + s.epoch)
         <= s.capacity * (t.v + t.epoch) + s.capacity * Services(events)
    decreases events
  {
    hide Gentle, CanServe, Delta, Update, Take;
    if events != [] {
      var e := events[0];
      var s' := Apply(s, e);
      GentleApply(s, e, lmax, longest);
      WaitKeeps(s', events[1..], PlaceAfter(k, e), lmax, longest);
      match e {
        case Arrive(_, _, _) =>
        case Serve(i) =>
          ServeMovesTime(s, i, lmax, longest);
          ServeKeepsFinish(s, i, k, lmax, longest);
          Accounted(s.capacity, TIME_SCALE, s.queue[i].work, WorkServed(s', events[1..]), Services(events[1..]));
      }
    }
  }

  lemma Accounted(c: nat, k: nat, a: nat, b: nat, n: nat)
    ensures k * (a + b) == k * a + k * b && c * (1 + n) == c + c * n
  {
  }

  // Bounded delay: take any run from an idle scheduler, and after it any stretch during which a
  // queued session x is not served. The work served in the stretch, together with that of x, is no
  // more than the capacity serves in the virtual time from now to x's finish time, give or take one
  // largest session and what the n services lose to rounding; and n itself is bounded.
  lemma BoundedDelay(s: Sched, before: seq<Event>, wait: seq<Event>, k: nat, lmax: nat, longest: map<nat, nat>)
    requires Idle(s, lmax, longest)
    requires IsRun(s, before) && FittingRun(s, before, lmax) && IntervalsWithin(s, before, longest)
    requires var t := Run(s, before);
      IsRun(t, wait) && FittingRun(t, wait, lmax) && IntervalsWithin(t, wait, longest) && Waits(t, wait, k)
    ensures var t, n := Run(s, before), Services(wait);
      var x := t.queue[k];
      && TIME_SCALE * (WorkServed(t, wait) + x.work) + s.capacity * t.v
         <= s.capacity * x.finish + TIME_SCALE * lmax + s.capacity * n
      && s.capacity * n + s.capacity * t.v + TIME_SCALE * x.work <= s.capacity * x.finish + TIME_SCALE * lmax
  {
    hide Gentle, Run, IsRun, FittingRun, IntervalsWithin, Waits, WorkServed;
    IdleIsGentle(s, lmax, longest);
    GentleRun(s, before, lmax, longest);
    WaitBound(Run(s, before), wait, k, lmax, longest);
  }

  lemma {:induction false} GentleRun(s: Sched, events: seq<Event>, lmax: nat, longest: map<nat, nat>)
    requires Gentle(s, lmax, longest) && IsRun(s, events) && FittingRun(s, events, lmax)
    requires IntervalsWithin(s, events, longest)
    ensures Gentle(Run(s, events), lmax, longest) && Run(s, events).capacity == s.capacity
    decreases events
  {
    hide Gentle;
    if events != [] {
      GentleApply(s, events[0], lmax, longest);
      GentleRun(Apply(s, events[0]), events[1..], lmax, longest);
    }
  }

  lemma WaitBound(s: Sched, wait: seq<Event>, k: nat, lmax: nat, longest: map<nat, nat>)
    requires Gentle(s, lmax, longest) && IsRun(s, wait) && FittingRun(s, wait, lmax)
    requires IntervalsWithin(s, wait, longest) && Waits(s, wait, k)
    ensures k < |s.queue| && var x, n := s.queue[k], Services(wait);
      && TIME_SCALE * (WorkServed(s, wait) + x.work) + s.capacity * s.v
         <= s.capacity * x.finish + TIME_SCALE * lmax + s.capacity * n
      && s.capacity * n + s.capacity * s.v + TIME_SCALE * x.work <= s.capacity * x.finish + TIME_SCALE * lmax
  {
    hide Inv, Run, IsRun, FittingRun, IntervalsWithin, WorkServed, Place;
    WaitKeeps(s, wait, k, lmax, longest);
    var t, k' := Run(s, wait), Place(k, wait);
    LatenessOf(t, lmax, t.queue[k']);
    Balance(s.capacity, s.v, s.epoch, t.v, t.epoch, s.queue[k].finish, t.queue[k'].finish, Services(wait),
            TIME_SCALE * WorkServed(s, wait), TIME_SCALE * s.queue[k].work, TIME_SCALE * lmax);
  }

  lemma Balance(c: nat, v: nat, ep: nat, v': nat, ep': nat, finish: nat, finish': nat, n: nat, served: nat,
                work: nat, most: nat)
    requires finish' + ep' == finish + ep && v + ep + n <= v' + ep'
    requires served + c * (v + ep) <= c * (v' + ep') + c * n
    requires c * v' + work <= c * finish' + most
    ensures served + work + c * v <= c * finish + most + c * n
    ensures c * n + c * v + work <= c * finish + most
  {
    Split(c, v, ep);
    Split(c, v', ep');
    Split(c, finish, ep);
    Split(c, finish', ep');
    Split(c, v + ep, n);
    Scale(c, v + ep + n, v' + ep');
  }

  // ---------- An entry that comes back at once ----------

  // Entry e has one session queued, at position p; all sessions are of the same work.
  predicate Alone(s: Sched, e: nat, p: Option<nat>, work: nat) {
    && (forall x :: x in s.queue ==> x.work == work)
    && (match p
        case Some(k) => k < |s.queue| && forall j | 0 <= j < |s.queue| :: s.queue[j].entry == e <==> j == k
        case None => forall j | 0 <= j < |s.queue| :: s.queue[j].entry != e)
  }

  // Where the session of an entry that comes back at once is after an event.
  function NextPlace(s: Sched, e: nat, p: Option<nat>, event: Event): Option<nat> {
    match p
    case Some(k) => if event == Serve(k) then None else Some(PlaceAfter(k, event))
    case None => Some(|s.queue|)
  }

  // Entry e always has its one session queued, or has just been served and arrives next.
  predicate Steady(s: Sched, events: seq<Event>, e: nat, p: Option<nat>, work: nat)
    requires IsRun(s, events)
    decreases events
  {
    && Alone(s, e, p, work)
    && (events == [] ==> p.Some?)
    && (events != [] ==>
          && (events[0].Arrive? ==> (p.None? <==> events[0].entry == e))
          && (events[0].Serve? ==> p.Some?)
          && Steady(Apply(s, events[0]), events[1..], e, NextPlace(s, e, p, events[0]), work))
  }

  // How often entry e is served.
  function Turns(s: Sched, events: seq<Event>, e: nat): nat
    requires IsRun(s, events)
    decreases events
  {
    if events == [] then 0
    else
      (if events[0].Serve? && s.queue[events[0].i].entry == e then 1 else 0)
      + Turns(Apply(s, events[0]), events[1..], e)
  }

  // Virtual time until entry e is late; most, while it is not queued.
  function Budget(s: Sched, p: Option<nat>, most: nat): int {
    match p
    case Some(k) => if k < |s.queue| then s.queue[k].finish - s.v else 0
    case None => most
  }

  lemma BudgetIsPositive(s: Sched, e: nat, k: nat, lmax: nat)
    requires Inv(s, lmax) && Alone(s, e, Some(k), lmax)
    ensures s.queue[k].finish >= s.v
  {
    hide OnTime;
    LatenessOf(s, lmax, s.queue[k]);
    Order(s.capacity, s.v, s.queue[k].finish);
  }

  // An entry that arrives with nothing queued finishes within two intervals.
  lemma ArrivesClose(s: Sched, event: Event, longest: map<nat, nat>, m: nat)
    requires Leads(s, longest) && Enabled(s, event) && event.Arrive?
    requires forall j | 0 <= j < |s.queue| :: s.queue[j].entry != event.entry
    requires event.entry in longest && longest[event.entry] <= m
    requires NewSession(s, event.entry, event.work, event.data).interval <= longest[event.entry]
    ensures NewSession(s, event.entry, event.work, event.data).finish <= s.v + 2 * m
  {
    assert LastLeads(s, longest, event.entry);
    assert forall j | 0 <= j < |s.queue| :: s.queue[j].entry != event.entry;
  }

  // What an event does to the budget: a service costs what it serves, a turn of e restores it.
  function Worth(s: Sched, event: Event, e: nat, lmax: nat, m: nat): int
    requires Enabled(s, event)
  {
    if event.Arrive? then 0
    else if s.queue[event.i].entry == e then 2 * m
    else -(Delta(s.capacity, lmax) as int)
  }

  lemma BudgetStep(s: Sched, event: Event, e: nat, p: Option<nat>, lmax: nat, longest: map<nat, nat>, m: nat)
    requires Gentle(s, lmax, longest) && Enabled(s, event) && Alone(s, e, p, lmax)
    requires event.Arrive? ==>
      && (p.None? <==> event.entry == e) && event.entry in longest
      && NewSession(s, event.entry, event.work, event.data).interval <= longest[event.entry]
    requires event.Serve? ==> p.Some?
    requires forall id | id in longest :: longest[id] <= m
    ensures var s' := Apply(s, event);
      Budget(s', NextPlace(s, e, p, event), 2 * m) <= Budget(s, p, 2 * m) + Worth(s, event, e, lmax, m)
  {
    hide Inv, Ordered, Update, Take, Delta;
    match event
    case Arrive(_, _, _) =>
      if p.None? {
        ArrivesClose(s, event, longest, m);
      }
    case Serve(i) =>
      ServeMovesTime(s, i, lmax, longest);
      assert s.queue[i] in s.queue;
      if i == p.value {
        BudgetIsPositive(s, e, i, lmax);
      } else {
        ServeKeepsFinish(s, i, p.value, lmax, longest);
      }
  }

  // While entry e comes back at once, the others are served no more often than its turns allow.
  lemma {:induction false} TurnsBound(s: Sched, events: seq<Event>, e: nat, p: Option<nat>, lmax: nat,
                                      longest: map<nat, nat>, m: nat)
    requires Gentle(s, lmax, longest) && IsRun(s, events) && FittingRun(s, events, lmax)
    requires IntervalsWithin(s, events, longest) && Steady(s, events, e, p, lmax)
    requires forall id | id in longest :: longest[id] <= m
    ensures Turns(s, events, e) <= Services(events)
    ensures Delta(s.capacity, lmax) * (Services(events) - Turns(s, events, e))
            <= Budget(s, p, 2 * m) + 2 * m * Turns(s, events, e)
    decreases events
  {
    hide Gentle, Delta, Budget, NextPlace, CanServe, NewSession, Apply, Alone;
    if events == [] {
      Settled(s, e, p, lmax, longest, m);
    } else {
      var event := events[0];
      var s', p' := Apply(s, event), NextPlace(s, e, p, event);
      GentleApply(s, event, lmax, longest);
      BudgetStep(s, event, e, p, lmax, longest, m);
      TurnsBound(s', events[1..], e, p', lmax, longest, m);
      var n, t := Services(events[1..]), Turns(s', events[1..], e);
      Tally(Delta(s.capacity, lmax), 2 * m, n - t, t);
    }
  }

  lemma Settled(s: Sched, e: nat, p: Option<nat>, lmax: nat, longest: map<nat, nat>, m: nat)
    requires Gentle(s, lmax, longest) && Alone(s, e, p, lmax) && p.Some?
    ensures Budget(s, p, 2 * m) >= 0
  {
    hide Inv, Ordered, Leads;
    BudgetIsPositive(s, e, p.value, lmax);
  }

  lemma Tally(d: nat, m: nat, others: int, turns: int)
    ensures d * (others + 1) == d * others + d && m * (turns + 1) == m * turns + m
  {
  }
}
