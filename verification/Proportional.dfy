/**
 Proportional service: over any stretch of a run during which an entry stays busy, the service
 intervals served to it add up to the virtual time that has gone by, give or take a constant.
 Hence two busy entries are served alike, however long the stretch.
 */
module Proportional {
  import opened Machine
  import opened Wfq
  import opened Lateness
  import opened TimeLaws

  // ---------- Service intervals still queued ----------

  function Part(x: Session, e: nat): nat {
    if x.entry == e then x.interval else 0
  }

  // Service intervals of entry e queued at positions k and later.
  function Queued(queue: seq<Session>, k: nat, e: nat): nat {
    if |queue| <= k then 0 else Queued(queue[..|queue| - 1], k, e) + Part(queue[|queue| - 1], e)
  }

  lemma QueuedAppend(queue: seq<Session>, k: nat, e: nat, x: Session)
    requires k <= |queue|
    ensures Queued(queue + [x], k, e) == Queued(queue, k, e) + Part(x, e)
  {
    assert (queue + [x])[..|queue|] == queue;
  }

  lemma {:induction false} QueuedRemove(queue: seq<Session>, i: nat, k: nat, e: nat)
    requires i < |queue|
    ensures k <= i ==> Queued(queue, k, e) == Queued(RemoveAt(queue, i), k, e) + Part(queue[i], e)
    ensures i < k ==> Queued(RemoveAt(queue, i), k - 1, e) == Queued(queue, k, e)
  {
    var front, n := queue[..|queue| - 1], |queue| - 1;
    var r := RemoveAt(queue, i);
    if i == n {
      assert r == front;
    } else {
      QueuedRemove(front, i, k, e);
      assert r[..|r| - 1] == RemoveAt(front, i) && r[|r| - 1] == queue[n];
    }
  }

  lemma {:induction false} QueuedStep(queue: seq<Session>, k: nat, e: nat)
    requires k < |queue|
    ensures Queued(queue, k, e) == Part(queue[k], e) + Queued(queue, k + 1, e)
  {
    if |queue| > k + 1 {
      QueuedStep(queue[..|queue| - 1], k, e);
    }
  }

  lemma {:induction false} QueuedHead(queue: seq<Session>, k: nat, e: nat)
    requires k <= |queue|
    ensures (forall j | 0 <= j < k :: queue[j].entry != e) ==> Queued(queue, 0, e) == Queued(queue, k, e)
  {
    if k > 0 {
      QueuedHead(queue, k - 1, e);
      QueuedStep(queue, k - 1, e);
    }
  }

  lemma QueuedFrom(queue: seq<Session>, k: nat, e: nat)
    requires k < |queue|
    ensures Queued(queue, k, e) == Part(queue[k], e) + Queued(queue, k + 1, e)
    ensures (forall j | 0 <= j < k :: queue[j].entry != e) ==> Queued(queue, 0, e) == Queued(queue, k, e)
  {
    QueuedStep(queue, k, e);
    QueuedHead(queue, k, e);
  }

  lemma {:induction false} QueuedShift(queue: seq<Session>, k: nat, e: nat, offset: nat)
    ensures Queued(ShiftQueue(queue, offset), k, e) == Queued(queue, k, e)
  {
    if |queue| > k {
      QueuedShift(queue[..|queue| - 1], k, e, offset);
      var r := ShiftQueue(queue, offset);
      assert r[..|r| - 1] == ShiftQueue(queue[..|queue| - 1], offset);
    }
  }

  // ---------- An entry's last finish time is made of its queued intervals ----------

  // From session k on, the entry's intervals follow each other up to its last finish time, with
  // gaps that together are no longer than the lateness bound.
  ghost predicate TightAt(s: Sched, lmax: nat, k: nat)
    requires k < |s.queue| && s.queue[k].entry in s.entries
  {
    var e := s.queue[k].entry;
    var sum := s.queue[k].finish + Queued(s.queue, k + 1, e);
    && sum <= s.entries[e].lastFinish
    && s.capacity * s.entries[e].lastFinish <= s.capacity * sum + TIME_SCALE * lmax
  }

  ghost predicate Tight(s: Sched, lmax: nat) {
    && (forall x :: x in s.queue ==> x.entry in s.entries && x.start < x.finish < U64_MAX)
    && forall k | 0 <= k < |s.queue| :: TightAt(s, lmax, k)
  }

  ghost predicate State(s: Sched, lmax: nat, longest: map<nat, nat>) {
    Inv(s, lmax) && Ordered(s) && Leads(s, longest) && Tight(s, lmax)
  }

  lemma LatenessOf(s: Sched, lmax: nat, x: Session)
    requires Inv(s, lmax) && x in s.queue
    ensures s.capacity * s.v + TIME_SCALE * x.work <= s.capacity * x.finish + TIME_SCALE * lmax
  {
    EachOnTime(s, lmax);
  }

  lemma TightArriveAt(s: Sched, e: Event, lmax: nat, k: nat)
    requires Inv(s, lmax) && Tight(s, lmax) && Enabled(s, e) && e.Arrive? && Fitting(s, e, lmax)
    requires k < |s.queue|
    ensures TightAt(Apply(s, e), lmax, k)
  {
    hide Inv;
    var x := NewSession(s, e.entry, e.work, e.data);
    var id := s.queue[k].entry;
    ArriveFrame(s, e);
    QueuedAppend(s.queue, k + 1, id, x);
    assert TightAt(s, lmax, k);
    LatenessOf(s, lmax, s.queue[k]);
    var sum := s.queue[k].finish + Queued(s.queue, k + 1, id);
    if id == e.entry {
      assert x.finish == Max(s.v, s.entries[id].lastFinish) + x.interval;
      hide Tight, Apply, Queued, NewSession;
      GapBound(s.capacity, s.queue[k].finish, sum, s.entries[id].lastFinish, s.v, x.interval,
               x.finish, sum + x.interval, TIME_SCALE * lmax);
    }
  }

  lemma GapBound(c: nat, finish: nat, sum: nat, last: nat, v: nat, interval: nat, last': nat, sum': nat, bound: nat)
    requires finish <= sum <= last && c * last <= c * sum + bound
    requires c * v <= c * finish + bound
    requires last' == Max(v, last) + interval && sum' == sum + interval
    ensures sum' <= last' && c * last' <= c * sum' + bound
  {
    Split(c, Max(v, last), interval);
    Split(c, sum, interval);
    Scale(c, finish, sum);
  }

  lemma TightArrive(s: Sched, e: Event, lmax: nat)
    requires Inv(s, lmax) && Tight(s, lmax) && Enabled(s, e) && e.Arrive? && Fitting(s, e, lmax)
    ensures Tight(Apply(s, e), lmax)
  {
    forall k | 0 <= k <= |s.queue|
      ensures TightAt(Apply(s, e), lmax, k)
    {
      if k < |s.queue| {
        TightArriveAt(s, e, lmax, k);
      }
    }
  }

  // The served session is the first of its entry, so it is in nobody's tail.
  lemma TightTakeAt(s: Sched, i: nat, v': nat, lmax: nat, k: nat)
    requires Tight(s, lmax) && Ordered(s) && i < |s.queue| && k < |s.queue| - 1
    requires forall j | 0 <= j < i :: s.queue[j].entry != s.queue[i].entry
    ensures TightAt(s.(v := v', queue := RemoveAt(s.queue, i)), lmax, k)
  {
    hide Ordered, Eligible;
    var oldK := if k < i then k else k + 1;
    assert RemoveAt(s.queue, i)[k] == s.queue[oldK];
    assert TightAt(s, lmax, oldK);
    QueuedRemove(s.queue, i, oldK + 1, s.queue[oldK].entry);
  }

  lemma TightTake(s: Sched, i: nat, v': nat, lmax: nat)
    requires Tight(s, lmax) && Ordered(s) && CanServe(s, i)
    ensures Tight(s.(v := v', queue := RemoveAt(s.queue, i)), lmax)
  {
    FifoPerEntry(s, [], i);
    assert s.queue[i] in s.queue;
    RemovedFrom(s.queue, i);
    forall k | 0 <= k < |s.queue| - 1
      ensures TightAt(s.(v := v', queue := RemoveAt(s.queue, i)), lmax, k)
    {
      TightTakeAt(s, i, v', lmax, k);
    }
  }

  lemma TightShiftAt(s: Sched, offset: nat, lmax: nat, k: nat)
    requires Tight(s, lmax) && offset <= s.v && k < |s.queue| && offset < s.queue[k].finish
    ensures TightAt(Shift(s, offset), lmax, k)
  {
    var e := s.queue[k].entry;
    assert TightAt(s, lmax, k);
    QueuedShift(s.queue, k + 1, e, offset);
    var sum := s.queue[k].finish + Queued(s.queue, k + 1, e);
    Split(s.capacity, sum - offset, offset);
    Split(s.capacity, s.entries[e].lastFinish - offset, offset);
  }

  lemma TightShift(s: Sched, offset: nat, lmax: nat)
    requires Tight(s, lmax) && offset <= s.v && forall x :: x in s.queue ==> offset < x.finish
    ensures Tight(Shift(s, offset), lmax)
  {
    var s' := Shift(s, offset);
    forall x | x in s'.queue
      ensures x.entry in s'.entries && x.start < x.finish < U64_MAX
    {
      var k :| 0 <= k < |s'.queue| && s'.queue[k] == x;
      assert s.queue[k] in s.queue;
    }
    forall k | 0 <= k < |s'.queue|
      ensures TightAt(s', lmax, k)
    {
      assert s.queue[k] in s.queue;
      TightShiftAt(s, offset, lmax, k);
    }
  }

  // Virtual time that one largest session takes is far less than a rebase offset.
  predicate SmallSessions(capacity: nat, lmax: nat) {
    TIME_SCALE * lmax <= capacity * 0x4000_0000_0000_0000 && TIME_SCALE * lmax <= U64_MAX
  }

  // So no finish time is clamped.
  lemma RebaseClampsNoFinish(s: Sched, lmax: nat)
    requires Inv(s, lmax) && SmallSessions(s.capacity, lmax) && s.v >= REBASE_THRESHOLD
    ensures forall x :: x in s.queue ==> s.v / 2 < x.finish
  {
    forall x | x in s.queue
      ensures s.v / 2 < x.finish
    {
      LatenessOf(s, lmax, x);
      if x.finish <= s.v / 2 {
        Split(s.capacity, s.v / 2, s.v - s.v / 2);
        Scale(s.capacity, x.finish, s.v / 2);
        Scale(s.capacity, 0x4000_0000_0000_0000, s.v - s.v / 2);
      }
    }
  }

  lemma StateServe(s: Sched, i: nat, lmax: nat, longest: map<nat, nat>)
    requires State(s, lmax, longest) && SmallSessions(s.capacity, lmax) && CanServe(s, i)
    ensures State(Apply(s, Serve(i)), lmax, longest)
    ensures var t := Advance(Take(s, i), s.queue[i].work);
      t.v >= REBASE_THRESHOLD ==> forall x :: x in t.queue ==> t.v / 2 < x.finish
  {
    var t := Advance(Take(s, i), s.queue[i].work);
    ServeAdvanceKeeps(s, i, lmax);
    ApplyKeeps(s, Serve(i), lmax);
    OrderedServe(s, i);
    LeadsServe(s, i, longest);
    TightTake(s, i, t.v, lmax);
    assert t == s.(v := t.v, queue := RemoveAt(s.queue, i));
    if t.v >= REBASE_THRESHOLD {
      RebaseClampsNoFinish(t, lmax);
      TightShift(t, t.v / 2, lmax);
    }
  }

  lemma StateArrive(s: Sched, e: Event, lmax: nat, longest: map<nat, nat>)
    requires State(s, lmax, longest) && SmallSessions(s.capacity, lmax)
    requires Enabled(s, e) && e.Arrive? && Fitting(s, e, lmax)
    requires e.entry in longest && NewSession(s, e.entry, e.work, e.data).interval <= longest[e.entry]
    ensures State(Apply(s, e), lmax, longest)
  {
    ArriveKeeps(s, e, lmax);
    OrderedArrive(s, e);
    LeadsArrive(s, e, longest);
    TightArrive(s, e, lmax);
  }

  lemma {:induction false} StateRun(s: Sched, events: seq<Event>, lmax: nat, longest: map<nat, nat>)
    requires State(s, lmax, longest) && SmallSessions(s.capacity, lmax)
    requires IsRun(s, events) && FittingRun(s, events, lmax) && IntervalsWithin(s, events, longest)
    ensures State(Run(s, events), lmax, longest)
    decreases events
  {
    if events != [] {
      match events[0] {
        case Arrive(_, _, _) => StateArrive(s, events[0], lmax, longest);
        case Serve(i) => StateServe(s, i, lmax, longest);
      }
      StateRun(Apply(s, events[0]), events[1..], lmax, longest);
    }
  }

  // ---------- The theorem ----------

  // Where service of entry e stands: its last finish time, unrebased, less what is still queued.
  function Position(s: Sched, e: nat): int
    requires e in s.entries
  {
    s.entries[e].lastFinish + s.epoch - Queued(s.queue, 0, e)
  }

  predicate HasQueued(s: Sched, e: nat) {
    exists x :: x in s.queue && x.entry == e
  }

  lemma {:induction false} FirstOf(queue: seq<Session>, e: nat) returns (k: nat)
    requires exists x :: x in queue && x.entry == e
    ensures k < |queue| && queue[k].entry == e && forall j | 0 <= j < k :: queue[j].entry != e
  {
    if queue[0].entry == e {
      k := 0;
    } else {
      assert queue == [queue[0]] + queue[1..];
      k := FirstOf(queue[1..], e);
      k := k + 1;
    }
  }

  // Service of an entry with queued sessions stands within a constant of virtual time.
  lemma PositionBound(s: Sched, e: nat, lmax: nat, longest: map<nat, nat>)
    requires State(s, lmax, longest) && HasQueued(s, e)
    ensures e in s.entries && e in longest
    ensures var ahead := Position(s, e) - (s.v + s.epoch);
      -(s.capacity * longest[e] + TIME_SCALE * lmax) <= s.capacity * ahead
        <= s.capacity * longest[e] + TIME_SCALE * lmax
  {
    hide Inv;
    var k := HeadPlace(s, e, longest);
    var x, tail := s.queue[k], Queued(s.queue, k + 1, e);
    assert TightAt(s, lmax, k);
    LatenessOf(s, lmax, x);
    hide State, Queued, HasQueued;
    PositionArithmetic(s.capacity, s.v, x.finish, x.interval, tail, s.entries[e].lastFinish, longest[e],
                       TIME_SCALE * lmax, Position(s, e) - (s.v + s.epoch));
  }

  lemma HeadPlace(s: Sched, e: nat, longest: map<nat, nat>) returns (k: nat)
    requires Leads(s, longest) && HasQueued(s, e)
    ensures k < |s.queue| && s.queue[k] in s.queue && s.queue[k].entry == e && e in s.entries && e in longest
    ensures Queued(s.queue, 0, e) == s.queue[k].interval + Queued(s.queue, k + 1, e)
    ensures s.queue[k].interval <= longest[e] && s.queue[k].finish - s.queue[k].interval <= s.v + longest[e]
  {
    k := FirstOf(s.queue, e);
    assert s.queue[k] in s.queue && HeadLeads(s, longest, k);
    QueuedFrom(s.queue, k, e);
  }

  lemma PositionArithmetic(c: nat, v: int, finish: int, interval: int, tail: int, last: int, m: int, bound: int,
                           ahead: int)
    requires interval <= m && finish - interval <= v + m
    requires finish + tail <= last && c * last <= c * (finish + tail) + bound
    requires c * v <= c * finish + bound
    requires ahead == last - (interval + tail) - v
    ensures -(c * m + bound) <= c * ahead <= c * m + bound
  {
    SplitInt(c, last - (finish + tail), finish - interval - v);
    SplitInt(c, last, -(finish + tail));
    SplitInt(c, finish, -v);
    SplitInt(c, finish - v, -interval);
    ScaleInt(c, finish - interval - v, m);
    ScaleInt(c, interval, m);
    ScaleInt(c, 0, last - (finish + tail));
  }

  lemma SplitInt(k: nat, a: int, b: int)
    ensures k * (a + b) == k * a + k * b
    ensures k * (-b) == -(k * b)
  {
  }

  lemma ScaleInt(k: nat, a: int, b: int)
    requires a <= b
    ensures k * a <= k * b
  {
  }

  // Entry e stays busy: it always has a session queued, and its new sessions arrive before virtual
  // time has passed its last finish time, so that they follow on without a gap.
  ghost predicate Busy(s: Sched, events: seq<Event>, e: nat)
    requires IsRun(s, events)
    decreases events
  {
    && e in s.entries && HasQueued(s, e)
    && (events == [] ||
        (&& (events[0].Arrive? && events[0].entry == e ==> s.v <= s.entries[e].lastFinish)
         && Busy(Apply(s, events[0]), events[1..], e)))
  }

  // Sum of the service intervals of the sessions of entry e served in the run.
  function Served(s: Sched, events: seq<Event>, e: nat): nat
    requires IsRun(s, events)
    decreases events
  {
    if events == [] then 0
    else
      (if events[0].Serve? then Part(s.queue[events[0].i], e) else 0) + Served(Apply(s, events[0]), events[1..], e)
  }

  lemma RebaseKeepsPosition(s: Sched, e: nat)
    requires e in s.entries && Chained(s.queue, Lasts(s)) && HasQueued(s, e)
    requires s.v >= REBASE_THRESHOLD ==> forall x :: x in s.queue ==> s.v / 2 < x.finish
    ensures e in Rebase(s).entries && Position(Rebase(s), e) == Position(s, e)
  {
    QueuedShift(s.queue, 0, e, s.v / 2);
    var x :| x in s.queue && x.entry == e;
    assert x.finish <= Lasts(s)[e];
  }

  lemma {:induction false} StillQueued(s: Sched, e: nat)
    requires HasQueued(Rebase(s), e)
    ensures HasQueued(s, e)
  {
    var t := Rebase(s);
    var x :| x in t.queue && x.entry == e;
    var k :| 0 <= k < |t.queue| && t.queue[k] == x;
    assert s.queue[k] in s.queue && s.queue[k].entry == e;
  }

  lemma ServeMovesPosition(s: Sched, i: nat, e: nat, lmax: nat, longest: map<nat, nat>)
    requires State(s, lmax, longest) && SmallSessions(s.capacity, lmax) && CanServe(s, i)
    requires e in s.entries && HasQueued(Apply(s, Serve(i)), e)
    ensures var s' := Apply(s, Serve(i));
      e in s'.entries && Position(s', e) == Position(s, e) + Part(s.queue[i], e)
  {
    var t := Advance(Take(s, i), s.queue[i].work);
    StateServe(s, i, lmax, longest);
    StillQueued(t, e);
    OrderedServe(s, i);
    QueuedRemove(s.queue, i, 0, e);
    RebaseKeepsPosition(t, e);
  }

  lemma ArriveKeepsPosition(s: Sched, ev: Event, e: nat)
    requires Enabled(s, ev) && ev.Arrive? && e in s.entries
    requires ev.entry == e ==> s.v <= s.entries[e].lastFinish
    requires NewSession(s, ev.entry, ev.work, ev.data).finish < U64_MAX
    ensures Position(Apply(s, ev), e) == Position(s, e)
  {
    QueuedAppend(s.queue, 0, e, NewSession(s, ev.entry, ev.work, ev.data));
  }

  lemma {:induction false} PositionMoves(s: Sched, events: seq<Event>, e: nat, lmax: nat, longest: map<nat, nat>)
    requires State(s, lmax, longest) && SmallSessions(s.capacity, lmax)
    requires IsRun(s, events) && FittingRun(s, events, lmax) && IntervalsWithin(s, events, longest)
    requires Busy(s, events, e)
    ensures e in Run(s, events).entries && HasQueued(Run(s, events), e)
    ensures Position(Run(s, events), e) == Position(s, e) + Served(s, events, e)
    decreases events
  {
    assert events != [] ==> Apply(s, events[0]).capacity == s.capacity;
    hide State, NewSession, Position, Apply, HasQueued, Queued;
    if events != [] {
      match events[0] {
        case Arrive(_, _, _) =>
          StateArrive(s, events[0], lmax, longest);
          ArriveKeepsPosition(s, events[0], e);
        case Serve(i) =>
          StateServe(s, i, lmax, longest);
          ServeMovesPosition(s, i, e, lmax, longest);
      }
      PositionMoves(Apply(s, events[0]), events[1..], e, lmax, longest);
    }
  }

  // Unrebased virtual time that passes in a run.
  function Elapsed(s: Sched, events: seq<Event>): int
    requires IsRun(s, events)
  {
    Run(s, events).v + Run(s, events).epoch - (s.v + s.epoch)
  }

  lemma {:induction false} SameCapacity(s: Sched, events: seq<Event>)
    requires IsRun(s, events)
    ensures Run(s, events).capacity == s.capacity
    decreases events
  {
    if events != [] {
      SameCapacity(Apply(s, events[0]), events[1..]);
    }
  }

  // While an entry stays busy, the intervals served to it follow virtual time.
  lemma ServiceFollowsTime(s: Sched, events: seq<Event>, e: nat, lmax: nat, longest: map<nat, nat>)
    requires State(s, lmax, longest) && SmallSessions(s.capacity, lmax)
    requires IsRun(s, events) && FittingRun(s, events, lmax) && IntervalsWithin(s, events, longest)
    requires Busy(s, events, e)
    ensures e in longest
    ensures var bound := 2 * (s.capacity * longest[e] + TIME_SCALE * lmax);
      -bound <= s.capacity * (Served(s, events, e) - Elapsed(s, events)) <= bound
  {
    hide State, Position, Served, Run, IsRun;
    var t := Run(s, events);
    StateRun(s, events, lmax, longest);
    PositionMoves(s, events, e, lmax, longest);
    PositionBound(s, e, lmax, longest);
    PositionBound(t, e, lmax, longest);
    SameCapacity(s, events);
    Change(s.capacity, Position(s, e) - (s.v + s.epoch), Position(t, e) - (t.v + t.epoch),
           s.capacity * longest[e] + TIME_SCALE * lmax, Served(s, events, e) - Elapsed(s, events));
  }

  lemma Change(c: nat, a: int, b: int, bound: int, d: int)
    requires -bound <= c * a <= bound && -bound <= c * b <= bound && d == b - a
    ensures -(2 * bound) <= c * d <= 2 * bound
  {
    SplitInt(c, b, -a);
    SplitInt(c, 0, a);
  }

  // An idle scheduler that meets the hypotheses; longest bounds the intervals of its entries.
  ghost predicate Start(s: Sched, lmax: nat, longest: map<nat, nat>) {
    && Guaranteed(s) && s.queue == [] && s.v <= U64_MAX && SmallSessions(s.capacity, lmax)
    && forall id :: id in s.entries ==>
         && id in longest
         && s.entries[id].lastFinish <= U64_MAX && s.entries[id].lastFinish <= s.v + longest[id]
  }

  lemma StartState(s: Sched, lmax: nat, longest: map<nat, nat>)
    requires Start(s, lmax, longest)
    ensures State(s, lmax, longest)
  {
    IdleInv(s, lmax);
    forall id | id in s.entries
      ensures LastLeads(s, longest, id)
    {
    }
  }

  // Proportional service: take any run from an idle scheduler, and after it any stretch during
  // which entries e and f both stay busy. The service intervals served to the two differ by at
  // most a constant, whatever the length of the stretch.
  lemma ProportionalService(s: Sched, before: seq<Event>, stretch: seq<Event>, e: nat, f: nat,
                            lmax: nat, longest: map<nat, nat>)
    requires Start(s, lmax, longest)
    requires IsRun(s, before) && FittingRun(s, before, lmax) && IntervalsWithin(s, before, longest)
    requires var t := Run(s, before);
      && IsRun(t, stretch) && FittingRun(t, stretch, lmax) && IntervalsWithin(t, stretch, longest)
      && Busy(t, stretch, e) && Busy(t, stretch, f)
    ensures e in longest && f in longest
    ensures var t := Run(s, before);
      var bound := 2 * s.capacity * (longest[e] + longest[f]) + 4 * TIME_SCALE * lmax;
      -bound <= s.capacity * (Served(t, stretch, e) - Served(t, stretch, f)) <= bound
  {
    hide State, Served, Busy, Run, IsRun, FittingRun, IntervalsWithin;
    var t := Run(s, before);
    StartState(s, lmax, longest);
    StateRun(s, before, lmax, longest);
    SameCapacity(s, before);
    ServiceFollowsTime(t, stretch, e, lmax, longest);
    ServiceFollowsTime(t, stretch, f, lmax, longest);
    Difference(s.capacity, Served(t, stretch, e), Served(t, stretch, f), Elapsed(t, stretch), longest[e], longest[f],
               TIME_SCALE * lmax);
  }

  lemma Difference(c: nat, x: int, y: int, t: int, m: int, n: int, bound: int)
    requires -(2 * (c * m + bound)) <= c * (x - t) <= 2 * (c * m + bound)
    requires -(2 * (c * n + bound)) <= c * (y - t) <= 2 * (c * n + bound)
    ensures -(2 * c * (m + n) + 4 * bound) <= c * (x - y) <= 2 * c * (m + n) + 4 * bound
  {
    SplitInt(c, x - t, -(y - t));
    SplitInt(c, y - t, 0);
    SplitInt(c, m, n);
    SplitInt(2 * c, m, n);
  }
}
