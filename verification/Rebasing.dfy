/**
 Work conservation, the monotony of virtual time over every sequence of calls, and the
 transparency of rebasing.
 */
module Rebasing {
  import opened Machine
  import opened Wfq
  import opened Lateness
  import opened TimeLaws

  // ---------- Work conservation ----------

  // Among the sessions eligible at v there is one with the least finish time.
  lemma {:induction false} LeastFinish(queue: seq<Session>, v: nat) returns (i: nat)
    requires AnyEligible(queue, v)
    ensures i < |queue| && Eligible(queue[i], v)
    ensures forall x :: x in queue && Eligible(x, v) ==> queue[i].finish <= x.finish
  {
    var front, last := queue[..|queue| - 1], queue[|queue| - 1];
    assert queue == front + [last];
    if AnyEligible(front, v) {
      i := LeastFinish(front, v);
      if Eligible(last, v) && last.finish < queue[i].finish {
        i := |queue| - 1;
      }
    } else {
      i := |queue| - 1;
    }
  }

  // A dequeue finds a session exactly when some queued session has not saturated and either has
  // been reached by virtual time or starts first of all.
  lemma DequeueFinds(s: Sched)
    requires forall x :: x in s.queue ==> x.start <= x.finish
    ensures (exists i: nat :: CanServe(s, i)) <==>
            (exists x :: x in s.queue && x.finish < U64_MAX
                         && (x.start <= s.v || (!AnyEligible(s.queue, s.v) && x.start == MinStart(s.queue))))
    ensures CanServeNone(s) <==> !exists i: nat :: CanServe(s, i)
  {
    MinStartIsLeast(s.queue);
    var v := ChoiceTime(s);
    if AnyEligible(s.queue, v) {
      var i := LeastFinish(s.queue, v);
      assert CanServe(s, i) && s.queue[i] in s.queue;
    }
    if i: nat :| CanServe(s, i) {
      assert s.queue[i] in s.queue;
    }
    if x :| x in s.queue && x.finish < U64_MAX
            && (x.start <= s.v || (!AnyEligible(s.queue, s.v) && x.start == MinStart(s.queue))) {
      assert Eligible(x, v);
    }
  }

  // Work conservation: with no saturated session, a dequeue answers NULL only on an empty queue.
  lemma WorkConserving(s: Sched)
    requires forall x :: x in s.queue ==> x.start <= x.finish < U64_MAX
    ensures (exists i: nat :: CanServe(s, i)) <==> s.queue != []
    ensures CanServeNone(s) <==> s.queue == []
  {
    DequeueFinds(s);
    MinStartIsLeast(s.queue);
    if s.queue != [] {
      assert s.queue[0] in s.queue;
      if AnyEligible(s.queue, s.v) {
        var i := LeastFinish(s.queue, s.v);
        assert s.queue[i] in s.queue;
      }
    }
  }

  // Virtual time jumps only when nothing is eligible, and then exactly to the least start.
  lemma JumpsToLeastStart(s: Sched)
    requires s.v <= U64_MAX && forall x :: x in s.queue ==> x.start <= x.finish < U64_MAX
    ensures s.v <= ChoiceTime(s)
    ensures ChoiceTime(s) != s.v ==> forall x :: x in s.queue ==> s.v < x.start
    ensures ChoiceTime(s) != s.v ==>
      (exists x :: x in s.queue && x.start == ChoiceTime(s)) && forall x :: x in s.queue ==> ChoiceTime(s) <= x.start
  {
    MinStartIsLeast(s.queue);
  }

  // So a dequeue, whether or not it finds a session, leaves virtual time where it is if some session is
  // eligible or none is queued, and otherwise takes it to the least start if that is later.
  lemma DequeueLands(s: Sched, t: Sched)
    requires s.v <= U64_MAX && forall x :: x in s.queue ==> x.start < U64_MAX
    requires t == TakeNone(s) || exists i: nat :: i < |s.queue| && t == Take(s, i)
    ensures s.v <= t.v && t.epoch == s.epoch
    ensures AnyEligible(s.queue, s.v) || s.queue == [] ==> t.v == s.v
    ensures t.v != s.v ==> exists x :: x in s.queue && x.start == t.v && forall y :: y in s.queue ==> x.start <= y.start
    ensures s.queue != [] ==> AnyEligible(s.queue, s.v) || exists x :: x in s.queue && x.start <= t.v
  {
    MinStartIsLeast(s.queue);
    if s.queue != [] {
      assert s.queue[0] in s.queue;
    }
  }

  // ---------- Where an update takes virtual time ----------

  // Virtual time of t, counted from the origin that s has.
  function TimeFrom(s: Sched, t: Sched): int {
    t.v + t.epoch - s.epoch
  }

  // With sessions queued, an update takes virtual time on by what the work is worth, or to the start
  // of the session that starts first of all, whichever is later. Nothing else meets these conditions.
  lemma UpdateLands(s: Sched, work: nat)
    requires s.v <= U64_MAX && s.queue != [] && forall x :: x in s.queue ==> x.start <= U64_MAX
    ensures var now, served := TimeFrom(s, Update(s, work)), Min(s.v + Delta(s.capacity, work), U64_MAX);
      && served <= now
      && (exists x :: x in s.queue && x.start <= now)
      && (now == served ||
          exists x :: x in s.queue && x.start == now && forall y :: y in s.queue ==> x.start <= y.start)
  {
    hide Delta;
    MinStartIsLeast(s.queue);
    assert s.queue[0] in s.queue;
    var m := MinStart(s.queue);
    assert exists x :: x in s.queue && x.start == m;
  }

  // With nothing queued it takes virtual time to the end of its range.
  lemma UpdateOfNothing(s: Sched, work: nat)
    requires s.v <= U64_MAX && s.queue == []
    ensures TimeFrom(s, Update(s, work)) == U64_MAX
  {
    hide Delta;
  }

  // An update rebases exactly when virtual time has come to 2^63 - 1, and then by half of it.
  lemma RebasesExactly(s: Sched, work: nat)
    requires s.v <= U64_MAX
    ensures var t := Update(s, work);
      var now := TimeFrom(s, t);
      && (t.epoch != s.epoch <==> now >= 0x7FFF_FFFF_FFFF_FFFF)
      && t.epoch == s.epoch + if now >= 0x7FFF_FFFF_FFFF_FFFF then now / 2 else 0
  {
    hide Delta;
    MinStartIsLeast(s.queue);
  }

  // What work is worth in virtual time, to within one unit, but never nothing.
  lemma DeltaIs(capacity: nat, work: nat)
    requires capacity > 0 && TIME_SCALE * work <= U64_MAX
    ensures TIME_SCALE * work < capacity * (Delta(capacity, work) + 1)
    ensures capacity * Delta(capacity, work) <= TIME_SCALE * work || Delta(capacity, work) == 1
    ensures Delta(capacity, work) >= 1
  {
    var n := TIME_SCALE * work;
    assert Wrap64(work * TIME_SCALE) == n;
    assert n == capacity * (n / capacity) + n % capacity;
    Split(capacity, n / capacity, 1);
    Scale(capacity, n / capacity + 1, Delta(capacity, work) + 1);
  }

  // So some queued session can be served as far as virtual time is concerned.
  lemma UpdateReaches(s: Sched, work: nat)
    requires s.v <= U64_MAX && s.queue != [] && forall x :: x in s.queue ==> x.start <= U64_MAX
    ensures var t := Update(s, work); exists x :: x in t.queue && x.start <= t.v
  {
    hide Update, Delta;
    UpdateLands(s, work);
    var x :| x in s.queue && x.start <= TimeFrom(s, Update(s, work));
    UpdateShifts(s, work);
    var k :| 0 <= k < |s.queue| && s.queue[k] == x;
    assert Update(s, work).queue[k] in Update(s, work).queue;
  }

  // An update moves all queued times down alike, by what its epoch gains.
  lemma UpdateShifts(s: Sched, work: nat)
    ensures var t := Update(s, work);
      && t.epoch >= s.epoch && |t.queue| == |s.queue|
      && forall k | 0 <= k < |s.queue| :: t.queue[k] == ShiftSession(s.queue[k], t.epoch - s.epoch)
  {
    hide Delta, MinStart;
  }

  // Over every run, a session that arrives straight after a service starts no earlier than some session
  // that is then queued.
  lemma ArrivesInTurn(s: Sched, events: seq<Event>, i: nat, e: Event)
    requires Ordered(s) && IsRun(s, events)
    requires CanServe(Run(s, events), i)
    requires var u := Apply(Run(s, events), Serve(i)); u.queue != [] && e.Arrive? && Enabled(u, e)
    ensures var u := Apply(Run(s, events), Serve(i));
      exists x :: x in u.queue && x.start <= NewSession(u, e.entry, e.work, e.data).start
  {
    hide Update, MinStart, IsBest;
    OrderedRun(s, events);
    var t := Run(s, events);
    var r := Take(t, i);
    OrderedServe(t, i);
    assert forall x :: x in r.queue ==> x.entry in r.entries && x.start <= x.finish <= r.entries[x.entry].lastFinish;
    UpdateShifts(r, t.queue[i].work);
    UpdateReaches(r, t.queue[i].work);
  }

  // ---------- Virtual time never goes back ----------

  // Every call of the scheduler's interface.
  datatype Call =
    | ConfigureEntry(id: nat, allocation: Allocation, stored: bool)
    | RemoveEntry(id: nat)
    | EnqueueSession(id: nat, work: nat, data: nat)
    | DequeueSession(i: nat)
    | DequeueNothing
    | RemoveSession(i: nat)
    | UpdateTime(work: nat)

  predicate Possible(s: Sched, c: Call) {
    match c
    case ConfigureEntry(_, _, _) => true
    case RemoveEntry(_) => true
    case EnqueueSession(_, _, _) => true
    case DequeueSession(i) => CanServe(s, i)
    case DequeueNothing => CanServeNone(s)
    case RemoveSession(i) => i < |s.queue|
    case UpdateTime(_) => true
  }

  function After(s: Sched, c: Call): Sched
    requires Possible(s, c)
  {
    match c
    case ConfigureEntry(id, a, stored) => Configure(s, id, a, stored).0
    case RemoveEntry(id) => Unconfigure(s, id).0
    case EnqueueSession(id, work, data) =>
      if EnqueueStatus(s, id, work) == Success then Enqueue(s, id, work, data) else s
    case DequeueSession(i) => Take(s, i)
    case DequeueNothing => TakeNone(s)
    case RemoveSession(i) => s.(queue := RemoveAt(s.queue, i))
    case UpdateTime(work) => Update(s, work)
  }

  predicate AreCalls(s: Sched, calls: seq<Call>)
    decreases calls
  {
    calls == [] || (Possible(s, calls[0]) && AreCalls(After(s, calls[0]), calls[1..]))
  }

  function AfterAll(s: Sched, calls: seq<Call>): Sched
    requires AreCalls(s, calls)
    decreases calls
  {
    if calls == [] then s else AfterAll(After(s, calls[0]), calls[1..])
  }

  // An update leaves at least half of the range of virtual time free.
  lemma UpdateLeavesHeadroom(s: Sched, work: nat)
    requires s.v <= U64_MAX
    ensures Update(s, work).v <= 0x8000_0000_0000_0000
    ensures Update(s, work).v + Update(s, work).epoch >= s.v + s.epoch
  {
    MinStartIsLeast(s.queue);
  }

  // Virtual time plus all that rebasing has taken off it never decreases, over any calls.
  lemma {:induction false} MonotoneTime(s: Sched, calls: seq<Call>)
    requires s.v <= U64_MAX && AreCalls(s, calls)
    ensures var t := AfterAll(s, calls);
      s.v + s.epoch <= t.v + t.epoch && t.v <= U64_MAX
    decreases calls
  {
    if calls != [] {
      MinStartIsLeast(s.queue);
      if calls[0].UpdateTime? {
        UpdateLeavesHeadroom(s, calls[0].work);
      }
      MonotoneTime(After(s, calls[0]), calls[1..]);
    }
  }

  // ---------- Rebasing is transparent ----------

  lemma ShiftMembers(queue: seq<Session>, offset: nat)
    ensures forall x :: x in queue ==> ShiftSession(x, offset) in ShiftQueue(queue, offset)
    ensures forall y :: y in ShiftQueue(queue, offset) ==> exists x :: x in queue && y == ShiftSession(x, offset)
  {
    var r := ShiftQueue(queue, offset);
    forall x | x in queue
      ensures ShiftSession(x, offset) in r
    {
      var k :| 0 <= k < |queue| && queue[k] == x;
      assert r[k] == ShiftSession(x, offset);
    }
    forall y | y in r
      ensures exists x :: x in queue && y == ShiftSession(x, offset)
    {
      var k :| 0 <= k < |r| && r[k] == y;
      assert queue[k] in queue;
    }
  }

  // Rebasing does not reorder two sessions.
  lemma ShiftKeepsOrder(a: Session, b: Session, offset: nat)
    requires a.start <= a.finish && b.start <= b.finish
    requires !Less(b, a)
    ensures !Less(ShiftSession(b, offset), ShiftSession(a, offset))
  {
  }

  lemma MinStartShift(queue: seq<Session>, offset: nat)
    requires queue != [] && forall x :: x in queue ==> x.start <= U64_MAX
    ensures MinStart(ShiftQueue(queue, offset)) == Minus(MinStart(queue), offset)
  {
    MinStartIsLeast(queue);
    ShiftMembers(queue, offset);
    assert queue[0] in queue;
    var m := Minus(MinStart(queue), offset);
    if MinStart(queue) == U64_MAX {
      assert queue[0].start == U64_MAX;
    }
    var x :| x in queue && x.start == MinStart(queue);
    assert ShiftSession(x, offset) in ShiftQueue(queue, offset);
    MinStartUnique(ShiftQueue(queue, offset), m);
  }

  // What a rebase makes of the cached least start: UINT64_MAX is taken for an empty queue.
  function RebasedCache(cache: nat, offset: nat): nat {
    if cache != U64_MAX then Minus(cache, offset) else cache
  }

  // The cache stays exact precisely unless it stands for sessions whose start has saturated.
  lemma RebasedCacheIsExact(queue: seq<Session>, offset: nat)
    requires forall x :: x in queue ==> x.start <= U64_MAX
    requires offset <= U64_MAX
    ensures RebasedCache(MinStart(queue), offset) == MinStart(ShiftQueue(queue, offset))
       <==> queue == [] || MinStart(queue) != U64_MAX || offset == 0
  {
    MinStartIsLeast(queue);
    MinStartIsLeast(ShiftQueue(queue, offset));
    if queue != [] {
      assert queue[0] in queue;
      assert ShiftQueue(queue, offset)[0] in ShiftQueue(queue, offset);
      if MinStart(queue) != U64_MAX {
        MinStartShift(queue, offset);
      } else if offset == 0 {
        assert ShiftQueue(queue, 0) == queue;
      }
    }
  }

  // No finish time has saturated.
  predicate Unsaturated(s: Sched) {
    && s.v < U64_MAX
    && forall x :: x in s.queue ==> x.start <= x.finish < U64_MAX
  }

  lemma ShiftEligible(s: Sched, offset: nat, v: nat)
    requires Unsaturated(s) && offset <= v
    ensures forall x :: x in s.queue ==> (Eligible(ShiftSession(x, offset), v - offset) <==> Eligible(x, v))
    ensures AnyEligible(ShiftQueue(s.queue, offset), v - offset) <==> AnyEligible(s.queue, v)
  {
    ShiftMembers(s.queue, offset);
    if x :| x in s.queue && Eligible(x, v) {
      assert Eligible(ShiftSession(x, offset), v - offset);
    }
  }

  lemma ChoiceTimeShift(s: Sched, offset: nat)
    requires Unsaturated(s) && offset <= s.v
    ensures ChoiceTime(Shift(s, offset)) == ChoiceTime(s) - offset
  {
    ShiftEligible(s, offset, s.v);
    if s.queue != [] {
      MinStartShift(s.queue, offset);
      MinStartIsLeast(s.queue);
      assert s.queue[0] in s.queue;
    }
  }

  lemma TakeShift(s: Sched, offset: nat, i: nat)
    requires Unsaturated(s) && offset <= s.v && i < |s.queue|
    ensures offset <= Take(s, i).v && Take(Shift(s, offset), i) == Shift(Take(s, i), offset)
  {
    ChoiceTimeShift(s, offset);
    MinStartIsLeast(s.queue);
    assert RemoveAt(ShiftQueue(s.queue, offset), i) == ShiftQueue(RemoveAt(s.queue, i), offset);
  }

  lemma TimeIsKept(s: Sched)
    ensures s.v <= ChoiceTime(s)
  {
    MinStartIsLeast(s.queue);
  }

  lemma BestShifts(queue: seq<Session>, v: nat, x: Session, offset: nat)
    requires x in queue && offset <= v
    requires forall y :: y in queue ==> y.start <= y.finish < U64_MAX
    ensures IsBest(ShiftQueue(queue, offset), v - offset, ShiftSession(x, offset))
            <==> IsBest(queue, v, x) || x.finish <= offset
  {
    ShiftMembers(queue, offset);
  }

  // The rebase offset can be subtracted at once without changing what a dequeue may answer, but that
  // it gains the choices whose finish time is clamped to zero.
  lemma RebaseKeepsChoices(s: Sched, offset: nat, i: nat)
    requires Unsaturated(s) && offset <= s.v
    ensures CanServe(Shift(s, offset), i) <==> CanServe(s, i) || (i < |s.queue| && s.queue[i].finish <= offset)
  {
    hide Eligible, IsBest, ShiftSession, MinStart, TimeOfChoice;
    var t, v := Shift(s, offset), ChoiceTime(s);
    ChoiceTimeShift(s, offset);
    TimeIsKept(s);
    if i < |s.queue| {
      assert s.queue[i] in s.queue && t.queue[i] == ShiftSession(s.queue[i], offset);
      BestShifts(s.queue, v, s.queue[i], offset);
    }
  }

  lemma ArriveShift(s: Sched, e: Event, offset: nat)
    requires offset <= s.v && Enabled(s, e) && e.Arrive?
    requires NewSession(s, e.entry, e.work, e.data).finish < U64_MAX
    ensures Enabled(Shift(s, offset), e) && Apply(Shift(s, offset), e) == Shift(Apply(s, e), offset)
  {
    var x := NewSession(s, e.entry, e.work, e.data);
    assert NewSession(Shift(s, offset), e.entry, e.work, e.data) == ShiftSession(x, offset);
    assert ShiftQueue(s.queue + [x], offset) == ShiftQueue(s.queue, offset) + [ShiftSession(x, offset)];
    assert Apply(Shift(s, offset), e).entries == Shift(Apply(s, e), offset).entries;
  }

  lemma AdvanceShift(s: Sched, work: nat, offset: nat)
    requires offset <= s.v && s.queue != [] && s.v + Delta(s.capacity, work) <= U64_MAX
    requires forall x :: x in s.queue ==> x.start <= U64_MAX
    ensures offset <= Advance(s, work).v
    ensures Advance(Shift(s, offset), work) == Shift(Advance(s, work), offset)
  {
    MinStartShift(s.queue, offset);
  }

  // An event that saturates nothing, leaves the queue non-empty and does not itself rebase.
  ghost predicate Calm(s: Sched, e: Event)
    requires Enabled(s, e)
  {
    match e
    case Arrive(id, work, data) => NewSession(s, id, work, data).finish < U64_MAX
    case Serve(i) =>
      && |s.queue| > 1
      && ChoiceTime(s) + Delta(s.capacity, s.queue[i].work) <= U64_MAX
      && Advance(Take(s, i), s.queue[i].work).v < REBASE_THRESHOLD
  }

  lemma ApplyShift(s: Sched, e: Event, offset: nat)
    requires Unsaturated(s) && offset <= s.v && Enabled(s, e) && Calm(s, e)
    ensures offset <= Apply(s, e).v && Unsaturated(Apply(s, e))
    ensures Enabled(Shift(s, offset), e) && Apply(Shift(s, offset), e) == Shift(Apply(s, e), offset)
  {
    match e
    case Arrive(_, _, _) =>
      ArriveShift(s, e, offset);
    case Serve(i) =>
      RebaseKeepsChoices(s, offset, i);
      TakeShift(s, offset, i);
      RemovedFrom(s.queue, i);
      AdvanceShift(Take(s, i), s.queue[i].work, offset);
  }

  ghost predicate CalmRun(s: Sched, events: seq<Event>)
    requires IsRun(s, events)
    decreases events
  {
    events == [] || (Calm(s, events[0]) && CalmRun(Apply(s, events[0]), events[1..]))
  }

  // Rebasing early makes no difference to what follows: the run that is possible without it is
  // possible after it, serves the same sessions in the same order, and ends in the same state but
  // for the offset.
  lemma {:induction false} RebaseIsTransparent(s: Sched, events: seq<Event>, offset: nat)
    requires Unsaturated(s) && offset <= s.v && IsRun(s, events) && CalmRun(s, events)
    ensures IsRun(Shift(s, offset), events)
    ensures offset <= Run(s, events).v && Run(Shift(s, offset), events) == Shift(Run(s, events), offset)
    decreases events
  {
    if events != [] {
      ApplyShift(s, events[0], offset);
      RebaseIsTransparent(Apply(s, events[0]), events[1..], offset);
    }
  }
}
