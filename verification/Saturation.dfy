/**
 Finish times that saturate at UINT64_MAX: how a run comes by one, that such a session is left
 waiting until the next rebase, and that a rebase brings it back.
 */
module Saturation {
  import opened Machine
  import opened Wfq
  import opened Lateness
  import opened TimeLaws
  import opened Rates
  import opened Rebasing
  import Bits

  // ---------- What holds of times under every call ----------

  // Virtual time is below UINT64_MAX, other times are at most that, and no session finishes
  // before it starts.
  ghost predicate Timed(s: Sched) {
    && s.v < U64_MAX
    && (forall id | id in s.entries :: s.entries[id].lastFinish <= U64_MAX)
    && forall x :: x in s.queue ==> x.start <= x.finish <= U64_MAX
  }

  lemma TimedEnqueue(s: Sched, id: nat, work: nat, data: nat)
    requires Timed(s) && EnqueueStatus(s, id, work) == Success
    ensures Timed(Enqueue(s, id, work, data))
  {
    hide ServiceRate, Interval;
  }

  lemma ChoiceTimeFits(s: Sched)
    requires Timed(s)
    ensures s.v <= ChoiceTime(s) < U64_MAX
  {
    MinStartIsLeast(s.queue);
  }

  lemma TimedRemove(s: Sched, i: nat, v: nat)
    requires Timed(s) && i < |s.queue| && v < U64_MAX
    ensures Timed(s.(v := v, queue := RemoveAt(s.queue, i)))
  {
    RemovedFrom(s.queue, i);
  }

  lemma TimedTake(s: Sched, i: nat)
    requires Timed(s) && i < |s.queue|
    ensures Timed(Take(s, i)) && Timed(TakeNone(s))
  {
    ChoiceTimeFits(s);
    TimedRemove(s, i, ChoiceTime(s));
  }

  lemma TimedUpdate(s: Sched, work: nat)
    requires Timed(s)
    ensures Timed(Update(s, work))
  {
    MinStartIsLeast(s.queue);
    UpdateLeavesHeadroom(s, work);
    var a := Advance(s, work);
    if a.v >= REBASE_THRESHOLD {
      ShiftMembers(a.queue, a.v / 2);
    }
  }

  lemma TimedConfigure(s: Sched, id: nat, a: Allocation, stored: bool)
    requires Timed(s)
    ensures Timed(Configure(s, id, a, stored).0) && Timed(Unconfigure(s, id).0)
  {
    hide RateFor;
  }

  lemma {:induction false} TimedAfterAll(s: Sched, calls: seq<Call>)
    requires Timed(s) && AreCalls(s, calls)
    ensures Timed(AfterAll(s, calls))
    decreases calls
  {
    hide Timed, EnqueueStatus, Configure, Unconfigure, Enqueue, Update;
    if calls != [] {
      match calls[0] {
        case ConfigureEntry(id, a, stored) => TimedConfigure(s, id, a, stored);
        case RemoveEntry(id) => TimedConfigure(s, id, Unrecognised, false);
        case EnqueueSession(id, work, data) =>
          if EnqueueStatus(s, id, work) == Success { TimedEnqueue(s, id, work, data); }
        case DequeueSession(i) => TimedTake(s, i);
        case DequeueNothing => TimedIdle(s);
        case RemoveSession(i) => TimedVirtual(s); TimedRemove(s, i, s.v);
        case UpdateTime(work) => TimedUpdate(s, work);
      }
      TimedAfterAll(After(s, calls[0]), calls[1..]);
    }
  }

  lemma TimedIdle(s: Sched)
    requires Timed(s)
    ensures Timed(TakeNone(s))
  {
    ChoiceTimeFits(s);
  }

  lemma TimedVirtual(s: Sched)
    requires Timed(s)
    ensures s.v < U64_MAX
  {
  }

  // ---------- Until the next rebase ----------

  // No update in the calls rebases, and no session is taken out by hand.
  predicate WithoutRebase(s: Sched, calls: seq<Call>)
    requires AreCalls(s, calls)
    decreases calls
  {
    calls == [] ||
    ((calls[0].UpdateTime? ==> Advance(s, calls[0].work).v < REBASE_THRESHOLD)
     && !calls[0].RemoveSession?
     && WithoutRebase(After(s, calls[0]), calls[1..]))
  }

  lemma StillThere(queue: seq<Session>, i: nat, x: Session)
    requires i < |queue| && x in queue && queue[i] != x
    ensures x in RemoveAt(queue, i)
  {
    var k :| 0 <= k < |queue| && queue[k] == x;
    assert RemoveAt(queue, i)[if k < i then k else k - 1] == x;
  }

  // A session whose finish time has saturated is queued as long as nothing rebases, and no dequeue
  // may answer it.
  lemma {:induction false} SaturatedWaits(s: Sched, calls: seq<Call>, x: Session)
    requires AreCalls(s, calls) && WithoutRebase(s, calls) && x in s.queue && x.finish == U64_MAX
    ensures var t := AfterAll(s, calls);
      x in t.queue && forall i: nat :: CanServe(t, i) ==> t.queue[i] != x
    decreases calls
  {
    if calls != [] {
      hide EnqueueStatus, Configure, Unconfigure, MinStart, AnyEligible, Delta;
      KeepsWaiting(s, calls[0], x);
      SaturatedWaits(After(s, calls[0]), calls[1..], x);
    }
  }

  lemma KeepsWaiting(s: Sched, c: Call, x: Session)
    requires Possible(s, c) && !c.RemoveSession? && (c.UpdateTime? ==> Advance(s, c.work).v < REBASE_THRESHOLD)
    requires x in s.queue && x.finish == U64_MAX
    ensures x in After(s, c).queue
  {
    hide RateFor, Delta, MinStart, AnyEligible;
    if c.DequeueSession? {
      StillThere(s.queue, c.i, x);
    }
  }

  // ---------- The next rebase ----------

  // A rebase leaves no time saturated.
  lemma RebaseUnsaturates(s: Sched)
    requires s.v <= U64_MAX && forall x :: x in s.queue ==> x.start <= x.finish <= U64_MAX
    requires s.v >= REBASE_THRESHOLD
    ensures Unsaturated(Rebase(s))
  {
    ShiftMembers(s.queue, s.v / 2);
  }

  // A saturated session can be answered after an update exactly when the update rebases, and at
  // once exactly when virtual time has also reached its start.
  lemma SaturatedComesBack(s: Sched, work: nat, i: nat)
    requires Timed(s) && i < |s.queue| && s.queue[i].finish == U64_MAX
    ensures var t := Update(s, work);
      && (t.queue[i].finish < U64_MAX <==> Advance(s, work).v >= REBASE_THRESHOLD)
      && (Eligible(t.queue[i], t.v) <==>
            Advance(s, work).v >= REBASE_THRESHOLD && s.queue[i].start <= Advance(s, work).v)
  {
    MinStartIsLeast(s.queue);
    assert s.queue[i] in s.queue;
    var a := Advance(s, work);
    if a.v >= REBASE_THRESHOLD {
      assert ShiftQueue(a.queue, a.v / 2)[i] == ShiftSession(s.queue[i], a.v / 2);
    }
  }

  // ---------- A run that gets there ----------

  const HUGE: nat := 0x1000_0000_0000             // 2^44

  function Long(): Session {
    Session(1, HUGE, 0, U64_MAX, 0, U64_MAX)
  }

  function Stuck(): Sched {
    Sched(1, 4, 16, 0, 0, [Long()], map[1 := Entry(Weight(1), 1, U64_MAX)], [1], 1, 0)
  }

  function FirstCalls(): seq<Call> {
    [ConfigureEntry(1, Weight(1), true), EnqueueSession(1, HUGE, 0)]
  }

  lemma LongGroup()
    ensures GroupIndex(U64_MAX) == 15
  {
    hide Log2;
    assert Bits.Pow2(4) == 16 && Bits.Pow2(8) == 256 && Bits.Pow2(12) == 4096 && Bits.Pow2(16) == 65536;
    LogIsLarge(U64_MAX, 16);
  }

  lemma {:induction false} LogIsLarge(n: nat, k: nat)
    requires n >= Bits.Pow2(k)
    ensures Log2(n) >= k
  {
    if k > 0 {
      LogIsLarge(n / 2, k - 1);
    }
  }

  lemma FirstCallsReach()
    ensures AreCalls(Empty(1, 4, 16), FirstCalls()) && AfterAll(Empty(1, 4, 16), FirstCalls()) == Stuck()
  {
    var s0, calls := Empty(1, 4, 16), FirstCalls();
    OneWeightReached();
    LongGroup();
    var s1 := After(s0, calls[0]);
    assert After(s1, calls[1]) == Stuck();
  }

  lemma {:induction false} CallsAppend(s: Sched, calls: seq<Call>, c: Call)
    requires AreCalls(s, calls) && Possible(AfterAll(s, calls), c)
    ensures AreCalls(s, calls + [c]) && AfterAll(s, calls + [c]) == After(AfterAll(s, calls), c)
    decreases calls
  {
    hide Possible, After;
    if calls == [] {
      assert [c][1..] == [];
    } else {
      CallsAppend(After(s, calls[0]), calls[1..], c);
      assert (calls + [c])[1..] == calls[1..] + [c];
    }
  }

  // From the empty scheduler: an entry, one enormous session, and then a dequeue finds nothing,
  // although the session is queued.
  lemma RunGetsStuck()
    ensures var calls := FirstCalls() + [DequeueNothing];
      && AreCalls(Empty(1, 4, 16), calls) && AfterAll(Empty(1, 4, 16), calls).queue == [Long()]
      && CanServeNone(AfterAll(Empty(1, 4, 16), calls))
  {
    FirstCallsReach();
    WaitingIsStuck();
    CallsAppend(Empty(1, 4, 16), FirstCalls(), DequeueNothing);
  }

  lemma WaitingIsStuck()
    ensures CanServeNone(Stuck()) && TakeNone(Stuck()) == Stuck()
  {
    assert forall x :: x in Stuck().queue ==> x == Long();
    assert MinStart(Stuck().queue[..0]) == U64_MAX;
  }

  // The same run goes on with an update that rebases, and now a dequeue answers the session.
  lemma RunComesBack()
    ensures var calls := FirstCalls() + [DequeueNothing] + [UpdateTime(HUGE / 2)] + [DequeueSession(0)];
      AreCalls(Empty(1, 4, 16), calls)
  {
    var s, first := Empty(1, 4, 16), FirstCalls();
    FirstCallsReach();
    WaitingIsStuck();
    CallsAppend(s, first, DequeueNothing);
    var t := Update(Stuck(), HUGE / 2);
    CallsAppend(s, first + [DequeueNothing], UpdateTime(HUGE / 2));
    assert Advance(Stuck(), HUGE / 2).v >= REBASE_THRESHOLD by {
      assert Stuck().queue[..0] == [];
    }
    SaturatedComesBack(Stuck(), HUGE / 2, 0);
    ServesOnly(t);
    CallsAppend(s, first + [DequeueNothing] + [UpdateTime(HUGE / 2)], DequeueSession(0));
  }

  lemma ServesOnly(s: Sched)
    requires |s.queue| == 1 && Eligible(s.queue[0], s.v)
    ensures CanServe(s, 0)
  {
    assert s.queue[0] in s.queue;
  }
}
