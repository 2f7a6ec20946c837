/**
 The single-level WF2Q+ scheduler as a value: virtual time, the queued sessions in order of
 arrival, and the configured entries. Every operation of the scheduler is a function here;
 where the program's answer depends on how ties fall in its calendar queue, the operation
 takes the chosen position and a predicate says which choices are allowed.
 */
module Wfq {
  import opened Machine

  const TIME_SCALE: nat := 0x10_0000              // 2^20
  const REBASE_THRESHOLD: nat := U64_MAX / 2

  datatype Allocation = Weight(weight: nat) | Rate(rate: nat) | Unrecognised

  predicate ValidAllocation(a: Allocation) {
    match a
    case Weight(w) => w != 0
    case Rate(r) => r != 0
    case Unrecognised => false
  }

  datatype Entry = Entry(allocation: Allocation, calculatedRate: nat, lastFinish: nat)

  datatype Session = Session(entry: nat, work: nat, data: nat, interval: nat, start: nat, finish: nat)

  // order is the list of configured entries, most recently configured first. epoch is the sum
  // of all rebase offsets so far; the program does not store it, statements about runs do.
  datatype Sched = Sched(
    capacity: nat,
    maxEntries: nat,
    groups: nat,
    v: nat,
    epoch: nat,
    queue: seq<Session>,
    entries: map<nat, Entry>,
    order: seq<nat>,
    totalWeight: nat,
    allocatedRate: nat)

  function Empty(capacity: nat, maxEntries: nat, groups: nat): Sched {
    Sched(capacity, maxEntries, groups, 0, 0, [], map[], [], 0, 0)
  }

  // ---------- Rates and configuration ----------

  function RateFor(capacity: nat, allocatedRate: nat, totalWeight: nat, a: Allocation): nat {
    match a
    case Rate(r) => Max(r / 2, 1)
    case Weight(w) =>
      if totalWeight == 0 then 0
      else Max(Wrap64(w * Wrap64(capacity - allocatedRate)) / totalWeight / 2, 1)
    case Unrecognised => 0
  }

  function EffectiveRate(s: Sched, a: Allocation): nat {
    RateFor(s.capacity, s.allocatedRate, s.totalWeight, a)
  }

  function Recalculated(s: Sched, e: Entry): Entry {
    if e.allocation.Weight? then e.(calculatedRate := EffectiveRate(s, e.allocation)) else e
  }

  function Recalculate(s: Sched): Sched {
    s.(entries := map id | id in s.entries :: Recalculated(s, s.entries[id]))
  }

  // Takes the old allocation of an entry out of the totals.
  function Discharge(s: Sched, id: nat): Sched {
    if id !in s.entries then s
    else match s.entries[id].allocation
      case Rate(r) => s.(allocatedRate := Wrap64(s.allocatedRate - r))
      case Weight(w) => s.(totalWeight := Wrap32(s.totalWeight - w))
      case Unrecognised => s
  }

  // Puts an entry with allocation a into the totals and the list, before rates are recalculated.
  function Charge(s: Sched, id: nat, a: Allocation): Sched {
    var d := Discharge(s, id);
    s.(allocatedRate := if a.Rate? then Wrap64(d.allocatedRate + a.rate) else d.allocatedRate,
       totalWeight := if a.Weight? then Wrap32(d.totalWeight + a.weight) else d.totalWeight,
       entries := s.entries[id := Entry(a, if a.Rate? then a.rate else 0, 0)],
       order := if id in s.entries then s.order else [id] + s.order)
  }

  // stored says whether the entry storage has a slot for id.
  function Configure(s: Sched, id: nat, a: Allocation, stored: bool): (Sched, Status) {
    if id >= s.maxEntries || !ValidAllocation(a) then (s, InvalidArg)
    else if !stored then (s, NotFound)
    else if a.Rate? && Wrap64(Discharge(s, id).allocatedRate + a.rate) > s.capacity then (s, Overbooked)
    else (Recalculate(Charge(s, id, a)), Success)
  }

  function Without(order: seq<nat>, id: nat): seq<nat> {
    if order == [] then []
    else if order[0] == id then order[1..]
    else [order[0]] + Without(order[1..], id)
  }

  function Drop(s: Sched, id: nat): Sched {
    Discharge(s, id).(entries := s.entries - {id}, order := Without(s.order, id))
  }

  function Unconfigure(s: Sched, id: nat): (Sched, Status) {
    if id >= s.maxEntries then (s, InvalidArg)
    else if id !in s.entries then (s, NotFound)
    else (Recalculate(Drop(s, id)), Success)
  }

  // ---------- Enqueue ----------

  // The rate a session of entry e is charged at: rate entries keep their full rate.
  function ServiceRate(s: Sched, e: Entry): nat {
    if e.allocation.Rate? then e.calculatedRate else EffectiveRate(s, e.allocation)
  }

  function ScaledWork(work: nat): nat {
    if work > U64_MAX / TIME_SCALE then U64_MAX else work * TIME_SCALE
  }

  function Interval(work: nat, rate: nat): nat
    requires rate != 0
  {
    Max(ScaledWork(work) / rate, 1)
  }

  function Saturating(a: nat, b: nat): nat {
    Min(a + b, U64_MAX)
  }

  // Position of the most significant bit.
  function Log2(n: nat): nat {
    if n <= 1 then 0 else 1 + Log2(n / 2)
  }

  function GroupIndex(interval: nat): nat {
    Min(Log2(interval), 15)
  }

  function NewSession(s: Sched, id: nat, work: nat, data: nat): Session
    requires id in s.entries && ServiceRate(s, s.entries[id]) != 0
  {
    var start := Max(s.v, s.entries[id].lastFinish);
    var interval := Interval(work, ServiceRate(s, s.entries[id]));
    Session(id, work, data, interval, start, Saturating(start, interval))
  }

  function EnqueueStatus(s: Sched, id: nat, work: nat): Status {
    if work == 0 || id >= s.maxEntries then InvalidArg
    else if id !in s.entries then NotFound
    else if ServiceRate(s, s.entries[id]) == 0 then Internal
    else if GroupIndex(Interval(work, ServiceRate(s, s.entries[id]))) >= s.groups then Internal
    else Success
  }

  function Enqueue(s: Sched, id: nat, work: nat, data: nat): Sched
    requires EnqueueStatus(s, id, work) == Success
  {
    var n := NewSession(s, id, work, data);
    s.(queue := s.queue + [n], entries := s.entries[id := s.entries[id].(lastFinish := n.finish)])
  }

  // ---------- Dequeue ----------

  // Order of two sessions in a bin: by finish time, then by start time.
  predicate Less(a: Session, b: Session) {
    a.finish < b.finish || (a.finish == b.finish && a.start < b.start)
  }

  // The least start time among the queued sessions, U64_MAX when there is none.
  function MinStart(queue: seq<Session>): nat {
    if queue == [] then U64_MAX else Min(queue[|queue| - 1].start, MinStart(queue[..|queue| - 1]))
  }

  // A session can be chosen at virtual time v once v has reached its start. A finish time that
  // has saturated is never chosen.
  predicate Eligible(x: Session, v: nat) {
    x.start <= v && x.finish < U64_MAX
  }

  predicate AnyEligible(queue: seq<Session>, v: nat) {
    exists x :: x in queue && Eligible(x, v)
  }

  // Virtual time at which a dequeue chooses: it jumps to the least start when nothing is eligible.
  function TimeOfChoice(queue: seq<Session>, v: nat): nat {
    if AnyEligible(queue, v) || MinStart(queue) == U64_MAX then v else Max(v, MinStart(queue))
  }

  function ChoiceTime(s: Sched): nat {
    TimeOfChoice(s.queue, s.v)
  }

  // The session x is eligible at v and no other that is finishes earlier.
  predicate IsBest(queue: seq<Session>, v: nat, x: Session) {
    Eligible(x, v) && forall y :: y in queue && Eligible(y, v) ==> x.finish <= y.finish
  }

  // What a plain scan of the queue allows as the answer of a dequeue.
  predicate CanServe(s: Sched, i: nat) {
    i < |s.queue| && IsBest(s.queue, ChoiceTime(s), s.queue[i])
  }

  predicate CanServeNone(s: Sched) {
    !AnyEligible(s.queue, ChoiceTime(s))
  }

  function RemoveAt<T>(q: seq<T>, i: nat): seq<T>
    requires i < |q|
  {
    q[..i] + q[i + 1..]
  }

  function Take(s: Sched, i: nat): Sched
    requires i < |s.queue|
  {
    s.(v := ChoiceTime(s), queue := RemoveAt(s.queue, i))
  }

  // A dequeue that answers NULL may still have moved virtual time.
  function TakeNone(s: Sched): Sched {
    s.(v := ChoiceTime(s))
  }

  // ---------- Virtual time ----------

  function Delta(capacity: nat, work: nat): nat {
    var scaled := Wrap64(work * TIME_SCALE);
    if capacity > 0 then Max(scaled / capacity, 1) else scaled
  }

  function Advance(s: Sched, work: nat): Sched {
    s.(v := Max(Saturating(s.v, Delta(s.capacity, work)), MinStart(s.queue)))
  }

  function ShiftSession(x: Session, offset: nat): Session {
    x.(start := Minus(x.start, offset), finish := Minus(x.finish, offset))
  }

  function ShiftQueue(queue: seq<Session>, offset: nat): (r: seq<Session>)
    ensures |r| == |queue|
    ensures forall i | 0 <= i < |r| :: r[i] == ShiftSession(queue[i], offset)
  {
    seq(|queue|, i requires 0 <= i < |queue| => ShiftSession(queue[i], offset))
  }

  function ShiftEntry(e: Entry, offset: nat): Entry {
    e.(lastFinish := Minus(e.lastFinish, offset))
  }

  function ShiftEntries(entries: map<nat, Entry>, offset: nat): map<nat, Entry> {
    map id | id in entries :: ShiftEntry(entries[id], offset)
  }

  // All timestamps moved down by offset, stopping at zero.
  function Shift(s: Sched, offset: nat): Sched
    requires offset <= s.v
  {
    s.(v := s.v - offset,
       epoch := s.epoch + offset,
       queue := ShiftQueue(s.queue, offset),
       entries := ShiftEntries(s.entries, offset))
  }

  function Rebase(s: Sched): Sched {
    if s.v < REBASE_THRESHOLD then s else Shift(s, s.v / 2)
  }

  function Update(s: Sched, work: nat): Sched {
    Rebase(Advance(s, work))
  }

  // ---------- Runs ----------

  // The life of a scheduler between two configuration changes: sessions arrive, and a served
  // session is taken from the queue and its work is accounted for in virtual time.
  datatype Event = Arrive(entry: nat, work: nat, data: nat) | Serve(i: nat)

  predicate Enabled(s: Sched, e: Event) {
    match e
    case Arrive(id, work, _) => EnqueueStatus(s, id, work) == Success
    case Serve(i) => CanServe(s, i)
  }

  function Apply(s: Sched, e: Event): Sched
    requires Enabled(s, e)
  {
    match e
    case Arrive(id, work, data) => Enqueue(s, id, work, data)
    case Serve(i) => Update(Take(s, i), s.queue[i].work)
  }

  predicate IsRun(s: Sched, events: seq<Event>)
    decreases events
  {
    events == [] || (Enabled(s, events[0]) && IsRun(Apply(s, events[0]), events[1..]))
  }

  function Run(s: Sched, events: seq<Event>): Sched
    requires IsRun(s, events)
    decreases events
  {
    if events == [] then s else Run(Apply(s, events[0]), events[1..])
  }

  lemma {:induction false} RunAppend(s: Sched, events: seq<Event>, e: Event)
    requires IsRun(s, events) && Enabled(Run(s, events), e)
    ensures IsRun(s, events + [e]) && Run(s, events + [e]) == Apply(Run(s, events), e)
    decreases events
  {
    hide Enabled, Apply;
    if events == [] {
      assert [e][1..] == [];
    } else {
      RunAppend(Apply(s, events[0]), events[1..], e);
      assert (events + [e])[1..] == events[1..] + [e];
    }
  }

  // ---------- Facts about the pieces ----------

  lemma RemovedIndex<T>(s: seq<T>, k: nat)
    requires k < |s|
    ensures |RemoveAt(s, k)| == |s| - 1
    ensures forall i | 0 <= i < |s| - 1 :: RemoveAt(s, k)[i] == s[if i < k then i else i + 1]
  {
  }

  lemma {:induction false} MinStartIsLeast(queue: seq<Session>)
    ensures forall x :: x in queue ==> MinStart(queue) <= x.start
    ensures MinStart(queue) <= U64_MAX
    ensures MinStart(queue) == U64_MAX || exists x :: x in queue && x.start == MinStart(queue)
  {
    if queue != [] {
      var front, x := queue[..|queue| - 1], queue[|queue| - 1];
      MinStartIsLeast(front);
      assert queue == front + [x];
    }
  }

  // MinStart is the only value with the properties of MinStartIsLeast.
  lemma MinStartUnique(queue: seq<Session>, m: nat)
    requires forall x :: x in queue ==> m <= x.start
    requires m <= U64_MAX
    requires m == U64_MAX || exists x :: x in queue && x.start == m
    ensures m == MinStart(queue)
  {
    MinStartIsLeast(queue);
  }
}
