/**
 The single-level scheduler on the heap: the calendar queue, the configured entries as a linked
 list through their slots, and the totals. Each method does to the abstract scheduler what the
 function of the same name in Wfq says.
 */
module GroupSchedulers {
  import opened Machine
  import opened Wfq
  import opened Calendars

  // The slot of an entry in the entry storage.
  class EntryConfig {
    var entryId: nat
    var configured: bool
    var allocation: Allocation
    var calculatedRate: nat
    var lastFinish: nat
    var next: EntryConfig?

    constructor ()
      ensures !configured && next == null
    {
      entryId, configured, allocation, calculatedRate, lastFinish, next := 0, false, Unrecognised, 0, 0, null;
    }

    method Clear()
      modifies this
      ensures !configured && next == null
    {
      entryId, configured, allocation, calculatedRate, lastFinish, next := 0, false, Unrecognised, 0, 0, null;
    }

    function Value(): Entry
      reads `allocation, `calculatedRate, `lastFinish
    {
      Entry(allocation, calculatedRate, lastFinish)
    }
  }

  // The entries a list of ids stands for.
  ghost function EntryValues(order: seq<nat>, slots: map<nat, EntryConfig>): (r: map<nat, Entry>)
    reads slots.Values`allocation, slots.Values`calculatedRate, slots.Values`lastFinish
    ensures forall id :: id in r <==> id in order && id in slots
    ensures forall id | id in r :: r[id] == slots[id].Value()
  {
    map id | id in order && id in slots :: slots[id].Value()
  }

  // The configured list: it starts at head and runs through the slots of order.
  ghost predicate IsConfiguredList(order: seq<nat>, slots: map<nat, EntryConfig>, head: EntryConfig?)
    reads slots.Values`next
  {
    && (forall i | 0 <= i < |order| :: order[i] in slots)
    && (forall i, j | 0 <= i < j < |order| :: order[i] != order[j])
    && head == (if order == [] then null else slots[order[0]])
    && forall i {:trigger slots[order[i]].next} | 0 <= i < |order| ::
         slots[order[i]].next == SlotAfter(order, slots, i)
  }

  ghost function SlotAfter(order: seq<nat>, slots: map<nat, EntryConfig>, i: nat): EntryConfig?
    requires forall k | 0 <= k < |order| :: order[k] in slots
  {
    if i + 1 < |order| then slots[order[i + 1]] else null
  }

  lemma WithoutIsRemoval(order: seq<nat>, i: nat)
    requires i < |order| && forall k | 0 <= k < i :: order[k] != order[i]
    ensures Without(order, order[i]) == RemoveAt(order, i)
  {
    if i > 0 {
      WithoutIsRemoval(order[1..], i - 1);
    }
  }

  lemma MapWithout<T>(m: map<nat, T>, m': map<nat, T>, id: nat)
    requires forall k :: k in m' <==> k in m && k != id
    requires forall k | k in m' :: m'[k] == m[k]
    ensures m' == m - {id}
  {
  }

  lemma RemovedMembers(order: seq<nat>, i: nat)
    requires i < |order| && forall j, k | 0 <= j < k < |order| :: order[j] != order[k]
    ensures forall id :: id in RemoveAt(order, i) <==> id in order && id != order[i]
  {
    forall id | id in order && id != order[i]
      ensures id in RemoveAt(order, i)
    {
      var k :| 0 <= k < |order| && order[k] == id;
      assert RemoveAt(order, i)[if k < i then k else k - 1] == id;
    }
  }

  class GroupScheduler {
    const capacity: nat
    const maxEntries: nat
    const calendar: Calendar
    var virtualTime: nat
    var activeCount: nat
    // What the entry storage has for each id.
    var slots: map<nat, EntryConfig>
    var head: EntryConfig?
    var allocatedRate: nat
    var totalWeight: nat
    ghost var order: seq<nat>
    ghost var epoch: nat

    constructor (capacity: nat, maxEntries: nat, groups: nat, binsPerGroup: nat, slots: map<nat, EntryConfig>)
      requires binsPerGroup > 0 && groups * binsPerGroup <= 32768
      requires forall id, k | id in slots && k in slots && id != k :: slots[id] != slots[k]
      requires forall id | id in slots :: !slots[id].configured
      ensures Valid() && View() == Empty(capacity, maxEntries, groups) && this.slots == slots
      ensures order == [] && virtualTime == 0 && calendar.nodes == []
      ensures fresh(calendar) && fresh(calendar.heads) && fresh(calendar.binBits) && fresh(calendar.groupBits)
    {
      this.capacity, this.maxEntries := capacity, maxEntries;
      calendar := new Calendar(groups, binsPerGroup);
      virtualTime, activeCount, allocatedRate, totalWeight := 0, 0, 0, 0;
      this.slots, head := slots, null;
      order, epoch := [], 0;
    }

    ghost predicate Entries()
      reads this`slots, this`head, this`order, slots.Values`next, slots.Values`configured
    {
      && IsConfiguredList(order, slots, head)
      && (forall id, k | id in slots && k in slots && id != k :: slots[id] != slots[k])
      && (forall id | id in slots :: slots[id].configured <==> id in order)
    }

    // The calendar is well formed and no session finishes before it starts.
    ghost predicate QueueOk()
      reads calendar`bins, calendar`nodes, calendar`minStart
      reads calendar.heads, calendar.binBits, calendar.groupBits, calendar.nodes
    {
      calendar.Valid() && forall n | n in calendar.nodes :: n.start <= n.finish <= U64_MAX
    }

    ghost predicate EntriesOk()
      reads this`slots, this`head, this`order, slots.Values`next, slots.Values`configured, slots.Values`lastFinish
    {
      Entries() && forall id | id in order :: id in slots && slots[id].lastFinish <= U64_MAX
    }

    // The totals are a uint64_t and a uint32_t.
    ghost predicate TotalsFit()
      reads this`totalWeight, this`allocatedRate
    {
      allocatedRate <= U64_MAX && totalWeight < 0x1_0000_0000
    }

    ghost predicate Valid()
      reads this`activeCount, this`slots, this`head, this`order, this`totalWeight, this`allocatedRate
      reads slots.Values`next, slots.Values`configured, slots.Values`lastFinish
      reads calendar`bins, calendar`nodes, calendar`minStart
      reads calendar.heads, calendar.binBits, calendar.groupBits, calendar.nodes
    {
      && QueueOk() && EntriesOk() && activeCount == |calendar.nodes|
      && TotalsFit()
    }

    // The abstract scheduler.
    ghost function View(): Sched
      reads this`virtualTime, this`epoch, this`order, this`slots, this`totalWeight, this`allocatedRate
      reads calendar`nodes, calendar.nodes`start, calendar.nodes`finish
      reads slots.Values`allocation, slots.Values`calculatedRate, slots.Values`lastFinish
    {
      Sched(capacity, maxEntries, calendar.groups, virtualTime, epoch, Values(calendar.nodes),
            EntryValues(order, slots), order, totalWeight, allocatedRate)
    }

    // The slot of a configured entry.
    method FindEntry(id: nat) returns (entry: EntryConfig?)
      requires EntriesOk()
      ensures entry == if id in order then slots[id] else null
      ensures id in order ==> id in slots
    {
      entry := null;
      if id in slots && slots[id].configured {
        entry := slots[id];
      }
    }

    // The entry storage has a slot for one more id.
    method AddSlot(id: nat, entry: EntryConfig)
      requires Valid() && id !in slots && entry !in slots.Values && !entry.configured
      modifies this`slots
      ensures Valid() && slots == old(slots)[id := entry] && View() == old(View())
    {
      hide QueueOk, Values;
      slots := slots[id := entry];
      assert id !in order;
      assert EntryValues(order, slots) == old(EntryValues(order, slots));
    }

    // Changes to slots that are not configured do not matter.
    twostate lemma UnconfiguredDoNotMatter()
      requires old(Valid()) && unchanged(this) && unchanged(calendar)
      requires unchanged(calendar.heads) && unchanged(calendar.binBits) && unchanged(calendar.groupBits)
      requires forall i | 0 <= i < |calendar.nodes| :: unchanged(calendar.nodes[i])
      requires forall id | id in slots :: slots[id].configured == old(slots[id].configured)
      requires forall id | id in order :: id in slots && unchanged(slots[id])
      ensures Valid() && View() == old(View())
    {
      hide Calendar.Valid, Values;
      assert QueueOk();
      assert Values(calendar.nodes) == old(Values(calendar.nodes));
      assert EntryValues(order, slots) == old(EntryValues(order, slots));
    }

    // ---------- Configuration ----------

    // Walks along the list and sets the rate of every weight entry.
    method SetRates(ghost s: Sched)
      requires EntriesOk() && s == View()
      modifies slots.Values`calculatedRate
      ensures EntriesOk()
      ensures forall k | 0 <= k < |order| ::
        order[k] in slots && slots[order[k]].Value() == Recalculated(s, old(slots[order[k]].Value()))
    {
      hide RateFor, View, EntryValues;
      RateParts(s);
      var entry := head;
      ghost var i := 0;
      while entry != null
        invariant 0 <= i <= |order|
        invariant entry == if i < |order| then slots[order[i]] else null
        invariant forall k | 0 <= k < i :: slots[order[k]].Value() == Recalculated(s, old(slots[order[k]].Value()))
        invariant forall k | i <= k < |order| :: slots[order[k]].Value() == old(slots[order[k]].Value())
        decreases |order| - i
      {
        if entry.allocation.Weight? {
          entry.calculatedRate := RateFor(capacity, allocatedRate, totalWeight, entry.allocation);
        }
        entry := entry.next;
        i := i + 1;
      }
    }

    lemma RateParts(s: Sched)
      requires s == View()
      ensures (s.capacity, s.allocatedRate, s.totalWeight) == (capacity, allocatedRate, totalWeight)
    {
    }

    // Brings the rates of the weight entries up to date with the totals.
    method RecalculateRates()
      requires EntriesOk()
      modifies slots.Values`calculatedRate
      ensures EntriesOk() && View() == Recalculate(old(View()))
    {
      hide RateFor, EntriesOk, Recalculated;
      ghost var s := View();
      SetRates(s);
      assert forall id | id in s.entries ::
        id in order && EntryValues(order, slots)[id] == Recalculated(s, s.entries[id]);
      assert EntryValues(order, slots) == Recalculate(s).entries;
    }

    // Takes a configured entry's share out of the totals.
    method DischargeEntry(id: nat, entry: EntryConfig)
      requires id in slots && entry == slots[id] && EntriesOk()
      modifies this`allocatedRate, this`totalWeight
      ensures View() == Discharge(old(View()), id)
      ensures old(TotalsFit()) ==> TotalsFit()
    {
      assert entry.configured ==> EntryValues(order, slots)[id] == entry.Value();
      if entry.configured {
        match entry.allocation
        case Rate(r) => allocatedRate := Wrap64(allocatedRate - r);
        case Weight(w) => totalWeight := Wrap32(totalWeight - w);
        case Unrecognised =>
      }
    }

    // Puts the share of an entry back after a configuration that does not fit.
    method RestoreEntry(id: nat, entry: EntryConfig, ghost s: Sched)
      requires id in slots && entry == slots[id] && EntriesOk()
      requires View() == Discharge(s, id) && s.allocatedRate <= U64_MAX && s.totalWeight < 0x1_0000_0000
      modifies this`allocatedRate, this`totalWeight
      ensures View() == s
    {
      assert entry.configured ==> EntryValues(order, slots)[id] == entry.Value();
      if entry.configured {
        match entry.allocation
        case Rate(r) => allocatedRate := Wrap64(allocatedRate + r);
        case Weight(w) => totalWeight := Wrap32(totalWeight + w);
        case Unrecognised =>
      }
    }

    // Links the slot of an entry that is not configured yet at the head of the list.
    method LinkEntry(id: nat, entry: EntryConfig)
      requires Entries() && id in slots && entry == slots[id] && !entry.configured
      modifies this`head, this`order, entry`next, entry`configured
      ensures Entries() && order == [id] + old(order)
    {
      entry.next := head;
      head := entry;
      entry.configured := true;
      order := [id] + order;
      assert forall i | 0 < i < |order| :: order[i] == old(order)[i - 1];
      assert id !in old(order);
    }

    // Writes the slot of an entry and links it if it is new in the list.
    method WriteEntry(id: nat, entry: EntryConfig, a: Allocation)
      requires EntriesOk() && id in slots && entry == slots[id]
      modifies this`head, this`order, entry
      ensures EntriesOk()
      ensures order == if id in old(order) then old(order) else [id] + old(order)
      ensures EntryValues(order, slots) ==
        old(EntryValues(order, slots))[id := Entry(a, if a.Rate? then a.rate else 0, 0)]
    {
      hide IsConfiguredList;
      entry.entryId, entry.allocation, entry.lastFinish := id, a, 0;
      entry.calculatedRate := if a.Rate? then a.rate else 0;
      if !entry.configured {
        LinkEntry(id, entry);
      }
    }

    // Puts an entry's new share into the totals and writes its slot; s is the scheduler before its
    // old share was taken out.
    method ChargeEntry(id: nat, entry: EntryConfig, a: Allocation, ghost s: Sched)
      requires EntriesOk() && id in slots && entry == slots[id] && ValidAllocation(a)
      requires View() == Discharge(s, id)
      modifies this`head, this`order, this`allocatedRate, this`totalWeight, entry
      ensures EntriesOk() && View() == Charge(s, id, a)
      ensures old(TotalsFit()) ==> TotalsFit()
    {
      hide EntriesOk, Values, EntryValues, Charge, Discharge, TotalsFit, Wrap64, Wrap32;
      AddShare(a);
      OrderIsDomain();
      WriteEntry(id, entry, a);
      ChargeIs(s, id, a);
      assert View().entries == Charge(s, id, a).entries;
    }

    method AddShare(a: Allocation)
      requires ValidAllocation(a)
      modifies this`allocatedRate, this`totalWeight
      ensures allocatedRate == if a.Rate? then Wrap64(old(allocatedRate) + a.rate) else old(allocatedRate)
      ensures totalWeight == if a.Weight? then Wrap32(old(totalWeight) + a.weight) else old(totalWeight)
      ensures old(TotalsFit()) ==> TotalsFit()
    {
      if a.Rate? {
        allocatedRate := Wrap64(allocatedRate + a.rate);
      } else {
        totalWeight := Wrap32(totalWeight + a.weight);
      }
    }

    lemma ChargeIs(s: Sched, id: nat, a: Allocation)
      requires ValidAllocation(a)
      ensures var d := Discharge(s, id);
        Charge(s, id, a) == d.(
          allocatedRate := if a.Rate? then Wrap64(d.allocatedRate + a.rate) else d.allocatedRate,
          totalWeight := if a.Weight? then Wrap32(d.totalWeight + a.weight) else d.totalWeight,
          entries := d.entries[id := Entry(a, if a.Rate? then a.rate else 0, 0)],
          order := if id in d.entries then d.order else [id] + d.order)
    {
      DischargeKeeps(s, id);
    }

    lemma DischargeKeeps(s: Sched, id: nat)
      ensures var d := Discharge(s, id);
        d.(allocatedRate := s.allocatedRate, totalWeight := s.totalWeight) == s
    {
    }

    lemma OrderIsDomain()
      requires EntriesOk()
      ensures forall id :: id in order <==> id in EntryValues(order, slots)
    {
    }

    // Gives an entry an allocation; one that does not fit changes nothing.
    method ConfigureEntry(id: nat, a: Allocation) returns (status: Status)
      requires Valid()
      modifies this`head, this`order, this`allocatedRate, this`totalWeight
      modifies slots.Values`calculatedRate, if id in slots then {slots[id]} else {}
      ensures Valid()
      ensures (View(), status) == Configure(old(View()), id, a, id in slots)
    {
      hide QueueOk, EntriesOk, Values, EntryValues, Discharge, Charge, Recalculate;
      ghost var s := View();
      if id >= maxEntries || !ValidAllocation(a) {
        status := InvalidArg;
      } else if id !in slots {
        status := NotFound;
      } else {
        var entry := slots[id];
        DischargeEntry(id, entry);
        if a.Rate? && Wrap64(allocatedRate + a.rate) > capacity {
          RestoreEntry(id, entry, s);
          status := Overbooked;
        } else {
          ChargeEntry(id, entry, a, s);
          RecalculateRates();
          status := Success;
        }
      }
    }

    // Finds the slot before an entry that is not the first of the list.
    method FindPrevious(entry: EntryConfig, ghost i: nat) returns (prev: EntryConfig)
      requires Entries() && 0 < i < |order| && entry == slots[order[i]]
      ensures prev == slots[order[i - 1]]
    {
      prev := head;
      ghost var k := 0;
      while prev.next != entry && prev.next != null
        invariant 0 <= k < i && prev == slots[order[k]]
        decreases |order| - k
      {
        prev := prev.next;
        k := k + 1;
      }
    }

    // Makes the list go past its i-th slot.
    method BypassEntry(entry: EntryConfig, ghost i: nat)
      requires Entries() && i < |order| && entry == slots[order[i]]
      modifies this`head, slots.Values`next
      ensures IsConfiguredList(RemoveAt(order, i), slots, head)
    {
      hide RemoveAt;
      RemovedIndex(order, i);
      if head == entry {
        head := entry.next;
      } else {
        var prev := FindPrevious(entry, i);
        prev.next := entry.next;
      }
    }

    // Takes a configured entry, the i-th of the list, out of the list.
    method UnlinkEntry(id: nat, entry: EntryConfig, ghost i: nat)
      requires Entries() && i < |order| && id == order[i] && entry == slots[id]
      modifies this`head, this`order, slots.Values`next, entry`configured
      ensures Entries() && order == Without(old(order), id)
      ensures forall k :: k in order <==> k in old(order) && k != id
    {
      WithoutIsRemoval(order, i);
      RemovedMembers(order, i);
      BypassEntry(entry, i);
      order := RemoveAt(order, i);
      UnmarkEntry(id, entry);
    }

    // Marks a slot that is not in the list any more as not configured.
    method UnmarkEntry(id: nat, entry: EntryConfig)
      requires IsConfiguredList(order, slots, head) && id !in order && id in slots && entry == slots[id]
      requires forall id, k | id in slots && k in slots && id != k :: slots[id] != slots[k]
      modifies entry`next, entry`configured
      ensures IsConfiguredList(order, slots, head) && !entry.configured
    {
      entry.configured, entry.next := false, null;
    }

    // Takes a configured entry out of the list, and so out of the abstract entries.
    method DelistEntry(id: nat, entry: EntryConfig)
      requires EntriesOk() && id in order && id in slots && entry == slots[id]
      modifies this`head, this`order, slots.Values`next, entry`configured
      ensures EntriesOk()
      ensures View() == old(View()).(entries := old(View()).entries - {id}, order := Without(old(View()).order, id))
    {
      hide IsConfiguredList, Values, EntryValues, Without;
      ghost var entries := EntryValues(order, slots);
      ghost var i :| 0 <= i < |order| && order[i] == id;
      UnlinkEntry(id, entry, i);
      MapWithout(entries, EntryValues(order, slots), id);
    }

    // Takes a configured entry out of the scheduler.
    method DropEntry(id: nat, entry: EntryConfig)
      requires EntriesOk() && id in order && id in slots && entry == slots[id]
      modifies this`head, this`order, this`allocatedRate, this`totalWeight, slots.Values`next, entry`configured
      ensures EntriesOk() && View() == Drop(old(View()), id)
      ensures old(TotalsFit()) ==> TotalsFit()
    {
      hide IsConfiguredList, Values, EntryValues, Discharge, Without;
      DischargeKeeps(View(), id);
      DischargeEntry(id, entry);
      DelistEntry(id, entry);
    }

    // And adjusts the rates of the others.
    method ExpelEntry(id: nat, entry: EntryConfig)
      requires EntriesOk() && TotalsFit() && id in order && id in slots && entry == slots[id]
      modifies this`head, this`order, this`allocatedRate, this`totalWeight
      modifies slots.Values`next, slots.Values`configured, slots.Values`calculatedRate
      ensures EntriesOk() && TotalsFit() && View() == Recalculate(Drop(old(View()), id))
    {
      hide EntriesOk, Values, EntryValues, Drop, Recalculate, TotalsFit;
      DropEntry(id, entry);
      RecalculateRates();
    }

    // Takes an entry out of the scheduler by id.
    method RemoveEntry(id: nat) returns (status: Status)
      requires Valid()
      modifies this`head, this`order, this`allocatedRate, this`totalWeight
      modifies slots.Values`next, slots.Values`configured, slots.Values`calculatedRate
      ensures Valid()
      ensures (View(), status) == Unconfigure(old(View()), id)
    {
      hide QueueOk, EntriesOk, Values, EntryValues, Drop, Recalculate, TotalsFit;
      OrderIsDomain();
      if id >= maxEntries {
        status := InvalidArg;
      } else {
        var entry := FindEntry(id);
        if entry == null {
          status := NotFound;
        } else {
          ExpelEntry(id, entry);
          assert QueueOk();
          status := Success;
        }
      }
    }

    // ---------- Queue ----------

    // calendar_find_min_session: the eligible session with the least finish time, after moving
    // virtual time to the least start if nothing is eligible.
    method FindMinSession() returns (best: SessionNode?)
      requires calendar.Valid() && activeCount == |calendar.nodes|
      modifies this`virtualTime
      ensures virtualTime == TimeOfChoice(Values(calendar.nodes), old(virtualTime))
      ensures best == null ==> !AnyEligible(Values(calendar.nodes), virtualTime)
      ensures best != null ==>
        best in calendar.nodes && IsBest(Values(calendar.nodes), virtualTime, best.Value())
    {
      hide Calendar.Valid, Values, MinStart, AnyEligible, Eligible;
      CacheAgrees();
      best := null;
      if activeCount != 0 {
        best := calendar.FindEligible(virtualTime);
        if best == null && calendar.minStart != U64_MAX {
          if calendar.minStart > virtualTime {
            virtualTime := calendar.minStart;
          }
          best := calendar.FindEligible(virtualTime);
        }
      } else {
        EmptyQueue();
      }
    }

    lemma EmptyQueue()
      requires |calendar.nodes| == 0
      ensures forall v :: !AnyEligible(Values(calendar.nodes), v)
      ensures MinStart(Values(calendar.nodes)) == U64_MAX
    {
      assert Values(calendar.nodes) == [];
    }

    lemma CacheAgrees()
      requires calendar.Valid()
      ensures calendar.minStart == MinStart(Values(calendar.nodes))
    {
      calendar.CacheIsExact();
    }

    // Takes a queued session, the k-th in order of arrival, out of the calendar.
    method RemoveSession(session: SessionNode, ghost k: nat)
      requires Valid() && k < |calendar.nodes| && calendar.nodes[k] == session
      modifies this`activeCount, calendar`bins, calendar`nodes, calendar`minStart
      modifies calendar.heads, calendar.binBits, calendar.groupBits, calendar.nodes`next, calendar.nodes`prev
      ensures Valid()
      ensures View() == old(View()).(queue := RemoveAt(old(View()).queue, k))
      ensures calendar.nodes == RemoveAt(old(calendar.nodes), k)
    {
      hide Calendar.Valid, Values, EntriesOk, EntryValues;
      ValuesRemove(calendar.nodes, k);
      calendar.Remove(session, k);
      assert EntryValues(order, slots) == old(EntryValues(order, slots)) && EntriesOk();
      assert Values(calendar.nodes) == RemoveAt(old(Values(calendar.nodes)), k);
      activeCount := activeCount - 1;
    }

    // Takes out the session to serve next, the k-th in order of arrival.
    method Dequeue() returns (session: SessionNode?, ghost k: nat)
      requires Valid()
      modifies this`virtualTime, this`activeCount, calendar`bins, calendar`nodes, calendar`minStart
      modifies calendar.heads, calendar.binBits, calendar.groupBits, calendar.nodes`next, calendar.nodes`prev
      ensures Valid()
      ensures session == null ==>
        CanServeNone(old(View())) && View() == TakeNone(old(View())) && calendar.nodes == old(calendar.nodes)
      ensures session != null ==> k < |old(calendar.nodes)| && calendar.nodes == RemoveAt(old(calendar.nodes), k)
      ensures session != null ==>
        && CanServe(old(View()), k) && View() == Take(old(View()), k)
        && k < |old(calendar.nodes)| && old(calendar.nodes)[k] == session && session.Value() == old(View()).queue[k]
    {
      hide Calendar.Valid, Values, EntriesOk, Eligible, AnyEligible, MinStart, IsBest, EntryValues;
      ghost var nodes := calendar.nodes;
      k := 0;
      session := FindMinSession();
      if session != null {
        k :| 0 <= k < |nodes| && nodes[k] == session;
        RemoveSession(session, k);
      }
    }

    // Records the finish time of an entry's latest session.
    method SetLastFinish(id: nat, entry: EntryConfig, finish: nat)
      requires EntriesOk() && id in order && id in slots && entry == slots[id] && finish <= U64_MAX
      modifies entry`lastFinish
      ensures EntriesOk()
      ensures EntryValues(order, slots) ==
        old(EntryValues(order, slots))[id := old(entry.Value()).(lastFinish := finish)]
    {
      entry.lastFinish := finish;
    }

    // Makes a node for session x and files it, unless the calendar has no group for it.
    method InsertNode(x: Session) returns (status: Status, node: SessionNode)
      requires QueueOk() && x.start <= x.finish <= U64_MAX
      modifies calendar`bins, calendar`nodes, calendar`minStart
      modifies calendar.heads, calendar.binBits, calendar.groupBits, calendar.nodes`next, calendar.nodes`prev
      ensures QueueOk() && fresh(node) && node.finish == x.finish
      ensures status == if GroupIndex(x.interval) < calendar.groups then Success else Internal
      ensures status == Success ==> calendar.nodes == old(calendar.nodes) + [node]
      ensures status != Success ==> calendar.nodes == old(calendar.nodes)
      ensures Values(calendar.nodes) == old(Values(calendar.nodes)) + if status == Success then [x] else []
    {
      hide Calendar.Valid, Values, GroupIndex;
      node := new SessionNode(x);
      ValuesAppend(calendar.nodes, node);
      status := calendar.Insert(node);
    }

    // Files session x of entry id.
    method FileSession(id: nat, entry: EntryConfig, x: Session) returns (status: Status, session: SessionNode?)
      requires Valid() && id in order && id in slots && entry == slots[id]
      requires x.start <= x.finish <= U64_MAX
      modifies this`activeCount, calendar`bins, calendar`nodes, calendar`minStart
      modifies calendar.heads, calendar.binBits, calendar.groupBits, calendar.nodes`next, calendar.nodes`prev
      modifies entry`lastFinish
      ensures Valid()
      ensures status == if GroupIndex(x.interval) < calendar.groups then Success else Internal
      ensures Values(calendar.nodes) == old(Values(calendar.nodes)) + if status == Success then [x] else []
      ensures status == Success ==>
        && EntryValues(order, slots)
           == old(EntryValues(order, slots))[id := old(slots[id].Value()).(lastFinish := x.finish)]
        && session != null && fresh(session) && calendar.nodes == old(calendar.nodes) + [session]
      ensures status != Success ==>
        EntryValues(order, slots) == old(EntryValues(order, slots)) && calendar.nodes == old(calendar.nodes)
    {
      hide QueueOk, EntriesOk, Values, EntryValues, GroupIndex;
      var node;
      status, node := InsertNode(x);
      assert EntryValues(order, slots) == old(EntryValues(order, slots)) && EntriesOk();
      session := null;
      if status == Success {
        session := node;
        Account(id, entry, x.finish);
      }
    }

    // Accounts for a session that has just been filed.
    method Account(id: nat, entry: EntryConfig, finish: nat)
      requires QueueOk() && EntriesOk() && TotalsFit() && activeCount + 1 == |calendar.nodes|
      requires id in order && id in slots && entry == slots[id] && finish <= U64_MAX
      modifies this`activeCount, entry`lastFinish
      ensures Valid()
      ensures EntryValues(order, slots)
        == old(EntryValues(order, slots))[id := old(entry.Value()).(lastFinish := finish)]
    {
      hide QueueOk, EntriesOk, EntryValues;
      SetLastFinish(id, entry, finish);
      activeCount := activeCount + 1;
    }

    // The session that entry id would queue; None when its rate is 0.
    method MakeSession(id: nat, entry: EntryConfig, work: nat, data: nat) returns (x: Option<Session>)
      requires id in order && id in slots && entry == slots[id]
      ensures id in View().entries
      ensures x.None? <==> ServiceRate(View(), View().entries[id]) == 0
      ensures x.Some? ==> x.value == NewSession(View(), id, work, data)
    {
      hide RateFor, ScaledWork;
      assert EntryValues(order, slots)[id] == entry.Value();
      var rate := if entry.allocation.Rate? then entry.calculatedRate
                  else RateFor(capacity, allocatedRate, totalWeight, entry.allocation);
      if rate == 0 {
        return None;
      }
      var start := Max(virtualTime, entry.lastFinish);
      var interval := Interval(work, rate);
      x := Some(Session(id, work, data, interval, start, Saturating(start, interval)));
    }

    // Queues a session of a configured entry.
    method EnqueueFor(id: nat, entry: EntryConfig, work: nat, data: nat) returns (status: Status, session: SessionNode?)
      requires Valid() && virtualTime <= U64_MAX
      requires id in order && id in slots && entry == slots[id] && work != 0 && id < maxEntries
      modifies this`activeCount, calendar`bins, calendar`nodes, calendar`minStart
      modifies calendar.heads, calendar.binBits, calendar.groupBits, calendar.nodes`next, calendar.nodes`prev
      modifies entry`lastFinish
      ensures Valid()
      ensures status == EnqueueStatus(old(View()), id, work)
      ensures status == Success ==> View() == Wfq.Enqueue(old(View()), id, work, data)
      ensures status == Success ==>
        session != null && fresh(session) && calendar.nodes == old(calendar.nodes) + [session]
      ensures status != Success ==> View() == old(View()) && calendar.nodes == old(calendar.nodes)
    {
      hide QueueOk, Entries, Values, EntryValues, GroupIndex, ServiceRate, Interval, Saturating, NewSession;
      ghost var s := View();
      var x := MakeSession(id, entry, work, data);
      if x.None? {
        status, session := Internal, null;
      } else {
        NewSessionFacts(s, id, work, data);
        status, session := FileSession(id, entry, x.value);
      }
    }

    // Queues a session of an entry.
    method Enqueue(id: nat, work: nat, data: nat) returns (status: Status, session: SessionNode?)
      requires Valid() && virtualTime <= U64_MAX
      modifies this`activeCount, calendar`bins, calendar`nodes, calendar`minStart
      modifies calendar.heads, calendar.binBits, calendar.groupBits, calendar.nodes`next, calendar.nodes`prev
      modifies slots.Values`lastFinish
      ensures Valid()
      ensures status == EnqueueStatus(old(View()), id, work)
      ensures status == Success ==> View() == Wfq.Enqueue(old(View()), id, work, data)
      ensures status == Success ==>
        session != null && fresh(session) && calendar.nodes == old(calendar.nodes) + [session]
      ensures status != Success ==> View() == old(View()) && calendar.nodes == old(calendar.nodes)
    {
      hide QueueOk, Entries, Values, EntryValues, GroupIndex, ServiceRate, Interval, Wfq.Enqueue;
      ghost var s := View();
      status, session := InvalidArg, null;
      if work != 0 && id < maxEntries {
        var entry := FindEntry(id);
        assert entry == null <==> id !in s.entries;
        if entry == null {
          status := NotFound;
        } else {
          status, session := EnqueueFor(id, entry, work, data);
        }
      }
    }

    lemma NewSessionFacts(s: Sched, id: nat, work: nat, data: nat)
      requires id in s.entries && ServiceRate(s, s.entries[id]) != 0
      requires s.v <= U64_MAX && s.entries[id].lastFinish <= U64_MAX
      ensures var x := NewSession(s, id, work, data);
        x.start <= x.finish <= U64_MAX && x.entry == id && x.interval == Interval(work, ServiceRate(s, s.entries[id]))
    {
      hide RateFor, ScaledWork;
    }

    // ---------- Virtual time ----------

    // Moves down the last finish times along the configured list.
    method RebaseEntries(offset: nat)
      requires EntriesOk()
      modifies slots.Values`lastFinish
      ensures EntriesOk()
      ensures EntryValues(order, slots) == ShiftEntries(old(EntryValues(order, slots)), offset)
    {
      var entry := head;
      ghost var i := 0;
      while entry != null
        invariant 0 <= i <= |order| && Entries()
        invariant entry == if i < |order| then slots[order[i]] else null
        invariant forall k | 0 <= k < i ::
          slots[order[k]].lastFinish == Minus(old(slots[order[k]].lastFinish), offset)
        invariant forall k | i <= k < |order| :: slots[order[k]].lastFinish == old(slots[order[k]].lastFinish)
        decreases |order| - i
      {
        entry.lastFinish := Minus(entry.lastFinish, offset);
        entry := entry.next;
        i := i + 1;
      }
    }

    // Moves down the times of the queued sessions. A cache of UINT64_MAX is left alone, so it must
    // not stand for a session that starts there.
    method RebaseQueue(offset: nat)
      requires QueueOk() && (calendar.nodes == [] || calendar.minStart != U64_MAX)
      modifies calendar`minStart, calendar.nodes`start, calendar.nodes`finish
      ensures QueueOk()
      ensures Values(calendar.nodes) == ShiftQueue(old(Values(calendar.nodes)), offset)
    {
      hide Calendar.Valid;
      calendar.Rebase(offset);
      assert forall n | n in calendar.nodes ::
        n.Value() == ShiftSession(old(n.Value()), offset) && old(n.start) <= old(n.finish) <= U64_MAX;
    }

    // Moves down the times of all sessions and entries by offset.
    method RebaseTimes(offset: nat)
      requires Valid() && (calendar.nodes == [] || calendar.minStart != U64_MAX)
      modifies calendar`minStart
      modifies calendar.nodes`start, calendar.nodes`finish, slots.Values`lastFinish
      ensures Valid()
      ensures Values(calendar.nodes) == ShiftQueue(old(Values(calendar.nodes)), offset)
      ensures EntryValues(order, slots) == ShiftEntries(old(EntryValues(order, slots)), offset)
    {
      hide QueueOk, EntriesOk, Values, EntryValues, ShiftQueue, ShiftEntries;
      RebaseQueue(offset);
      assert EntryValues(order, slots) == old(EntryValues(order, slots)) && EntriesOk();
      RebaseEntries(offset);
      assert QueueOk() && Values(calendar.nodes) == ShiftQueue(old(Values(calendar.nodes)), offset);
    }

    // Moves down all times by offset.
    method RebaseBy(offset: nat)
      requires Valid() && offset <= virtualTime && (calendar.nodes == [] || calendar.minStart != U64_MAX)
      modifies this`virtualTime, this`epoch, calendar`minStart
      modifies calendar.nodes`start, calendar.nodes`finish, slots.Values`lastFinish
      ensures Valid()
      ensures virtualTime == old(virtualTime) - offset && epoch == old(epoch) + offset
      ensures Values(calendar.nodes) == ShiftQueue(old(Values(calendar.nodes)), offset)
      ensures EntryValues(order, slots) == ShiftEntries(old(EntryValues(order, slots)), offset)
    {
      hide Valid, Values, EntryValues, ShiftQueue, ShiftEntries;
      virtualTime := virtualTime - offset;
      RebaseTimes(offset);
      epoch := epoch + offset;
    }

    // Moves all times down when virtual time has reached the threshold.
    method RebaseIfNeeded()
      requires Valid() && (calendar.nodes == [] || calendar.minStart != U64_MAX)
      modifies this`virtualTime, this`epoch, calendar`minStart
      modifies calendar.nodes`start, calendar.nodes`finish, slots.Values`lastFinish
      ensures Valid()
      ensures View() == Rebase(old(View()))
    {
      hide Valid, Values, EntryValues, ShiftQueue, ShiftEntries;
      if virtualTime >= REBASE_THRESHOLD {
        RebaseBy(virtualTime / 2);
      }
    }

    // Advances virtual time by the work completed, or to the least start if that is later.
    method UpdateVirtualTime(work: nat)
      requires Valid() && (calendar.nodes == [] || calendar.minStart != U64_MAX)
      modifies this`virtualTime, this`epoch, calendar`minStart
      modifies calendar.nodes`start, calendar.nodes`finish, slots.Values`lastFinish
      ensures Valid()
      ensures View() == Update(old(View()), work)
    {
      hide QueueOk, EntriesOk, Values, EntryValues, MinStart, Rebase;
      var scaled := Wrap64(work * TIME_SCALE);
      var delta := if capacity > 0 then Max(scaled / capacity, 1) else scaled;
      var normal := if virtualTime > U64_MAX - delta then U64_MAX else virtualTime + delta;
      CachedStart();
      virtualTime := Max(normal, calendar.minStart);
      assert View() == Advance(old(View()), work);
      RebaseIfNeeded();
    }

    lemma CachedStart()
      requires QueueOk()
      ensures calendar.minStart == MinStart(Values(calendar.nodes))
    {
      CacheAgrees();
    }
  }
}
