/**
 One level of the hierarchy on the heap: a scheduler and the storage of its entries, which share
 the entries' slots. Whatever a call does stays within the objects of the level.
 */
module Levels {
  import opened Machine
  import opened Wfq
  import opened Rebasing
  import opened Pools
  import opened Calendars
  import opened GroupSchedulers
  import opened ChunkedEntries

  class Level {
    const storage: Entries
    const scheduler: GroupScheduler
    // The objects of the level.
    ghost var repr: set<object>

    ghost predicate Owned()
      reads this, scheduler, scheduler.calendar, storage
    {
      && this in repr && storage in repr && scheduler in repr && scheduler.calendar in repr
      && scheduler.calendar.heads in repr && scheduler.calendar.binBits in repr && scheduler.calendar.groupBits in repr
      && (forall n | n in scheduler.calendar.nodes :: n in repr)
      && storage.Slots() <= repr
    }

    // The scheduler knows the slots of the ids issued so far, and only live ids are configured.
    ghost predicate Shared()
      reads scheduler, storage
    {
      && (forall id: nat :: id in scheduler.slots <==> id < storage.numAllocated)
      && (forall id: nat | id in scheduler.slots :: storage.Stored(id) && scheduler.slots[id] == storage.Slot(id))
      && forall id | id in scheduler.order :: id in Live(storage.View()) && id < scheduler.maxEntries
    }

    ghost predicate Valid()
      reads this, repr
    {
      && this in repr && storage in repr && scheduler in repr && scheduler.calendar in repr
      && Owned() && Shared()
      && scheduler.slots.Values <= repr
      && scheduler.Valid() && storage.Valid() && scheduler.virtualTime <= U64_MAX
    }

    // The abstract scheduler, and the pool of ids.
    ghost function View(): Sched
      requires Valid()
      reads this, repr
    {
      scheduler.View()
    }

    ghost function Pool(): Pool
      requires Valid()
      reads this, repr
    {
      storage.View()
    }

    constructor (capacity: nat, maxEntries: nat, groups: nat, binsPerGroup: nat)
      requires binsPerGroup > 0 && groups * binsPerGroup <= 32768
      ensures Valid() && fresh(repr) && this in repr
      ensures View() == Empty(capacity, maxEntries, groups) && Pool() == Fresh(maxEntries)
    {
      hide GroupScheduler.Valid, GroupScheduler.View, Entries.Valid;
      storage := new Entries(maxEntries);
      scheduler := new GroupScheduler(capacity, maxEntries, groups, binsPerGroup, map[]);
      new;
      repr := {this, storage, scheduler, scheduler.calendar, scheduler.calendar.heads, scheduler.calendar.binBits,
               scheduler.calendar.groupBits};
    }

    lemma Parts()
      requires Valid()
      ensures scheduler.Valid() && storage.Valid() && Owned() && Shared()
      ensures scheduler.virtualTime <= U64_MAX
    {
    }

    // ---------- Ids ----------

    // A slot is handed out; the scheduler, which has none of it configured, does not notice.
    method TakeSlot() returns (status: Status, id: nat)
      requires Valid()
      modifies storage, storage.Slots(), `repr
      ensures storage.Valid() && scheduler.Valid() && Owned() && fresh(repr - old(repr)) && old(repr) <= repr
      ensures scheduler.View() == old(scheduler.View())
      ensures (storage.View(), if status == Success then Some(id) else None) == Pools.Alloc(old(Pool()))
      ensures status == Success || status == NoMemory
      ensures forall k: nat | k in scheduler.slots :: storage.Stored(k) && scheduler.slots[k] == storage.Slot(k)
      ensures status == Success ==> storage.Stored(id) && !storage.Slot(id).configured
    {
      hide GroupScheduler.Valid, GroupScheduler.View, Entries.Valid, Pools.Alloc, Live;
      AllocFacts();
      ConfiguredFacts();
      storage.SlotsDiffer();
      status, id := storage.Alloc();
      storage.SlotsDiffer();
      repr := repr + storage.Slots();
      scheduler.UnconfiguredDoNotMatter();
    }

    lemma ConfiguredFacts()
      requires Valid()
      ensures forall id | id in scheduler.order :: id in scheduler.slots
      ensures forall id | id in scheduler.slots :: scheduler.slots[id].configured <==> id in scheduler.order
      ensures forall id, k | id in scheduler.slots && k in scheduler.slots && id != k ::
        scheduler.slots[id] != scheduler.slots[k]
    {
    }

    lemma AllocFacts()
      requires Valid()
      ensures var (p, id) := Pools.Alloc(Pool());
        && (id.None? ==> p == Pool())
        && (id.Some? ==>
              && id.value !in Live(Pool()) && Live(p) == Live(Pool()) + {id.value}
              && id.value !in scheduler.order)
    {
      if Pools.Alloc(Pool()).1.Some? {
        AllocGivesFresh(Pool());
      }
    }

    // Hands out an id; a new one gets its slot in the scheduler.
    method Alloc() returns (status: Status, id: nat)
      requires Valid()
      modifies repr
      ensures Valid() && fresh(repr - old(repr)) && old(repr) <= repr
      ensures View() == old(View())
      ensures (Pool(), if status == Success then Some(id) else None) == Pools.Alloc(old(Pool()))
      ensures status == Success || status == NoMemory
    {
      hide GroupScheduler.Valid, GroupScheduler.View, Entries.Valid, Pools.Alloc, Live, Entries.Stored, Entries.Slot,
           Entries.Slots;
      AllocFacts();
      IssueFacts();
      status, id := TakeSlot();
      if status == Success && id !in scheduler.slots {
        storage.SlotsDiffer();
        var entry := storage.Get(id);
        scheduler.AddSlot(id, entry);
      }
    }

    lemma IssueFacts()
      requires Valid()
      ensures var (p, id) := Pools.Alloc(Pool());
        && (id.None? ==> p == Pool())
        && (id.Some? ==> if id.value < Pool().next then p.next == Pool().next
                         else id.value == Pool().next && p.next == Pool().next + 1)
    {
      if Pools.Alloc(Pool()).1.Some? {
        AllocIssues(Pool());
      }
    }

    // Takes back the id of an entry that is not configured.
    method Free(id: nat)
      requires Valid() && id in Live(Pool()) && id !in View().entries
      modifies repr
      ensures Valid() && fresh(repr - old(repr)) && old(repr) <= repr
      ensures View() == old(View()) && Pool() == Release(old(Pool()), id)
    {
      hide GroupScheduler.Valid, GroupScheduler.View, Entries.Valid, Live;
      FreeFacts(id);
      ConfiguredFacts();
      storage.SlotsDiffer();
      storage.Free(id);
      storage.SlotsDiffer();
      scheduler.UnconfiguredDoNotMatter();
    }

    lemma FreeFacts(id: nat)
      requires Valid() && id in Live(Pool()) && id !in View().entries
      ensures Live(Release(Pool(), id)) == Live(Pool()) - {id} && id in scheduler.slots && id !in scheduler.order
    {
      ReleaseTakesBack(Pool(), id);
      scheduler.OrderIsDomain();
    }

    // ---------- Configuration ----------

    method Configure(id: nat, a: Allocation) returns (status: Status)
      requires Valid() && id in Live(Pool())
      modifies repr
      ensures Valid() && fresh(repr - old(repr)) && old(repr) <= repr && Pool() == old(Pool())
      ensures (View(), status) == Wfq.Configure(old(View()), id, a, true)
    {
      hide GroupScheduler.Valid, Entries.Valid, Live, Wfq.Configure, EntryValues, Values;
      ConfigureOrder(View(), id, a);
      ConfiguredFacts();
      FreeIsNotLive(id);
      storage.SlotsDiffer();
      status := scheduler.ConfigureEntry(id, a);
      storage.LiveDoNotMatter();
    }

    // The free slots are not that of a live id.
    lemma FreeIsNotLive(id: nat)
      requires Valid() && id in Live(Pool())
      ensures id in scheduler.slots
      ensures forall k | 0 <= k < |storage.free| ::
        storage.Stored(storage.free[k]) && storage.Slot(storage.free[k]) != scheduler.slots[id]
    {
      storage.SlotsDiffer();
    }

    method Remove(id: nat) returns (status: Status)
      requires Valid()
      modifies repr
      ensures Valid() && fresh(repr - old(repr)) && old(repr) <= repr && Pool() == old(Pool())
      ensures (View(), status) == Unconfigure(old(View()), id)
    {
      hide GroupScheduler.Valid, Entries.Valid, Live, Unconfigure, EntryValues, Values;
      UnconfigureOrder(View(), id);
      FreeAreStored();
      status := scheduler.RemoveEntry(id);
      storage.LiveDoNotMatter();
    }

    lemma FreeAreStored()
      requires Valid()
      ensures forall k | 0 <= k < |storage.free| :: storage.Stored(storage.free[k])
    {
    }

    // Whether an entry is configured.
    method Has(id: nat) returns (found: bool)
      requires Valid()
      ensures found == (id in View().entries)
    {
      hide GroupScheduler.Valid, EntryValues, Values;
      Parts();
      scheduler.OrderIsDomain();
      var entry := scheduler.FindEntry(id);
      found := entry != null;
    }

    // An id just taken is not configured; a failure takes none.
    lemma AllocMeans()
      requires Valid()
      ensures var (p, id) := Pools.Alloc(Pool());
        && (id.None? ==> p == Pool())
        && (id.Some? ==>
              && id.value !in Live(Pool()) && Live(p) == Live(Pool()) + {id.value}
              && Live(Release(p, id.value)) == Live(Pool()) && id.value !in View().entries)
    {
      hide Live, Pools.Alloc, Release, GroupScheduler.Valid, EntryValues;
      AllocFacts();
      EntriesAreLive();
      AllocThenRelease();
    }

    lemma AllocThenRelease()
      requires Valid()
      ensures var (p, id) := Pools.Alloc(Pool()); id.Some? ==> Live(Release(p, id.value)) == Live(Pool())
    {
      var (p, id) := Pools.Alloc(Pool());
      if id.Some? {
        AllocGivesFresh(Pool());
        ReleaseTakesBack(p, id.value);
      }
    }

    lemma ReleaseMeans(id: nat)
      requires Valid() && id in Live(Pool())
      ensures Live(Release(Pool(), id)) == Live(Pool()) - {id}
      ensures forall k | k in View().entries :: k < View().maxEntries
    {
      hide GroupScheduler.Valid, EntryValues;
      Parts();
      scheduler.OrderIsDomain();
      ReleaseTakesBack(Pool(), id);
    }

    lemma EntriesAreLive()
      requires Valid()
      ensures forall id | id in View().entries :: id in Live(Pool()) && id < View().maxEntries
    {
      hide GroupScheduler.Valid, Live, EntryValues;
      Parts();
      scheduler.OrderIsDomain();
    }

    // How many ids are out.
    method Count() returns (n: nat)
      requires Valid()
      ensures n == Pool().configured
    {
      n := storage.numConfigured;
    }

    // ---------- Sessions ----------

    method IsEmpty() returns (empty: bool)
      requires Valid()
      ensures empty == (View().queue == [])
    {
      hide EntryValues;
      empty := scheduler.activeCount == 0;
    }

    method Enqueue(id: nat, work: nat, data: nat) returns (status: Status)
      requires Valid()
      modifies repr
      ensures Valid() && fresh(repr - old(repr)) && old(repr) <= repr && Pool() == old(Pool())
      ensures status == EnqueueStatus(old(View()), id, work)
      ensures View() == if status == Success then Wfq.Enqueue(old(View()), id, work, data) else old(View())
    {
      hide GroupScheduler.Valid, Entries.Valid, Live, Wfq.Enqueue, EntryValues, Values, EnqueueStatus;
      EnqueueOrder(View(), id, work, data);
      FreeAreStored();
      var session;
      status, session := scheduler.Enqueue(id, work, data);
      if status == Success {
        repr := repr + {session};
      }
      storage.LiveDoNotMatter();
    }

    // Takes out the session to serve next, the k-th in order of arrival.
    method Dequeue() returns (x: Option<Session>, ghost k: nat)
      requires Valid()
      modifies repr
      ensures Valid() && fresh(repr - old(repr)) && old(repr) <= repr && Pool() == old(Pool())
      ensures x.None? ==> CanServeNone(old(View())) && View() == TakeNone(old(View()))
      ensures x.Some? ==>
        && CanServe(old(View()), k) && k < |old(View()).queue| && x.value == old(View()).queue[k]
        && View() == Take(old(View()), k)
    {
      hide GroupScheduler.Valid, Entries.Valid, Live, EntryValues, Values, Take, TakeNone, CanServe, CanServeNone;
      TakeOrder(View());
      FreeAreStored();
      var session;
      session, k := scheduler.Dequeue();
      x := if session == null then None else Some(session.Value());
      storage.LiveDoNotMatter();
    }

    // Advances virtual time, and rebases if it has come far. The cached least start must not stand
    // for a session that starts at UINT64_MAX.
    method Update(work: nat)
      requires Valid() && (View().queue == [] || MinStart(View().queue) != U64_MAX)
      modifies repr
      ensures Valid() && fresh(repr - old(repr)) && old(repr) <= repr && Pool() == old(Pool())
      ensures View() == Wfq.Update(old(View()), work)
    {
      hide GroupScheduler.Valid, Entries.Valid, Live, EntryValues, Values, Wfq.Update, MinStart;
      UpdateOrder(View(), work);
      FreeAreStored();
      CacheMeans();
      scheduler.UpdateVirtualTime(work);
      storage.LiveDoNotMatter();
    }

    lemma CacheMeans()
      requires Valid()
      ensures scheduler.calendar.minStart == MinStart(View().queue)
      ensures View().queue == [] <==> scheduler.calendar.nodes == []
    {
      scheduler.CacheAgrees();
    }
  }

  // ---------- What calls leave of the configured list and of virtual time ----------

  lemma ConfigureOrder(s: Sched, id: nat, a: Allocation)
    ensures var t := Configure(s, id, a, true).0;
      t.v == s.v && forall k | k in t.order :: k in s.order || (k == id && id < s.maxEntries)
  {
    hide RateFor;
  }

  lemma {:induction false} WithoutMembers(order: seq<nat>, id: nat)
    ensures forall k | k in Without(order, id) :: k in order
  {
    if order != [] {
      WithoutMembers(order[1..], id);
    }
  }

  lemma UnconfigureOrder(s: Sched, id: nat)
    ensures var t := Unconfigure(s, id).0;
      t.v == s.v && forall k | k in t.order :: k in s.order
  {
    hide RateFor, Without;
    WithoutMembers(s.order, id);
  }

  lemma EnqueueOrder(s: Sched, id: nat, work: nat, data: nat)
    requires s.v <= U64_MAX
    ensures EnqueueStatus(s, id, work) == Success ==>
      Enqueue(s, id, work, data).v == s.v && Enqueue(s, id, work, data).order == s.order
  {
    hide ServiceRate, Interval;
  }

  lemma TakeOrder(s: Sched)
    requires s.v <= U64_MAX
    ensures TakeNone(s).order == s.order && TakeNone(s).v <= U64_MAX
    ensures forall k | 0 <= k < |s.queue| :: Take(s, k).order == s.order && Take(s, k).v <= U64_MAX
  {
    MinStartIsLeast(s.queue);
  }

  lemma UpdateOrder(s: Sched, work: nat)
    requires s.v <= U64_MAX
    ensures Update(s, work).order == s.order && Update(s, work).v <= U64_MAX
  {
    UpdateLeavesHeadroom(s, work);
  }
}
