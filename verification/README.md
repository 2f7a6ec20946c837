# Verification of the HWFQ scheduler

HWFQ is a two-level WF2Q+ scheduler: a system scheduler shares a capacity among tenants, and each
tenant has a scheduler that shares it among its flows. This project models it in Dafny and proves
what it promises.

Four parts, with the files they are in:

- **The single-level scheduler.** `Wfq.dfy` is the scheduler as a value, with virtual time, the
  queued sessions, the configured entries and the totals; where ties decide, it says which answers a
  plain scan allows. On it are proved the lateness bound (`Lateness.dfy`), proportional service
  (`Proportional.dfy`), the delay bound (`Delay.dfy`), order and lead within an entry
  (`TimeLaws.dfy`), work conservation and rebasing (`Rebasing.dfy`, `Transparency.dfy`), what
  saturated times do (`Saturation.dfy`), the rates (`Rates.dfy`, `Jobs.dfy`), how much of the
  capacity can be booked (`Booking.dfy`) and fairness in work (`Fairness.dfy`). `Calendar.dfy` and
  `GroupScheduler.dfy` are the calendar queue and the scheduler on the heap, with bin lists, bitmaps
  and caches; their methods are proved against the value. `Overtaking.dfy` is the one case in which
  sessions of an entry leave out of order.
- **The id allocators.** `FlowTrie.dfy` is the four-level bitmap over the words of `Bits.dfy`.
  `Pools.dfy` is a pool of ids, `ChunkedEntries.dfy` the chunked storage whose free list is threaded
  through the entries.
- **The sessions in flight.** `Flights.dfy` is the sequence of flights, `InFlight.dfy` the hash
  chains and the doubly linked list.
- **The hierarchy.** `Hierarchy.dfy` gives every call of the interface as a function of the whole
  state. `Level.dfy` puts a scheduler and the storage of its ids, which share the entries' slots,
  together, and `Scheduler.dfy` a level for the tenants, a level for the flows of each tenant and the
  table of flights; its methods update them in place, and are proved against the functions with every
  level apart from the others. `Coupling.dfy`, `Backlogs.dfy`, `Conduct.dfy`, `Movement.dfy`,
  `Scheduling.dfy` and `Administration.dfy` build up to `HierarchyLaws.dfy`, the laws over all runs of
  calls; `Effects.dfy` says what each call answers and does in terms of its arguments;
  `TenantDelay.dfy` and `TwoLevels.dfy` carry the lateness and delay bounds over to both levels;
  `FlowOrder.dfy` is the order in which the sessions of a flow are handed out;
  `Witnesses.dfy` has the runs that show where a law stops.

`Machine.dfy` has the wrapping integer operations and the status codes.

## Hypotheses

The statements name these where they need them.

- The calendar has at most 32768 bins (`group_bitfield` has 32 words), and the hierarchy at least 16
  groups (group indices go up to 15).
- A session whose finish time saturates to UINT64_MAX is not selected until a rebase brings it back.
  The laws over runs assume that no finish time does; `Saturation.SaturatedWaits`,
  `Saturation.SaturatedComesBack`, `HierarchyLaws.InternalExactly` and
  `HierarchyLaws.NoRoomUsesUpTime` say what happens otherwise.
- Sums of weights stay below 2^32 and sums of rates below 2^64, and the sum that a dequeue compares
  with the capacity does not wrap (`HierarchyLaws.RoomTest` gives the exact condition). Backlog
  counters and the total of flows stay below 2^32.
- A completion or a cancellation finds no flight of a tenant whose id another has taken over and is
  counted out of that one. `hwfq_remove_tenant` lets a tenant go with sessions in flight, although
  include/hwfq.h:271-273 promises otherwise; `Scheduling.CompleteKeepsExactly` gives the exact
  condition and `Witnesses.RunStrands` a run that breaks it.
- The lateness bound: the shares fit the capacity and pay for the sessions. Doubled rates always pay,
  and fit as `Rates.WeightsAreGuaranteed` says; the bounds built on it take those shares. Sessions are
  at most lmax with 2^20·lmax below 2^64, and no smaller than capacity / 2^20. Proportional service,
  transparency and the delay bounds also take 2^20·lmax to be at most 2^62·capacity, and the delay
  bounds service intervals below 2^62, so that virtual time itself does not saturate.
- Only live ids are freed in the chunked storage, as all its callers do.

The code decides where the documentation differs. A trie covers 2^24 ids, not 64M
(`FlowTries.EmptyButNotFull`). A session with the same finish and start as others goes in front of
them in its bin, where the comment at src/hwfq_group_calendar.c:104-109 speaks of arrival order. A cancellation
without user data takes the first session in order of dequeue, not of enqueue. Rate entries are
charged at their full rate and only weights are halved. An update with nothing queued takes the
least start as UINT64_MAX, so that virtual time jumps and is rebased at once. Reconfiguring an entry
resets its last finish time, and reconfiguring a tenant leaves the capacity of its flows' scheduler as
it was.

## Model

| member | source | states |
|---|---|---|
| `Lateness.LatenessAtShares` | src/hwfq_group_scheduler.c:507-552 | For any shares that together fit the capacity and pay for the sessions that arrive (2^20·work at most share·interval): in every state of every run of arrivals and services from an idle scheduler, rebases included, each queued session satisfies capacity·V + 2^20·work ≤ capacity·finish + 2^20·lmax |
| `Lateness.BoundedLateness` | src/hwfq_group_scheduler.c:507-552 | In particular when the doubled rates fit the capacity, however the division comes out |
| `Booking.BookedInPart` | src/hwfq_group_scheduler.c:352-379 | With service intervals of n or more it holds when the rates, each enlarged by an n-th part, fit the capacity |
| `Booking.BookedInFull` | src/hwfq_group_scheduler.c:352-379 | With rates that divide the scaled work of their sessions it holds with the capacity booked in full |
| `Booking.FullBookingLags` | src/hwfq_group_scheduler.c:352-379 | Booked in full with rates that do not divide, it fails without bound: on a capacity of 2^20 and three rates, for every k a run of sessions of work 1 ends with one that is late by at least 2k - 1 |
| `Booking.FullReached` | src/hwfq_group_scheduler.c:182-254 | That scheduler is configured from the empty one; each of the three rates is accepted |
| `Booking.FullIsBooked` | src/hwfq_group_scheduler.c:352-379 | In every state of that run the charged rates are the configured ones, and the three of them sum to the capacity exactly |
| `Lateness.RunHolds` | src/hwfq_group_scheduler.c:507-552 | The bound on all the work due by any deadline, with the room left for new arrivals, is kept by every run, for any such shares |
| `Lateness.DemandFits` | src/hwfq_group_scheduler.c:352-379 | Whatever is queued to finish by a deadline, and all that may still arrive for it, fits what the shares deliver from the earliest start on |
| `Lateness.SlackChange` | src/hwfq_group_scheduler.c:352-379 | What moving one entry's last finish time does to the room left before a deadline |
| `Lateness.SlackAtMost` | src/hwfq_group_scheduler.c:352-379 | The room left before a deadline is at most the shares times the time that is left |
| `Lateness.ArriveHolds` | src/hwfq_group_scheduler.c:303-387 | An enqueue of a session that its share pays for keeps the lateness invariant |
| `Lateness.ServeHolds` | src/hwfq_group_calendar.c:292-329 | A dequeue with its virtual time update keeps the lateness invariant, whether or not virtual time jumps |
| `Lateness.TakeHolds` | src/hwfq_scheduler.c:365-386 | A service that is not accounted for, as on a dequeue without room, leaves the others no later than they were |
| `Lateness.EachWithin` | src/hwfq_group_scheduler.c:507-552 | The bound on all work due by a deadline gives the bound for each session |
| `Lateness.ShiftHolds` | src/hwfq_group_scheduler.c:457-505 | A rebase keeps the lateness invariant, although times stop at zero |
| `Delays.BoundedDelay` | src/hwfq_group_scheduler.c:507-552 | After any run from an idle scheduler, over any stretch in which a queued session x waits: 2^20·(work served + work of x) + capacity·V is at most capacity·finish + 2^20·lmax + capacity·n for the n services of the stretch, and capacity·n + capacity·V at most capacity·finish + 2^20·lmax |
| `Delays.WaitKeeps` | src/hwfq_group_scheduler.c:507-552 | A waiting session keeps its unrebased finish time, and every service moves unrebased virtual time by what the work served is worth |
| `Delays.TurnsBound` | src/hwfq_group_scheduler.c:389-417 | While an entry comes back after each of its turns, the services of the others are bounded by its time to its finish time and two of the longest intervals for each turn |
| `Proportional.ProportionalService` | src/hwfq_group_scheduler.c:352-379 | After any run, over any stretch in which two entries stay busy, the service intervals served to the two differ by at most a constant given by lmax, the capacity and their longest intervals |
| `Fairness.WorkByRate` | src/hwfq_group_scheduler.c:352-379 | Over any such stretch the work served to the two is in proportion to their rates, but for that constant and one unit of rounding for each session |
| `Fairness.WorkByWeight` | src/hwfq_group_scheduler.c:352-379 | and to their weights, but for what rates and intervals lose to rounding |
| `Fairness.WorkFollowsIntervals` | src/hwfq_group_scheduler.c:352-365 | The scaled work served to an entry is its rate times the intervals served, to within one rate for each session |
| `Proportional.ServiceFollowsTime` | src/hwfq_group_scheduler.c:507-552 | While an entry stays busy, the intervals served to it follow unrebased virtual time to within a constant |
| `Proportional.PositionBound` | src/hwfq_group_scheduler.c:352-379 | Service of an entry with queued sessions stands within a constant of virtual time |
| `TimeLaws.FifoPerEntry` | src/hwfq_group_calendar.c:264-278 | Over every run, of two sessions of one entry a scan never answers the later one first, unless that one's start and finish coincide |
| `TimeLaws.OvertakesExactly` | src/hwfq_group_calendar.c:264-278 | After any run a scan may answer a session with an earlier one of its entry queued if and only if it may answer such an earlier one too and that one's finish time is the later one's start and finish time, which virtual time has reached |
| `Overtaking.RunOvertakes` | src/hwfq_group_scheduler.c:475-482 | That happens: a rate and thirteen weights are configured on the empty scheduler, sessions arrive and are served, the last service rebases and clamps two sessions of the rate to zero, and the next may take the later one first |
| `Overtaking.SearchOvertakes` | src/hwfq_group_calendar.c:229-290 | and does: the search of the calendar queue, brought to that state by its own insertions and rebase, answers the session that was inserted second, whose bin is lower |
| `TimeLaws.OneIntervalLead` | src/hwfq_group_scheduler.c:352-379 | Over every run the first queued session of an entry, and an idle entry's last finish time, are at most the entry's longest interval ahead of virtual time |
| `TimeLaws.OrderedRun` | src/hwfq_group_scheduler.c:352-379 | Over every run the sessions of an entry occupy disjoint stretches of virtual time in order of arrival, up to its last finish time |
| `Rebasing.DequeueFinds` | src/hwfq_group_calendar.c:292-329 | A dequeue finds a session if and only if some unsaturated session has been reached by virtual time, or none has and it starts first of all |
| `Rebasing.WorkConserving` | src/hwfq_group_scheduler.c:389-417 | With no saturated finish time, a dequeue answers NULL if and only if nothing is queued |
| `Saturation.SaturatedWaits` | src/hwfq_group_calendar.c:275-278 | Over any calls, without a rebase and without its removal, a session whose finish time saturated stays queued and no dequeue may answer it |
| `Saturation.RebaseUnsaturates` | src/hwfq_group_scheduler.c:475-482 | A rebase leaves no time saturated, of a queue in order |
| `Saturation.SaturatedComesBack` | src/hwfq_group_scheduler.c:507-552 | After an update a saturated session can be answered in time if and only if the update rebases, and is eligible at once if and only if virtual time had also reached its start |
| `Saturation.TimedAfterAll` | src/hwfq_group_scheduler.c:303-552 | Over any calls all times stay in order and below 2^64, and virtual time below UINT64_MAX |
| `Saturation.RunGetsStuck` | src/hwfq_group_calendar.c:275-278 | A run from the empty scheduler after which a session is queued and a dequeue finds nothing |
| `Saturation.RunComesBack` | src/hwfq_group_scheduler.c:475-482 | and how it goes on: an update rebases and the same session is answered |
| `Rebasing.DequeueLands` | src/hwfq_group_calendar.c:307-321 | A dequeue, answered or not, leaves virtual time where it is if some session is eligible or none is queued, and otherwise takes it to the least start if that is later |
| `Rebasing.JumpsToLeastStart` | src/hwfq_group_calendar.c:307-321 | Virtual time jumps only when nothing is eligible, and then exactly to the least start |
| `Rebasing.UpdateLands` | src/hwfq_group_scheduler.c:545-548 | With sessions queued, an update takes virtual time (without the rebase) on by what the work is worth, or to the start of a queued session that no other starts before, whichever is later; the conditions leave no other value |
| `Rebasing.UpdateOfNothing` | src/hwfq_group_scheduler.c:545-548 | With nothing queued it takes virtual time to the end of its range |
| `Rebasing.UpdateReaches` | src/hwfq_group_scheduler.c:545-548 | So after every update with sessions queued some session's start has been reached |
| `Rebasing.ArrivesInTurn` | src/hwfq_group_scheduler.c:352-379 | Over every run, a session that arrives straight after a service starts no earlier than some session that is then queued |
| `Rebasing.DeltaIs` | src/hwfq_group_scheduler.c:507-540 | What work is worth in virtual time: 2^20·work over the capacity to within one unit, but never nothing |
| `Rebasing.RebasesExactly` | src/hwfq_group_scheduler.c:457-470 | An update rebases if and only if virtual time has come to 2^63 - 1, and then by half of it |
| `Rebasing.MonotoneTime` | src/hwfq_group_scheduler.c:507-552 | Virtual time plus the sum of all rebase offsets never decreases, over any sequence of calls |
| `Rebasing.UpdateLeavesHeadroom` | src/hwfq_group_scheduler.c:457-505 | After every update virtual time is at most 2^63 |
| `Rebasing.RebaseIsTransparent` | src/hwfq_group_scheduler.c:457-505 | A run of arrivals and services that neither rebases nor empties the queue is possible after an early rebase that clamps no finish time, serves the same sessions in the same order, and ends in the same state but for the offset |
| `Transparency.RebasesMakeNoDifference` | src/hwfq_group_scheduler.c:457-505 | Two schedulers that differ by a shift of all times allow exactly the same runs and end so again, each with its own rebases on the way and whether or not the queue empties, under the conditions of the delay bound |
| `Transparency.EarlyRebaseMakesNoDifference` | src/hwfq_group_scheduler.c:457-505 | So it makes no difference to what can be served, and in what order, that a scheduler rebases earlier, or by another offset, than another |
| `Rebasing.RebaseKeepsChoices` | src/hwfq_group_scheduler.c:475-482 | With nothing saturated, a session may be answered after a rebase if and only if it could be before, or the rebase clamped its finish time to zero |
| `Rebasing.ShiftKeepsOrder` | src/hwfq_group_calendar.c:110-116 | A rebase does not reorder two sessions of a bin |
| `Rebasing.MinStartShift` | src/hwfq_group_scheduler.c:487-490 | The least start of the rebased queue is the rebased least start |
| `Rebasing.RebasedCacheIsExact` | src/hwfq_group_scheduler.c:487-490 | The cached least start stays exact through a rebase if and only if it is not UINT64_MAX for a queue of saturated sessions |
| `Wfq.MinStartIsLeast` | src/hwfq_group_calendar.c:366-406 | The value of the cache is the least start time, and UINT64_MAX without one below it |
| `Wfq.MinStartUnique` | src/hwfq_group_calendar.c:366-406 | It is the only value with that property |
| `Rates.ConfigureSucceeds` | src/hwfq_group_scheduler.c:182-254 | Configuring succeeds if and only if the id is in range and stored, the allocation is valid, and a rate fits what the others leave; and when it answers OVERBOOKED |
| `Rates.ConfigureKeeps` | src/hwfq_group_scheduler.c:182-254 | Configuring keeps the list exact, the totals equal to its sums and every rate current; a rejected configuration restores everything |
| `Rates.UnconfigureKeeps` | src/hwfq_group_scheduler.c:256-301 | So does removing an entry |
| `Rates.ConfigureRateTotal` | src/hwfq_group_scheduler.c:211-234 | What a configuration does to the rate total in plain sums, through the wrapping subtraction and addition |
| `Rates.NeverOversubscribed` | src/hwfq_group_scheduler.c:23-58 | Reserved rates and twice the rates of all weights together never exceed the capacity, when no share falls below 2 and products fit |
| `Rates.HalvedRateFitsShare` | src/hwfq_group_scheduler.c:37-46 | Twice the rate of a weight fits its share if and only if the share is at least 2 |
| `Fairness.RateIsShare` | src/hwfq_group_scheduler.c:23-47 | The rate a weight is charged at is half of its part of the unreserved capacity to within one unit, from both sides, but never nothing |
| `Fairness.RateIsReserved` | src/hwfq_group_scheduler.c:352-365 | A rate is charged in full |
| `Fairness.RatesInProportion` | src/hwfq_group_scheduler.c:33-46 | The rates of two weights are in proportion to the weights, to within one unit of rate |
| `Rates.TinySharesOversubscribe` | src/hwfq_group_scheduler.c:41-45 | The condition is needed: two weights, configured one after the other on the empty scheduler of capacity 1, oversubscribe it |
| `Rates.WeightsAreGuaranteed` | src/hwfq_group_scheduler.c:23-47 | A configuration of weights with ample shares meets the hypothesis of the delay bound |
| `Rates.EvenSharesAreGuaranteed` | src/hwfq_group_scheduler.c:23-47 | The hypotheses of the delay bound can be met |
| `Jobs.AlwaysConsistent` | src/hwfq_group_scheduler.c:182-301 | Over every sequence of calls the configured list is duplicate-free and exact, the totals are its sums, and every weight's rate is current |
| `Jobs.Enqueueable` | src/hwfq_group_scheduler.c:303-350 | With at least 16 groups a session of a configured entry is always accepted |
| `Jobs.UpdateEffect` | src/hwfq_group_scheduler.c:457-552 | An update and its rebase leave the identity of the queued sessions and the configuration alone |
| `Calendars.Calendar.Insert` | src/hwfq_group_calendar.c:184-224 | Files a session in its group's bin; lists stay acyclic, doubly linked and sorted, both bitmaps and the cached minimum stay exact; fails exactly without a group for it and then files nothing |
| `Calendars.Calendar.BinListInsert` | src/hwfq_group_calendar.c:120-153 | The new session is in the bin's sorted list, in front of those with the same times, the links of all lists are mutually inverse, and other bins are untouched |
| `Calendars.Calendar.Unlink` | src/hwfq_group_calendar.c:156-172 | The list is without exactly that session, still linked both ways |
| `Calendars.Calendar.FindEligible` | src/hwfq_group_calendar.c:229-290 | The search through the bitmaps answers NULL if and only if a plain scan finds nothing eligible, and otherwise an eligible session with the least finish time of all, of those one in the lowest bin, and of those there one with the least start |
| `Calendars.Calendar.ScanBin` | src/hwfq_group_calendar.c:271-278 | The first session of a sorted bin that virtual time has reached finishes earliest of those in the bin |
| `Calendars.Calendar.RescanMinStart` | src/hwfq_group_calendar.c:366-406 | The scan over the marked bins gives the least start time of all queued sessions |
| `Calendars.Calendar.Remove` | src/hwfq_group_calendar.c:331-409 | Removes exactly the given session; lists, bitmaps and the cached minimum stay exact, with a rescan only when the minimum left |
| `Calendars.Calendar.Rebase` | src/hwfq_group_scheduler.c:470-490 | Every queued session is shifted, bins stay sorted, and the cached minimum stays exact |
| `Calendars.Calendar.CacheIsExact` | src/hwfq_group_calendar.c:219-221 | The cached minimum start equals the least start over all queued sessions |
| `Calendars.InsertedIsList` | src/hwfq_group_calendar.c:120-153 | Pointer changes around one place of a list insert exactly one node there |
| `Calendars.RemovedIsList` | src/hwfq_group_calendar.c:156-172 | Pointer changes around one place of a list remove exactly the node there |
| `Calendars.IndexedSet` | src/hwfq_group_calendar.c:11-16 | Setting the two bits of a bin keeps both bitmaps in agreement with the lists |
| `Calendars.IndexedClear` | src/hwfq_group_calendar.c:344-358 | Clearing the bit of an emptied bin, and of its word if that is now zero, keeps both bitmaps in agreement |
| `Calendars.BinOffset` | src/hwfq_group_calendar.c:74-102 | The bin offset is within the group |
| `GroupSchedulers.GroupScheduler.ConfigureEntry` | src/hwfq_group_scheduler.c:182-254 | The abstract scheduler and the answer are those of the configuration function, through the linked list of slots and the wrapping totals |
| `GroupSchedulers.GroupScheduler.RemoveEntry` | src/hwfq_group_scheduler.c:256-301 | Likewise for removing an entry, with the search for its predecessor in the list |
| `GroupSchedulers.GroupScheduler.RecalculateRates` | src/hwfq_group_scheduler.c:49-58 | The walk along the list brings the rate of every weight entry up to date, and no other |
| `GroupSchedulers.GroupScheduler.Enqueue` | src/hwfq_group_scheduler.c:303-387 | Answers what the enqueue function answers, appends its session, and changes nothing on failure |
| `GroupSchedulers.GroupScheduler.Dequeue` | src/hwfq_group_scheduler.c:389-417 | Answers a session that a plain scan allows and removes only that one, or NULL exactly when the scan finds none |
| `GroupSchedulers.GroupScheduler.FindMinSession` | src/hwfq_group_calendar.c:292-329 | Moves virtual time as the scan prescribes and answers an eligible session of least finish time |
| `GroupSchedulers.GroupScheduler.RemoveSession` | src/hwfq_group_scheduler.c:419-437 | Takes exactly the given session out |
| `GroupSchedulers.GroupScheduler.RebaseIfNeeded` | src/hwfq_group_scheduler.c:457-505 | All times of sessions and entries are shifted when virtual time has reached half of the range, and nothing changes before |
| `GroupSchedulers.GroupScheduler.UpdateVirtualTime` | src/hwfq_group_scheduler.c:507-552 | Advances by the scaled work or to the cached least start, whichever is later, and rebases |
| `FlowTries.FlowTrie.constructor` | src/hwfq_flow_trie.c:77-180 | Every id but the reserved one is free, padding is not, and the summaries agree |
| `FlowTries.FlowTrie.Alloc` | src/hwfq_flow_trie.c:211-273 | Hands out the least free id, never 0, and adds just it; fails exactly when every id within reach is taken; never reports an inconsistency |
| `FlowTries.FlowTrie.Free` | src/hwfq_flow_trie.c:275-311 | Takes back an id that is in use and leaves everything alone for the reserved id, an id out of range or a free one |
| `FlowTries.FlowTrie.IsAllocated` | src/hwfq_flow_trie.c:313-318 | Says whether the id is in use |
| `FlowTries.InitialIsSound` | src/hwfq_flow_trie.c:59-180 | Initialisation establishes the agreement of all four levels for every number of ids |
| `FlowTries.DescentIsLeast` | src/hwfq_flow_trie.c:224-246 | Following the lowest set bits down ends at the least free id |
| `FlowTries.EmptyMeansTaken` | src/hwfq_flow_trie.c:218-222 | When the top word is zero every id within reach is taken |
| `FlowTries.EmptyButNotFull` | src/hwfq_flow_trie.c:168-176 | An empty top word means that every id is taken if and only if there are at most 2^24 ids (the documentation claims 64M) |
| `FlowTries.RunsEmpty` | src/hwfq_flow_trie.c:168-176 | That happens: with more ids than that, taking 2^24 of them one by one leaves the top word empty and an id free |
| `FlowTries.TakeTaken` | src/hwfq_flow_trie.c:248-268 | Setting the leaf bit and the summaries above keeps the levels in agreement and takes exactly that id |
| `FlowTries.ReleaseTaken` | src/hwfq_flow_trie.c:287-308 | Clearing them keeps the levels in agreement and frees exactly that id |
| `ChunkedEntries.DecodeEncode` | src/hwfq_chunked_entries.h:46-54 | Decoding an encoded chunk and slot gives them back |
| `ChunkedEntries.EncodeDecode` | src/hwfq_chunked_entries.h:46-54 | Encoding a decoded id gives it back, for every 32-bit id |
| `ChunkedEntries.Entries.Get` | src/hwfq_chunked_entries.c:8-19 | The slot of an id, NULL exactly when its chunk does not exist |
| `ChunkedEntries.Entries.AllocateChunk` | src/hwfq_chunked_entries.c:54-101 | The chunk exists afterwards, slots there before stay where they were, and it fails exactly at the limit of the directory |
| `ChunkedEntries.Entries.Alloc` | src/hwfq_chunked_entries.c:103-150 | Does to the pool of ids what the allocation function says, with the free list threaded through the slots |
| `ChunkedEntries.Entries.Free` | src/hwfq_chunked_entries.c:152-171 | Does what the release function says; the free list stays acyclic and exact |
| `ChunkedEntries.Entries.HasCapacity` | src/hwfq_chunked_entries.h:95-102 | Answers what the capacity function of the pool says |
| `Pools.AllocGivesFresh` | src/hwfq_chunked_entries.c:103-150 | An id handed out was not live, is below the limit, and is the only one that becomes live |
| `Pools.ReleaseTakesBack` | src/hwfq_chunked_entries.c:152-171 | Freeing a live id makes exactly it free |
| `Pools.AllocFailsWhenFull` | src/hwfq_chunked_entries.c:109-112 | An allocation fails if and only if the limit, or all that the directory can hold, is out |
| `Pools.HasCapacityAgrees` | src/hwfq_chunked_entries.h:95-102 | The capacity test agrees with the allocation if and only if a limit above the directory's has not used the directory up |
| `Pools.FreeCount` | src/hwfq_chunked_entries.c:103-171 | The counter is the number of live ids: issued ids are the live ones and the free list |
| `Pools.ReleaseThenAlloc` | src/hwfq_chunked_entries.c:116-128 | Freeing an id and allocating again gives the same id and the same pool |
| `Pools.LiveIsHeld` | src/hwfq_chunked_entries.c:103-171 | Over every history the live ids are those its callers hold, and no id is handed out while it is held |
| `InFlights.InFlightTable.Insert` | src/hwfq_scheduler.c:51-64 | The entry is in front of its chain and last in the list; both still hold the same entries; counters are exact |
| `InFlights.InFlightTable.Remove` | src/hwfq_scheduler.c:67-88 | The entry is out of its chain and the list, and nothing else is; counters are exact |
| `InFlights.InFlightTable.FindInChain` | src/hwfq_scheduler.c:91-107 | Finds the latest entry of the whole list that matches the triple, NULL if and only if none does |
| `InFlights.InFlightTable.FindInList` | src/hwfq_scheduler.c:465-473 | Finds the first entry of the list for a tenant and flow, NULL if and only if there is none |
| `InFlights.InFlightTable.Sweep` | src/hwfq_scheduler.c:616-637 | The list keeps exactly the entries that have not timed out, in order; the others are linked up, last one first, and counted |
| `InFlights.ChainSearch` | src/hwfq_scheduler.c:91-107 | Searching one chain for a match gives the last match of the whole list |
| `InFlights.ChainRemove` | src/hwfq_scheduler.c:67-77 | Taking an entry out of the list takes exactly it out of its chain |
| `InFlights.ChainElsewhere` | src/hwfq_scheduler.c:67-77 | and leaves the other chains alone |
| `Flights.LastMatchIs` | src/hwfq_scheduler.c:91-107 | There is a last match if and only if the list has a match, and none comes after it |
| `Flights.FirstOfIs` | src/hwfq_scheduler.c:465-473 | There is a first entry of a flow if and only if the list has one, and none comes before it |
| `Flights.ExpiryPartitions` | src/hwfq_scheduler.c:616-637 | A sweep loses and doubles no session |
| `Flights.ExpiryIsByTimeout` | src/hwfq_scheduler.c:619-624 | It takes exactly the sessions whose timeout is set and has passed |
| `Flights.ExpiryPartitionsWork` | src/hwfq_scheduler.c:628-629 | and the work it frees is theirs |
| `Levels.Level.Alloc` | src/hwfq_chunked_entries.c:103-150 | Hands out an id and, for a new one, lets the scheduler that shares the storage see its slot; nothing else of the scheduler changes |
| `Levels.Level.Free` | src/hwfq_chunked_entries.c:152-171 | Takes back the id of an entry that is not configured, and the scheduler does not notice |
| `Levels.Level.Configure` | src/hwfq_group_scheduler.c:182-254 | Configures an entry through the slot that storage and scheduler share; the pool of ids and its threaded free list are untouched |
| `Levels.Level.Remove` | src/hwfq_group_scheduler.c:256-301 | Likewise for removing one |
| `Levels.Level.Enqueue` | src/hwfq_group_scheduler.c:303-387 | The scheduler takes the session, or refuses and is unchanged, and nothing outside the level is touched |
| `Levels.Level.Dequeue` | src/hwfq_group_scheduler.c:389-417 | Takes out a session that a plain scan allows, through the calendar queue, or none exactly when the scan finds none |
| `Levels.Level.Update` | src/hwfq_group_scheduler.c:507-552 | Advances and rebases the level's times, on the heap as on the value |
| `Schedulers.Scheduler.Enqueue` | src/hwfq_scheduler.c:229-325 | Through the objects of both levels, the new state of every tenant and of the system level, and the answer, are those of the enqueue function |
| `Schedulers.Scheduler.Dequeue` | src/hwfq_scheduler.c:327-446 | Searching the calendar queues of both levels, updating their times and moving the session into the table of flights gives the state and the answer of the dequeue function, for choices that plain scans allow |
| `Schedulers.Scheduler.Complete` | src/hwfq_scheduler.c:448-534 | The new state and the answer are those of the completion function |
| `Schedulers.Scheduler.Cancel` | src/hwfq_scheduler.c:536-604 | The new state and the answer are those of the cancellation function |
| `Schedulers.Scheduler.CheckTimeouts` | src/hwfq_scheduler.c:606-666 | The new state is that of the sweep function, and the answer the number of sessions it took |
| `Schedulers.Scheduler.AddTenant` | src/hwfq_config.c:189-299 | The new state and the answer are those of the function, through the search for a free id, a level of the tenant's own with its reserved id, and the clean-up after a refusal; the id was not in use |
| `Schedulers.Scheduler.ConfigureTenant` | src/hwfq_config.c:301-341 | Through the entry lists and shared slots of the system level, the new state and the answer are those of the function |
| `Schedulers.Scheduler.RemoveTenant` | src/hwfq_config.c:343-373 | Taking the tenant out of the system level's lists, its id back into the threaded storage and its record away gives the state and the answer of the function |
| `Schedulers.Scheduler.AddFlow` | src/hwfq_config.c:375-424 | Through the storage and the scheduler of the tenant's level, with the id given back after a refusal, the new state and the answer are those of the function |
| `Schedulers.Scheduler.RemoveFlow` | src/hwfq_config.c:426-463 | Likewise for removing a flow, unlinked from the entry list before its slot joins the free list |
| `Schedulers.Scheduler.ReconfigureFlow` | src/hwfq_config.c:465-503 | Likewise for reconfiguring one in its slot |
| `Coupling.RegisterEffect` | src/hwfq_scheduler.c:203-226 | Registering a tenant always succeeds: the system scheduler then holds one session for each flagged tenant, and nothing else has changed |
| `Backlogs.SubmitCounts` | src/hwfq_scheduler.c:273-300 | The counters stay exact when a session is accepted |
| `Backlogs.HandOutCounts` | src/hwfq_scheduler.c:405-425 | They stay exact when a session goes from its queue into flight |
| `Backlogs.PutBackCounts` | src/hwfq_scheduler.c:378-386 | and when it is put back |
| `Backlogs.CountOutCounts` | src/hwfq_scheduler.c:495-503 | They stay exact when a session lands, and none of them was at zero |
| `Backlogs.SweepCounts` | src/hwfq_scheduler.c:616-637 | They stay exact through a sweep, which moves sessions from in flight to timed out |
| `Backlogs.NothingOwed` | src/hwfq_config.c:450-453 | A flow whose counter is zero has nothing queued, in flight or timed out |
| `Conduct.InitIsSound` | src/hwfq_config.c:80-149 | A new scheduler satisfies everything that holds between calls |
| `Scheduling.EnqueueKeeps` | src/hwfq_scheduler.c:229-325 | An enqueue keeps what holds between calls |
| `Scheduling.EnqueueAccepts` | src/hwfq_scheduler.c:233-303 | A session is accepted if and only if it has work and its tenant and flow are there; no other error than INVALID_ARG and NOT_FOUND occurs |
| `Scheduling.RejectKeeps` | src/hwfq_scheduler.c:378-386 | A dequeue without room keeps what holds between calls, and the tenant's queue holds the same sessions |
| `Scheduling.HandOutKeeps` | src/hwfq_scheduler.c:388-446 | A dequeue that hands a session out keeps what holds between calls, and moves just that session into flight |
| `Scheduling.LandKeeps` | src/hwfq_scheduler.c:481-503 | A landing that counts out of the tenant it was handed out for, or of none, keeps what holds between calls, counts out exactly its flow, and takes exactly that flight out |
| `Scheduling.LandKeepsExactly` | src/hwfq_scheduler.c:481-503 | A landing keeps what holds between calls if and only if the tenant that has the flight's id now is the one it was handed out for, is gone, or owes nothing |
| `Scheduling.CompleteKeepsExactly` | src/hwfq_scheduler.c:448-534 | A completion keeps what holds between calls if and only if the flight it finds, if any, is of the tenant that has its id now, or that tenant is gone or owes nothing |
| `Scheduling.CancelKeepsExactly` | src/hwfq_scheduler.c:536-604 | and so does a cancellation |
| `Scheduling.TimeoutsKeep` | src/hwfq_scheduler.c:616-637 | A sweep keeps what holds between calls |
| `Effects.EnqueueAnswers` | src/hwfq_scheduler.c:233-303 | INVALID_ARG, NOT_FOUND or SUCCESS, exactly when; nothing changes but on SUCCESS |
| `Effects.EnqueueDoes` | src/hwfq_scheduler.c:257-292 | An accepted session is recorded with all its arguments and queued last with its flow; no other tenant is touched |
| `Effects.EnqueueRegisters` | src/hwfq_scheduler.c:203-226 | A tenant that had nothing queued comes into the system scheduler with a session of work 4096; one that had is there already |
| `Effects.DequeueDoes` | src/hwfq_scheduler.c:395-425 | A session that is handed out is in flight from then on, as the latest, with the arguments it was enqueued with and the time of the dequeue; otherwise nothing goes into flight |
| `Effects.CompleteDoes` | src/hwfq_scheduler.c:448-483 | With user data a completion succeeds if and only if a session with that data, tenant and flow is in flight, and takes out exactly the latest such one; without, the first of the flow; otherwise NOT_FOUND and nothing changes |
| `Effects.CancelDoes` | src/hwfq_scheduler.c:536-571 | and so with a cancellation |
| `Effects.CheckTimeoutsDoes` | src/hwfq_scheduler.c:616-637 | A sweep takes a session out of flight if and only if its timeout is set and that much time has gone by on the 64-bit clock since its dequeue; all others stay |
| `Effects.AddTenantAnswers` | src/hwfq_config.c:189-290 | Every answer of adding a tenant, exactly when, in terms of the rates reserved; nothing changes but on SUCCESS |
| `Effects.AddTenantDoes` | src/hwfq_config.c:189-299 | A free id becomes the new tenant, configured in the system scheduler, whose flows are to share the rate it is added with, or else the whole capacity; no other tenant and no session is touched |
| `Effects.ConfigureTenantAnswers` | src/hwfq_config.c:301-341 | Every answer of reconfiguring a tenant, exactly when; nothing changes but on SUCCESS |
| `Effects.ConfigureTenantDoes` | src/hwfq_config.c:301-341 | The tenant has the new allocation, in the system scheduler too, where it has no past; everything else is as it was |
| `Effects.RemoveTenantDoes` | src/hwfq_config.c:343-373 | The id is free, the tenant out of the system scheduler, its flows out of the total; no other tenant and no session is touched |
| `Effects.AddFlowAnswers` | src/hwfq_config.c:375-424 | Every answer of adding a flow, exactly when, in terms of the flows there are and the rates they reserve |
| `Effects.AddFlowDoes` | src/hwfq_config.c:375-424 | A free id becomes a flow with the given allocation and no past; other flows and all sessions are as they were |
| `Effects.AddFlowRefused` | src/hwfq_config.c:413-418 | A flow that is not added leaves all schedulers, and the ids that are free, as they were |
| `Effects.RemoveFlowDoes` | src/hwfq_config.c:426-463 | The flow is gone and its id free; other flows and all sessions are as they were |
| `Effects.ReconfigureFlowAnswers` | src/hwfq_config.c:465-503 | Every answer of reconfiguring a flow, exactly when, in terms of the rates the others reserve; nothing changes but on SUCCESS |
| `Effects.ReconfigureFlowDoes` | src/hwfq_config.c:495-499 | The flow has the new allocation and no past; other flows and all sessions are as they were |
| `Effects.FlowsFitTenant` | src/hwfq_config.c:243-253 | Over every run of calls, the flows of a tenant that was added with a rate never reserve more than that rate together, and of one added with a weight never more than the capacity, whatever it is reconfigured to |
| `Effects.FlowOverbooks` | src/hwfq_config.c:409-418 | and a further flow of it is OVERBOOKED, or added, exactly when, in terms of the allocation the tenant was added with |
| `Administration.AddTenantKeeps` | src/hwfq_config.c:189-299 | Adding a tenant keeps what holds between calls |
| `Administration.AddTenantSucceeds` | src/hwfq_config.c:199-290 | It succeeds if and only if the allocation is valid and fits and an id is free, and changes nothing otherwise |
| `Administration.AdmittedIsAccepted` | src/hwfq_config.c:29-45 | What the capacity test of the hierarchy admits, the system scheduler accepts |
| `Administration.WouldExceedMeans` | src/hwfq_config.c:29-45 | The capacity test in plain sums, both ways |
| `Administration.ConfigureTenantKeeps` | src/hwfq_config.c:301-341 | Reconfiguring a tenant keeps what holds between calls |
| `Administration.RemoveTenantKeeps` | src/hwfq_config.c:343-373 | Removing a tenant keeps what holds between calls, whatever it has in flight, and discards no queued session |
| `Administration.AddFlowKeeps` | src/hwfq_config.c:375-424 | Adding a flow keeps what holds between calls, whether or not the tenant's scheduler accepts it |
| `Administration.RemoveFlowKeeps` | src/hwfq_config.c:426-463 | Removing a flow keeps what holds between calls, and strands no queued or in-flight session |
| `Administration.ReconfigureFlowKeeps` | src/hwfq_config.c:465-503 | Reconfiguring a flow keeps what holds between calls |
| `HierarchyLaws.ConductKeeps` | src/hwfq_scheduler.c:203-666 | Everything that holds between calls holds over every run of calls |
| `HierarchyLaws.HierarchyCoupled` | src/hwfq_scheduler.c:203-226 | In every reachable state a tenant is flagged if and only if it has sessions queued, if and only if the system scheduler holds a session of it, of which there is never a second |
| `HierarchyLaws.SystemServesTenants` | src/hwfq_scheduler.c:350-359 | Every session of the system scheduler is of a tenant that exists |
| `HierarchyLaws.DequeueAnswers` | src/hwfq_scheduler.c:327-446 | In every reachable state a dequeue never answers INTERNAL; it answers NO_WORK if and only if nothing is queued or the session it comes to does not fit; otherwise it hands that session out |
| `HierarchyLaws.InternalExactly` | src/hwfq_scheduler.c:365-369 | In every sound state a dequeue answers INTERNAL if and only if it comes to a tenant none of whose queued sessions has an unsaturated finish time with a start that virtual time has reached, or jumps to |
| `Witnesses.RunFailsInside` | src/hwfq_scheduler.c:365-369 | That happens: a run from the beginning with one enormous session after which a dequeue answers INTERNAL |
| `HierarchyLaws.NoWorkMovesNothing` | src/hwfq_scheduler.c:378-386 | A dequeue that answers NO_WORK leaves the sessions of every queue and of the in-flight set as they were |
| `HierarchyLaws.NoRoomGoesBehind` | src/hwfq_scheduler.c:378-386 | A dequeue without room puts the session last in its queue, to start no earlier than the last of its flow finishes |
| `HierarchyLaws.NoRoomUsesUpTime` | src/hwfq_scheduler.c:378-386 | Over n dequeues without room that come to a flow, others among them, the tenant's scheduler never rebases and the flow's last finish time reaches at least min(UINT64_MAX, last + n) |
| `HierarchyLaws.EverySessionInOnePlace` | src/hwfq_scheduler.c:286-303 | In every reachable state each accepted session is in exactly one of: queued, in flight, completed, cancelled, timed out |
| `HierarchyLaws.NothingElseIsAnywhere` | src/hwfq_scheduler.c:286-303 | and no queue, nor the in-flight or timed-out sessions, hold a session twice, and none of the five places one that was never accepted |
| `HierarchyLaws.HandedOutOnce` | src/hwfq_scheduler.c:327-446 | Over every run no session is handed out twice |
| `HierarchyLaws.OutStays` | src/hwfq_scheduler.c:481-637 | A session that was handed out stays out of the queues, through every call |
| `HierarchyLaws.InFlightIsBounded` | src/hwfq_scheduler.c:378-425 | In every reachable state the work in flight is the sum over the list and at most the capacity, the sessions in flight are no more than that, their 32-bit count is exact if and only if they are fewer than 2^32, and each is of a flow that is still there if its tenant is |
| `HierarchyLaws.RoomTest` | src/hwfq_scheduler.c:378-379 | The test for room is right if and only if its sum does not wrap into the capacity |
| `Witnesses.RunAdmitsTooMuch` | src/hwfq_scheduler.c:378-379 | It can wrap: a run from the beginning that takes work beyond 2^64 into flight on a capacity of 100 |
| `HierarchyLaws.BacklogsAreExact` | src/hwfq_scheduler.c:273-303 | In every reachable state the backlog of every tenant and flow is what is queued, in flight and timed out |
| `HierarchyLaws.RemoveFlowSucceeds` | src/hwfq_config.c:426-461 | Every answer of removing a flow: a flow can be removed if and only if it has nothing queued, nothing in flight and never had a session time out |
| `HierarchyLaws.RemoveTenantSucceeds` | src/hwfq_config.c:343-372 | Every answer of removing a tenant: it can be removed if and only if it has nothing queued, whatever it has in flight |
| `HierarchyLaws.TimedOutFlowStays` | src/hwfq_scheduler.c:628-637 | A flow of which a session timed out can never be removed while its tenant lasts |
| `HierarchyLaws.EarlierFlightStrands` | src/hwfq_scheduler.c:485-503 | What a flight of an earlier tenant does to a tenant with its id: completing it counts down the new one, and then a flow can be removed over a queued session |
| `Witnesses.RunStrands` | src/hwfq_config.c:352-372 | That happens: a run from the beginning that removes a tenant with a session in flight, adds one that gets the same id, and ends with a flow removed over its queued session |
| `HierarchyLaws.LedgersAgree` | src/hwfq_config.c:29-45 | In every reachable state the two rate totals agree with the sum of the configured rates, the tenant count and the flow total with the tables, and the flow total is within its limit |
| `HierarchyLaws.IgnoredAnswerIsSuccess` | src/hwfq_config.c:333-337 | The ignored answer of the system scheduler is always SUCCESS; and when OVERBOOKED is answered |
| `HierarchyLaws.NoTenantIsOverwritten` | src/hwfq_config.c:199-290 | A new tenant never takes the id of another, although the id searched for is not the one used; and when it is added |
| `FlowOrder.FlowsInOrder` | src/hwfq_scheduler.c:327-446 | Over every run of calls from the beginning, administration among them, in which no session of a tenant is refused or chosen with its times clamped to a point and none of its flows is reconfigured with sessions queued: each of its flows is served in the order in which its sessions were accepted |
| `FlowOrder.InOrderWhenGentle` | src/hwfq_scheduler.c:327-446 | Under the conditions of the delay bound, from an idle tenant and with room for its sessions, no times are ever clamped, so its flows are served in order whatever rebases there are |
| `FlowOrder.ServedFirst` | src/hwfq_group_calendar.c:264-278 | A service that takes time leaves only later sessions of its entry queued |
| `TenantDelay.NoTenantIsLate` | src/hwfq_scheduler.c:350-363 | From any sound state with no tenant queued, the doubled rates of the tenants within the capacity and the capacity at most 2^32, over any run of session calls, the virtual time of the system scheduler never passes the finish time of a waiting tenant |
| `TwoLevels.NoSessionStarves` | src/hwfq_scheduler.c:327-446 | Over both levels: after any run of session calls from idle schedulers, over any further such run in which a session of a tenant stays queued, with room throughout for what comes up of that tenant, the turns of the tenant are bounded by the time to the session's finish time in its scheduler, and the dequeues that come to other tenants, with room or without, by the time to the tenant's finish time in the system scheduler and its turns |
| `TwoLevels.Projects` | src/hwfq_scheduler.c:327-446 | Such a run of calls is a run of arrivals and services at each level: as many services of the system scheduler as dequeues that come to a session, and as many of the tenant's as it has turns |
| `TwoLevels.GentleConduct` | src/hwfq_scheduler.c:327-446 | It keeps, at both levels, the lateness and lead invariants that the bounds start from |
| `TenantDelay.NoFlowIsLate` | src/hwfq_scheduler.c:388-393 | The delay bound inside a tenant: from any sound state with nothing of it queued, over any run of session calls, dequeues without room among them, each of its queued sessions is late by less than one largest session |
| `TenantDelay.BothLevelsServe` | src/hwfq_scheduler.c:359-446 | A dequeue that succeeds is exactly one service at each level, with its virtual time update, and one arrival in the system scheduler if and only if the tenant has more |
| `TenantDelay.RefusalServes` | src/hwfq_scheduler.c:378-386 | A dequeue without room is one service of the system scheduler, and the tenant arrives there again at once |
| `TenantDelay.EnqueueArrives` | src/hwfq_scheduler.c:286-292 | An accepted session is exactly one arrival in the scheduler of its tenant |
| `TenantDelay.ConductOnTime` | src/hwfq_scheduler.c:350-363 | The lateness invariant of the system scheduler is kept by the session calls of the hierarchy |

## Left out

- `tenant_session` is only ever written, so it has no field; the coupling is stated on the queue itself.
- Threads and mutexes: each call is one step, as it runs under the lock.
- Failure of malloc, custom allocators, `hwfq_destroy`, NULL arguments and cleanup callbacks.
- Clocks: the time of a dequeue and of a timeout check are parameters. Wait times, rate tracking and
  statistics other than the backlogs are not modelled.
- The callbacks `session_available_fn` and `session_timeout_fn`, called after the lock is released.
- `min_finish_time` and `min_session`, which never decide anything.
- `alloc_hint` of the trie, which is not used to find an id.
- The getters and `hwfq_reset_stats`.
- Throughput, memory footprint and the tolerance percentages of the tests.
- Calendars.Calendar.Rebase: requires that the cached minimum is not UINT64_MAX for a non-empty queue; Rebasing.RebasedCacheIsExact gives the exact condition.
- GroupSchedulers.GroupScheduler.RebaseIfNeeded: requires the same of the cache.
- GroupSchedulers.GroupScheduler.UpdateVirtualTime: requires the same of the cache.
- ChunkedEntries.Entries.Free: frees live ids only; freeing an id twice would make the threaded list cyclic.
- TimeLaws.FifoPerEntry: says nothing on entries that are reconfigured in between, as their last finish time starts again at 0.
- Proportional.ProportionalService: an entry counts as busy while it has a session queued and its new sessions arrive before virtual time has passed its last finish time.
- FlowTries.FlowTrie.constructor: takes at most 2^32 - 64 flows; with more the program's size computation wraps.
- Levels.Level.Update: requires the same of the cache, in terms of the abstract queue.
- Schedulers.Scheduler.Dequeue: requires that no queued session starts at UINT64_MAX, so that the caches of both levels are exact.
- Schedulers.Scheduler.AddTenant: the tenant's scheduler is made after its id is taken, where the program makes it before and drops it on a refusal.
- TwoLevels.NoSessionStarves: assumes that the dequeues which come to the waiting tenant, before and during the wait, have room; one without room moves no time in its scheduler.
- FlowOrder.FlowsInOrder: assumes no refusals of the tenant's sessions; a refused session goes behind those of its flow (HierarchyLaws.NoRoomGoesBehind).
- Schedulers.Scheduler.Enqueue: the counters are raised after the flow's scheduler has accepted the session, where the program raises them before and lowers them on a refusal.
