/**
 The sessions in flight on the heap: every entry is in one hash chain and in one doubly linked
 list. The list is the sequence of flights; the chains are determined by it.
 */
module InFlights {
  import opened Machine
  import opened Bits
  import opened Wfq
  import opened Flights

  const BUCKETS: nat := 1024
  const BUCKET_BITS: nat := 10
  const HASH_FACTOR: nat := 2654435761

  class FlightNode {
    const flight: Flight
    var hashNext: FlightNode?
    var listNext: FlightNode?
    var listPrev: FlightNode?

    constructor (flight: Flight)
      ensures this.flight == flight
    {
      this.flight := flight;
      hashNext, listNext, listPrev := null, null, null;
    }
  }

  function Bucket(data: nat): (b: nat)
    ensures b < BUCKETS
  {
    assert Pow2(BUCKET_BITS) == BUCKETS by { assert Pow2(5) == 32; }
    Masked(Wrap64(data * HASH_FACTOR), BUCKET_BITS)
  }

  function Flown(ns: seq<FlightNode>): (r: seq<Flight>)
    ensures |r| == |ns| && forall i | 0 <= i < |r| :: r[i] == ns[i].flight
  {
    if ns == [] then [] else Flown(ns[..|ns| - 1]) + [ns[|ns| - 1].flight]
  }

  lemma FlownAppend(ns: seq<FlightNode>, x: FlightNode)
    ensures Flown(ns + [x]) == Flown(ns) + [x.flight]
  {
    assert (ns + [x])[..|ns|] == ns;
  }

  lemma FlownRemove(ns: seq<FlightNode>, k: nat)
    requires k < |ns|
    ensures Flown(RemoveAt(ns, k)) == RemoveAt(Flown(ns), k)
  {
    hide Flown, RemoveAt;
    RemovedIndex(ns, k);
    RemovedIndex(Flown(ns), k);
  }

  ghost predicate AllDistinct(ns: seq<FlightNode>) {
    forall i, j | 0 <= i < j < |ns| :: ns[i] != ns[j]
  }

  function At(ns: seq<FlightNode>, i: int): FlightNode? {
    if 0 <= i < |ns| then ns[i] else null
  }

  // ---------- Chains ----------

  // The entries of bucket b, newest first.
  function Chain(ns: seq<FlightNode>, b: nat): (c: seq<FlightNode>)
    ensures forall x | x in c :: x in ns && Bucket(x.flight.data) == b
    ensures forall x | x in ns :: Bucket(x.flight.data) == b ==> x in c
  {
    if ns == [] then []
    else
      assert ns == ns[..|ns| - 1] + [ns[|ns| - 1]];
      var c := Chain(ns[..|ns| - 1], b);
      if Bucket(ns[|ns| - 1].flight.data) == b then [ns[|ns| - 1]] + c else c
  }

  lemma ChainAppend(ns: seq<FlightNode>, x: FlightNode, b: nat)
    ensures Chain(ns + [x], b) == if Bucket(x.flight.data) == b then [x] + Chain(ns, b) else Chain(ns, b)
  {
    assert (ns + [x])[..|ns|] == ns;
  }

  lemma {:induction false} ChainDistinct(ns: seq<FlightNode>, b: nat)
    requires AllDistinct(ns)
    ensures AllDistinct(Chain(ns, b))
  {
    if ns != [] {
      ChainDistinct(ns[..|ns| - 1], b);
    }
  }

  lemma {:induction false} ChainElsewhere(ns: seq<FlightNode>, k: nat, b: nat)
    requires k < |ns| && Bucket(ns[k].flight.data) != b
    ensures Chain(RemoveAt(ns, k), b) == Chain(ns, b)
  {
    hide Bucket;
    var front := ns[..|ns| - 1];
    if k < |front| {
      ChainElsewhere(front, k, b);
      assert RemoveAt(ns, k) == RemoveAt(front, k) + [ns[|ns| - 1]];
      ChainAppend(RemoveAt(front, k), ns[|ns| - 1], b);
    } else {
      assert RemoveAt(ns, k) == front;
    }
  }

  lemma RemoveFirst(c: seq<FlightNode>, x: FlightNode)
    ensures RemoveAt([x] + c, 0) == c
  {
  }

  lemma RemoveFromFront(ns: seq<FlightNode>, k: nat)
    requires k < |ns|
    ensures var front := ns[..|ns| - 1];
      RemoveAt(ns, k) == if k == |front| then front else RemoveAt(front, k) + [ns[|ns| - 1]]
  {
  }

  lemma RemoveBehind(c: seq<FlightNode>, x: FlightNode, i: nat)
    requires i < |c|
    ensures RemoveAt([x] + c, i + 1) == [x] + RemoveAt(c, i)
  {
  }

  // Taking an entry out of the list takes it out of its chain.
  lemma {:induction false} ChainRemove(ns: seq<FlightNode>, k: nat, i: nat)
    requires k < |ns| && AllDistinct(ns)
    requires i < |Chain(ns, Bucket(ns[k].flight.data))| && Chain(ns, Bucket(ns[k].flight.data))[i] == ns[k]
    ensures Chain(RemoveAt(ns, k), Bucket(ns[k].flight.data)) == RemoveAt(Chain(ns, Bucket(ns[k].flight.data)), i)
  {
    hide Bucket, RemoveAt;
    var b := Bucket(ns[k].flight.data);
    var front, x, c := ns[..|ns| - 1], ns[|ns| - 1], Chain(ns, b);
    var c' := Chain(front, b);
    ChainDistinct(ns, b);
    RemoveFromFront(ns, k);
    if k == |front| {
      assert c == [x] + c';
      assert c[0] == c[i];
      RemoveFirst(c', x);
    } else {
      ChainAppend(RemoveAt(front, k), x, b);
      if Bucket(x.flight.data) == b {
        assert c == [x] + c' && c[i] != c[0];
        assert front[k] == ns[k] && c'[i - 1] == front[k];
        ChainRemove(front, k, i - 1);
        RemoveBehind(c', x, i - 1);
      } else {
        ChainRemove(front, k, i);
      }
    }
  }

  // The chain is linked through hashNext from head.
  ghost predicate IsChain(c: seq<FlightNode>, head: FlightNode?)
    reads c`hashNext
  {
    head == At(c, 0) && forall i {:trigger c[i].hashNext} | 0 <= i < |c| :: c[i].hashNext == At(c, i + 1)
  }

  ghost predicate Chained(ns: seq<FlightNode>, b: nat, head: FlightNode?)
    reads ns`hashNext
  {
    hide Bucket;
    var c := Chain(ns, b);
    assert forall i | 0 <= i < |c| :: c[i] in ns;
    IsChain(c, head)
  }

  // The list is linked both ways.
  ghost predicate IsQueue(ns: seq<FlightNode>, head: FlightNode?, tail: FlightNode?)
    reads ns`listNext, ns`listPrev
  {
    && head == At(ns, 0) && tail == At(ns, |ns| - 1)
    && (forall i {:trigger ns[i].listNext} | 0 <= i < |ns| :: ns[i].listNext == At(ns, i + 1))
    && forall i {:trigger ns[i].listPrev} | 0 <= i < |ns| :: ns[i].listPrev == At(ns, i - 1)
  }

  predicate Hit(x: FlightNode, data: nat, tenant: nat, flow: nat) {
    Matches(x.flight, data, tenant, flow)
  }

  // The first hit of a chain from position i on.
  function FirstHit(c: seq<FlightNode>, i: nat, data: nat, tenant: nat, flow: nat): FlightNode?
    decreases |c| - i
  {
    if i >= |c| then null
    else if Hit(c[i], data, tenant, flow) then c[i]
    else FirstHit(c, i + 1, data, tenant, flow)
  }

  lemma {:induction false} FirstHitShift(c: seq<FlightNode>, x: FlightNode, i: nat, data: nat, tenant: nat, flow: nat)
    ensures FirstHit([x] + c, i + 1, data, tenant, flow) == FirstHit(c, i, data, tenant, flow)
    decreases |c| - i
  {
    if i < |c| {
      FirstHitShift(c, x, i + 1, data, tenant, flow);
    }
  }

  lemma SameBucket(f: Flight, data: nat, tenant: nat, flow: nat)
    ensures Matches(f, data, tenant, flow) ==> Bucket(f.data) == Bucket(data)
  {
  }

  // Searching one chain finds the last matching flight of the whole list.
  lemma {:induction false} ChainSearch(ns: seq<FlightNode>, data: nat, tenant: nat, flow: nat)
    ensures FirstHit(Chain(ns, Bucket(data)), 0, data, tenant, flow) ==
      match LastMatch(Flown(ns), data, tenant, flow)
      case None => null
      case Some(k) => At(ns, k)
  {
    hide Bucket, Flown, Matches;
    if ns != [] {
      var front, x := ns[..|ns| - 1], ns[|ns| - 1];
      var fs := Flown(ns);
      ChainSearch(front, data, tenant, flow);
      assert fs[..|fs| - 1] == Flown(front) && fs[|fs| - 1] == x.flight;
      SameBucket(x.flight, data, tenant, flow);
      if Bucket(x.flight.data) == Bucket(data) {
        FirstHitShift(Chain(front, Bucket(data)), x, 0, data, tenant, flow);
      }
    }
  }

  // Entries linked through hashNext from the last one back.
  ghost predicate IsStack(ns: seq<FlightNode>, top: FlightNode?)
    reads ns`hashNext
  {
    top == At(ns, |ns| - 1) && forall i {:trigger ns[i].hashNext} | 0 <= i < |ns| :: ns[i].hashNext == At(ns, i - 1)
  }

  class InFlightTable {
    const hash: array<FlightNode?>
    var head: FlightNode?
    var tail: FlightNode?
    var workSize: nat
    var count: nat
    // The entries in the order they were inserted in.
    ghost var nodes: seq<FlightNode>

    constructor ()
      ensures Valid() && View() == [] && workSize == 0 && count == 0 && fresh(hash)
    {
      hash := new FlightNode?[BUCKETS](_ => null);
      head, tail, workSize, count := null, null, 0, 0;
      nodes := [];
    }

    ghost predicate Hashed(ns: seq<FlightNode>)
      reads hash, ns`hashNext
    {
      hash.Length == BUCKETS && forall b | 0 <= b < BUCKETS :: Chained(ns, b, hash[b])
    }

    ghost predicate Listed()
      reads `nodes, `head, `tail, nodes`listNext, nodes`listPrev
    {
      AllDistinct(nodes) && IsQueue(nodes, head, tail)
    }

    ghost predicate Valid()
      reads hash, `nodes, `head, `tail, `workSize, `count
      reads nodes`hashNext, nodes`listNext, nodes`listPrev
    {
      && Hashed(nodes) && Listed()
      && workSize == Wrap64(WorkOf(View())) && count == Wrap32(|nodes|)
    }

    ghost function View(): seq<Flight>
      reads `nodes
    {
      Flown(nodes)
    }

    // Changes to other objects do not matter.
    twostate lemma Undisturbed()
      requires old(Valid()) && unchanged(this) && unchanged(hash)
      requires forall i | 0 <= i < |nodes| :: unchanged(nodes[i])
      ensures Valid() && View() == old(View())
    {
    }

    // ---------- Insert ----------

    method PushChain(entry: FlightNode)
      requires Hashed(nodes) && entry !in nodes
      modifies hash, entry`hashNext
      ensures Hashed(nodes + [entry])
    {
      hide Bucket;
      var bucket := Bucket(entry.flight.data);
      entry.hashNext := hash[bucket];
      hash[bucket] := entry;
      forall b | 0 <= b < BUCKETS
        ensures Chained(nodes + [entry], b, hash[b])
      {
        ChainAppend(nodes, entry, b);
        assert entry !in Chain(nodes, b);
        assert Chained(nodes, b, old(hash[b]));
      }
    }

    method PushTail(entry: FlightNode)
      requires Listed() && entry !in nodes
      modifies `head, `tail, `nodes, entry`listNext, entry`listPrev, nodes`listNext
      ensures Listed() && nodes == old(nodes) + [entry]
    {
      entry.listNext := null;
      entry.listPrev := tail;
      if tail != null {
        tail.listNext := entry;
      } else {
        head := entry;
      }
      tail := entry;
      nodes := nodes + [entry];
    }

    // A session starts to be in flight.
    method Insert(flight: Flight)
      requires Valid()
      modifies hash, `head, `tail, `nodes, `workSize, `count, nodes`listNext
      ensures Valid() && |nodes| > 0 && fresh(nodes[|nodes| - 1]) && nodes[..|nodes| - 1] == old(nodes)
      ensures View() == old(View()) + [flight]
      ensures workSize == Wrap64(old(workSize) + flight.work) && count == Wrap32(old(count) + 1)
    {
      hide Chained, IsQueue, Flown, Wrap64, Wrap32;
      WrapAdd(WorkOf(View()), flight.work);
      WrapAdd(|nodes|, 1);
      var entry := new FlightNode(flight);
      FlownAppend(nodes, entry);
      WorkOfAppend(View(), flight);
      PushChain(entry);
      PushTail(entry);
      workSize := Wrap64(workSize + flight.work);
      count := Wrap32(count + 1);
    }

    // ---------- Remove ----------

    // Finds an entry in its chain, the i-th there, and takes it out.
    method DropChain(entry: FlightNode, ghost k: nat, ghost c: seq<FlightNode>, ghost i: nat)
      requires Hashed(nodes) && AllDistinct(nodes) && k < |nodes| && nodes[k] == entry
      requires c == Chain(nodes, Bucket(entry.flight.data)) && i < |c| && c[i] == entry
      modifies hash, nodes`hashNext
      ensures IsChain(RemoveAt(c, i), hash[Bucket(entry.flight.data)])
      ensures forall b | 0 <= b < BUCKETS && b != Bucket(entry.flight.data) :: hash[b] == old(hash[b])
      ensures forall x | x in nodes && x !in c :: x.hashNext == old(x.hashNext)
    {
      hide Bucket, Chain;
      ChainDistinct(nodes, Bucket(entry.flight.data));
      var bucket := Bucket(entry.flight.data);
      assert Chained(nodes, bucket, hash[bucket]);
      assert forall j | 0 <= j < |c| :: c[j] in nodes;
      if hash[bucket] == entry {
        hash[bucket] := entry.hashNext;
      } else {
        var prev := hash[bucket];
        ghost var j := 0;
        while prev.hashNext != entry
          invariant 0 <= j < i && prev == c[j]
          decreases |c| - j
        {
          prev := prev.hashNext;
          j := j + 1;
        }
        prev.hashNext := entry.hashNext;
      }
    }

    method PullChain(entry: FlightNode, ghost k: nat)
      requires Hashed(nodes) && AllDistinct(nodes) && k < |nodes| && nodes[k] == entry
      modifies hash, nodes`hashNext
      ensures Hashed(RemoveAt(nodes, k))
    {
      hide Bucket;
      ghost var own := Bucket(entry.flight.data);
      ghost var c := Chain(nodes, own);
      ghost var i :| 0 <= i < |c| && c[i] == entry;
      ChainRemove(nodes, k, i);
      DropChain(entry, k, c, i);
      forall b | 0 <= b < BUCKETS
        ensures Chained(RemoveAt(nodes, k), b, hash[b])
      {
        if b != own {
          ChainElsewhere(nodes, k, b);
          assert old(Chained(nodes, b, hash[b]));
          assert forall x | x in Chain(nodes, b) :: x !in c;
        }
      }
    }

    lemma RestAt(ns: seq<FlightNode>, k: nat)
      requires k < |ns|
      ensures var rest := RemoveAt(ns, k);
        && |rest| == |ns| - 1
        && (forall i | 0 <= i < |rest| :: rest[i] == ns[if i < k then i else i + 1])
        && forall i: int {:trigger At(rest, i)} :: At(rest, i) == At(ns, if i < k then i else i + 1)
    {
    }

    method BypassList(entry: FlightNode, ghost k: nat)
      requires Listed() && k < |nodes| && nodes[k] == entry
      modifies `head, `tail, nodes`listNext, nodes`listPrev
      ensures IsQueue(RemoveAt(nodes, k), head, tail)
    {
      hide RemoveAt;
      RestAt(nodes, k);
      if entry.listPrev != null {
        entry.listPrev.listNext := entry.listNext;
      } else {
        head := entry.listNext;
      }
      if entry.listNext != null {
        entry.listNext.listPrev := entry.listPrev;
      } else {
        tail := entry.listPrev;
      }
    }

    method PullList(entry: FlightNode, ghost k: nat)
      requires Listed() && k < |nodes| && nodes[k] == entry
      modifies `head, `tail, `nodes, nodes`listNext, nodes`listPrev
      ensures Listed() && nodes == RemoveAt(old(nodes), k)
    {
      BypassList(entry, k);
      nodes := RemoveAt(nodes, k);
    }

    // Takes an entry, the k-th of the list, out of flight.
    method Remove(entry: FlightNode, ghost k: nat)
      requires Valid() && k < |nodes| && nodes[k] == entry
      modifies hash, `head, `tail, `nodes, `workSize, `count, nodes`hashNext, nodes`listNext, nodes`listPrev
      ensures Valid() && nodes == RemoveAt(old(nodes), k)
      ensures View() == RemoveAt(old(View()), k)
      ensures workSize == Wrap64(old(workSize) - entry.flight.work) && count == Wrap32(old(count) - 1)
    {
      hide Chained, IsQueue, Flown, Wrap64, Wrap32;
      FlownRemove(nodes, k);
      WorkOfRemove(View(), k);
      WrapAdd(WorkOf(View()), -(entry.flight.work as int));
      WrapAdd(|nodes|, -1);
      PullChain(entry, k);
      PullList(entry, k);
      workSize := Wrap64(workSize - entry.flight.work);
      count := Wrap32(count - 1);
    }

    // ---------- Search ----------

    // in_flight_find: searches the chain of a user pointer.
    method FindInChain(data: nat, tenant: nat, flow: nat) returns (found: FlightNode?)
      requires Hashed(nodes)
      ensures found == match LastMatch(View(), data, tenant, flow)
        case None => null
        case Some(k) => At(nodes, k)
    {
      hide Bucket, Chain, Flown;
      var bucket := Bucket(data);
      ghost var c := Chain(nodes, bucket);
      ghost var i := 0;
      assert Chained(nodes, bucket, hash[bucket]);
      ChainSearch(nodes, data, tenant, flow);
      found := hash[bucket];
      while found != null && !Matches(found.flight, data, tenant, flow)
        invariant 0 <= i <= |c| && found == At(c, i)
        invariant FirstHit(c, i, data, tenant, flow) == FirstHit(c, 0, data, tenant, flow)
        decreases |c| - i
      {
        found := found.hashNext;
        i := i + 1;
      }
    }

    // The first entry of a flow in the list.
    method FindInList(tenant: nat, flow: nat) returns (found: FlightNode?)
      requires Listed()
      ensures found == match FirstOf(View(), tenant, flow)
        case None => null
        case Some(k) => At(nodes, k)
    {
      ghost var i := 0;
      FirstOfIs(View(), tenant, flow);
      found := head;
      while found != null && !(found.flight.tenant == tenant && found.flight.flow == flow)
        invariant 0 <= i <= |nodes| && found == At(nodes, i)
        invariant forall j | 0 <= j < i :: !(nodes[j].flight.tenant == tenant && nodes[j].flight.flow == flow)
        decreases |nodes| - i
      {
        found := found.listNext;
        i := i + 1;
      }
    }

    // The entry that a completion or a cancellation is about.
    method Lookup(data: nat, tenant: nat, flow: nat) returns (found: FlightNode?)
      requires Valid()
      ensures found == match Find(View(), data, tenant, flow)
        case None => null
        case Some(k) => At(nodes, k)
    {
      hide Hashed, Listed, LastMatch, FirstOf;
      if data != 0 {
        found := FindInChain(data, tenant, flow);
      } else {
        found := FindInList(tenant, flow);
      }
    }

    // ---------- Timeouts ----------

    // Takes an entry that has timed out, the k-th of the list, out of flight and pushes it on the
    // stack of those taken before.
    method Expire(entry: FlightNode, ghost k: nat, expired: FlightNode?, ghost out: seq<FlightNode>)
      requires Valid() && k < |nodes| && nodes[k] == entry
      requires IsStack(out, expired) && forall x | x in out :: x !in nodes
      modifies hash, `head, `tail, `nodes, `workSize, `count, nodes`hashNext, nodes`listNext, nodes`listPrev
      ensures Valid() && nodes == RemoveAt(old(nodes), k)
      ensures IsStack(out + [entry], entry) && forall x | x in out + [entry] :: x !in nodes
    {
      hide Hashed, IsQueue, Flown, Wrap64, Wrap32;
      assert forall i | 0 <= i < |out| :: out[i] !in nodes;
      Remove(entry, k);
      entry.hashNext := expired;
      ghost var stack := out + [entry];
      assert forall i | 0 <= i < |out| :: stack[i] == out[i];
    }

    // How far a sweep has come: of the entries of all, those before i have been looked at, done
    // are the ones kept, and out the ones taken.
    ghost predicate Sweeping(all: seq<FlightNode>, i: nat, done: seq<FlightNode>,
                             expired: FlightNode?, out: seq<FlightNode>, now: nat)
      reads hash, `nodes, `head, `tail, `workSize, `count
      reads nodes`hashNext, nodes`listNext, nodes`listPrev, out`hashNext
    {
      && i <= |all| && Valid() && nodes == done + all[i..]
      && (forall k | 0 <= k < |nodes| :: nodes[k] in all)
      && Flown(done) == Kept(Flown(all)[..i], now) && Flown(out) == Expired(Flown(all)[..i], now)
      && IsStack(out, expired) && forall x | x in out :: x !in nodes
    }

    // One step of the sweep.
    method Consider(entry: FlightNode, now: nat, ghost all: seq<FlightNode>, ghost i: nat, ghost done: seq<FlightNode>,
                    expired: FlightNode?, ghost out: seq<FlightNode>)
      returns (expired': FlightNode?, hits: nat, ghost done': seq<FlightNode>, ghost out': seq<FlightNode>)
      requires Sweeping(all, i, done, expired, out, now) && i < |all| && all[i] == entry
      modifies hash, `head, `tail, `nodes, `workSize, `count, all`hashNext, all`listNext, all`listPrev
      ensures Sweeping(all, i + 1, done', expired', out', now)
      ensures hits == |out'| - |out|
    {
      hide Hashed, Listed, IsStack, TimedOut, Wrap64, Wrap32, Flown, Kept, Expired;
      NextInLine(done, all, i);
      SweepStep(all, i, now);
      FlownAppend(out, entry);
      FlownAppend(done, entry);
      expired', hits, done', out' := expired, 0, done, out;
      if TimedOut(entry.flight, now) {
        assert nodes[|done|] == entry;
        Expire(entry, |done|, expired, out);
        expired', hits, out' := entry, 1, out + [entry];
      } else {
        done' := done + [entry];
      }
    }

    // The entry a sweep has come to is the one the list is read at.
    lemma AtFront(all: seq<FlightNode>, i: nat, done: seq<FlightNode>, expired: FlightNode?,
                  out: seq<FlightNode>, now: nat)
      requires Sweeping(all, i, done, expired, out, now) && i < |all|
      ensures Listed() && |done| < |nodes| && nodes[|done|] == all[i] && At(nodes, |done| + 1) == At(all, i + 1)
    {
    }

    lemma SweepEnd(all: seq<FlightNode>, i: nat, done: seq<FlightNode>, expired: FlightNode?,
                   out: seq<FlightNode>, now: nat)
      requires Sweeping(all, i, done, expired, out, now) && i == |all|
      ensures Valid() && View() == Kept(Flown(all), now) && forall x | x in nodes :: x in all
      ensures IsStack(out, expired) && Flown(out) == Expired(Flown(all), now)
    {
      assert Flown(all)[..i] == Flown(all);
      assert nodes == done;
    }

    // Takes every entry that has timed out of flight; they end up linked through hashNext, the
    // last one first.
    method Sweep(now: nat) returns (expired: FlightNode?, timeouts: nat, ghost out: seq<FlightNode>)
      requires Valid()
      modifies hash, `head, `tail, `nodes, `workSize, `count, nodes`hashNext, nodes`listNext, nodes`listPrev
      ensures Valid() && forall x | x in nodes :: x in old(nodes)
      ensures View() == Kept(old(View()), now)
      ensures IsStack(out, expired) && Flown(out) == Expired(old(View()), now) && timeouts == |out|
    {
      hide Sweeping, Valid, Listed, Kept, Expired, IsStack, Flown;
      ghost var all: seq<FlightNode>, i: nat, done: seq<FlightNode> := nodes, 0, [];
      expired, timeouts, out := null, 0, [];
      var entry := head;
      SweepStart(now);
      while entry != null
        invariant 0 <= i <= |all| && entry == At(all, i)
        invariant Sweeping(all, i, done, expired, out, now) && timeouts == |out|
        decreases |all| - i
      {
        AtFront(all, i, done, expired, out, now);
        var next := NextOf(entry, |done|);
        var hits;
        expired, hits, done, out := Consider(entry, now, all, i, done, expired, out);
        timeouts := timeouts + hits;
        i := i + 1;
        entry := next;
      }
      SweepEnd(all, i, done, expired, out, now);
    }

    lemma NextInLine(done: seq<FlightNode>, all: seq<FlightNode>, i: nat)
      requires i < |all|
      ensures RemoveAt(done + all[i..], |done|) == done + all[i + 1..]
      ensures done + all[i..] == done + [all[i]] + all[i + 1..]
    {
    }

    method NextOf(entry: FlightNode, ghost k: nat) returns (next: FlightNode?)
      requires Listed() && k < |nodes| && nodes[k] == entry
      ensures next == At(nodes, k + 1)
    {
      next := entry.listNext;
    }

    lemma SweepStart(now: nat)
      requires Valid()
      ensures Sweeping(nodes, 0, [], null, [], now) && head == At(nodes, 0)
    {
      assert nodes == [] + nodes[0..];
    }

    lemma SweepStep(all: seq<FlightNode>, i: nat, now: nat)
      requires i < |all|
      ensures var fs, f := Flown(all), all[i].flight;
        && |fs| == |all| && Kept(fs[..i + 1], now) == Kept(fs[..i], now) + (if TimedOut(f, now) then [] else [f])
        && Expired(fs[..i + 1], now) == Expired(fs[..i], now) + if TimedOut(f, now) then [f] else []
    {
      hide Flown;
      var fs := Flown(all);
      assert fs[..i + 1][..i] == fs[..i];
    }
  }
}
