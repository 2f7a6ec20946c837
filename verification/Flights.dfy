/**
 The sessions in flight as a value: a sequence in the order they were dequeued in.
 */
module Flights {
  import opened Machine
  import opened Wfq

  datatype Flight = Flight(tenant: nat, flow: nat, work: nat, data: nat, dequeued: nat, timeout: nat)

  predicate Matches(f: Flight, data: nat, tenant: nat, flow: nat) {
    f.data == data && f.tenant == tenant && f.flow == flow
  }

  // The flight that a search of the hash chains finds: a chain has its newest entry in front.
  function LastMatch(fs: seq<Flight>, data: nat, tenant: nat, flow: nat): (r: Option<nat>)
    ensures r.Some? ==> r.value < |fs|
  {
    if fs == [] then None
    else if Matches(fs[|fs| - 1], data, tenant, flow) then Some(|fs| - 1)
    else LastMatch(fs[..|fs| - 1], data, tenant, flow)
  }

  // The flight that a walk along the list finds.
  function FirstOf(fs: seq<Flight>, tenant: nat, flow: nat): Option<nat> {
    if fs == [] then None
    else if fs[0].tenant == tenant && fs[0].flow == flow then Some(0)
    else match FirstOf(fs[1..], tenant, flow)
      case None => None
      case Some(i) => Some(i + 1)
  }

  // The flight that a completion or cancellation is about; data 0 is the null pointer.
  function Find(fs: seq<Flight>, data: nat, tenant: nat, flow: nat): Option<nat> {
    if data != 0 then LastMatch(fs, data, tenant, flow) else FirstOf(fs, tenant, flow)
  }

  lemma {:induction false} LastMatchIs(fs: seq<Flight>, data: nat, tenant: nat, flow: nat)
    ensures LastMatch(fs, data, tenant, flow).None? <==> forall f :: f in fs ==> !Matches(f, data, tenant, flow)
    ensures var r := LastMatch(fs, data, tenant, flow);
      r.Some? ==>
        && r.value < |fs| && Matches(fs[r.value], data, tenant, flow)
        && forall j | r.value < j < |fs| :: !Matches(fs[j], data, tenant, flow)
  {
    if fs != [] {
      LastMatchIs(fs[..|fs| - 1], data, tenant, flow);
      assert fs == fs[..|fs| - 1] + [fs[|fs| - 1]];
    }
  }

  lemma {:induction false} FirstOfIs(fs: seq<Flight>, tenant: nat, flow: nat)
    ensures FirstOf(fs, tenant, flow).None? <==> forall f :: f in fs ==> !(f.tenant == tenant && f.flow == flow)
    ensures var r := FirstOf(fs, tenant, flow);
      r.Some? ==>
        && r.value < |fs| && fs[r.value].tenant == tenant && fs[r.value].flow == flow
        && forall j | 0 <= j < r.value :: !(fs[j].tenant == tenant && fs[j].flow == flow)
  {
    if fs != [] {
      FirstOfIs(fs[1..], tenant, flow);
      assert fs == [fs[0]] + fs[1..];
    }
  }

  // Sum of the work in flight.
  function WorkOf(fs: seq<Flight>): nat {
    if fs == [] then 0 else WorkOf(fs[..|fs| - 1]) + fs[|fs| - 1].work
  }

  lemma {:induction false} WorkOfRemove(fs: seq<Flight>, k: nat)
    requires k < |fs|
    ensures WorkOf(RemoveAt(fs, k)) + fs[k].work == WorkOf(fs)
  {
    if k < |fs| - 1 {
      WorkOfRemove(fs[..|fs| - 1], k);
      assert RemoveAt(fs, k)[..|fs| - 2] == RemoveAt(fs[..|fs| - 1], k);
    } else {
      assert RemoveAt(fs, k) == fs[..k];
    }
  }

  lemma {:induction false} WorkOfAtLeast(fs: seq<Flight>)
    requires forall f :: f in fs ==> f.work > 0
    ensures |fs| <= WorkOf(fs)
  {
    if fs != [] {
      WorkOfAtLeast(fs[..|fs| - 1]);
    }
  }

  // ---------- Timeouts ----------

  predicate TimedOut(f: Flight, now: nat) {
    f.timeout > 0 && Wrap64(now - f.dequeued) >= f.timeout
  }

  function Kept(fs: seq<Flight>, now: nat): seq<Flight> {
    if fs == [] then []
    else Kept(fs[..|fs| - 1], now) + if TimedOut(fs[|fs| - 1], now) then [] else [fs[|fs| - 1]]
  }

  function Expired(fs: seq<Flight>, now: nat): seq<Flight> {
    if fs == [] then []
    else Expired(fs[..|fs| - 1], now) + if TimedOut(fs[|fs| - 1], now) then [fs[|fs| - 1]] else []
  }

  // A sweep splits the flights: none is lost or doubled.
  lemma {:induction false} ExpiryPartitions(fs: seq<Flight>, now: nat)
    ensures multiset(fs) == multiset(Kept(fs, now)) + multiset(Expired(fs, now))
  {
    hide TimedOut;
    if fs != [] {
      var front, f := fs[..|fs| - 1], fs[|fs| - 1];
      ExpiryPartitions(front, now);
      assert fs == front + [f];
    }
  }

  lemma {:induction false} ExpiryPartitionsWork(fs: seq<Flight>, now: nat)
    ensures WorkOf(fs) == WorkOf(Kept(fs, now)) + WorkOf(Expired(fs, now))
  {
    hide TimedOut;
    if fs != [] {
      var front, f := fs[..|fs| - 1], fs[|fs| - 1];
      ExpiryPartitionsWork(front, now);
      if TimedOut(f, now) {
        assert Kept(fs, now) == Kept(front, now);
        WorkOfAppend(Expired(front, now), f);
      } else {
        assert Expired(fs, now) == Expired(front, now);
        WorkOfAppend(Kept(front, now), f);
      }
    }
  }

  lemma {:induction false} ExpiryIsByTimeout(fs: seq<Flight>, now: nat)
    ensures forall f :: f in Kept(fs, now) <==> f in fs && !TimedOut(f, now)
    ensures forall f :: f in Expired(fs, now) <==> f in fs && TimedOut(f, now)
  {
    hide TimedOut;
    if fs != [] {
      var front, f := fs[..|fs| - 1], fs[|fs| - 1];
      ExpiryIsByTimeout(front, now);
      assert fs == front + [f];
    }
  }

  lemma WorkOfAppend(fs: seq<Flight>, f: Flight)
    ensures WorkOf(fs + [f]) == WorkOf(fs) + f.work
  {
    assert (fs + [f])[..|fs|] == fs;
  }
}
