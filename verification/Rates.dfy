/**
 The configuration of the single-level scheduler: its totals, the configured list, and the rates
 that weights come to.
 */
module Rates {
  import opened Machine
  import opened Wfq
  import opened Lateness

  function RateOf(e: Entry): nat {
    if e.allocation.Rate? then e.allocation.rate else 0
  }

  function WeightOf(e: Entry): nat {
    if e.allocation.Weight? then e.allocation.weight else 0
  }

  function RatesOf(entries: map<nat, Entry>): map<nat, nat> {
    map id | id in entries :: RateOf(entries[id])
  }

  function WeightsOf(entries: map<nat, Entry>): map<nat, nat> {
    map id | id in entries :: WeightOf(entries[id])
  }

  // Rates at which weight entries are charged.
  function WeightRatesOf(entries: map<nat, Entry>): map<nat, nat> {
    map id | id in entries :: if entries[id].allocation.Weight? then entries[id].calculatedRate else 0
  }

  // The rate stored with an entry is the one its allocation comes to now.
  predicate Current(s: Sched, e: Entry) {
    && ValidAllocation(e.allocation)
    && e.calculatedRate == if e.allocation.Rate? then e.allocation.rate else EffectiveRate(s, e.allocation)
  }

  // The configured list is exact and the totals are the sums over it.
  ghost predicate Tallied(s: Sched) {
    && Listed(s)
    && s.allocatedRate == Total(s.order, RatesOf(s.entries)) <= s.capacity <= U64_MAX
    && s.totalWeight == Total(s.order, WeightsOf(s.entries)) < 0x1_0000_0000
  }

  ghost predicate Consistent(s: Sched) {
    Tallied(s) && forall id :: id in s.entries ==> Current(s, s.entries[id])
  }

  // ---------- Sums over the configured list ----------

  lemma {:induction false} TotalChange(order: seq<nat>, m: map<nat, nat>, id: nat, x: nat)
    requires Distinct(order) && forall k :: k in order ==> k in m
    ensures id !in order ==> Total(order, m[id := x]) == Total(order, m)
    ensures id in order ==> Total(order, m[id := x]) + m[id] == Total(order, m) + x
  {
    if order != [] {
      TotalChange(order[1..], m, id, x);
      assert order == [order[0]] + order[1..];
    }
  }

  lemma {:induction false} TotalSame(order: seq<nat>, m: map<nat, nat>, m': map<nat, nat>)
    requires forall k :: k in order ==> k in m && k in m' && m[k] == m'[k]
    ensures Total(order, m) == Total(order, m')
  {
    if order != [] {
      assert order[0] in order;
      TotalSame(order[1..], m, m');
    }
  }

  lemma {:induction false} TotalWithout(order: seq<nat>, m: map<nat, nat>, id: nat)
    requires Distinct(order) && id in order && forall k :: k in order ==> k in m
    ensures Distinct(Without(order, id))
    ensures forall k :: k in Without(order, id) <==> k in order && k != id
    ensures Total(Without(order, id), m) + m[id] == Total(order, m)
  {
    assert order == [order[0]] + order[1..];
    if order[0] != id {
      TotalWithout(order[1..], m, id);
      var w := Without(order[1..], id);
      assert Without(order, id) == [order[0]] + w;
      assert order[0] !in order[1..];
      assert Without(order, id)[1..] == w;
    }
  }

  lemma {:induction false} TotalMember(order: seq<nat>, m: map<nat, nat>, id: nat)
    requires id in order && forall k :: k in order ==> k in m
    ensures m[id] <= Total(order, m)
  {
    if order[0] != id {
      TotalMember(order[1..], m, id);
    }
  }

  // ---------- Configuration keeps the ledger ----------

  // Weights must not wrap the 32-bit total, nor rates the 64-bit sum that is compared with the capacity.
  predicate NoWrap(s: Sched, a: Allocation) {
    match a
    case Weight(w) => s.totalWeight + w < 0x1_0000_0000
    case Rate(r) => s.allocatedRate + r <= U64_MAX
    case Unrecognised => true
  }

  predicate Chargeable(e: Entry) {
    ValidAllocation(e.allocation) && (e.allocation.Rate? ==> e.calculatedRate == e.allocation.rate)
  }

  lemma RecalculateMakesCurrent(s: Sched)
    requires Tallied(s) && forall id :: id in s.entries ==> Chargeable(s.entries[id])
    ensures Consistent(Recalculate(s))
  {
    assert forall a :: EffectiveRate(Recalculate(s), a) == EffectiveRate(s, a);
    hide EffectiveRate;
    assert RatesOf(Recalculate(s).entries) == RatesOf(s.entries);
    assert WeightsOf(Recalculate(s).entries) == WeightsOf(s.entries);
  }

  // The totals without the entry's old allocation.
  lemma DischargeTotals(s: Sched, id: nat)
    requires Tallied(s)
    ensures id in s.entries ==>
      && Discharge(s, id).allocatedRate + RateOf(s.entries[id]) == s.allocatedRate
      && Discharge(s, id).totalWeight + WeightOf(s.entries[id]) == s.totalWeight
    ensures id !in s.entries ==> Discharge(s, id) == s
  {
    if id in s.entries {
      TotalMember(s.order, RatesOf(s.entries), id);
      TotalMember(s.order, WeightsOf(s.entries), id);
    }
  }

  // What charging an entry adds to a sum over the configured list.
  lemma TotalCharge(s: Sched, id: nat, a: Allocation, m: map<nat, nat>, x: nat)
    requires Listed(s) && m.Keys == s.entries.Keys
    ensures Listed(Charge(s, id, a))
    ensures Total(Charge(s, id, a).order, m[id := x]) + (if id in m then m[id] else 0) == Total(s.order, m) + x
  {
    var t := Charge(s, id, a);
    TotalChange(s.order, m, id, x);
    if id !in s.entries {
      assert t.order[1..] == s.order;
    }
  }

  lemma ChargeTallies(s: Sched, id: nat, a: Allocation)
    requires Tallied(s) && NoWrap(s, a)
    requires a.Rate? ==> Wrap64(Discharge(s, id).allocatedRate + a.rate) <= s.capacity
    ensures Tallied(Charge(s, id, a))
  {
    hide Total, Listed, RatesOf, WeightsOf;
    var rate, weight := if a.Rate? then a.rate else 0, if a.Weight? then a.weight else 0;
    DischargeTotals(s, id);
    ChargedMaps(s, id, a);
    TotalCharge(s, id, a, RatesOf(s.entries), rate);
    TotalCharge(s, id, a, WeightsOf(s.entries), weight);
  }

  lemma ChargedMaps(s: Sched, id: nat, a: Allocation)
    ensures RatesOf(s.entries).Keys == WeightsOf(s.entries).Keys == s.entries.Keys
    ensures RatesOf(Charge(s, id, a).entries) == RatesOf(s.entries)[id := if a.Rate? then a.rate else 0]
    ensures WeightsOf(Charge(s, id, a).entries) == WeightsOf(s.entries)[id := if a.Weight? then a.weight else 0]
    ensures id in s.entries ==>
      RatesOf(s.entries)[id] == RateOf(s.entries[id]) && WeightsOf(s.entries)[id] == WeightOf(s.entries[id])
  {
  }

  // Configuring an entry succeeds exactly on a valid allocation of a known slot whose rate, if it
  // is one, fits what the other entries leave.
  lemma ConfigureSucceeds(s: Sched, id: nat, a: Allocation, stored: bool)
    requires Consistent(s) && NoWrap(s, a)
    ensures Configure(s, id, a, stored).1 == Success <==>
      && id < s.maxEntries && ValidAllocation(a) && stored
      && (a.Rate? ==>
            s.allocatedRate + a.rate <= s.capacity + if id in s.entries then RateOf(s.entries[id]) else 0)
    ensures Configure(s, id, a, stored).1 == Overbooked <==>
      && id < s.maxEntries && ValidAllocation(a) && stored && a.Rate?
      && s.allocatedRate + a.rate > s.capacity + if id in s.entries then RateOf(s.entries[id]) else 0
  {
    hide Consistent, Tallied, Wrap64, Discharge, Recalculate, Charge;
    ConsistentTallied(s);
    DischargeTotals(s, id);
    TalliedFits(s);
    if a.Rate? {
      WrapSmall(Discharge(s, id).allocatedRate + a.rate);
    }
  }

  lemma TalliedFits(s: Sched)
    requires Tallied(s)
    ensures s.allocatedRate <= s.capacity <= U64_MAX
  {
  }

  // It keeps the ledger consistent, and a rejected configuration leaves everything as it was.
  lemma ConfigureKeeps(s: Sched, id: nat, a: Allocation, stored: bool)
    requires Consistent(s) && NoWrap(s, a)
    ensures Consistent(Configure(s, id, a, stored).0)
    ensures Configure(s, id, a, stored).1 != Success ==> Configure(s, id, a, stored).0 == s
  {
    hide EffectiveRate, Tallied, Recalculate, Discharge;
    if Configure(s, id, a, stored).1 == Success {
      ChargeTallies(s, id, a);
      RecalculateMakesCurrent(Charge(s, id, a));
    }
  }

  // What a configuration does to the rate total, in plain sums.
  lemma ConfigureRateTotal(s: Sched, id: nat, a: Allocation)
    requires Consistent(s) && NoWrap(s, a) && Configure(s, id, a, true).1 == Success
    ensures Configure(s, id, a, true).0.allocatedRate + (if id in s.entries then RateOf(s.entries[id]) else 0)
         == s.allocatedRate + if a.Rate? then a.rate else 0
  {
    hide Consistent, Recalculated, Wrap64, Discharge, Tallied;
    ConsistentTallied(s);
    DischargeTotals(s, id);
    if a.Rate? {
      WrapSmall(Discharge(s, id).allocatedRate + a.rate);
    }
  }

  lemma ConsistentTallied(s: Sched)
    requires Consistent(s)
    ensures Tallied(s)
  {
  }

  lemma UnconfigureRateTotal(s: Sched, id: nat)
    requires Consistent(s) && id in s.entries && id < s.maxEntries
    ensures Unconfigure(s, id).0.allocatedRate + RateOf(s.entries[id]) == s.allocatedRate
  {
    hide Consistent, Recalculated;
    ConsistentTallied(s);
    DischargeTotals(s, id);
  }

  lemma DropTallies(s: Sched, id: nat)
    requires Tallied(s) && id in s.entries
    ensures Tallied(Drop(s, id))
  {
    var t := Drop(s, id);
    DischargeTotals(s, id);
    TotalWithout(s.order, RatesOf(s.entries), id);
    TotalWithout(s.order, WeightsOf(s.entries), id);
    TotalSame(t.order, RatesOf(s.entries), RatesOf(t.entries));
    TotalSame(t.order, WeightsOf(s.entries), WeightsOf(t.entries));
  }

  lemma UnconfigureKeeps(s: Sched, id: nat)
    requires Consistent(s)
    ensures Consistent(Unconfigure(s, id).0)
  {
    hide EffectiveRate;
    if Unconfigure(s, id).1 == Success {
      DropTallies(s, id);
      RecalculateMakesCurrent(Drop(s, id));
    }
  }

  // ---------- Effective rates never oversubscribe the capacity ----------

  // The part of the unreserved capacity that weight w comes to, before it is halved.
  function ShareOf(s: Sched, w: nat): nat
    requires s.totalWeight != 0
  {
    Wrap64(w * Wrap64(s.capacity - s.allocatedRate)) / s.totalWeight
  }

  // Twice the rate a weight is charged at fits its share, unless the share is so small that the
  // rate is raised to 1.
  lemma HalvedRateFitsShare(s: Sched, w: nat)
    requires s.totalWeight != 0
    ensures 2 * EffectiveRate(s, Weight(w)) <= ShareOf(s, w) <==> ShareOf(s, w) >= 2
  {
  }

  // The hypothesis under which every weight entry's doubled rate fits its share.
  ghost predicate AmpleShares(s: Sched) {
    s.allocatedRate <= s.capacity &&
    forall id :: id in s.entries && s.entries[id].allocation.Weight? ==>
      2 * s.totalWeight <= s.entries[id].allocation.weight * (s.capacity - s.allocatedRate) <= U64_MAX
  }

  lemma ChargedRateFits(s: Sched, w: nat)
    requires s.totalWeight != 0 && s.allocatedRate <= s.capacity <= U64_MAX
    requires 2 * s.totalWeight <= w * (s.capacity - s.allocatedRate) <= U64_MAX
    ensures s.totalWeight * (2 * EffectiveRate(s, Weight(w))) <= w * (s.capacity - s.allocatedRate)
  {
    var product := w * (s.capacity - s.allocatedRate);
    Quotient(product, s.totalWeight, 2);
    HalvedRateFitsShare(s, w);
    Scale(s.totalWeight, 2 * EffectiveRate(s, Weight(w)), product / s.totalWeight);
  }

  lemma Quotient(n: nat, d: nat, q: nat)
    requires d != 0
    ensures d * (n / d) <= n
    ensures q * d <= n ==> q <= n / d
  {
    assert n == d * (n / d) + n % d;
    if q * d <= n && n / d + 1 <= q {
      Scale(d, n / d + 1, q);
      Split(d, n / d, 1);
    }
  }

  lemma {:induction false} SumOfRatesFits(order: seq<nat>, rates: map<nat, nat>, weights: map<nat, nat>, t: nat, c: nat)
    requires forall id :: id in order ==> id in rates && id in weights && t * (2 * rates[id]) <= weights[id] * c
    ensures t * (2 * Total(order, rates)) <= Total(order, weights) * c
  {
    if order != [] {
      var id := order[0];
      SumOfRatesFits(order[1..], rates, weights, t, c);
      assert id in order;
      Split(t, 2 * rates[id], 2 * Total(order[1..], rates));
      Split(c, weights[id], Total(order[1..], weights));
    }
  }

  lemma {:induction false} TotalZero(order: seq<nat>, m: map<nat, nat>)
    requires forall id :: id in order ==> id in m && m[id] == 0
    ensures Total(order, m) == 0
  {
    if order != [] {
      assert order[0] in order;
      TotalZero(order[1..], m);
    }
  }

  // Whatever the configuration, the reserved rates and twice the rates that weights are charged at
  // together fit the capacity.
  lemma NeverOversubscribed(s: Sched)
    requires Consistent(s) && AmpleShares(s)
    ensures s.allocatedRate + 2 * Total(s.order, WeightRatesOf(s.entries)) <= s.capacity
  {
    var rates, weights := WeightRatesOf(s.entries), WeightsOf(s.entries);
    var available := s.capacity - s.allocatedRate;
    forall id | id in s.order
      ensures id in rates && id in weights
      ensures s.totalWeight * (2 * rates[id]) <= weights[id] * available
      ensures s.totalWeight == 0 ==> rates[id] == 0
    {
      assert Current(s, s.entries[id]);
      TotalMember(s.order, weights, id);
      if s.entries[id].allocation.Weight? {
        ChargedRateFits(s, weights[id]);
      }
    }
    if s.totalWeight == 0 {
      TotalZero(s.order, rates);
    } else {
      SumOfRatesFits(s.order, rates, weights, s.totalWeight, available);
      CancelFactor(s.totalWeight, 2 * Total(s.order, rates), available);
    }
  }

  lemma CancelFactor(k: nat, a: nat, b: nat)
    requires k != 0 && k * a <= k * b
    ensures a <= b
  {
    if b < a {
      Scale(k, b + 1, a);
      assert false;
    }
  }

  // One weight and two equal ones, on a capacity of 1.
  function OneWeight(): Sched {
    Empty(1, 4, 16).(entries := map[1 := Entry(Weight(1), 1, 0)], order := [1], totalWeight := 1)
  }

  function TwoWeights(): Sched {
    var e := Entry(Weight(1), 1, 0);
    Empty(1, 4, 16).(entries := map[1 := e, 2 := e], order := [2, 1], totalWeight := 2)
  }

  lemma OneWeightReached()
    ensures Configure(Empty(1, 4, 16), 1, Weight(1), true) == (OneWeight(), Success)
  {
    var c := Charge(Empty(1, 4, 16), 1, Weight(1));
    assert c.order == [1] && c.entries == map[1 := Entry(Weight(1), 0, 0)];
    assert EffectiveRate(c, Weight(1)) == 1;
    assert Recalculate(c).entries == OneWeight().entries;
  }

  lemma TwoWeightsReached()
    ensures Configure(OneWeight(), 2, Weight(1), true) == (TwoWeights(), Success)
  {
    var c := Charge(OneWeight(), 2, Weight(1));
    assert c.order == [2, 1] && c.entries == map[1 := Entry(Weight(1), 1, 0), 2 := Entry(Weight(1), 0, 0)];
    assert EffectiveRate(c, Weight(1)) == 1;
    assert Recalculate(c).entries == TwoWeights().entries;
  }

  // Shares that round below 2 do oversubscribe: two weights, configured on a capacity of 1.
  lemma TinySharesOversubscribe()
    ensures var (first, status1) := Configure(Empty(1, 4, 16), 1, Weight(1), true);
      var (s, status2) := Configure(first, 2, Weight(1), true);
      && status1 == Success && status2 == Success && Consistent(s)
      && s.allocatedRate + 2 * Total(s.order, WeightRatesOf(s.entries)) > s.capacity
  {
    hide Configure;
    OneWeightReached();
    TwoWeightsReached();
    var s := TwoWeights();
    TwoTotal(2, 1, RatesOf(s.entries));
    TwoTotal(2, 1, WeightsOf(s.entries));
    TwoTotal(2, 1, WeightRatesOf(s.entries));
    assert EffectiveRate(s, Weight(1)) == 1;
    assert Consistent(s);
  }

  // The hypotheses of the delay guarantee can be met.
  lemma EvenSharesAreGuaranteed()
    ensures exists s: Sched :: Consistent(s) && AmpleShares(s) && Guaranteed(s) && |s.order| == 2
  {
    var e := Entry(Weight(1), 25, 0);
    var s := Empty(100, 4, 16).(entries := map[1 := e, 2 := e], order := [2, 1], totalWeight := 2);
    TwoTotal(2, 1, RatesOf(s.entries));
    TwoTotal(2, 1, WeightsOf(s.entries));
    assert EffectiveRate(s, Weight(1)) == 25;
    assert Consistent(s);
    WeightsAreGuaranteed(s);
  }

  lemma TwoTotal(a: nat, b: nat, m: map<nat, nat>)
    requires a in m && b in m
    ensures Total([a, b], m) == m[a] + m[b]
  {
    assert [a, b][1..] == [b] && [b][1..] == [];
    assert Total([b], m) == m[b] + Total([b][1..], m);
  }

  // A configuration of weights only meets the hypothesis of the delay guarantee.
  lemma WeightsAreGuaranteed(s: Sched)
    requires Consistent(s) && AmpleShares(s) && s.capacity > 0
    requires forall id :: id in s.entries ==> s.entries[id].allocation.Weight?
    ensures Guaranteed(s)
  {
    NeverOversubscribed(s);
    DoubledTotal(s.order, WeightRatesOf(s.entries), Shares(s));
  }

  lemma {:induction false} DoubledTotal(order: seq<nat>, m: map<nat, nat>, m': map<nat, nat>)
    requires forall id :: id in order ==> id in m && id in m' && m'[id] == 2 * m[id]
    ensures Total(order, m') == 2 * Total(order, m)
  {
    if order != [] {
      assert order[0] in order;
      DoubledTotal(order[1..], m, m');
    }
  }
}