/**
 Fairness in work: rates are in proportion to weights, intervals in proportion to work over rate, and
 so the work served to two busy entries is in proportion to their weights, up to a constant and to
 what the divisions lose.
 */
module Fairness {
  import opened Machine
  import opened Wfq
  import opened Lateness
  import opened TimeLaws
  import opened Proportional
  import opened Rates
  import opened Rebasing
  import opened Booking
  import opened Delays

  // ---------- Rates ----------

  // The rate a weight is charged at is half of its part of the unreserved capacity, to within one
  // unit, but never nothing.
  lemma RateIsShare(s: Sched, id: nat)
    requires Consistent(s) && id in s.entries && s.entries[id].allocation.Weight?
    requires s.entries[id].allocation.weight * (s.capacity - s.allocatedRate) <= U64_MAX
    ensures var r, part := ServiceRate(s, s.entries[id]),
      s.entries[id].allocation.weight * (s.capacity - s.allocatedRate);
      && r >= 1 && s.entries[id].calculatedRate == r
      && part < 2 * s.totalWeight * (r + 1)
      && (2 * s.totalWeight <= part ==> 2 * s.totalWeight * r <= part)
  {
    hide Total, Listed, WeightsOf, RatesOf, EffectiveRate;
    var e := s.entries[id];
    assert Current(s, e);
    WeightIsCounted(s, id);
    ChargedIs(s, e.allocation.weight);
  }

  lemma WeightIsCounted(s: Sched, id: nat)
    requires Tallied(s) && id in s.entries && s.entries[id].allocation.Weight?
    ensures s.entries[id].allocation.weight <= s.totalWeight && s.allocatedRate <= s.capacity <= U64_MAX
  {
    TotalMember(s.order, WeightsOf(s.entries), id);
  }

  lemma ChargedIs(s: Sched, w: nat)
    requires s.totalWeight > 0 && s.allocatedRate <= s.capacity <= U64_MAX
      && w * (s.capacity - s.allocatedRate) <= U64_MAX
    ensures var r, part := EffectiveRate(s, Weight(w)), w * (s.capacity - s.allocatedRate);
      && r >= 1 && part < 2 * s.totalWeight * (r + 1)
      && (2 * s.totalWeight <= part ==> 2 * s.totalWeight * r <= part)
  {
    var part := w * (s.capacity - s.allocatedRate);
    WrapSmall(s.capacity - s.allocatedRate);
    WrapSmall(part);
    HalfOfQuotient(part, s.totalWeight);
  }

  lemma HalfOfQuotient(n: nat, t: nat)
    requires t > 0
    ensures var r := Max(n / t / 2, 1);
      n < 2 * t * (r + 1) && (2 * t <= n ==> 2 * t * r <= n)
  {
    var q := n / t;
    assert n == t * q + n % t;
    var r := Max(q / 2, 1);
    Scale(t, q + 1, 2 * (r + 1));
    Split(t, q, 1);
    if 2 * t <= n {
      Quotient(n, t, 2);
      Scale(t, 2 * r, q);
    }
  }

  // A rate is charged in full.
  lemma RateIsReserved(s: Sched, id: nat)
    requires Consistent(s) && id in s.entries && s.entries[id].allocation.Rate?
    ensures ServiceRate(s, s.entries[id]) == s.entries[id].allocation.rate
  {
    assert Current(s, s.entries[id]);
  }

  // The rates of two weights are in proportion to the weights, to within one unit of rate.
  lemma RatesInProportion(s: Sched, i: nat, j: nat)
    requires Consistent(s) && AmpleShares(s) && i in s.entries && j in s.entries
    requires s.entries[i].allocation.Weight? && s.entries[j].allocation.Weight?
    ensures s.entries[j].allocation.weight * ServiceRate(s, s.entries[i])
            < s.entries[i].allocation.weight * (ServiceRate(s, s.entries[j]) + 1)
  {
    hide ServiceRate;
    var wi, wj := s.entries[i].allocation.weight, s.entries[j].allocation.weight;
    assert Current(s, s.entries[i]) && Current(s, s.entries[j]);
    RateIsShare(s, i);
    RateIsShare(s, j);
    hide Consistent, AmpleShares;
    CrossMultiply(wi, wj, s.capacity - s.allocatedRate, 2 * s.totalWeight, ServiceRate(s, s.entries[i]),
                  ServiceRate(s, s.entries[j]));
  }

  lemma CrossMultiply(wi: nat, wj: nat, a: nat, t: nat, ri: nat, rj: nat)
    requires wi > 0 && t * ri <= wi * a && wj * a < t * (rj + 1)
    ensures wj * ri < wi * (rj + 1)
  {
    if wi * (rj + 1) <= wj * ri {
      calc {
        wi * (wj * a) + wi;
      == { Split(wi, wj * a, 1); }
        wi * (wj * a + 1);
      <= { Scale(wi, wj * a + 1, t * (rj + 1)); }
        wi * (t * (rj + 1));
      ==
        t * (wi * (rj + 1));
      <= { Scale(t, wi * (rj + 1), wj * ri); }
        t * (wj * ri);
      ==
        wj * (t * ri);
      <= { Scale(wj, t * ri, wi * a); }
        wj * (wi * a);
      ==
        wi * (wj * a);
      }
    }
  }

  // ---------- Intervals ----------

  // The interval of a session is its scaled work over the rate of its entry, rounded down.
  predicate PricedAt(x: Session, rate: nat) {
    rate * x.interval <= TIME_SCALE * x.work < rate * (x.interval + 1)
  }

  predicate Priced(s: Sched) {
    forall x :: x in s.queue ==> x.entry in s.entries && PricedAt(x, ServiceRate(s, s.entries[x.entry]))
  }

  lemma IntervalIs(work: nat, rate: nat)
    requires 0 < rate <= TIME_SCALE * work <= U64_MAX
    ensures rate * Interval(work, rate) <= TIME_SCALE * work < rate * (Interval(work, rate) + 1)
  {
    var n := TIME_SCALE * work;
    assert n == rate * (n / rate) + n % rate;
    Split(rate, n / rate, 1);
    if n / rate == 0 {
      assert false;
    }
  }

  lemma RateFitsCapacity(s: Sched, id: nat)
    requires Guaranteed(s) && id in s.entries
    ensures ServiceRate(s, s.entries[id]) <= s.capacity
  {
    hide ServiceRate;
    TotalMember(s.order, Shares(s), id);
  }

  lemma PricedArrival(s: Sched, e: Event, lmax: nat)
    requires Inv(s, lmax) && Priced(s) && TIME_SCALE * lmax <= U64_MAX
    requires Enabled(s, e) && e.Arrive? && Lateness.Fitting(s, e, lmax)
    ensures Priced(Apply(s, e))
  {
    hide OnTime, Chained, Interval, ServiceRate, GroupIndex;
    var x, rate := NewSession(s, e.entry, e.work, e.data), ServiceRate(s, s.entries[e.entry]);
    RateFitsCapacity(s, e.entry);
    IntervalIs(e.work, rate);
    SharesStay(s, e);
    ArriveFrame(s, e);
    SamePrices(s, Apply(s, e));
    assert x.interval == Interval(e.work, rate);
  }

  // Rates are twice-read from the shares.
  lemma SamePrices(s: Sched, t: Sched)
    requires Shares(t) == Shares(s)
    ensures t.entries.Keys == s.entries.Keys
    ensures forall id | id in s.entries :: ServiceRate(t, t.entries[id]) == ServiceRate(s, s.entries[id])
  {
    hide ServiceRate;
    assert Shares(t).Keys == t.entries.Keys && Shares(s).Keys == s.entries.Keys;
    forall id | id in s.entries
      ensures ServiceRate(t, t.entries[id]) == ServiceRate(s, s.entries[id])
    {
      assert Shares(t)[id] == Shares(s)[id];
    }
  }

  lemma PricedService(s: Sched, i: nat)
    requires Priced(s) && CanServe(s, i)
    ensures Priced(Apply(s, Serve(i)))
  {
    hide ServiceRate, IsBest, Update, PricedAt;
    SharesStay(s, Serve(i));
    SamePrices(s, Apply(s, Serve(i)));
    RemovedFrom(s.queue, i);
    var r, t := Take(s, i), Apply(s, Serve(i));
    UpdateShifts(r, s.queue[i].work);
    forall x | x in t.queue
      ensures x.entry in s.entries && PricedAt(x, ServiceRate(s, s.entries[x.entry]))
    {
      var k :| 0 <= k < |t.queue| && t.queue[k] == x;
      var y := r.queue[k];
      assert y in s.queue;
      SamePrice(x, y, ServiceRate(s, s.entries[y.entry]));
    }
  }

  lemma SamePrice(x: Session, y: Session, rate: nat)
    requires (x.interval, x.work) == (y.interval, y.work)
    ensures PricedAt(x, rate) <==> PricedAt(y, rate)
  {
  }

  lemma PricedApply(s: Sched, e: Event, lmax: nat)
    requires Inv(s, lmax) && Priced(s) && TIME_SCALE * lmax <= U64_MAX && Enabled(s, e) && Lateness.Fitting(s, e, lmax)
    ensures Inv(Apply(s, e), lmax) && Priced(Apply(s, e)) && Shares(Apply(s, e)) == Shares(s)
  {
    hide Inv, Priced, NewSession;
    ApplyKeeps(s, e, lmax);
    SharesStay(s, e);
    match e
    case Arrive(_, _, _) => PricedArrival(s, e, lmax);
    case Serve(i) => PricedService(s, i);
  }

  lemma {:induction false} PricedRun(s: Sched, events: seq<Event>, lmax: nat)
    requires Inv(s, lmax) && Priced(s) && TIME_SCALE * lmax <= U64_MAX
    requires IsRun(s, events) && FittingRun(s, events, lmax)
    ensures Inv(Run(s, events), lmax) && Priced(Run(s, events)) && Shares(Run(s, events)) == Shares(s)
    decreases events
  {
    hide Inv, Priced, Apply, Enabled, Lateness.Fitting;
    if events != [] {
      PricedApply(s, events[0], lmax);
      PricedRun(Apply(s, events[0]), events[1..], lmax);
    }
  }

  // ---------- Work ----------

  // Work of the sessions of entry e served in a run.
  function WorkFor(s: Sched, events: seq<Event>, e: nat): nat
    requires IsRun(s, events)
    decreases events
  {
    if events == [] then 0
    else
      (if events[0].Serve? && s.queue[events[0].i].entry == e then s.queue[events[0].i].work else 0)
      + WorkFor(Apply(s, events[0]), events[1..], e)
  }

  // The scaled work served to an entry is its rate times the intervals served, to within one rate for
  // each session.
  lemma {:induction false} WorkFollowsIntervals(s: Sched, events: seq<Event>, e: nat, lmax: nat)
    requires Inv(s, lmax) && Priced(s) && TIME_SCALE * lmax <= U64_MAX
    requires IsRun(s, events) && FittingRun(s, events, lmax) && e in s.entries
    ensures var rate := ServiceRate(s, s.entries[e]);
      rate * Served(s, events, e) <= TIME_SCALE * WorkFor(s, events, e)
      <= rate * (Served(s, events, e) + Turns(s, events, e))
    decreases events
  {
    hide Inv, Apply, Lateness.Fitting, ServiceRate, IsBest;
    if events != [] {
      var s', rest, rate := Apply(s, events[0]), events[1..], ServiceRate(s, s.entries[e]);
      PricedApply(s, events[0], lmax);
      SamePrices(s, s');
      WorkFollowsIntervals(s', rest, e, lmax);
      if events[0].Serve? && s.queue[events[0].i].entry == e {
        var x := s.queue[events[0].i];
        assert x in s.queue;
        AddPrice(rate, x.interval, x.work, Served(s', rest, e), WorkFor(s', rest, e), Turns(s', rest, e));
      }
    }
  }

  lemma AddPrice(rate: nat, interval: nat, work: nat, served: nat, total: nat, n: nat)
    requires rate * interval <= TIME_SCALE * work < rate * (interval + 1)
    requires rate * served <= TIME_SCALE * total <= rate * (served + n)
    ensures rate * (interval + served) <= TIME_SCALE * (work + total) <= rate * (interval + served + (1 + n))
  {
    Split(rate, interval, served);
    Split(rate, interval + 1, served + n);
    Split(TIME_SCALE, work, total);
  }

  // ---------- Work in proportion to rates, and to weights ----------

  lemma ByRate(c: nat, re: nat, rf: nat, se: nat, sf: nat, ne: nat, we: nat, wf: nat, b: int)
    requires we <= re * (se + ne) && rf * sf <= wf && c * (se - sf) <= b
    ensures c * (rf * we - re * wf) <= re * rf * (b + c * ne)
  {
    Scale(rf, we, re * (se + ne));
    Scale(re, rf * sf, wf);
    assert rf * (re * (se + ne)) - re * (rf * sf) == re * rf * (se - sf + ne);
    ScaleInt(c, rf * we - re * wf, re * rf * (se - sf + ne));
    assert c * (re * rf * (se - sf + ne)) == re * rf * (c * (se - sf) + c * ne);
    ScaleInt(re * rf, c * (se - sf) + c * ne, b + c * ne);
  }

  lemma ByWeight(c: nat, pe: nat, pf: nat, re: nat, rf: nat, se: nat, sf: nat, ne: nat, we: nat, wf: nat, b: int)
    requires we <= re * (se + ne) && rf * sf <= wf && c * (se - sf) <= b && pf * re <= pe * (rf + 1)
    ensures c * (pf * we - pe * wf) <= pe * (rf * (b + c * ne) + c * (se + ne))
  {
    Scale(pf, we, re * (se + ne));
    Scale(se + ne, pf * re, pe * (rf + 1));
    Scale(pe, rf * sf, wf);
    assert pf * (re * (se + ne)) == (se + ne) * (pf * re);
    assert (se + ne) * (pe * (rf + 1)) - pe * (rf * sf) == pe * (rf * (se - sf + ne) + (se + ne));
    ScaleInt(c, pf * we - pe * wf, pe * (rf * (se - sf + ne) + (se + ne)));
    assert c * (pe * (rf * (se - sf + ne) + (se + ne))) == pe * (rf * (c * (se - sf) + c * ne) + c * (se + ne));
    ScaleInt(rf, c * (se - sf) + c * ne, b + c * ne);
    ScaleInt(pe, rf * (c * (se - sf) + c * ne) + c * (se + ne), rf * (b + c * ne) + c * (se + ne));
  }

  lemma StartIsPriced(s: Sched, lmax: nat, longest: map<nat, nat>)
    requires Start(s, lmax, longest)
    ensures Inv(s, lmax) && Priced(s) && TIME_SCALE * lmax <= U64_MAX
  {
    IdleInv(s, lmax);
  }

  lemma BusyMeans(s: Sched, events: seq<Event>, e: nat)
    requires IsRun(s, events) && Busy(s, events, e)
    ensures e in s.entries
  {
  }

  // What two busy entries get over a stretch after a run.
  lemma StretchServes(s: Sched, before: seq<Event>, stretch: seq<Event>, e: nat, f: nat, lmax: nat,
                      longest: map<nat, nat>)
    requires Start(s, lmax, longest)
    requires IsRun(s, before) && FittingRun(s, before, lmax) && IntervalsWithin(s, before, longest)
    requires var t := Run(s, before);
      && IsRun(t, stretch) && FittingRun(t, stretch, lmax) && IntervalsWithin(t, stretch, longest)
      && Busy(t, stretch, e) && Busy(t, stretch, f)
    ensures e in longest && f in longest && e in s.entries && f in s.entries
    ensures var t, c := Run(s, before), s.capacity;
      var re, rf := ServiceRate(s, s.entries[e]), ServiceRate(s, s.entries[f]);
      && TIME_SCALE * WorkFor(t, stretch, e) <= re * (Served(t, stretch, e) + Turns(t, stretch, e))
      && rf * Served(t, stretch, f) <= TIME_SCALE * WorkFor(t, stretch, f)
      && c * (Served(t, stretch, e) - Served(t, stretch, f))
         <= 2 * c * (longest[e] + longest[f]) + 4 * TIME_SCALE * lmax
  {
    hide Start, Busy, Served, Run, IsRun, FittingRun, IntervalsWithin, Inv, WorkFor, Turns, ServiceRate, Priced;
    StartIsPriced(s, lmax, longest);
    BusyMeans(Run(s, before), stretch, e);
    BusyMeans(Run(s, before), stretch, f);
    PricedRun(s, before, lmax);
    var t := Run(s, before);
    SamePrices(s, t);
    ProportionalService(s, before, stretch, e, f, lmax, longest);
    WorkFollowsIntervals(t, stretch, e, lmax);
    WorkFollowsIntervals(t, stretch, f, lmax);
  }

  // Work in proportion to rates: after any run from an idle scheduler, over any stretch in which two
  // entries stay busy, neither gets more work for its rate than the other but for a constant and one
  // unit of rounding for each of its sessions. (Exchange e and f for the other direction.)
  lemma WorkByRate(s: Sched, before: seq<Event>, stretch: seq<Event>, e: nat, f: nat, lmax: nat, longest: map<nat, nat>)
    requires Start(s, lmax, longest)
    requires IsRun(s, before) && FittingRun(s, before, lmax) && IntervalsWithin(s, before, longest)
    requires var t := Run(s, before);
      && IsRun(t, stretch) && FittingRun(t, stretch, lmax) && IntervalsWithin(t, stretch, longest)
      && Busy(t, stretch, e) && Busy(t, stretch, f)
    ensures e in longest && f in longest && e in s.entries && f in s.entries
    ensures var t, c, n := Run(s, before), s.capacity, Turns(Run(s, before), stretch, e);
      var re, rf := ServiceRate(s, s.entries[e]), ServiceRate(s, s.entries[f]);
      var bound := 2 * c * (longest[e] + longest[f]) + 4 * TIME_SCALE * lmax;
      c * (rf * (TIME_SCALE * WorkFor(t, stretch, e)) - re * (TIME_SCALE * WorkFor(t, stretch, f)))
      <= re * rf * (bound + c * n)
  {
    hide Start, Served, Busy, Run, IsRun, FittingRun, IntervalsWithin, WorkFor, Turns, ServiceRate;
    StretchServes(s, before, stretch, e, f, lmax, longest);
    var t, c := Run(s, before), s.capacity;
    ByRate(c, ServiceRate(s, s.entries[e]), ServiceRate(s, s.entries[f]), Served(t, stretch, e), Served(t, stretch, f),
           Turns(t, stretch, e), TIME_SCALE * WorkFor(t, stretch, e), TIME_SCALE * WorkFor(t, stretch, f),
           2 * c * (longest[e] + longest[f]) + 4 * TIME_SCALE * lmax);
  }

  // Work in proportion to weights: likewise for two weights, whose rates are in proportion to within one
  // unit of rate.
  lemma WorkByWeight(s: Sched, before: seq<Event>, stretch: seq<Event>, e: nat, f: nat, lmax: nat,
                     longest: map<nat, nat>)
    requires Start(s, lmax, longest) && Consistent(s) && AmpleShares(s)
    requires IsRun(s, before) && FittingRun(s, before, lmax) && IntervalsWithin(s, before, longest)
    requires var t := Run(s, before);
      && IsRun(t, stretch) && FittingRun(t, stretch, lmax) && IntervalsWithin(t, stretch, longest)
      && Busy(t, stretch, e) && Busy(t, stretch, f)
    requires e in s.entries && s.entries[e].allocation.Weight? && f in s.entries && s.entries[f].allocation.Weight?
    ensures e in longest && f in longest
    ensures var t, c, n := Run(s, before), s.capacity, Turns(Run(s, before), stretch, e);
      var pe, pf := s.entries[e].allocation.weight, s.entries[f].allocation.weight;
      var bound := 2 * c * (longest[e] + longest[f]) + 4 * TIME_SCALE * lmax;
      c * (pf * (TIME_SCALE * WorkFor(t, stretch, e)) - pe * (TIME_SCALE * WorkFor(t, stretch, f)))
      <= pe * (ServiceRate(s, s.entries[f]) * (bound + c * n) + c * (Served(t, stretch, e) + n))
  {
    hide Start, Served, Busy, Run, IsRun, FittingRun, IntervalsWithin, WorkFor, Turns, ServiceRate, Consistent,
         AmpleShares;
    StretchServes(s, before, stretch, e, f, lmax, longest);
    RatesInProportion(s, e, f);
    var t, c := Run(s, before), s.capacity;
    ByWeight(c, s.entries[e].allocation.weight, s.entries[f].allocation.weight, ServiceRate(s, s.entries[e]),
             ServiceRate(s, s.entries[f]), Served(t, stretch, e), Served(t, stretch, f), Turns(t, stretch, e),
             TIME_SCALE * WorkFor(t, stretch, e), TIME_SCALE * WorkFor(t, stretch, f),
             2 * c * (longest[e] + longest[f]) + 4 * TIME_SCALE * lmax);
  }
}
