/**
 The coupling of the two levels: a tenant waits in the system scheduler, once, exactly while it
 has sessions queued.
 */
module Coupling {
  import opened Machine
  import opened Wfq
  import opened Lateness
  import opened Rates
  import opened Jobs
  import opened Hierarchy

  // The system queue holds one session for each tenant of a set, and nothing else.
  ghost predicate Waiting(q: seq<Session>, tenants: set<nat>) {
    && (forall i | 0 <= i < |q| :: JobOf(q[i]) == Job(q[i].data, TENANT_QUANTUM, q[i].data) && q[i].data in tenants)
    && (forall i, j | 0 <= i < j < |q| :: q[i].data != q[j].data)
    && forall t | t in tenants :: exists i :: 0 <= i < |q| && q[i].data == t
  }

  function Backlogged(tenants: map<nat, Tenant>): set<nat> {
    set t | t in tenants && tenants[t].hasBacklog
  }

  // Every entry of the system scheduler is a tenant and can be queued.
  ghost predicate SystemOk(h: Hier) {
    && Consistent(h.system) && h.system.groups >= 16
    && h.system.entries.Keys == h.tenants.Keys
    && forall t | t in h.tenants :: t < h.system.maxEntries
  }

  ghost predicate TenantCoupled(n: Tenant) {
    n.hasBacklog <==> n.flows.queue != []
  }

  ghost predicate Coupled(h: Hier) {
    && Waiting(h.system.queue, Backlogged(h.tenants))
    && forall t | t in h.tenants :: TenantCoupled(h.tenants[t])
  }

  lemma WaitingSame(q: seq<Session>, q': seq<Session>, w: set<nat>)
    requires Waiting(q, w) && SameJobs(q, q')
    ensures Waiting(q', w)
  {
    assert forall i | 0 <= i < |q| :: q'[i].data == JobOf(q'[i]).data == q[i].data;
  }

  lemma WaitingAppend(q: seq<Session>, w: set<nat>, q': seq<Session>, t: nat)
    requires Waiting(q, w) && t !in w
    requires |q'| == |q| + 1 && q'[..|q|] == q && JobOf(q'[|q|]) == Job(t, TENANT_QUANTUM, t)
    ensures Waiting(q', w + {t})
  {
    assert forall i | 0 <= i < |q| :: q'[i] == q[i];
    forall u | u in w + {t}
      ensures exists i :: 0 <= i < |q'| && q'[i].data == u
    {
      if u == t {
        assert q'[|q|].data == t;
      } else {
        var i :| 0 <= i < |q| && q[i].data == u;
        assert q'[i].data == u;
      }
    }
  }

  lemma WaitingRemove(q: seq<Session>, w: set<nat>, k: nat)
    requires Waiting(q, w) && k < |q|
    ensures Waiting(RemoveAt(q, k), w - {q[k].data})
  {
    var r := RemoveAt(q, k);
    assert forall i | 0 <= i < |r| :: r[i] == q[if i < k then i else i + 1];
    forall u | u in w - {q[k].data}
      ensures exists i :: 0 <= i < |r| && r[i].data == u
    {
      var i :| 0 <= i < |q| && q[i].data == u;
      assert r[if i < k then i else i - 1].data == u;
    }
  }

  // Only the part of tenant t, and the queue of the system scheduler, differ.
  ghost predicate Registered(h: Hier, h': Hier, t: nat)
    requires t in h.tenants
  {
    && h' == SetTenant(h, t, h.tenants[t].(hasBacklog := true)).(system := h'.system)
    && SameConfig(h.system, h'.system)
    && Waiting(h'.system.queue, Backlogged(h'.tenants))
  }

  // Registration succeeds, whatever the state of the tenant.
  lemma RegisterEffect(h: Hier, t: nat)
    requires SystemOk(h) && t in h.tenants && Waiting(h.system.queue, Backlogged(h.tenants))
    ensures Registered(h, Register(h, t), t)
  {
    hide Consistent, EnqueueStatus, Waiting, SameConfig;
    Enqueueable(h.system, t, TENANT_QUANTUM);
    var h', n := Register(h, t), h.tenants[t];
    if n.hasBacklog {
      assert h' == SetTenant(h, t, n.(hasBacklog := true));
      assert SameConfig(h.system, h.system) by { SameConfigRefl(h.system); }
    } else {
      EnqueueEffect(h.system, t, TENANT_QUANTUM, t);
      WaitingAppend(h.system.queue, Backlogged(h.tenants), h'.system.queue, t);
      assert Backlogged(h'.tenants) == Backlogged(h.tenants) + {t};
    }
  }

  lemma SameConfigRefl(s: Sched)
    ensures SameConfig(s, s)
  {
  }

  // Serving a tenant takes it out of the system queue.
  lemma ServeTenantEffect(h: Hier, i: nat)
    requires SystemOk(h) && Coupled(h) && i < |h.system.queue|
    ensures var t := h.system.queue[i].data; t in h.tenants && h.tenants[t].flows.queue != []
    ensures var t, h' := h.system.queue[i].data, ServeTenant(h, i);
      && h' == SetTenant(h, t, h.tenants[t].(hasBacklog := false)).(system := h'.system)
      && SystemOk(h') && Waiting(h'.system.queue, Backlogged(h'.tenants))
      && SameConfig(h.system, h'.system)
  {
    hide Consistent, Waiting, SameConfig;
    WaitingMember(h.system.queue, Backlogged(h.tenants), i);
    var x := h.system.queue[i];
    var h', s := ServeTenant(h, i), Take(h.system, i);
    WaitingRemove(h.system.queue, Backlogged(h.tenants), i);
    UpdateEffect(s, x.work);
    WaitingSame(s.queue, h'.system.queue, Backlogged(h.tenants) - {x.data});
    assert Backlogged(h'.tenants) == Backlogged(h.tenants) - {x.data};
    TakeConfig(h.system, i, x.work);
    SameConfigConsistent(h.system, h'.system);
    ConfigParts(h.system, h'.system);
  }

  lemma WaitingMember(q: seq<Session>, w: set<nat>, i: nat)
    requires Waiting(q, w) && i < |q|
    ensures q[i].data in w && q[i].work == TENANT_QUANTUM && q[i].entry == q[i].data
  {
    assert JobOf(q[i]) == Job(q[i].data, TENANT_QUANTUM, q[i].data);
  }

  lemma TakeConfig(s: Sched, i: nat, work: nat)
    requires i < |s.queue|
    ensures SameConfig(s, Update(Take(s, i), work))
  {
    hide Update;
    UpdateEffect(Take(s, i), work);
  }

  lemma ConfigParts(s: Sched, t: Sched)
    requires SameConfig(s, t)
    ensures t.groups == s.groups && t.maxEntries == s.maxEntries && t.entries.Keys == s.entries.Keys
  {
  }
}
