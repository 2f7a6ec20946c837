/**
 Ids handed out and taken back: what the chunked entry storage does, without the chunks. Freed
 ids are reused most recently freed first, before any id that has never been issued.
 */
module Pools {
  import opened Machine

  const CHUNK_SIZE: nat := 1024
  const MAX_CHUNKS: nat := 0x10_0000
  const MOST_IDS: nat := MAX_CHUNKS * CHUNK_SIZE

  // Ids below next have been issued; configured is the counter of the ids out now.
  datatype Pool = Pool(maxEntries: nat, next: nat, configured: nat, free: seq<nat>)

  function Fresh(maxEntries: nat): Pool {
    Pool(maxEntries, 0, 0, [])
  }

  // The configured limit; 0 stands for the default.
  function Limit(p: Pool): nat {
    if p.maxEntries > 0 then p.maxEntries else MOST_IDS
  }

  function Alloc(p: Pool): (Pool, Option<nat>) {
    if p.configured >= Limit(p) then (p, None)
    else if p.free != [] then (p.(free := p.free[1..], configured := p.configured + 1), Some(p.free[0]))
    else if p.next / CHUNK_SIZE >= MAX_CHUNKS then (p, None)
    else (p.(next := p.next + 1, configured := p.configured + 1), Some(p.next))
  }

  function Release(p: Pool, id: nat): Pool {
    p.(free := [id] + p.free, configured := Minus(p.configured, 1))
  }

  function HasCapacity(p: Pool): bool {
    p.free != [] || p.next < Limit(p)
  }

  // The ids out now.
  function Live(p: Pool): set<nat> {
    set id | 0 <= id < p.next && id !in p.free
  }

  ghost predicate Good(p: Pool) {
    && (forall i, j | 0 <= i < j < |p.free| :: p.free[i] != p.free[j])
    && (forall i | 0 <= i < |p.free| :: p.free[i] < p.next)
    && p.next == p.configured + |p.free|
    && p.next <= Limit(p) && p.next <= MOST_IDS
  }

  lemma FreshIsGood(maxEntries: nat)
    ensures Good(Fresh(maxEntries)) && Live(Fresh(maxEntries)) == {}
  {
  }

  // An id handed out was not live, becomes live, and is below the limit; nothing else changes.
  lemma AllocGivesFresh(p: Pool)
    requires Good(p) && Alloc(p).1.Some?
    ensures var (p', id) := Alloc(p);
      && Good(p') && id.value !in Live(p) && Live(p') == Live(p) + {id.value}
      && id.value < Limit(p) && id.value < MOST_IDS
  {
    var (p', id) := Alloc(p);
    if p.free != [] {
      assert forall x :: x in p.free <==> x == p.free[0] || x in p.free[1..];
    }
  }

  // Ids are issued one after the other.
  lemma AllocIssues(p: Pool)
    requires Good(p) && Alloc(p).1.Some?
    ensures var (p', id) := Alloc(p);
      if id.value < p.next then p'.next == p.next else id.value == p.next && p'.next == p.next + 1
  {
  }

  lemma ReleaseTakesBack(p: Pool, id: nat)
    requires Good(p) && id in Live(p)
    ensures Good(Release(p, id)) && Live(Release(p, id)) == Live(p) - {id}
  {
    FreeCount(p);
    assert Live(p) != {};
  }

  // The counter is the number of live ids.
  lemma FreeCount(p: Pool)
    requires Good(p)
    ensures |Live(p)| == p.configured
  {
    DistinctCount(p.free);
    var ids, freed := Below(p.next), Elements(p.free);
    assert Live(p) == ids - freed && freed <= ids;
    assert |ids - freed| == |ids| - |freed|;
  }

  function Below(n: nat): (r: set<nat>)
    ensures |r| == n && forall i: nat :: i in r <==> i < n
  {
    if n == 0 then {} else Below(n - 1) + {n - 1}
  }

  function Elements(q: seq<nat>): (r: set<nat>)
    ensures forall x :: x in r <==> x in q
  {
    if q == [] then {} else {q[0]} + Elements(q[1..])
  }

  lemma {:induction false} DistinctCount(q: seq<nat>)
    requires forall i, j | 0 <= i < j < |q| :: q[i] != q[j]
    ensures |Elements(q)| == |q|
  {
    if q != [] {
      DistinctCount(q[1..]);
    }
  }

  // An id is refused exactly when as many are out as the limit or the directory of chunks allows.
  lemma AllocFailsWhenFull(p: Pool)
    requires Good(p)
    ensures Alloc(p).1.None? <==> |Live(p)| >= Limit(p) || |Live(p)| == 0x4000_0000
  {
    FreeCount(p);
  }

  // The capacity test says what an allocation would say, except where a limit above what the
  // chunks can hold has used up the chunks.
  lemma HasCapacityAgrees(p: Pool)
    requires Good(p)
    ensures HasCapacity(p) == Alloc(p).1.Some? <==> !(p.free == [] && p.next == MOST_IDS < p.maxEntries)
  {
  }

  // Freeing an id and allocating again gives the same id and the same pool.
  lemma ReleaseThenAlloc(p: Pool, id: nat)
    requires Good(p) && id in Live(p)
    ensures Alloc(Release(p, id)) == (p, Some(id))
  {
    ReleaseTakesBack(p, id);
    FreeCount(p);
    assert ([id] + p.free)[1..] == p.free;
  }

  // ---------- Histories ----------

  datatype Action = Obtain(id: nat) | Give(id: nat)

  // Actions in order; obtain succeeds with the id written in it, and only live ids are given back.
  ghost predicate IsHistory(p: Pool, actions: seq<Action>)
    decreases actions
  {
    actions == [] || (Allowed(p, actions[0]) && IsHistory(Step(p, actions[0]), actions[1..]))
  }

  predicate Allowed(p: Pool, a: Action) {
    match a
    case Obtain(id) => Alloc(p).1 == Some(id)
    case Give(id) => id in Live(p)
  }

  function Step(p: Pool, a: Action): Pool {
    if a.Obtain? then Alloc(p).0 else Release(p, a.id)
  }

  function Replay(p: Pool, actions: seq<Action>): Pool
    decreases actions
  {
    if actions == [] then p else Replay(Step(p, actions[0]), actions[1..])
  }

  // The ids held by the callers after a history, seen from outside.
  function Held(ids: set<nat>, actions: seq<Action>): set<nat>
    decreases actions
  {
    if actions == [] then ids
    else Held(if actions[0].Obtain? then ids + {actions[0].id} else ids - {actions[0].id}, actions[1..])
  }

  // Over any history the live ids are those its callers hold, and an id is never handed out
  // while it is held.
  lemma {:induction false} LiveIsHeld(p: Pool, actions: seq<Action>)
    requires Good(p) && IsHistory(p, actions)
    ensures Good(Replay(p, actions)) && Live(Replay(p, actions)) == Held(Live(p), actions)
    ensures forall i | 0 <= i < |actions| && actions[i].Obtain? :: actions[i].id !in Held(Live(p), actions[..i])
    decreases actions
  {
    if actions != [] {
      var a, rest := actions[0], actions[1..];
      if a.Obtain? { AllocGivesFresh(p); } else { ReleaseTakesBack(p, a.id); }
      LiveIsHeld(Step(p, a), rest);
      forall i | 0 <= i < |actions| && actions[i].Obtain?
        ensures actions[i].id !in Held(Live(p), actions[..i])
      {
        if i > 0 {
          assert actions[..i] == [a] + rest[..i - 1];
          assert rest[i - 1] == actions[i];
        }
      }
    }
  }
}
