/**
 The calendar queue: bins of queued sessions as doubly linked lists on the heap, a bitmap of the
 bins that are not empty, a bitmap of the words of that bitmap that are not zero, and the least
 start time in a cache.
 */
module Calendars {
  import opened Machine
  import opened Bits
  import opened Wfq

  class SessionNode {
    const entry: nat
    const work: nat
    const data: nat
    const interval: nat
    const groupIndex: nat
    var start: nat
    var finish: nat
    var binIndex: nat
    var next: SessionNode?
    var prev: SessionNode?

    constructor (x: Session)
      ensures Value() == x && groupIndex == GroupIndex(x.interval)
    {
      entry, work, data, interval := x.entry, x.work, x.data, x.interval;
      groupIndex := GroupIndex(x.interval);
      start, finish := x.start, x.finish;
      binIndex := 0;
      next, prev := null, null;
    }

    function Value(): Session
      reads `start, `finish
    {
      Session(entry, work, data, interval, start, finish)
    }
  }

  // The sessions a sequence of nodes stands for.
  ghost function Values(ns: seq<SessionNode>): (r: seq<Session>)
    reads ns`start, ns`finish
    ensures |r| == |ns| && forall i | 0 <= i < |r| :: r[i] == ns[i].Value()
  {
    if ns == [] then [] else Values(ns[..|ns| - 1]) + [ns[|ns| - 1].Value()]
  }

  lemma ValuesAppend(ns: seq<SessionNode>, x: SessionNode)
    ensures Values(ns + [x]) == Values(ns) + [x.Value()]
  {
    assert (ns + [x])[..|ns|] == ns;
  }

  lemma ValuesRemove(ns: seq<SessionNode>, k: nat)
    requires k < |ns|
    ensures Values(RemoveAt(ns, k)) == RemoveAt(Values(ns), k)
  {
    hide Values;
    var r := Values(RemoveAt(ns, k));
    forall i | 0 <= i < |r|
      ensures r[i] == RemoveAt(Values(ns), k)[i]
    {
      assert r[i] == RemoveAt(ns, k)[i].Value();
    }
  }

  lemma ValuesMembers(ns: seq<SessionNode>)
    ensures forall n | n in ns :: n.Value() in Values(ns)
    ensures forall x | x in Values(ns) :: exists n :: n in ns && n.Value() == x
  {
    forall n | n in ns
      ensures n.Value() in Values(ns)
    {
      var k :| 0 <= k < |ns| && ns[k] == n;
      assert Values(ns)[k] == n.Value();
    }
    forall x | x in Values(ns)
      ensures exists n :: n in ns && n.Value() == x
    {
      var k :| 0 <= k < |ns| && Values(ns)[k] == x;
      assert ns[k] in ns;
    }
  }

  ghost predicate AllDistinct(ns: seq<SessionNode>) {
    forall i, j | 0 <= i < j < |ns| :: ns[i] != ns[j]
  }

  // The neighbours of position i in a list.
  ghost function Succ(l: seq<SessionNode>, i: nat): SessionNode? {
    if i + 1 < |l| then l[i + 1] else null
  }

  ghost function Pred(l: seq<SessionNode>, i: nat): SessionNode? {
    if 0 < i <= |l| then l[i - 1] else null
  }

  ghost function Inserted(l: seq<SessionNode>, i: nat, x: SessionNode): (r: seq<SessionNode>)
    requires i <= |l|
    ensures |r| == |l| + 1
    ensures forall k | 0 <= k < |r| :: r[k] == if k < i then l[k] else if k == i then x else l[k - 1]
  {
    l[..i] + [x] + l[i..]
  }

  // What is at position k of the longer list, and next to it.
  lemma InsertedAt(l: seq<SessionNode>, i: nat, x: SessionNode, k: nat)
    requires i <= |l| && k <= |l|
    ensures var r := Inserted(l, i, x);
      && (k < i ==> r[k] == l[k] && Succ(r, k) == (if k == i - 1 then x else Succ(l, k)) && Pred(r, k) == Pred(l, k))
      && (k == i ==> r[k] == x && Succ(r, k) == (if i < |l| then l[i] else null) && Pred(r, k) == Pred(l, i))
      && (k > i ==>
            && r[k] == l[k - 1] && Succ(r, k) == Succ(l, k - 1)
            && Pred(r, k) == if k == i + 1 then x else Pred(l, k - 1))
  {
  }

  // The list that starts at head consists of the nodes l, all of them filed under bin b.
  ghost predicate IsList(l: seq<SessionNode>, head: SessionNode?, b: nat)
    reads l`next, l`prev, l`binIndex
  {
    && head == (if l == [] then null else l[0])
    && AllDistinct(l)
    && (forall i | 0 <= i < |l| :: l[i].binIndex == b)
    && (forall i {:trigger l[i].next} | 0 <= i < |l| :: l[i].next == Succ(l, i))
    && (forall i {:trigger l[i].prev} | 0 <= i < |l| :: l[i].prev == Pred(l, i))
  }

  lemma InsertedMembers(l: seq<SessionNode>, i: nat, x: SessionNode)
    requires i <= |l|
    ensures forall n :: n in Inserted(l, i, x) <==> n in l || n == x
  {
    var r := Inserted(l, i, x);
    assert r[i] == x;
    forall k | 0 <= k < |l|
      ensures l[k] in r
    {
      assert r[if k < i then k else k + 1] == l[k];
    }
  }

  // Once the pointers around position i lead to session and back, the list contains it.
  lemma InsertedIsList(l: seq<SessionNode>, i: nat, session: SessionNode, head: SessionNode?, b: nat)
    requires AllDistinct(l) && session !in l && i <= |l|
    requires head == if i == 0 then session else l[0]
    requires forall k | 0 <= k < |l| :: l[k].binIndex == b
    requires forall k {:trigger l[k].next} | 0 <= k < |l| :: l[k].next == if k == i - 1 then session else Succ(l, k)
    requires forall k {:trigger l[k].prev} | 0 <= k < |l| :: l[k].prev == if k == i then session else Pred(l, k)
    requires session.binIndex == b && session.next == (if i < |l| then l[i] else null) && session.prev == Pred(l, i)
    ensures IsList(Inserted(l, i, session), head, b)
  {
    var r := Inserted(l, i, session);
    InsertedDistinct(l, i, session);
    forall k | 0 <= k < |r|
      ensures r[k].binIndex == b && r[k].next == Succ(r, k) && r[k].prev == Pred(r, k)
    {
      InsertedAt(l, i, session, k);
      hide Succ, Pred, Inserted, AllDistinct;
      if k < i {
        assert r[k] == l[k];
      } else if k > i {
        assert r[k] == l[k - 1];
      }
    }
  }

  lemma InsertedDistinct(l: seq<SessionNode>, i: nat, x: SessionNode)
    requires AllDistinct(l) && x !in l && i <= |l|
    ensures AllDistinct(Inserted(l, i, x))
  {
    assert forall k | 0 <= k < |l| :: l[k] in l;
  }

  lemma RemovedAt(l: seq<SessionNode>, i: nat, k: nat)
    requires i < |l| && k < |l| - 1
    ensures var r := RemoveAt(l, i);
      && |r| == |l| - 1
      && (k < i ==>
            && r[k] == l[k] && Succ(r, k) == (if k == i - 1 then Succ(l, i) else Succ(l, k))
            && Pred(r, k) == Pred(l, k))
      && (k >= i ==>
            && r[k] == l[k + 1] && Succ(r, k) == Succ(l, k + 1)
            && Pred(r, k) == if k == i then Pred(l, i) else Pred(l, k + 1))
  {
  }

  // Once the pointers lead around position i, the list is without it.
  lemma RemovedIsList(l: seq<SessionNode>, i: nat, head: SessionNode?, b: nat)
    requires AllDistinct(l) && i < |l|
    requires head == if i == 0 then Succ(l, 0) else l[0]
    requires forall k | 0 <= k < |l| :: l[k].binIndex == b
    requires forall k {:trigger l[k].next} | 0 <= k < |l| && k != i ::
      l[k].next == if k == i - 1 then Succ(l, i) else Succ(l, k)
    requires forall k {:trigger l[k].prev} | 0 <= k < |l| && k != i ::
      l[k].prev == if k == i + 1 then Pred(l, i) else Pred(l, k)
    ensures IsList(RemoveAt(l, i), head, b)
  {
    var r := RemoveAt(l, i);
    RemovedDistinct(l, i);
    forall k | 0 <= k < |r|
      ensures r[k].binIndex == b && r[k].next == Succ(r, k) && r[k].prev == Pred(r, k)
    {
      RemovedAt(l, i, k);
      hide Succ, Pred, AllDistinct;
      if k < i {
        assert r[k] == l[k];
      } else {
        assert r[k] == l[k + 1];
      }
    }
  }

  lemma RemovedDistinct<T>(l: seq<T>, i: nat)
    requires i < |l| && forall j, k | 0 <= j < k < |l| :: l[j] != l[k]
    ensures var r := RemoveAt(l, i);
      && (forall j, k | 0 <= j < k < |r| :: r[j] != r[k])
      && (forall x :: x in r <==> x in l && x != l[i])
  {
    var r := RemoveAt(l, i);
    forall k | 0 <= k < |l| && k != i
      ensures l[k] in r
    {
      assert r[if k < i then k else k - 1] == l[k];
    }
  }

  ghost predicate Sorted(l: seq<SessionNode>)
    reads l`start, l`finish
  {
    forall i, j | 0 <= i < j < |l| :: !Less(l[j].Value(), l[i].Value())
  }

  lemma InsertedSorted(l: seq<SessionNode>, i: nat, x: SessionNode)
    requires Sorted(l) && i <= |l|
    requires forall j | 0 <= j < i :: Less(l[j].Value(), x.Value())
    requires i < |l| ==> !Less(l[i].Value(), x.Value())
    ensures Sorted(Inserted(l, i, x))
  {
    forall j | i <= j < |l|
      ensures !Less(l[j].Value(), x.Value())
    {
      assert j > i ==> !Less(l[j].Value(), l[i].Value());
    }
  }

  // Each of the n bins lists exactly the nodes that are filed under it.
  ghost predicate Filed(bins: seq<seq<SessionNode>>, nodes: seq<SessionNode>, n: nat)
    reads nodes`binIndex
  {
    && |bins| == n
    && AllDistinct(nodes)
    && (forall b, x | 0 <= b < n && x in bins[b] :: x in nodes)
    && (forall x | x in nodes :: x.binIndex < n && x in bins[x.binIndex])
  }

  lemma FiledRemove(bins: seq<seq<SessionNode>>, nodes: seq<SessionNode>, n: nat, b: nat, i: nat, k: nat)
    requires Filed(bins, nodes, n) && b < n && i < |bins[b]| && k < |nodes| && bins[b][i] == nodes[k]
      && AllDistinct(bins[b])
    requires forall c, x | 0 <= c < n && x in bins[c] :: x.binIndex == c
    ensures Filed(bins[b := RemoveAt(bins[b], i)], RemoveAt(nodes, k), n)
  {
    RemovedDistinct(bins[b], i);
    RemovedDistinct(nodes, k);
  }

  lemma FiledInsert(bins: seq<seq<SessionNode>>, nodes: seq<SessionNode>, n: nat, b: nat, i: nat, session: SessionNode)
    requires Filed(bins, nodes, n) && b < n && i <= |bins[b]|
    requires session !in nodes && session.binIndex == b
    ensures Filed(bins[b := Inserted(bins[b], i, session)], nodes + [session], n)
  {
    InsertedMembers(bins[b], i, session);
  }

  // Bin within a group for a finish time; the base interval is 1.
  function BinOffset(finish: nat, groupIndex: nat, binsPerGroup: nat): (r: nat)
    ensures binsPerGroup > 0 ==> r < binsPerGroup
  {
    if binsPerGroup == 0 then 0
    else
      var range := Pow2(groupIndex + 1);
      var binSize := Max(range / binsPerGroup, 1);
      Min(finish % range / binSize, binsPerGroup - 1)
  }

  // A bitmap with a bit per place, set where the flag is true; bits past the places are clear.
  ghost predicate Marks(bitmap: seq<nat>, flags: seq<bool>) {
    Words32(bitmap) && forall i: nat | i < 32 * |bitmap| :: BitAt32(bitmap, i) <==> i < |flags| && flags[i]
  }

  lemma MarksSet(bitmap: seq<nat>, flags: seq<bool>, i: nat)
    requires Marks(bitmap, flags) && i < 32 * |bitmap| && i < |flags|
    ensures Marks(SetBitAt32(bitmap, i), flags[i := true])
  {
    SetBitAt32Effect(bitmap, i);
  }

  lemma MarksClear(bitmap: seq<nat>, flags: seq<bool>, i: nat)
    requires Marks(bitmap, flags) && i < 32 * |bitmap| && i < |flags|
    ensures Marks(ClearBitAt32(bitmap, i), flags[i := false])
  {
    ClearBitAt32Effect(bitmap, i);
  }

  ghost function Occupied(heads: seq<SessionNode?>): (r: seq<bool>)
    ensures |r| == |heads| && forall i | 0 <= i < |r| :: r[i] == (heads[i] != null)
  {
    seq(|heads|, i requires 0 <= i < |heads| => heads[i] != null)
  }

  ghost function NonZero(words: seq<nat>): (r: seq<bool>)
    ensures |r| == |words| && forall i | 0 <= i < |r| :: r[i] == (words[i] != 0)
  {
    seq(|words|, i requires 0 <= i < |words| => words[i] != 0)
  }

  // The two bitmaps over the heads of the bins.
  ghost predicate Indexed(heads: seq<SessionNode?>, binBits: seq<nat>, groupBits: seq<nat>) {
    && |heads| <= 32768 && |binBits| == (|heads| + 31) / 32 && |groupBits| == 32
    && Marks(binBits, Occupied(heads)) && Marks(groupBits, NonZero(binBits))
  }

  lemma IndexedEmpty(heads: seq<SessionNode?>, binBits: seq<nat>, groupBits: seq<nat>)
    requires |heads| <= 32768 && |binBits| == (|heads| + 31) / 32 && |groupBits| == 32
    requires (forall i | 0 <= i < |heads| :: heads[i] == null)
    requires (forall i | 0 <= i < |binBits| :: binBits[i] == 0)
      && (forall i | 0 <= i < |groupBits| :: groupBits[i] == 0)
    ensures Indexed(heads, binBits, groupBits)
  {
    ZeroHasNoBits();
  }

  // set_bin_bit and the group bit above it, for a bin that has just got a head.
  lemma IndexedSet(heads: seq<SessionNode?>, heads': seq<SessionNode?>, binBits: seq<nat>, groupBits: seq<nat>, b: nat)
    requires Indexed(heads, binBits, groupBits) && b < |heads| == |heads'| && heads' == heads[b := heads'[b]]
      && heads'[b] != null
    ensures Indexed(heads', SetBitAt32(binBits, b), SetBitAt32(groupBits, b / 32))
  {
    MarksSet(binBits, Occupied(heads), b);
    assert Occupied(heads') == Occupied(heads)[b := true];
    MarksSet(groupBits, NonZero(binBits), b / 32);
    var binBits' := SetBitAt32(binBits, b);
    WordZero32(binBits', b / 32);
    assert BitAt32(binBits', b);
    assert NonZero(binBits') == NonZero(binBits)[b / 32 := true];
  }

  // clear_bin_bit for a bin that has just lost its last session, and the group bit if the whole
  // word of bins is empty.
  lemma IndexedClear(heads: seq<SessionNode?>, heads': seq<SessionNode?>, binBits: seq<nat>,
                     groupBits: seq<nat>, b: nat)
    requires Indexed(heads, binBits, groupBits) && b < |heads| && heads' == heads[b := null] && heads[b] != null
    ensures var binBits' := ClearBitAt32(binBits, b);
      Indexed(heads', binBits', if binBits'[b / 32] == 0 then ClearBitAt32(groupBits, b / 32) else groupBits)
  {
    MarksClear(binBits, Occupied(heads), b);
    assert Occupied(heads') == Occupied(heads)[b := false];
    MarksClear(groupBits, NonZero(binBits), b / 32);
    var binBits' := ClearBitAt32(binBits, b);
    WordZero32(binBits, b / 32);
    assert BitAt32(binBits, b);
    assert NonZero(binBits') == NonZero(binBits)[b / 32 := binBits'[b / 32] != 0];
  }

  lemma IndexedMarks(heads: seq<SessionNode?>, binBits: seq<nat>, groupBits: seq<nat>, b: nat)
    requires Indexed(heads, binBits, groupBits) && b < |heads| && heads[b] != null
    ensures b / 32 < |binBits| && Bit(binBits[b / 32], b % 32)
    ensures b / 32 / 32 < |groupBits| && Bit(groupBits[b / 32 / 32], b / 32 % 32)
  {
    assert BitAt32(binBits, b);
    WordZero32(binBits, b / 32);
    hide Bit;
    assert BitAt32(groupBits, b / 32);
  }

  // A head that changes without the bin becoming empty or occupied leaves the bitmaps right.
  lemma IndexedSame(heads: seq<SessionNode?>, heads': seq<SessionNode?>, binBits: seq<nat>, groupBits: seq<nat>)
    requires Indexed(heads, binBits, groupBits)
    requires |heads'| == |heads| && forall i | 0 <= i < |heads| :: (heads[i] == null) == (heads'[i] == null)
    ensures Indexed(heads', binBits, groupBits)
  {
    assert Occupied(heads') == Occupied(heads);
  }

  class Calendar {
    const groups: nat
    const binsPerGroup: nat
    const numBins: nat
    const heads: array<SessionNode?>
    const binBits: array<nat>
    const groupBits: array<nat>
    var minStart: nat
    // All nodes in order of arrival, and the list of each bin.
    ghost var nodes: seq<SessionNode>
    ghost var bins: seq<seq<SessionNode>>

    // An empty calendar. The group bitmap has room for 32768 bins.
    constructor (groups: nat, binsPerGroup: nat)
      requires binsPerGroup > 0 && groups * binsPerGroup <= 32768
      ensures Valid() && nodes == [] && this.groups == groups && this.binsPerGroup == binsPerGroup
      ensures fresh(heads) && fresh(binBits) && fresh(groupBits)
    {
      this.groups := groups;
      this.binsPerGroup := binsPerGroup;
      var n := groups * binsPerGroup;
      numBins := n;
      heads := new SessionNode?[n](i => null);
      binBits := new nat[(n + 31) / 32](i => 0);
      groupBits := new nat[32](i => 0);
      minStart := U64_MAX;
      nodes := [];
      bins := seq(n, i => []);
      new;
      IndexedEmpty(heads[..], binBits[..], groupBits[..]);
      hide Indexed;
    }

    // The lists of the given bins start at the heads and file the given nodes.
    ghost predicate Linked(bins: seq<seq<SessionNode>>, nodes: seq<SessionNode>)
      reads heads, nodes`next, nodes`prev, nodes`binIndex
    {
      && heads.Length == numBins
      && Filed(bins, nodes, numBins)
      && (forall b, i | 0 <= b < numBins && 0 <= i < |bins[b]| :: bins[b][i] in nodes)
      && (forall b | 0 <= b < numBins :: IsList(bins[b], heads[b], b))
    }

    ghost predicate Links()
      reads this`bins, this`nodes, heads, nodes`next, nodes`prev, nodes`binIndex
    {
      Linked(bins, nodes)
    }

    // Links session between position i - 1 and position i of the list of bin b.
    method Splice(b: nat, ghost l: seq<SessionNode>, ghost i: nat, prev: SessionNode?, current: SessionNode?,
                  session: SessionNode)
      requires b < heads.Length && IsList(l, heads[b], b) && i <= |l| && session !in l && session.binIndex == b
      requires prev == (if i > 0 then l[i - 1] else null) && current == (if i < |l| then l[i] else null)
      modifies heads, l`next, l`prev, session`next, session`prev
      ensures IsList(Inserted(l, i, session), heads[b], b) && heads[b] != null
      ensures forall c | 0 <= c < heads.Length && c != b :: heads[c] == old(heads[c])
    {
      assert forall k | 0 <= k < |l| :: l[k] in l;
      session.next, session.prev := null, null;
      if heads[b] == null {
        heads[b] := session;
      } else if prev == null {
        session.next := heads[b];
        heads[b].prev := session;
        heads[b] := session;
      } else {
        session.prev := prev;
        session.next := current;
        prev.next := session;
        if current != null {
          current.prev := session;
        }
      }
      InsertedIsList(l, i, session, heads[b], b);
    }

    // Takes the session at position i out of the list of bin b.
    method Unlink(b: nat, ghost l: seq<SessionNode>, ghost i: nat, session: SessionNode)
      requires b < heads.Length && IsList(l, heads[b], b) && i < |l| && session == l[i]
      modifies heads, l`next, l`prev
      ensures IsList(RemoveAt(l, i), heads[b], b)
      ensures session.next == session.prev == null
      ensures forall c | 0 <= c < heads.Length && c != b :: heads[c] == old(heads[c])
    {
      if session.prev != null {
        session.prev.next := session.next;
      } else {
        heads[b] := session.next;
      }
      if session.next != null {
        session.next.prev := session.prev;
      }
      session.next := null;
      session.prev := null;
      RemovedIsList(l, i, heads[b], b);
    }

    // The place before the first session that the new one does not follow.
    method FindPlace(b: nat, session: SessionNode)
      returns (prev: SessionNode?, current: SessionNode?, ghost i: nat)
      requires b < heads.Length && b < |bins| && IsList(bins[b], heads[b], b)
      ensures var l := bins[b];
        && i <= |l|
        && current == (if i < |l| then l[i] else null) && prev == (if i > 0 then l[i - 1] else null)
        && (forall j | 0 <= j < i :: Less(l[j].Value(), session.Value()))
        && (i < |l| ==> !Less(l[i].Value(), session.Value()))
    {
      ghost var l := bins[b];
      current, prev, i := heads[b], null, 0;
      while current != null && Less(current.Value(), session.Value())
        invariant 0 <= i <= |l|
        invariant current == (if i < |l| then l[i] else null)
        invariant prev == (if i > 0 then l[i - 1] else null)
        invariant forall j | 0 <= j < i :: Less(l[j].Value(), session.Value())
        decreases |l| - i
      {
        prev := current;
        current := current.next;
        i := i + 1;
      }
    }

    // Lists of other bins are not affected by pointer changes within bin b.
    twostate lemma OtherBinsKept(b: nat)
      requires old(Links()) && |bins| == numBins && b < numBins
      requires forall c | 0 <= c < numBins && c != b :: bins[c] == old(bins[c]) && heads[c] == old(heads[c])
      requires forall n | n in old(nodes) && old(n.binIndex) != b ::
        n.next == old(n.next) && n.prev == old(n.prev) && n.binIndex == old(n.binIndex)
      ensures forall c | 0 <= c < numBins && c != b :: IsList(bins[c], heads[c], c)
    {
      forall c | 0 <= c < numBins && c != b
        ensures IsList(bins[c], heads[c], c)
      {
        var l := bins[c];
        assert old(IsList(l, heads[c], c));
        assert forall i | 0 <= i < |l| :: l[i] in old(nodes);
      }
    }

    // Inserts session into the sorted list of bin b.
    method BinListInsert(b: nat, session: SessionNode) returns (ghost i: nat)
      requires b < heads.Length && b < |bins| && IsList(bins[b], heads[b], b) && Sorted(bins[b])
      requires session !in bins[b] && session.binIndex == b
      modifies heads, bins[b]`next, bins[b]`prev, session`next, session`prev
      ensures i <= |bins[b]| && IsList(Inserted(bins[b], i, session), heads[b], b)
      ensures Sorted(Inserted(bins[b], i, session)) && heads[b] != null
      ensures forall k | 0 <= k < i ::
        bins[b][k].finish < session.finish || (bins[b][k].finish == session.finish && bins[b][k].start < session.start)
      ensures forall c | 0 <= c < heads.Length && c != b :: heads[c] == old(heads[c])
    {
      ghost var l := bins[b];
      assert forall k | 0 <= k < |l| :: l[k] in l;
      hide IsList, Sorted, Succ, Pred, Inserted;
      var prev, current;
      prev, current, i := FindPlace(b, session);
      Splice(b, l, i, prev, current, session);
      InsertedSorted(l, i, session);
    }

    lemma LinkedInsert(b: nat, i: nat, session: SessionNode)
      requires heads.Length == numBins && Filed(bins, nodes, numBins) && b < numBins && i <= |bins[b]|
      requires forall c, k | 0 <= c < numBins && 0 <= k < |bins[c]| :: bins[c][k] in nodes
      requires session !in nodes && session.binIndex == b
      requires forall c | 0 <= c < numBins && c != b :: IsList(bins[c], heads[c], c)
      requires IsList(Inserted(bins[b], i, session), heads[b], b)
      ensures Linked(bins[b := Inserted(bins[b], i, session)], nodes + [session])
    {
      FiledInsert(bins, nodes, numBins, b, i, session);
      InsertedMembers(bins[b], i, session);
      hide IsList;
    }

    lemma LinksParts()
      requires Links()
      ensures heads.Length == numBins == |bins| && Filed(bins, nodes, numBins)
      ensures forall b | 0 <= b < numBins :: IsList(bins[b], heads[b], b)
      ensures forall b, i | 0 <= b < numBins && 0 <= i < |bins[b]| :: bins[b][i] in nodes
      ensures forall n, b | 0 <= b < numBins && n in bins[b] :: n in nodes && n.binIndex == b
      ensures forall n | n in nodes :: n.binIndex < numBins && n in bins[n.binIndex]
    {
    }

    // Files session under bin b.
    method File(b: nat, session: SessionNode)
      requires Links() && b < numBins && forall c | 0 <= c < numBins :: Sorted(bins[c])
      requires session !in nodes && session.binIndex == b
      modifies this`bins, this`nodes, heads, nodes`next, nodes`prev, session`next, session`prev
      ensures Links() && nodes == old(nodes) + [session]
      ensures |bins| == numBins && forall c | 0 <= c < numBins :: Sorted(bins[c])
      ensures heads[b] != null && heads[..] == old(heads[..])[b := heads[b]]
    {
      hide Linked, Sorted, IsList, Inserted, Filed;
      LinksParts();
      ghost var l := bins[b];
      var i := BinListInsert(b, session);
      OtherBinsKept(b);
      LinkedInsert(b, i, session);
      bins := bins[b := Inserted(l, i, session)];
      nodes := nodes + [session];
    }

    ghost predicate Shape() {
      && binsPerGroup > 0 && numBins == groups * binsPerGroup <= 32768
      && heads.Length == numBins
      && binBits != groupBits && heads as object != binBits && heads as object != groupBits
    }

    ghost predicate LeastStart()
      reads this`minStart, this`nodes, nodes`start
    {
      && minStart <= U64_MAX
      && (forall n | n in nodes :: minStart <= n.start)
      && (minStart == U64_MAX || exists n :: n in nodes && n.start == minStart)
    }

    // The lists are well formed and sorted, and the bitmaps agree with them.
    ghost predicate Structured()
      reads this`bins, this`nodes, heads, binBits, groupBits, nodes
    {
      && Shape()
      && Links()
      && |bins| == numBins
      && (forall b | 0 <= b < numBins :: Sorted(bins[b]))
      && Indexed(heads[..], binBits[..], groupBits[..])
    }

    // And so does the cache.
    ghost predicate Valid()
      reads this`bins, this`nodes, this`minStart, heads, binBits, groupBits, nodes
    {
      Structured() && LeastStart()
    }

    method SetBinBit(b: nat)
      requires b < 32 * binBits.Length
      modifies binBits
      ensures binBits[..] == SetBitAt32(old(binBits[..]), b)
    {
      binBits[b / 32] := SetBit(binBits[b / 32], b % 32);
    }

    method ClearBinBit(b: nat)
      requires b < 32 * binBits.Length
      modifies binBits
      ensures binBits[..] == ClearBitAt32(old(binBits[..]), b)
    {
      binBits[b / 32] := ClearBit(binBits[b / 32], b % 32, 32);
    }

    // Files a session in the bin of its group and finish time. It fails on a session whose group
    // the calendar does not have.
    method Insert(session: SessionNode) returns (status: Status)
      requires Valid() && session !in nodes && session.start <= U64_MAX
      modifies this`bins, this`nodes, this`minStart, heads, binBits, groupBits
      modifies nodes`next, nodes`prev, session`next, session`prev, session`binIndex
      ensures Valid()
      ensures status == if session.groupIndex < groups then Success else Internal
      ensures nodes == if status == Success then old(nodes) + [session] else old(nodes)
      ensures status == Success ==>
        session.binIndex
        == session.groupIndex * binsPerGroup + BinOffset(session.finish, session.groupIndex, binsPerGroup)
    {
      hide Links, Indexed, Sorted, BinOffset;
      var offset := BinOffset(session.finish, session.groupIndex, binsPerGroup);
      var b := session.groupIndex * binsPerGroup + offset;
      BinInRange(session.groupIndex, offset);
      if b >= numBins {
        return Internal;
      }
      session.binIndex := b;
      ghost var heads0 := heads[..];
      File(b, session);
      Mark(b, heads0);
      assert forall n | n in old(nodes) :: n in nodes;
      assert session in nodes;
      if session.start < minStart {
        minStart := session.start;
      }
      assert LeastStart();
      status := Success;
    }

    lemma BinInRange(g: nat, offset: nat)
      requires Shape() && offset < binsPerGroup
      ensures g * binsPerGroup + offset < numBins <==> g < groups
    {
      if g < groups {
        assert (g + 1) * binsPerGroup <= groups * binsPerGroup;
      } else {
        assert g * binsPerGroup >= groups * binsPerGroup;
      }
    }

    // Sets the bits for a bin that has just been given a head.
    method Mark(b: nat, ghost heads0: seq<SessionNode?>)
      requires b < heads.Length == |heads0| && heads[b] != null && heads[..] == heads0[b := heads[b]]
      requires binBits != groupBits && heads as object != binBits && heads as object != groupBits
      requires Indexed(heads0, binBits[..], groupBits[..])
      modifies binBits, groupBits
      ensures Indexed(heads[..], binBits[..], groupBits[..])
    {
      IndexedSet(heads0, heads[..], binBits[..], groupBits[..], b);
      assert b < 32 * binBits.Length && b / 32 < 32 * groupBits.Length;
      hide Indexed;
      SetBinBit(b);
      groupBits[b / 32 / 32] := SetBit(groupBits[b / 32 / 32], b / 32 % 32);
    }

    // ---------- Finding the session to serve ----------

    // The running minimum of a search: a session that is eligible at v, with its finish time.
    ghost predicate Candidate(best: SessionNode?, finish: nat, v: nat)
      reads this`nodes, best
    {
      if best == null then finish == U64_MAX
      else best in nodes && Eligible(best.Value(), v) && finish == best.finish
    }

    // No session filed under one of the bins seen is eligible at v and finishes earlier, or as
    // early in a lower bin, or so in the same bin and starts earlier.
    ghost predicate Beats(best: SessionNode?, v: nat, seen: set<nat>)
      reads this`nodes, nodes, best
    {
      forall n | n in nodes && n.binIndex in seen && Eligible(n.Value(), v) :: best != null && Before(best, n)
    }

    ghost predicate Before(a: SessionNode, b: SessionNode)
      reads a, b
    {
      || a.finish < b.finish
      || (a.finish == b.finish && (a.binIndex < b.binIndex || (a.binIndex == b.binIndex && a.start <= b.start)))
    }

    // The session is filed below bin b.
    ghost predicate Below(best: SessionNode?, b: nat)
      reads best
    {
      best != null ==> best.binIndex < b
    }

    // The first session of a bin that v has reached has the least finish time among them.
    method ScanBin(b: nat, v: nat, best: SessionNode?, finish: nat, ghost seen: set<nat>)
      returns (best': SessionNode?, finish': nat, ghost seen': set<nat>)
      requires Structured() && b < numBins && Candidate(best, finish, v) && Beats(best, v, seen) && Below(best, b)
      ensures Candidate(best', finish', v) && Beats(best', v, seen') && Below(best', b + 1) && seen' == seen + {b}
    {
      ghost var l := bins[b];
      assert IsList(l, heads[b], b) && Sorted(l);
      var cand := heads[b];
      ghost var i := 0;
      while cand != null && cand.start > v
        invariant 0 <= i <= |l|
        invariant cand == (if i < |l| then l[i] else null)
        invariant forall j | 0 <= j < i :: l[j].start > v
        decreases |l| - i
      {
        cand := cand.next;
        i := i + 1;
      }
      assert forall j | i < j < |l| ::
        l[i].finish < l[j].finish || (l[i].finish == l[j].finish && l[i].start <= l[j].start) by {
        assert forall j | i < j < |l| :: !Less(l[j].Value(), l[i].Value());
      }
      best', finish', seen' := best, finish, seen + {b};
      if cand != null && cand.finish < finish {
        best', finish' := cand, cand.finish;
      }
    }

    // What the bits of one word of bins, and of one word of groups, say.
    lemma BinBitMeans(w: nat, k: nat)
      requires Structured() && w < binBits.Length && k < 32
      ensures binBits[w] < WORD32
      ensures Bit(binBits[w], k) <==> 32 * w + k < numBins && heads[32 * w + k] != null
    {
      var b := 32 * w + k;
      assert b / 32 == w && b % 32 == k;
      assert BitAt32(binBits[..], b) == Bit(binBits[w], k);
    }

    lemma GroupBitMeans(g: nat, k: nat)
      requires Structured() && g < groupBits.Length && k < 32
      ensures groupBits[g] < WORD32
      ensures Bit(groupBits[g], k) <==> 32 * g + k < binBits.Length && binBits[32 * g + k] != 0
    {
      var w := 32 * g + k;
      assert w / 32 == g && w % 32 == k;
      assert BitAt32(groupBits[..], w) == Bit(groupBits[g], k);
    }

    // An occupied bin is marked in both bitmaps.
    lemma OccupiedIsMarked(b: nat)
      requires Structured() && b < numBins && heads[b] != null
      ensures b / 32 < binBits.Length && Bit(binBits[b / 32], b % 32)
      ensures b / 32 / 32 < groupBits.Length && Bit(groupBits[b / 32 / 32], b / 32 % 32)
    {
      IndexedMarks(heads[..], binBits[..], groupBits[..], b);
    }

    // Every occupied bin of word w has been seen, or its bit is still to come.
    ghost predicate WordLeft(w: nat, bits: nat, seen: set<nat>)
      reads heads
    {
      forall b: nat | b < heads.Length && b / 32 == w && heads[b] != null :: b in seen || Bit(bits, b % 32)
    }

    ghost predicate WordSeen(w: nat, seen: set<nat>)
      reads heads
    {
      forall b: nat | b < heads.Length && b / 32 == w && heads[b] != null :: b in seen
    }

    ghost predicate GroupSeen(g: nat, seen: set<nat>)
      reads heads
    {
      forall b: nat | b < heads.Length && b / 32 / 32 == g && heads[b] != null :: b in seen
    }

    lemma WordLeftAtFirst(w: nat, seen: set<nat>)
      requires Structured() && w < binBits.Length
      ensures binBits[w] < WORD32 && WordLeft(w, binBits[w], seen)
    {
      BinBitMeans(w, 0);
      forall b: nat | b < heads.Length && b / 32 == w && heads[b] != null
        ensures Bit(binBits[w], b % 32)
      {
        OccupiedIsMarked(b);
      }
    }

    lemma GroupLeftAtFirst(g: nat, seen: set<nat>)
      requires Structured() && g < groupBits.Length
      ensures groupBits[g] < WORD32 && GroupLeft(g, groupBits[g], seen)
    {
      GroupBitMeans(g, 0);
      forall b: nat | b < heads.Length && b / 32 / 32 == g && heads[b] != null
        ensures Bit(groupBits[g], b / 32 % 32)
      {
        OccupiedIsMarked(b);
      }
    }

    lemma NothingLeft(seen: set<nat>)
      ensures forall w :: WordLeft(w, 0, seen) ==> WordSeen(w, seen)
      ensures forall g :: GroupLeft(g, 0, seen) ==> GroupSeen(g, seen)
    {
      ZeroHasNoBits();
    }

    lemma WordLeftNext(w: nat, bits: nat, seen: set<nat>)
      requires WordLeft(w, bits, seen) && 0 != bits < WORD32
      ensures var pos := Lowest(bits);
        pos < 32 && ClearBit(bits, pos, 32) < bits && WordLeft(w, ClearBit(bits, pos, 32), seen + {w * 32 + pos})
      ensures forall k: nat | Bit(ClearBit(bits, Lowest(bits), 32), k) :: Bit(bits, k) && k > Lowest(bits)
    {
      ClearLowest32(bits);
      hide Bit;
    }

    // Searches the bins whose bits are set in word w of the bin bitmap.
    method ScanWord(w: nat, v: nat, best: SessionNode?, finish: nat, ghost seen: set<nat>)
      returns (best': SessionNode?, finish': nat, ghost seen': set<nat>)
      requires Structured() && w < binBits.Length && Candidate(best, finish, v) && Beats(best, v, seen)
      requires Below(best, 32 * w)
      ensures Candidate(best', finish', v) && Beats(best', v, seen') && seen <= seen'
      ensures WordSeen(w, seen') && Below(best', 32 * w + 32)
    {
      hide Structured, Candidate, Bit, Beats, ClearBit, Lowest, WordLeft, WordSeen;
      best', finish', seen' := best, finish, seen;
      var bits: nat := binBits[w];
      WordLeftAtFirst(w, seen);
      while bits != 0
        invariant bits < WORD32 && seen <= seen'
        invariant Candidate(best', finish', v) && Beats(best', v, seen') && Below(best', 32 * w + 32)
        invariant forall k: nat | Bit(bits, k) :: Bit(binBits[w], k) && Below(best', 32 * w + k)
        invariant WordLeft(w, bits, seen')
        decreases bits
      {
        var pos := Lowest(bits);
        WordLeftNext(w, bits, seen');
        BinBitMeans(w, pos);
        best', finish', seen' := ScanBin(w * 32 + pos, v, best', finish', seen');
        bits := ClearBit(bits, pos, 32);
      }
      NothingLeft(seen');
    }

    // Every occupied bin of the words of group word g has been seen, or its word's bit is to come.
    ghost predicate GroupLeft(g: nat, bits: nat, seen: set<nat>)
      reads heads
    {
      forall b: nat | b < heads.Length && b / 32 / 32 == g && heads[b] != null :: b in seen || Bit(bits, b / 32 % 32)
    }

    lemma GroupLeftNext(g: nat, bits: nat, seen: set<nat>, seen': set<nat>)
      requires GroupLeft(g, bits, seen) && 0 != bits < WORD32
      requires seen <= seen' && WordSeen(g * 32 + Lowest(bits), seen')
      ensures var pos := Lowest(bits);
        pos < 32 && ClearBit(bits, pos, 32) < bits && GroupLeft(g, ClearBit(bits, pos, 32), seen')
      ensures forall k: nat | Bit(ClearBit(bits, Lowest(bits), 32), k) :: Bit(bits, k) && k > Lowest(bits)
    {
      ClearLowest32(bits);
      hide Bit;
    }

    // Searches the words whose bits are set in word g of the group bitmap.
    method ScanGroupWord(g: nat, v: nat, best: SessionNode?, finish: nat, ghost seen: set<nat>)
      returns (best': SessionNode?, finish': nat, ghost seen': set<nat>)
      requires Structured() && g < groupBits.Length && Candidate(best, finish, v) && Beats(best, v, seen)
      requires Below(best, 1024 * g)
      ensures Candidate(best', finish', v) && Beats(best', v, seen') && seen <= seen'
      ensures GroupSeen(g, seen') && Below(best', 1024 * g + 1024)
    {
      hide Structured, Candidate, Bit, Beats, ClearBit, Lowest, GroupLeft, GroupSeen, WordSeen;
      best', finish', seen' := best, finish, seen;
      var bits: nat := groupBits[g];
      GroupLeftAtFirst(g, seen);
      while bits != 0
        invariant bits < WORD32 && seen <= seen'
        invariant Candidate(best', finish', v) && Beats(best', v, seen') && Below(best', 1024 * g + 1024)
        invariant forall k: nat | Bit(bits, k) :: Bit(groupBits[g], k) && Below(best', 1024 * g + 32 * k)
        invariant GroupLeft(g, bits, seen')
        decreases bits
      {
        var pos := Lowest(bits);
        ghost var before := seen';
        ClearLowest32(bits);
        GroupBitMeans(g, pos);
        best', finish', seen' := ScanWord(g * 32 + pos, v, best', finish', seen');
        GroupLeftNext(g, bits, before, seen');
        bits := ClearBit(bits, pos, 32);
      }
      NothingLeft(seen');
    }

    // The eligible session with the least finish time, found through the bitmaps; null exactly when
    // no queued session is eligible at v.
    method FindEligible(v: nat) returns (best: SessionNode?)
      requires Valid()
      ensures best == null <==> !AnyEligible(Values(nodes), v)
      ensures best != null ==>
        && best in nodes && Eligible(best.Value(), v)
        && forall x :: x in Values(nodes) && Eligible(x, v) ==> best.finish <= x.finish
      ensures best != null ==>
        forall n | n in nodes && Eligible(n.Value(), v) && n.finish == best.finish ::
          best.binIndex <= n.binIndex && (best.binIndex == n.binIndex ==> best.start <= n.start)
    {
      hide Valid, Structured, Candidate, Beats, Values, AnyEligible, Eligible;
      SearchStarts(v);
      var finish := U64_MAX;
      best := null;
      ghost var seen: set<nat> := {};
      for g := 0 to 32
        invariant Candidate(best, finish, v) && Beats(best, v, seen) && Below(best, 1024 * g)
        invariant forall b: nat | b < heads.Length && b / 32 / 32 < g && heads[b] != null :: b in seen
      {
        if groupBits[g] != 0 {
          best, finish, seen := ScanGroupWord(g, v, best, finish, seen);
        } else {
          EmptyGroupWord(g);
        }
      }
      BestOfAll(best, finish, v, seen);
    }

    lemma SearchStarts(v: nat)
      requires Valid()
      ensures Structured() && heads.Length <= 32768 && groupBits.Length == 32
      ensures Candidate(null, U64_MAX, v) && Beats(null, v, {})
    {
    }

    lemma BestOfAll(best: SessionNode?, finish: nat, v: nat, seen: set<nat>)
      requires Structured() && Candidate(best, finish, v) && Beats(best, v, seen)
      requires forall b: nat | b < heads.Length && heads[b] != null :: b in seen
      ensures best == null <==> !AnyEligible(Values(nodes), v)
      ensures best != null ==>
        && best in nodes && Eligible(best.Value(), v)
        && forall x :: x in Values(nodes) && Eligible(x, v) ==> best.finish <= x.finish
      ensures best != null ==>
        forall n | n in nodes && Eligible(n.Value(), v) && n.finish == best.finish ::
          best.binIndex <= n.binIndex && (best.binIndex == n.binIndex ==> best.start <= n.start)
    {
      hide Structured;
      AllSeen(seen);
      ValuesMembers(nodes);
    }

    lemma EmptyGroupWord(g: nat)
      requires Structured() && g < groupBits.Length && groupBits[g] == 0
      ensures forall b: nat | b < heads.Length && b / 32 / 32 == g :: heads[b] == null
    {
      ZeroHasNoBits();
      forall b: nat | b < heads.Length && b / 32 / 32 == g
        ensures heads[b] == null
      {
        if heads[b] != null {
          OccupiedIsMarked(b);
          assert false;
        }
      }
    }

    lemma AllSeen(seen: set<nat>)
      requires Structured()
      requires forall b: nat | b < heads.Length && heads[b] != null :: b in seen
      ensures forall n | n in nodes :: n.binIndex in seen
    {
      forall n | n in nodes
        ensures n.binIndex in seen
      {
        assert IsList(bins[n.binIndex], heads[n.binIndex], n.binIndex);
      }
    }

    // ---------- Recomputing the least start time ----------

    // The running minimum over the bins seen so far.
    ghost predicate LeastSeen(m: nat, seen: set<nat>)
      reads this`nodes, nodes
    {
      && m <= U64_MAX
      && (m == U64_MAX || exists n :: n in nodes && n.start == m)
      && forall n | n in nodes && n.binIndex in seen :: m <= n.start
    }

    method MinStartOfBin(b: nat, m: nat, ghost seen: set<nat>) returns (m': nat, ghost seen': set<nat>)
      requires Structured() && b < numBins && LeastSeen(m, seen)
      ensures LeastSeen(m', seen') && seen' == seen + {b}
    {
      ghost var l := bins[b];
      assert IsList(l, heads[b], b);
      m', seen' := m, seen + {b};
      var s := heads[b];
      ghost var i := 0;
      while s != null
        invariant 0 <= i <= |l|
        invariant s == (if i < |l| then l[i] else null)
        invariant m' <= m && (m' == U64_MAX || exists n :: n in nodes && n.start == m')
        invariant forall j | 0 <= j < i :: m' <= l[j].start
        decreases |l| - i
      {
        if s.start < m' {
          m' := s.start;
        }
        s := s.next;
        i := i + 1;
      }
    }

    method MinStartOfWord(w: nat, m: nat, ghost seen: set<nat>) returns (m': nat, ghost seen': set<nat>)
      requires Structured() && w < binBits.Length && LeastSeen(m, seen)
      ensures LeastSeen(m', seen') && seen <= seen' && WordSeen(w, seen')
    {
      hide Structured, LeastSeen, Bit, ClearBit, Lowest, WordLeft, WordSeen;
      m', seen' := m, seen;
      var bits: nat := binBits[w];
      WordLeftAtFirst(w, seen);
      while bits != 0
        invariant bits < WORD32 && seen <= seen' && LeastSeen(m', seen')
        invariant forall k: nat | Bit(bits, k) :: Bit(binBits[w], k)
        invariant WordLeft(w, bits, seen')
        decreases bits
      {
        var pos := Lowest(bits);
        WordLeftNext(w, bits, seen');
        BinBitMeans(w, pos);
        m', seen' := MinStartOfBin(w * 32 + pos, m', seen');
        bits := ClearBit(bits, pos, 32);
      }
      NothingLeft(seen');
    }

    method MinStartOfGroupWord(g: nat, m: nat, ghost seen: set<nat>) returns (m': nat, ghost seen': set<nat>)
      requires Structured() && g < groupBits.Length && LeastSeen(m, seen)
      ensures LeastSeen(m', seen') && seen <= seen' && GroupSeen(g, seen')
    {
      hide Structured, LeastSeen, Bit, ClearBit, Lowest, GroupLeft, GroupSeen, WordSeen;
      m', seen' := m, seen;
      var bits: nat := groupBits[g];
      GroupLeftAtFirst(g, seen);
      while bits != 0
        invariant bits < WORD32 && seen <= seen' && LeastSeen(m', seen')
        invariant forall k: nat | Bit(bits, k) :: Bit(groupBits[g], k)
        invariant GroupLeft(g, bits, seen')
        decreases bits
      {
        var pos := Lowest(bits);
        ghost var before := seen';
        ClearLowest32(bits);
        GroupBitMeans(g, pos);
        m', seen' := MinStartOfWord(g * 32 + pos, m', seen');
        GroupLeftNext(g, bits, before, seen');
        bits := ClearBit(bits, pos, 32);
      }
      NothingLeft(seen');
    }

    // The least start time of all sessions, by a scan of the bins that are not empty.
    method RescanMinStart() returns (m: nat)
      requires Structured()
      ensures m <= U64_MAX && (forall n | n in nodes :: m <= n.start)
      ensures m == U64_MAX || exists n :: n in nodes && n.start == m
    {
      m := U64_MAX;
      ghost var seen: set<nat> := {};
      for g := 0 to 32
        invariant LeastSeen(m, seen)
        invariant forall b: nat | b < heads.Length && b / 32 / 32 < g && heads[b] != null :: b in seen
      {
        if groupBits[g] != 0 {
          m, seen := MinStartOfGroupWord(g, m, seen);
        } else {
          EmptyGroupWord(g);
        }
      }
      AllSeen(seen);
    }

    // ---------- Removing a session ----------

    lemma LinkedRemove(b: nat, i: nat, k: nat)
      requires heads.Length == numBins == |bins| && Filed(bins, nodes, numBins) && b < numBins
      requires i < |bins[b]| && k < |nodes| && bins[b][i] == nodes[k] && AllDistinct(bins[b])
      requires forall c, n | 0 <= c < numBins && n in bins[c] :: n in nodes && n.binIndex == c
      requires forall c | 0 <= c < numBins && c != b :: IsList(bins[c], heads[c], c)
      requires IsList(RemoveAt(bins[b], i), heads[b], b)
      ensures Linked(bins[b := RemoveAt(bins[b], i)], RemoveAt(nodes, k))
    {
      FiledRemove(bins, nodes, numBins, b, i, k);
      hide IsList;
      var bins' := bins[b := RemoveAt(bins[b], i)];
      forall c, j | 0 <= c < numBins && 0 <= j < |bins'[c]|
        ensures bins'[c][j] in RemoveAt(nodes, k)
      {
        assert bins'[c][j] in bins'[c];
      }
    }

    lemma SortedRemove(l: seq<SessionNode>, i: nat)
      requires Sorted(l) && i < |l|
      ensures Sorted(RemoveAt(l, i))
    {
      var r := RemoveAt(l, i);
      assert forall j | 0 <= j < |r| :: r[j] == l[if j < i then j else j + 1];
    }

    // Takes session, the k-th node, off the list of its bin.
    method Unfile(b: nat, session: SessionNode, ghost k: nat)
      requires Links() && |bins| == numBins && forall c | 0 <= c < numBins :: Sorted(bins[c])
      requires k < |nodes| && nodes[k] == session && b == session.binIndex < numBins
      modifies this`bins, this`nodes, heads, nodes`next, nodes`prev
      ensures Links() && nodes == RemoveAt(old(nodes), k)
      ensures |bins| == numBins && forall c | 0 <= c < numBins :: Sorted(bins[c])
      ensures heads[..] == old(heads[..])[b := heads[b]] && old(heads[b]) != null
    {
      hide Linked, Sorted, Filed, IsList, AllDistinct;
      LinksParts();
      ghost var i := PlaceInBin(k);
      ghost var l := bins[b];
      Unlink(b, l, i, session);
      OtherBinsKept(b);
      LinkedRemove(b, i, k);
      SortedRemove(l, i);
      bins := bins[b := RemoveAt(l, i)];
      nodes := RemoveAt(nodes, k);
    }

    // Where the k-th node stands in its bin.
    lemma PlaceInBin(k: nat) returns (i: nat)
      requires Links() && k < |nodes|
      ensures var b := nodes[k].binIndex;
        && b < numBins == heads.Length == |bins| && i < |bins[b]| && bins[b][i] == nodes[k]
        && AllDistinct(bins[b]) && IsList(bins[b], heads[b], b) && heads[b] != null
    {
      NodeIsListed(k);
      i :| 0 <= i < |bins[nodes[k].binIndex]| && bins[nodes[k].binIndex][i] == nodes[k];
    }

    lemma NodeIsListed(k: nat)
      requires Links() && k < |nodes|
      ensures var n := nodes[k];
        n.binIndex < numBins == heads.Length == |bins| && n in bins[n.binIndex] && AllDistinct(bins[n.binIndex])
        && heads[n.binIndex] != null
    {
      var n := nodes[k];
      assert IsList(bins[n.binIndex], heads[n.binIndex], n.binIndex);
    }

    // Clears the bits of a bin that has just lost a session, if it is now empty.
    method Unmark(b: nat, ghost heads0: seq<SessionNode?>)
      requires b < heads.Length == |heads0| && heads0[b] != null && heads[..] == heads0[b := heads[b]]
      requires binBits != groupBits && heads as object != binBits && heads as object != groupBits
      requires Indexed(heads0, binBits[..], groupBits[..])
      modifies binBits, groupBits
      ensures Indexed(heads[..], binBits[..], groupBits[..])
    {
      assert b < 32 * binBits.Length && b / 32 < 32 * groupBits.Length;
      if heads[b] == null {
        IndexedClear(heads0, heads[..], binBits[..], groupBits[..], b);
        hide Indexed;
        ClearBinBit(b);
        if binBits[b / 32] == 0 {
          groupBits[b / 32 / 32] := ClearBit(groupBits[b / 32 / 32], b / 32 % 32, 32);
        }
      } else {
        IndexedSame(heads0, heads[..], binBits[..], groupBits[..]);
      }
    }

    // Takes session off its list and keeps the bitmaps right.
    method Detach(session: SessionNode, ghost k: nat)
      requires Structured() && k < |nodes| && nodes[k] == session
      modifies this`bins, this`nodes, heads, binBits, groupBits, nodes`next, nodes`prev
      ensures Structured() && nodes == RemoveAt(old(nodes), k)
    {
      NodeIsListed(k);
      hide Links, Sorted, Indexed;
      var b := session.binIndex;
      ghost var heads0 := heads[..];
      Unfile(b, session, k);
      Unmark(b, heads0);
    }

    // Removing a session that starts later than the cached minimum leaves the minimum right.
    lemma LeastStartWithout(ns: seq<SessionNode>, k: nat, m: nat)
      requires k < |ns| && ns[k].start != m
      requires (forall n | n in ns :: m <= n.start) && (m == U64_MAX || exists n :: n in ns && n.start == m)
      ensures var r := RemoveAt(ns, k);
        (forall n | n in r :: m <= n.start) && (m == U64_MAX || exists n :: n in r && n.start == m)
    {
      if n :| n in ns && n.start == m {
        var j :| 0 <= j < |ns| && ns[j] == n;
        assert RemoveAt(ns, k)[if j < k then j else j - 1] == n;
      }
    }

    // The cache holds what a scan of the queue for the least start time gives.
    lemma CacheIsExact()
      requires LeastStart()
      ensures minStart == MinStart(Values(nodes))
    {
      ValuesMembers(nodes);
      MinStartUnique(Values(nodes), minStart);
    }

    // Takes session, the k-th node, out of the calendar.
    method Remove(session: SessionNode, ghost k: nat)
      requires Valid() && k < |nodes| && nodes[k] == session
      modifies this`bins, this`nodes, this`minStart, heads, binBits, groupBits, nodes`next, nodes`prev
      ensures Valid() && nodes == RemoveAt(old(nodes), k)
    {
      hide Structured;
      Detach(session, k);
      if session.start == minStart {
        minStart := RescanMinStart();
      } else {
        LeastStartWithout(old(nodes), k, minStart);
      }
    }

    // ---------- Rebasing ----------

    // Moves down the times of the sessions of bin b.
    method RebaseBin(b: nat, offset: nat)
      requires b < heads.Length && b < |bins| && IsList(bins[b], heads[b], b)
      modifies bins[b]`start, bins[b]`finish
      ensures forall n | n in bins[b] ::
        n.start == Minus(old(n.start), offset) && n.finish == Minus(old(n.finish), offset)
    {
      ghost var l := bins[b];
      var s := heads[b];
      ghost var i := 0;
      while s != null
        invariant 0 <= i <= |l|
        invariant s == (if i < |l| then l[i] else null)
        invariant forall j | 0 <= j < i ::
          l[j].start == Minus(old(l[j].start), offset) && l[j].finish == Minus(old(l[j].finish), offset)
        invariant forall j | i <= j < |l| :: l[j].start == old(l[j].start) && l[j].finish == old(l[j].finish)
        decreases |l| - i
      {
        s.start := Minus(s.start, offset);
        s.finish := Minus(s.finish, offset);
        s := s.next;
        i := i + 1;
      }
    }

    // Moves down the times of all queued sessions, bin by bin.
    method RebaseBins(offset: nat)
      requires Links()
      modifies nodes`start, nodes`finish
      ensures forall n | n in nodes ::
        n.start == Minus(old(n.start), offset) && n.finish == Minus(old(n.finish), offset)
    {
      hide Linked;
      for b := 0 to numBins
        invariant Links()
        invariant forall n | n in nodes && n.binIndex < b ::
          n.start == Minus(old(n.start), offset) && n.finish == Minus(old(n.finish), offset)
        invariant forall n | n in nodes && n.binIndex >= b :: n.start == old(n.start) && n.finish == old(n.finish)
      {
        LinksParts();
        hide Filed, IsList, AllDistinct;
        RebaseBin(b, offset);
      }
      LinksParts();
    }

    // The bins stay sorted because no session finishes before it starts.
    method RebaseSessions(offset: nat)
      requires Structured() && forall n | n in nodes :: n.start <= n.finish
      modifies nodes`start, nodes`finish
      ensures Structured()
      ensures forall n | n in nodes :: n.Value() == ShiftSession(old(n.Value()), offset)
    {
      hide Sorted, Indexed, Linked;
      RebaseBins(offset);
      SortedAfterRebase(offset);
    }

    twostate lemma SortedAfterRebase(offset: nat)
      requires old(Structured()) && Links() && bins == old(bins) && nodes == old(nodes)
      requires forall n | n in nodes :: old(n.start) <= old(n.finish)
      requires forall n | n in nodes :: n.Value() == ShiftSession(old(n.Value()), offset)
      ensures |bins| == numBins && forall b | 0 <= b < numBins :: Sorted(bins[b])
    {
      forall b | 0 <= b < numBins
        ensures Sorted(bins[b])
      {
        var l := bins[b];
        assert old(Sorted(l));
        forall i, j | 0 <= i < j < |l|
          ensures !Less(l[j].Value(), l[i].Value())
        {
          assert l[i] in nodes && l[j] in nodes;
          assert !Less(old(l[j].Value()), old(l[i].Value()));
        }
      }
    }

    // Moves down all times, and the cached least start time with them.
    method Rebase(offset: nat)
      requires Valid() && forall n | n in nodes :: n.start <= n.finish
      requires nodes == [] || minStart != U64_MAX
      modifies this`minStart, nodes`start, nodes`finish
      ensures Valid()
      ensures forall n | n in nodes :: n.Value() == ShiftSession(old(n.Value()), offset)
    {
      hide Structured;
      RebaseSessions(offset);
      if minStart != U64_MAX {
        minStart := Minus(minStart, offset);
      }
      assert old(minStart) != U64_MAX ==> exists n :: n in nodes && old(n.start) == old(minStart);
    }
  }
}
