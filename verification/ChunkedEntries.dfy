/**
 The entry storage of a tenant or of the system: chunks of slots that are never moved, and the
 free slots threaded through the id field of their entries. It refines the pool of ids.
 */
module ChunkedEntries {
  import opened Machine
  import opened Bits
  import opened Pools
  import opened GroupSchedulers

  const CHUNK_SHIFT: nat := 10
  const CHUNK_MASK: nat := CHUNK_SIZE - 1
  const ENTRY_NONE: nat := 0xFFFF_FFFF

  // ---------- Ids ----------

  function Encode(chunk: nat, slot: nat): nat {
    Or(Wrap32(chunk * Pow2(CHUNK_SHIFT)), slot)
  }

  function DecodeChunk(id: nat): nat {
    id / Pow2(CHUNK_SHIFT)
  }

  function DecodeSlot(id: nat): nat {
    And(id, CHUNK_MASK)
  }

  lemma ChunkPower()
    ensures Pow2(CHUNK_SHIFT) == CHUNK_SIZE
  {
    assert Pow2(5) == 32;
  }

  lemma DecodeMeans(id: nat)
    ensures DecodeChunk(id) == id / CHUNK_SIZE && DecodeSlot(id) == id % CHUNK_SIZE
  {
    ChunkPower();
    AndIsRemainder(id, CHUNK_SHIFT);
  }

  lemma EncodeMeans(chunk: nat, slot: nat)
    requires chunk < 0x40_0000 && slot < CHUNK_SIZE
    ensures Encode(chunk, slot) == chunk * CHUNK_SIZE + slot
  {
    ChunkPower();
    OrIsSum(chunk, slot, CHUNK_SHIFT);
  }

  // Encoding and decoding undo each other: on every chunk index whose ids fit 32 bits, and on
  // every id of 32 bits.
  lemma DecodeEncode(chunk: nat, slot: nat)
    requires chunk < 0x40_0000 && slot < CHUNK_SIZE
    ensures DecodeChunk(Encode(chunk, slot)) == chunk && DecodeSlot(Encode(chunk, slot)) == slot
    ensures Encode(chunk, slot) < 0x1_0000_0000
  {
    EncodeMeans(chunk, slot);
    DecodeMeans(Encode(chunk, slot));
  }

  lemma EncodeDecode(id: nat)
    requires id < 0x1_0000_0000
    ensures Encode(DecodeChunk(id), DecodeSlot(id)) == id
  {
    DecodeMeans(id);
    EncodeMeans(id / CHUNK_SIZE, id % CHUNK_SIZE);
  }

  // ---------- Storage ----------

  // The id after the first i of the free list.
  function Link(free: seq<nat>, i: nat): nat {
    if i < |free| then free[i] else ENTRY_NONE
  }

  class Entries {
    const maxEntries: nat
    // A chunk that has not been allocated is the empty sequence.
    var chunks: seq<seq<EntryConfig>>
    var numAllocated: nat
    var numConfigured: nat
    var freeHead: nat
    ghost var free: seq<nat>

    constructor (maxEntries: nat)
      ensures Valid() && View() == Fresh(maxEntries) && Slots() == {}
    {
      this.maxEntries := maxEntries;
      chunks, numAllocated, numConfigured, freeHead := [], 0, 0, ENTRY_NONE;
      free := [];
    }

    ghost function View(): Pool
      reads `numAllocated, `numConfigured, `free
    {
      Pool(maxEntries, numAllocated, numConfigured, free)
    }

    predicate Stored(id: nat)
      reads `chunks
    {
      id / CHUNK_SIZE < |chunks| && id % CHUNK_SIZE < |chunks[id / CHUNK_SIZE]|
    }

    function Slot(id: nat): EntryConfig
      requires Stored(id)
      reads `chunks
    {
      chunks[id / CHUNK_SIZE][id % CHUNK_SIZE]
    }

    // Every slot there is.
    ghost function Slots(): set<EntryConfig>
      reads `chunks
    {
      set c, k | 0 <= c < |chunks| && 0 <= k < |chunks[c]| :: chunks[c][k]
    }

    lemma SlotIsOne(id: nat)
      requires Stored(id)
      ensures Slot(id) in Slots()
    {
    }

    lemma SlotsDiffer()
      requires Valid()
      ensures Chunked()
      ensures forall a: nat | Stored(a) :: Slot(a) in Slots()
      ensures forall a: nat, b: nat | Stored(a) && Stored(b) && a != b :: Slot(a) != Slot(b)
    {
    }

    ghost predicate Chunked()
      reads `chunks
    {
      && |chunks| <= MAX_CHUNKS
      && (forall c | 0 <= c < |chunks| :: |chunks[c]| == 0 || |chunks[c]| == CHUNK_SIZE)
      && forall a: nat, b: nat | Stored(a) && Stored(b) && a != b :: Slot(a) != Slot(b)
    }

    // The free list runs through the id fields of the free slots.
    ghost predicate Threaded()
      reads `chunks, `free, `freeHead, Slots()`entryId
    {
      && freeHead == Link(free, 0)
      && forall i | 0 <= i < |free| :: Stored(free[i]) && Slot(free[i]).entryId == Link(free, i + 1)
    }

    ghost predicate Valid()
      reads `chunks, `free, `freeHead, `numAllocated, `numConfigured, Slots()`entryId
    {
      && Chunked() && Threaded() && Good(View())
      && forall id: nat | id < numAllocated :: Stored(id)
    }

    // Changes to slots that are not free do not matter.
    twostate lemma LiveDoNotMatter()
      requires old(Valid()) && unchanged(this)
      requires forall k | 0 <= k < |free| :: Stored(free[k]) && Slot(free[k]).entryId == old(Slot(free[k]).entryId)
      ensures Valid() && View() == old(View())
    {
    }

    // The slot of an id; null when its chunk does not exist.
    method Get(id: nat) returns (entry: EntryConfig?)
      requires Chunked()
      ensures entry == if Stored(id) then Slot(id) else null
    {
      DecodeMeans(id);
      var chunk, slot := DecodeChunk(id), DecodeSlot(id);
      if chunk >= |chunks| || chunks[chunk] == [] {
        entry := null;
      } else {
        entry := chunks[chunk][slot];
      }
    }

    // A chunk of new slots.
    method NewChunk() returns (chunk: seq<EntryConfig>)
      ensures |chunk| == CHUNK_SIZE
      ensures forall i | 0 <= i < |chunk| :: fresh(chunk[i])
      ensures forall i, j | 0 <= i < j < |chunk| :: chunk[i] != chunk[j]
    {
      chunk := [];
      while |chunk| < CHUNK_SIZE
        invariant |chunk| <= CHUNK_SIZE
        invariant forall i | 0 <= i < |chunk| :: fresh(chunk[i])
        invariant forall i, j | 0 <= i < j < |chunk| :: chunk[i] != chunk[j]
      {
        var entry := new EntryConfig();
        chunk := chunk + [entry];
      }
    }

    // Makes room in the directory for chunk c: its size doubles.
    method GrowDirectory(c: nat)
      requires |chunks| <= c < MAX_CHUNKS
      modifies `chunks
      ensures c < |chunks| <= MAX_CHUNKS && old(chunks) <= chunks
      ensures forall k | |old(chunks)| <= k < |chunks| :: chunks[k] == []
    {
      var size := 1;
      while size < c + 1
        invariant size <= 2 * MAX_CHUNKS
      {
        size := size * 2;
      }
      if size > MAX_CHUNKS {
        size := MAX_CHUNKS;
      }
      chunks := chunks + seq(size - |chunks|, i => []);
    }

    // Makes sure chunk c exists.
    method AllocateChunk(c: nat) returns (status: Status)
      requires Chunked()
      modifies `chunks
      ensures Chunked()
      ensures status == if c < MAX_CHUNKS then Success else NoMemory
      ensures status == Success ==> c < |chunks| && |chunks[c]| == CHUNK_SIZE
      ensures forall id: nat | old(Stored(id)) :: Stored(id) && Slot(id) == old(Slot(id))
      ensures forall id: nat | Stored(id) && !old(Stored(id)) :: id / CHUNK_SIZE == c && fresh(Slot(id))
      ensures forall e | e in Slots() :: e in old(Slots()) || fresh(e)
    {
      status := NoMemory;
      if c < MAX_CHUNKS {
        if c >= |chunks| {
          GrowDirectory(c);
        }
        if chunks[c] == [] {
          var chunk := NewChunk();
          chunks := chunks[c := chunk];
          assert forall id: nat | Stored(id) && !old(Stored(id)) :: fresh(Slot(id));
        }
        status := Success;
      }
    }

    // Takes the first slot off the free list.
    method PopHead() returns (id: nat)
      requires Chunked() && Threaded() && free != [] && forall i | 0 < i < |free| :: free[i] != free[0]
      modifies `freeHead, `free, Slots()`entryId, Slots()`configured
      ensures Threaded() && free == old(free[1..]) && id == old(free[0])
      ensures Stored(id) && Slot(id).entryId == id && !Slot(id).configured
      ensures forall e | e in Slots() && e != Slot(id) :: unchanged(e)
    {
      id := freeHead;
      var entry := Get(id);
      SlotIsOne(id);
      freeHead := entry.entryId;
      entry.entryId := id;
      entry.configured := false;
      free := free[1..];
    }

    lemma PoppedIsGood(p: Pool)
      requires Good(p) && p.free != [] && p.configured < Limit(p)
      ensures Good(p.(free := p.free[1..], configured := p.configured + 1))
      ensures forall i | 0 < i < |p.free| :: p.free[i] != p.free[0]
    {
      AllocGivesFresh(p);
    }

    // Reuses a freed id.
    method Reuse() returns (id: nat)
      requires Valid() && free != [] && numConfigured < Limit(View())
      modifies `freeHead, `free, `numConfigured, Slots()`entryId, Slots()`configured
      ensures Valid() && chunks == old(chunks)
      ensures id == old(free[0]) && View() == old(View()).(free := old(free[1..]), configured := old(numConfigured) + 1)
      ensures Stored(id) && Slot(id).entryId == id && !Slot(id).configured
      ensures forall e | e in Slots() && e != Slot(id) :: unchanged(e)
    {
      hide Threaded, Good;
      PoppedIsGood(View());
      id := PopHead();
      numConfigured := numConfigured + 1;
    }

    // Issues an id that has never been issued.
    method Extend() returns (status: Status, id: nat)
      requires Valid() && free == [] && numConfigured < Limit(View())
      modifies `chunks, `numAllocated, `numConfigured, Slots()
      ensures Valid()
      ensures (View(), if status == Success then Some(id) else None) == Pools.Alloc(old(View()))
      ensures status == Success || status == NoMemory
      ensures forall k: nat | old(Stored(k)) :: Stored(k) && Slot(k) == old(Slot(k))
      ensures forall e | e in Slots() :: e in old(Slots()) || fresh(e)
      ensures status == Success ==> Stored(id) && Slot(id).entryId == id && !Slot(id).configured
      ensures forall e | e in old(Slots()) && (status == Success ==> e != Slot(id)) :: unchanged(e)
    {
      id := 0;
      DecodeMeans(numAllocated);
      var chunk, slot := DecodeChunk(numAllocated), DecodeSlot(numAllocated);
      status := AllocateChunk(chunk);
      if status == Success {
        EncodeMeans(chunk, slot);
        id := Encode(chunk, slot);
        SlotIsOne(id);
        var entry := chunks[chunk][slot];
        entry.Clear();
        entry.entryId := id;
        numAllocated := numAllocated + 1;
        numConfigured := numConfigured + 1;
      }
    }

    lemma HeadMeans()
      requires Valid()
      ensures freeHead == ENTRY_NONE <==> free == []
    {
    }

    // Hands out an id.
    method Alloc() returns (status: Status, id: nat)
      requires Valid()
      modifies this, Slots()
      ensures Valid()
      ensures (View(), if status == Success then Some(id) else None) == Pools.Alloc(old(View()))
      ensures status == Success || status == NoMemory
      ensures forall k: nat | old(Stored(k)) :: Stored(k) && Slot(k) == old(Slot(k))
      ensures forall e | e in Slots() :: e in old(Slots()) || fresh(e)
      ensures status == Success ==> Stored(id) && Slot(id).entryId == id && !Slot(id).configured
      ensures forall e | e in old(Slots()) && (status == Success ==> e != Slot(id)) :: unchanged(e)
    {
      hide Valid, Stored, Slot;
      HeadMeans();
      var limit := if maxEntries > 0 then maxEntries else MAX_CHUNKS * CHUNK_SIZE;
      status, id := NoMemory, 0;
      if numConfigured < limit {
        if freeHead != ENTRY_NONE {
          id := Reuse();
          status := Success;
          assert Slots() == old(Slots());
        } else {
          status, id := Extend();
        }
      }
    }

    // Puts a slot first in the free list.
    method PushHead(id: nat)
      requires Chunked() && Threaded() && Stored(id) && id !in free
      modifies `freeHead, `free, Slots()`entryId, Slots()`configured
      ensures Threaded() && free == [id] + old(free) && !Slot(id).configured
      ensures forall e | e in Slots() && e != Slot(id) :: unchanged(e)
    {
      SlotIsOne(id);
      var entry := Get(id);
      entry.configured := false;
      entry.entryId := freeHead;
      freeHead := id;
      free := [id] + free;
    }

    // Takes an id back.
    method Free(id: nat)
      requires Valid() && id in Live(View())
      modifies `freeHead, `free, `numConfigured, Slots()`entryId, Slots()`configured
      ensures Valid() && chunks == old(chunks)
      ensures View() == Release(old(View()), id) && Stored(id) && !Slot(id).configured
      ensures forall e | e in Slots() && e != Slot(id) :: unchanged(e)
    {
      hide Threaded, Good;
      ReleaseTakesBack(View(), id);
      PushHead(id);
      if numConfigured > 0 {
        numConfigured := numConfigured - 1;
      }
    }

    method HasCapacity() returns (r: bool)
      requires Valid()
      ensures r == Pools.HasCapacity(View())
    {
      if freeHead != ENTRY_NONE {
        r := true;
      } else {
        r := numAllocated < if maxEntries > 0 then maxEntries else MAX_CHUNKS * CHUNK_SIZE;
      }
    }
  }
}
