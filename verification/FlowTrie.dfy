/**
 The hierarchical bitmap that hands out flow ids: a leaf bit per id, and three summary levels in
 which a bit says that the word below it still has something free.
 */
module FlowTries {
  import opened Machine
  import opened Bits

  // The single word of level 2 reaches this many ids.
  const COVERED: nat := 64 * 64 * 64 * 64

  // ---------- Summaries ----------

  // Which leaf words have a free id, and which words of a summary have a bit set.
  function LeafVacancy(leaf: seq<nat>): (r: seq<bool>)
    ensures |r| == |leaf| && forall i | 0 <= i < |r| :: r[i] == (leaf[i] != FULL)
  {
    seq(|leaf|, i requires 0 <= i < |leaf| => leaf[i] != FULL)
  }

  function WordVacancy(words: seq<nat>): (r: seq<bool>)
    ensures |r| == |words| && forall i | 0 <= i < |r| :: r[i] == (words[i] != 0)
  {
    seq(|words|, i requires 0 <= i < |words| => words[i] != 0)
  }

  // A bit of the upper level is set exactly when the word it stands for is vacant. Bits that
  // stand for no word are clear.
  ghost predicate Summary(upper: seq<nat>, vacant: seq<bool>) {
    forall i: nat | i < 64 * |upper| :: BitAt(upper, i) <==> i < |vacant| && vacant[i]
  }

  lemma SummaryClear(upper: seq<nat>, vacant: seq<bool>, i: nat)
    requires Words(upper) && Summary(upper, vacant) && i < 64 * |upper| && i < |vacant|
    ensures Summary(ClearBitAt(upper, i), vacant[i := false])
  {
    ClearBitAtEffect(upper, i);
  }

  lemma SummarySet(upper: seq<nat>, vacant: seq<bool>, i: nat)
    requires Words(upper) && Summary(upper, vacant) && i < 64 * |upper| && i < |vacant|
    ensures Summary(SetBitAt(upper, i), vacant[i := true])
  {
    SetBitAtEffect(upper, i);
  }

  function BitsToWords(bits: nat): nat {
    (bits + 63) / 64
  }

  // ---------- The levels as values ----------

  datatype Levels = Levels(leaf: seq<nat>, level0: seq<nat>, level1: seq<nat>, level2: nat)

  ghost predicate Shaped(t: Levels, maxFlows: nat) {
    && 0 < maxFlows
    && |t.leaf| == BitsToWords(maxFlows) && |t.level0| == BitsToWords(|t.leaf|) && |t.level1| == BitsToWords(|t.level0|)
    && Words(t.leaf) && Words(t.level0) && Words(t.level1) && t.level2 < WORD64
  }

  ghost predicate Summarised(t: Levels) {
    && Summary(t.level0, LeafVacancy(t.leaf))
    && Summary(t.level1, WordVacancy(t.level0))
    && Summary([t.level2], WordVacancy(t.level1))
  }

  // Padding after the last id is never free, and ids out of reach of level 2 never become taken.
  ghost predicate Bounded(leaf: seq<nat>, maxFlows: nat) {
    && (forall i: nat | maxFlows <= i < 64 * |leaf| :: BitAt(leaf, i))
    && (forall i: nat | COVERED <= i < maxFlows && i < 64 * |leaf| :: !BitAt(leaf, i))
  }

  ghost predicate Sound(t: Levels, maxFlows: nat) {
    Shaped(t, maxFlows) && Summarised(t) && Bounded(t.leaf, maxFlows)
  }

  ghost function Taken(leaf: seq<nat>, maxFlows: nat): set<nat>
    requires maxFlows <= 64 * |leaf|
  {
    set i: nat | i < maxFlows && BitAt(leaf, i)
  }

  // ---------- Searching ----------

  // The lowest set bit of a summary word names the first vacant word below it.
  lemma DescendOne(upper: seq<nat>, vacant: seq<bool>, w: nat)
    requires Words(upper) && Summary(upper, vacant) && w < |upper| && upper[w] != 0
    ensures var i := w * 64 + Lowest(upper[w]);
      && i < |vacant| && vacant[i] && i / 64 == w
      && forall j | w * 64 <= j < i && j < |vacant| :: !vacant[j]
  {
    WordZero(upper, w);
    var i := 64 * w + Lowest(upper[w]);
    forall j | w * 64 <= j < i && j < |vacant|
      ensures !vacant[j]
    {
      assert !BitAt(upper, j);
    }
  }

  lemma AscendOne(upper: seq<nat>, vacant: seq<bool>, i: nat)
    requires Summary(upper, vacant) && i < |vacant| && vacant[i] && i < 64 * |upper|
    ensures upper[i / 64] != 0
  {
    WordZero(upper, i / 64);
  }

  // Following the lowest set bit down the levels.
  function Level1Word(t: Levels): nat
    requires t.level2 != 0
  {
    Lowest(t.level2)
  }

  function Level0Word(t: Levels): nat
    requires t.level2 != 0 && Level1Word(t) < |t.level1| && t.level1[Level1Word(t)] != 0
  {
    Level1Word(t) * 64 + Lowest(t.level1[Level1Word(t)])
  }

  function LeafWord(t: Levels): nat
    requires t.level2 != 0 && Level1Word(t) < |t.level1| && t.level1[Level1Word(t)] != 0
    requires Level0Word(t) < |t.level0| && t.level0[Level0Word(t)] != 0
  {
    Level0Word(t) * 64 + Lowest(t.level0[Level0Word(t)])
  }

  // The descent never meets an inconsistent word.
  ghost predicate Descends(t: Levels) {
    && t.level2 != 0
    && Level1Word(t) < 64 && Level1Word(t) < |t.level1| && t.level1[Level1Word(t)] != 0
    && Level0Word(t) < |t.level0| && t.level0[Level0Word(t)] != 0 && Level0Word(t) / 64 == Level1Word(t)
    && LeafWord(t) < |t.leaf| && t.leaf[LeafWord(t)] < FULL && LeafWord(t) / 64 == Level0Word(t)
  }

  lemma DescendToWord(upper: seq<nat>, words: seq<nat>, w: nat)
    requires Words(upper) && Summary(upper, WordVacancy(words)) && w < |upper| && upper[w] != 0
    ensures var i := w * 64 + Lowest(upper[w]);
      i < |words| && words[i] != 0 && i / 64 == w
  {
    DescendOne(upper, WordVacancy(words), w);
  }

  lemma DescendToLeaf(upper: seq<nat>, leaf: seq<nat>, w: nat)
    requires Words(upper) && Words(leaf) && Summary(upper, LeafVacancy(leaf)) && w < |upper| && upper[w] != 0
    ensures var i := w * 64 + Lowest(upper[w]);
      i < |leaf| && leaf[i] < FULL && i / 64 == w
  {
    DescendOne(upper, LeafVacancy(leaf), w);
  }

  lemma SoundParts(t: Levels, maxFlows: nat)
    requires Sound(t, maxFlows)
    ensures Words(t.leaf) && Words(t.level0) && Words(t.level1) && Words([t.level2])
    ensures Summary(t.level0, LeafVacancy(t.leaf)) && Summary(t.level1, WordVacancy(t.level0))
    ensures Summary([t.level2], WordVacancy(t.level1))
  {
  }

  lemma DescentIsSafe(t: Levels, maxFlows: nat)
    requires Sound(t, maxFlows) && t.level2 != 0
    ensures Descends(t)
  {
    hide Sound, Summary, Words, Lowest, WordVacancy, LeafVacancy;
    SoundParts(t, maxFlows);
    DescendToWord([t.level2], t.level1, 0);
    DescendToWord(t.level1, t.level0, Level1Word(t));
    DescendToLeaf(t.level0, t.leaf, Level0Word(t));
  }

  // No leaf word before the one it ends at is vacant.
  lemma DescentIsFirst(t: Levels, maxFlows: nat, w: nat)
    requires Sound(t, maxFlows) && Descends(t)
    requires w < |t.leaf| && t.leaf[w] != FULL && w < 262144
    ensures LeafWord(t) <= w
  {
    AscendOne(t.level0, LeafVacancy(t.leaf), w);
    AscendOne(t.level1, WordVacancy(t.level0), w / 64);
    var w0, w1 := w / 64, w / 64 / 64;
    assert t.level0[w0] != 0 && t.level1[w1] != 0 && w1 < 64;
    DescendOne([t.level2], WordVacancy(t.level1), 0);
    assert Level1Word(t) <= w1;
    DescendOne(t.level1, WordVacancy(t.level0), Level1Word(t));
    assert Level0Word(t) <= w0;
    DescendOne(t.level0, LeafVacancy(t.leaf), Level0Word(t));
  }

  // It ends at the least free id.
  lemma DescentIsLeast(t: Levels, maxFlows: nat)
    requires Sound(t, maxFlows) && Descends(t)
    ensures var id := LeafWord(t) * 64 + FirstZero(t.leaf[LeafWord(t)]);
      && id / 64 == LeafWord(t) && id < maxFlows && id < COVERED && !BitAt(t.leaf, id)
      && forall f: nat | f < id :: f in Taken(t.leaf, maxFlows)
  {
    hide Summarised, FirstZero, Bit;
    var w := LeafWord(t);
    WordFull(t.leaf, w);
    var id := w * 64 + FirstZero(t.leaf[w]);
    assert !BitAt(t.leaf, id);
    assert w / 64 / 64 < 64;
    forall f: nat | f < id
      ensures f < 64 * |t.leaf| && BitAt(t.leaf, f)
    {
      WordFull(t.leaf, f / 64);
      if t.leaf[f / 64] != FULL {
        DescentIsFirst(t, maxFlows, f / 64);
      }
    }
  }

  // With level 2 empty every id within reach is taken.
  lemma EmptyMeansTaken(t: Levels, maxFlows: nat, f: nat)
    requires Sound(t, maxFlows) && t.level2 == 0 && f < maxFlows && f < COVERED
    ensures f in Taken(t.leaf, maxFlows)
  {
    WordFull(t.leaf, f / 64);
    if t.leaf[f / 64] != FULL {
      AscendOne(t.level0, LeafVacancy(t.leaf), f / 64);
      AscendOne(t.level1, WordVacancy(t.level0), f / 64 / 64);
      AscendOne([t.level2], WordVacancy(t.level1), f / 64 / 64 / 64);
      assert false;
    }
  }

  // ---------- Taking and releasing an id ----------

  // An id within reach, with a word at every level.
  ghost predicate InReach(t: Levels, id: nat) {
    && id < 64 * |t.leaf| && id < COVERED
    && id / 64 < 64 * |t.level0| && id / 64 / 64 < 64 * |t.level1| && id / 64 / 64 / 64 < 64
  }

  // Setting the leaf bit of an id; the bit above a word goes when the word has nothing left.
  ghost function AfterTake(t: Levels, id: nat): Levels
    requires InReach(t, id)
  {
    var w := id / 64;
    var leaf := SetBitAt(t.leaf, id);
    var level0 := if leaf[w] == FULL then ClearBitAt(t.level0, w) else t.level0;
    var level1 := if leaf[w] == FULL && level0[w / 64] == 0 then ClearBitAt(t.level1, w / 64) else t.level1;
    var level2 :=
      if leaf[w] == FULL && level0[w / 64] == 0 && level1[w / 64 / 64] == 0 then ClearBit(t.level2, w / 64 / 64, 64)
      else t.level2;
    Levels(leaf, level0, level1, level2)
  }

  // Clearing it; a word that was full, or had no bit set, becomes vacant in the level above.
  ghost function AfterRelease(t: Levels, id: nat): Levels
    requires InReach(t, id)
  {
    var w := id / 64;
    var leaf := ClearBitAt(t.leaf, id);
    var level0 := if t.leaf[w] == FULL then SetBitAt(t.level0, w) else t.level0;
    var alone0 := t.leaf[w] == FULL && level0[w / 64] == Pow2(w % 64);
    var level1 := if alone0 then SetBitAt(t.level1, w / 64) else t.level1;
    var alone1 := alone0 && level1[w / 64 / 64] == Pow2(w / 64 % 64);
    var level2 := if alone1 then SetBit(t.level2, w / 64 / 64) else t.level2;
    Levels(leaf, level0, level1, level2)
  }

  lemma SoundReach(t: Levels, maxFlows: nat, id: nat)
    requires Sound(t, maxFlows) && id < maxFlows && id < COVERED
    ensures InReach(t, id)
  {
  }

  lemma ReachOfTaken(t: Levels, maxFlows: nat, id: nat)
    requires Sound(t, maxFlows) && id < maxFlows && BitAt(t.leaf, id)
    ensures id < COVERED
  {
  }

  // Ids beyond the reach of level 2 are never handed out: with more ids than it covers, level 2 runs
  // empty while ids are still free. With at most 2^24 ids this cannot happen.
  lemma EmptyButNotFull(t: Levels, maxFlows: nat)
    requires Sound(t, maxFlows) && t.level2 == 0
    ensures (forall f: nat | f < maxFlows :: f in Taken(t.leaf, maxFlows)) <==> maxFlows <= COVERED
  {
    if maxFlows <= COVERED {
      forall f: nat | f < maxFlows
        ensures f in Taken(t.leaf, maxFlows)
      {
        EmptyMeansTaken(t, maxFlows, f);
      }
    } else {
      assert COVERED !in Taken(t.leaf, maxFlows);
    }
  }

  // One level of taking: a bit of the upper level is cleared when the word below lost its vacancy.
  lemma ClearOne(upper: seq<nat>, before: seq<bool>, after: seq<bool>, i: nat)
    requires Words(upper) && Summary(upper, before) && i < 64 * |upper| && i < |before|
    requires |after| == |before| && after == before[i := after[i]] && (after[i] ==> before[i])
    ensures Summary(if after[i] then upper else ClearBitAt(upper, i), after)
  {
    if !after[i] {
      SummaryClear(upper, before, i);
    }
  }

  lemma TakeSummaries(t: Levels, maxFlows: nat, id: nat)
    requires Sound(t, maxFlows) && id < maxFlows && InReach(t, id) && !BitAt(t.leaf, id)
    ensures Shaped(AfterTake(t, id), maxFlows) && Summarised(AfterTake(t, id))
  {
    var w := id / 64;
    var t' := AfterTake(t, id);
    SetBitAtEffect(t.leaf, id);
    WordFull(t.leaf, w);
    ClearBitAtEffect(t.level0, w);
    ClearBitAtEffect(t.level1, w / 64);
    ClearBitAtEffect([t.level2], w / 64 / 64);
    assert ClearBitAt([t.level2], w / 64 / 64) == [ClearBit(t.level2, w / 64 / 64, 64)];
    assert Words([t.level2]);
    hide BitAt, Summary, Bit, Words;
    ClearOne(t.level0, LeafVacancy(t.leaf), LeafVacancy(t'.leaf), w);
    if t'.leaf[w] == FULL {
      ClearOne(t.level1, WordVacancy(t.level0), WordVacancy(t'.level0), w / 64);
      if t'.level0[w / 64] == 0 {
        ClearOne([t.level2], WordVacancy(t.level1), WordVacancy(t'.level1), w / 64 / 64);
      }
    }
  }

  // One level of releasing: a bit of the upper level is set when the word below became vacant.
  lemma SetOne(upper: seq<nat>, before: seq<bool>, after: seq<bool>, i: nat)
    requires Words(upper) && Summary(upper, before) && i < 64 * |upper| && i < |before|
    requires after == before[i := true]
    ensures Summary(if before[i] then upper else SetBitAt(upper, i), after)
    ensures BitAt(upper, i) == before[i]
  {
    if before[i] {
      assert before == after;
    } else {
      SummarySet(upper, before, i);
    }
  }

  // The test by which the program finds that the bit it set is the only one of its word.
  lemma OnlyBit(word: nat, k: nat)
    requires !Bit(word, k)
    ensures SetBit(word, k) == Pow2(k) <==> word == 0
  {
    if word == 0 {
      OrZero(Pow2(k));
    } else {
      var j := Lowest(word);
      BitOr(word, Pow2(k), j);
      BitPow2(k, j);
    }
  }

  lemma ReleaseShapes(t: Levels, maxFlows: nat, id: nat)
    requires Sound(t, maxFlows) && id < maxFlows && InReach(t, id) && BitAt(t.leaf, id)
    ensures Shaped(AfterRelease(t, id), maxFlows)
  {
    var w := id / 64;
    ClearBitAtEffect(t.leaf, id);
    SetBitAtEffect(t.level0, w);
    SetBitAtEffect(t.level1, w / 64);
    SetBitAtEffect([t.level2], w / 64 / 64);
    assert SetBitAt([t.level2], w / 64 / 64) == [SetBit(t.level2, w / 64 / 64)];
    assert Words([t.level2]);
  }

  // The leaf word of a released id is vacant, and nothing else of the leaf changes.
  lemma ReleaseLeaf(t: Levels, maxFlows: nat, id: nat)
    requires Sound(t, maxFlows) && id < maxFlows && InReach(t, id) && BitAt(t.leaf, id)
    ensures var leaf, w := ClearBitAt(t.leaf, id), id / 64;
      |leaf| == |t.leaf| && leaf == t.leaf[w := leaf[w]] && leaf[w] != FULL
  {
    var w := id / 64;
    var leaf := ClearBitAt(t.leaf, id);
    ClearBitAtEffect(t.leaf, id);
    WordFull(leaf, w);
    assert !BitAt(leaf, id);
  }

  lemma ReleaseSummaries(t: Levels, maxFlows: nat, id: nat)
    requires Sound(t, maxFlows) && id < maxFlows && InReach(t, id) && BitAt(t.leaf, id)
    ensures Shaped(AfterRelease(t, id), maxFlows) && Summarised(AfterRelease(t, id))
  {
    hide Summary, Bit, Words, Bounded;
    var w := id / 64;
    var t' := AfterRelease(t, id);
    ReleaseShapes(t, maxFlows, id);
    ReleaseLeaf(t, maxFlows, id);
    SoundParts(t, maxFlows);
    ReleaseVacancy(t, maxFlows, id);
    assert SetBitAt([t.level2], w / 64 / 64) == [SetBit(t.level2, w / 64 / 64)];
    SetOne(t.level0, LeafVacancy(t.leaf), LeafVacancy(t'.leaf), w);
    if t.leaf[w] == FULL {
      OnlyBit(t.level0[w / 64], w % 64);
      SetOne(t.level1, WordVacancy(t.level0), WordVacancy(t'.level0), w / 64);
      if t.level0[w / 64] == 0 {
        OnlyBit(t.level1[w / 64 / 64], w / 64 % 64);
        SetOne([t.level2], WordVacancy(t.level1), WordVacancy(t'.level1), w / 64 / 64);
      }
    }
  }

  // Words with a bit just set are vacant.
  lemma ReleaseVacancy(t: Levels, maxFlows: nat, id: nat)
    requires Sound(t, maxFlows) && id < maxFlows && InReach(t, id)
    ensures var w := id / 64;
      SetBitAt(t.level0, w)[w / 64] != 0 && SetBitAt(t.level1, w / 64)[w / 64 / 64] != 0
  {
    var w := id / 64;
    SetBitAtEffect(t.level0, w);
    SetBitAtEffect(t.level1, w / 64);
    assert BitAt(SetBitAt(t.level0, w), w) && BitAt(SetBitAt(t.level1, w / 64), w / 64);
    WordZero(SetBitAt(t.level0, w), w / 64);
    WordZero(SetBitAt(t.level1, w / 64), w / 64 / 64);
  }

  // Both operations do to the set of taken ids what they should.
  lemma TakeTaken(t: Levels, maxFlows: nat, id: nat)
    requires Sound(t, maxFlows) && id < maxFlows && InReach(t, id) && !BitAt(t.leaf, id)
    ensures Sound(AfterTake(t, id), maxFlows)
    ensures Taken(AfterTake(t, id).leaf, maxFlows) == Taken(t.leaf, maxFlows) + {id}
    ensures id !in Taken(t.leaf, maxFlows)
  {
    TakeSummaries(t, maxFlows, id);
    SetBitAtEffect(t.leaf, id);
    hide Summarised;
  }

  lemma ReleaseTaken(t: Levels, maxFlows: nat, id: nat)
    requires Sound(t, maxFlows) && id < maxFlows && InReach(t, id) && BitAt(t.leaf, id)
    ensures Sound(AfterRelease(t, id), maxFlows)
    ensures Taken(AfterRelease(t, id).leaf, maxFlows) == Taken(t.leaf, maxFlows) - {id}
    ensures id in Taken(t.leaf, maxFlows)
  {
    ReleaseSummaries(t, maxFlows, id);
    ClearBitAtEffect(t.leaf, id);
    hide Summarised;
  }

  // ---------- The initial state ----------

  // Words for the given number of bits, all clear but for the padding of the last word.
  function EmptyWords(bits: nat): (r: seq<nat>)
    requires bits > 0
    ensures |r| == BitsToWords(bits)
  {
    var n := BitsToWords(bits);
    var zeros := seq(n, i => 0);
    if bits % 64 == 0 then zeros
    else zeros[n - 1 := Or(zeros[n - 1], PaddingMask(bits % 64))]
  }

  // All set but for the padding.
  function FullWords(bits: nat): (r: seq<nat>)
    requires bits > 0
    ensures |r| == BitsToWords(bits)
  {
    var n := BitsToWords(bits);
    var ones := seq(n, i => FULL);
    if bits % 64 == 0 then ones
    else ones[n - 1 := And(ones[n - 1], Pow2(bits % 64) - 1)]
  }

  // ~((1 << used) - 1)
  function PaddingMask(used: nat): nat
    requires used < 64
  {
    Pow2Monotone(used, 64);
    Not(Pow2(used) - 1, 64)
  }

  lemma PaddingMaskBits(used: nat, j: nat)
    requires used < 64 && j < 64
    ensures PaddingMask(used) < WORD64
    ensures Bit(PaddingMask(used), j) <==> j >= used
  {
    Pow2Monotone(used, 64);
    PowersOfWords();
    BitNot(Pow2(used) - 1, 64, j);
    BitMask(used, j);
  }

  // Where bit i falls in words for the given number of bits.
  lemma LastWord(bits: nat, i: nat)
    requires bits > 0 && i < 64 * BitsToWords(bits)
    ensures bits % 64 == 0 || i / 64 < BitsToWords(bits) - 1 ==> i < bits
    ensures bits % 64 != 0 && i / 64 == BitsToWords(bits) - 1 ==> (i < bits <==> i % 64 < bits % 64)
  {
  }

  lemma EmptyWordsBits(bits: nat, i: nat)
    requires bits > 0 && i < 64 * BitsToWords(bits)
    ensures EmptyWords(bits)[i / 64] < WORD64
    ensures BitAt(EmptyWords(bits), i) <==> i >= bits
  {
    LastWord(bits, i);
    BitZero(i % 64);
    hide Bit, Or, PaddingMask, BitsToWords;
    if bits % 64 != 0 {
      PaddingMaskBits(bits % 64, i % 64);
      OrZero(PaddingMask(bits % 64));
    }
  }

  lemma FullWordsBits(bits: nat, i: nat)
    requires bits > 0 && i < 64 * BitsToWords(bits)
    ensures FullWords(bits)[i / 64] < WORD64
    ensures BitAt(FullWords(bits), i) <==> i < bits
  {
    LastWord(bits, i);
    PowersOfWords();
    BitMask(64, i % 64);
    hide Bit, And, BitsToWords;
    if bits % 64 != 0 {
      BitMask(bits % 64, i % 64);
      BitAnd(FULL, Pow2(bits % 64) - 1, i % 64);
      AndBound(FULL, Pow2(bits % 64) - 1);
    }
  }

  function Initial(maxFlows: nat): Levels
    requires maxFlows > 0
  {
    var leafSize := BitsToWords(maxFlows);
    var level0Size := BitsToWords(leafSize);
    var level1Size := BitsToWords(level0Size);
    Levels(EmptyWords(maxFlows), FullWords(leafSize), FullWords(level0Size),
           if level1Size < 64 then And(FULL, Pow2(level1Size) - 1) else FULL)
  }

  lemma EmptyVacancy(bits: nat)
    requires bits > 0
    ensures Words(EmptyWords(bits))
    ensures forall i: nat | i < 64 * BitsToWords(bits) :: BitAt(EmptyWords(bits), i) <==> i >= bits
    ensures forall w | 0 <= w < BitsToWords(bits) :: EmptyWords(bits)[w] != FULL
  {
    forall i: nat | i < 64 * BitsToWords(bits)
      ensures EmptyWords(bits)[i / 64] < WORD64 && (BitAt(EmptyWords(bits), i) <==> i >= bits)
    {
      EmptyWordsBits(bits, i);
    }
    forall w | 0 <= w < BitsToWords(bits)
      ensures EmptyWords(bits)[w] < WORD64 && EmptyWords(bits)[w] != FULL
    {
      assert 64 * w / 64 == w;
      EmptyWordsBits(bits, 64 * w);
      WordFull(EmptyWords(bits), w);
    }
  }

  lemma FullVacancy(bits: nat)
    requires bits > 0
    ensures Words(FullWords(bits))
    ensures forall i: nat | i < 64 * BitsToWords(bits) :: BitAt(FullWords(bits), i) <==> i < bits
    ensures forall w | 0 <= w < BitsToWords(bits) :: FullWords(bits)[w] != 0
  {
    forall i: nat | i < 64 * BitsToWords(bits)
      ensures FullWords(bits)[i / 64] < WORD64 && (BitAt(FullWords(bits), i) <==> i < bits)
    {
      FullWordsBits(bits, i);
    }
    forall w | 0 <= w < BitsToWords(bits)
      ensures FullWords(bits)[w] < WORD64 && FullWords(bits)[w] != 0
    {
      assert 64 * w / 64 == w;
      FullWordsBits(bits, 64 * w);
      WordZero(FullWords(bits), w);
    }
  }

  lemma TopWordBits(n: nat, i: nat)
    requires n > 0 && i < 64
    ensures var top := if n < 64 then And(FULL, Pow2(n) - 1) else FULL;
      top < WORD64 && (BitAt([top], i) <==> i < n)
  {
    PowersOfWords();
    BitMask(64, i);
    if n < 64 {
      BitMask(n, i);
      BitAnd(FULL, Pow2(n) - 1, i);
      AndBound(FULL, Pow2(n) - 1);
    }
  }

  // Initialisation leaves every id free and the summaries in agreement.
  lemma InitialIsSound(maxFlows: nat)
    requires maxFlows > 0
    ensures Sound(Initial(maxFlows), maxFlows) && Taken(Initial(maxFlows).leaf, maxFlows) == {}
    ensures InReach(Initial(maxFlows), 0) && !BitAt(Initial(maxFlows).leaf, 0)
  {
    var leafSize := BitsToWords(maxFlows);
    var level0Size := BitsToWords(leafSize);
    var level1Size := BitsToWords(level0Size);
    var t := Initial(maxFlows);
    EmptyVacancy(maxFlows);
    FullVacancy(leafSize);
    FullVacancy(level0Size);
    forall i: nat | i < 64
      ensures t.level2 < WORD64 && (BitAt([t.level2], i) <==> i < level1Size)
    {
      TopWordBits(level1Size, i);
    }
    TopWordBits(level1Size, 0);
    hide EmptyWords, FullWords;
    assert Summary(t.level0, LeafVacancy(t.leaf));
    assert Summary(t.level1, WordVacancy(t.level0));
    assert Summary([t.level2], WordVacancy(t.level1));
  }

  // Taking the ids one by one takes exactly those below any number within reach.
  lemma {:induction false} TakeUpTo(maxFlows: nat, n: nat) returns (t: Levels)
    requires 0 < maxFlows && n <= maxFlows && n <= COVERED
    ensures Sound(t, maxFlows) && forall i: nat :: i in Taken(t.leaf, maxFlows) <==> i < n
  {
    hide Sound, AfterTake, Initial, InReach, BitAt;
    if n == 0 {
      InitialIsSound(maxFlows);
      t := Initial(maxFlows);
    } else {
      var before := TakeUpTo(maxFlows, n - 1);
      NotTaken(before, maxFlows, n - 1);
      SoundReach(before, maxFlows, n - 1);
      TakeTaken(before, maxFlows, n - 1);
      t := AfterTake(before, n - 1);
    }
  }

  lemma NotTaken(t: Levels, maxFlows: nat, id: nat)
    requires Sound(t, maxFlows) && id < maxFlows && id !in Taken(t.leaf, maxFlows)
    ensures !BitAt(t.leaf, id)
  {
  }

  lemma SomeFree(t: Levels, maxFlows: nat) returns (id: nat)
    requires Sound(t, maxFlows) && t.level2 != 0
    ensures id < COVERED && id !in Taken(t.leaf, maxFlows)
  {
    DescentIsSafe(t, maxFlows);
    DescentIsLeast(t, maxFlows);
    id := LeafWord(t) * 64 + FirstZero(t.leaf[LeafWord(t)]);
  }

  // So with more ids than level 2 covers it does run empty while ids are free: after 2^24 have been
  // taken.
  lemma RunsEmpty(maxFlows: nat)
    requires maxFlows > COVERED
    ensures exists t: Levels :: Sound(t, maxFlows) && t.level2 == 0 && COVERED !in Taken(t.leaf, maxFlows)
  {
    hide Sound;
    var t := TakeUpTo(maxFlows, COVERED);
    if t.level2 != 0 {
      var id := SomeFree(t, maxFlows);
    }
  }

  // ---------- The trie ----------

  // Position of the first set bit counted from 1, and 0 when there is none.
  function FindFirstSet(value: nat): nat {
    if value == 0 then 0 else Lowest(value) + 1
  }

  function FindFirstZero(value: nat): nat
    requires value <= FULL
  {
    if value == FULL then 0 else FirstZero(value) + 1
  }

  method SetBitIn(a: array<nat>, i: nat)
    requires i < 64 * a.Length
    modifies a
    ensures a[..] == SetBitAt(old(a[..]), i)
  {
    a[i / 64] := SetBit(a[i / 64], i % 64);
  }

  method ClearBitIn(a: array<nat>, i: nat)
    requires i < 64 * a.Length
    modifies a
    ensures a[..] == ClearBitAt(old(a[..]), i)
  {
    a[i / 64] := ClearBit(a[i / 64], i % 64, 64);
  }

  class FlowTrie {
    const maxFlows: nat
    const leaf: array<nat>
    const level0: array<nat>
    const level1: array<nat>
    var level2: nat
    var allocatedCount: nat

    ghost function View(): Levels
      reads this, leaf, level0, level1
    {
      Levels(leaf[..], level0[..], level1[..], level2)
    }

    ghost predicate Separate() {
      leaf != level0 && leaf != level1 && level0 != level1
    }

    ghost predicate Valid()
      reads this, leaf, level0, level1
    {
      && Separate()
      && maxFlows <= 64 * leaf.Length
      && Sound(View(), maxFlows)
      && 0 in Taken(leaf[..], maxFlows)
      && allocatedCount == |Taken(leaf[..], maxFlows)|
    }

    // The ids in use; id 0 is reserved and always among them.
    ghost function Ids(): set<nat>
      reads this, leaf
      requires maxFlows <= 64 * leaf.Length
    {
      Taken(leaf[..], maxFlows)
    }

    // A trie for maxFlows ids, all free but the reserved one. The sizes are computed in 32 bits.
    constructor (maxFlows: nat)
      requires 0 < maxFlows && maxFlows + 63 < WORD32
      ensures Valid() && this.maxFlows == maxFlows && Ids() == {0}
      ensures fresh(leaf) && fresh(level0) && fresh(level1)
    {
      var leafSize := BitsToWords(maxFlows);
      var level0Size := BitsToWords(leafSize);
      var level1Size := BitsToWords(level0Size);
      this.maxFlows := maxFlows;
      leaf := new nat[leafSize](i => 0);
      level0 := new nat[level0Size](i => FULL);
      level1 := new nat[level1Size](i => FULL);
      level2 := FULL;
      allocatedCount := 0;
      new;
      hide Sound, Taken, BitAt, InReach, AfterTake, Initial;
      MaskPadding();
      InitialIsSound(maxFlows);
      TakeTaken(View(), maxFlows, 0);
      TakeId(0);
      allocatedCount := 1;
    }

    // Padding of the last leaf word is marked as taken.
    method MaskLeaf()
      requires 0 < maxFlows && leaf.Length == BitsToWords(maxFlows) && (forall i | 0 <= i < leaf.Length :: leaf[i] == 0)
      modifies leaf
      ensures leaf[..] == EmptyWords(maxFlows)
    {
      hide Or, PaddingMask;
      var used := maxFlows % 64;
      if used != 0 {
        leaf[leaf.Length - 1] := Or(leaf[leaf.Length - 1], PaddingMask(used));
      }
    }

    // Padding of the last word of a summary is marked as not vacant.
    method MaskSummary(words: array<nat>, bits: nat)
      requires 0 < bits && words.Length == BitsToWords(bits) && (forall i | 0 <= i < words.Length :: words[i] == FULL)
      modifies words
      ensures words[..] == FullWords(bits)
    {
      hide And, Pow2;
      var used := bits % 64;
      if used != 0 {
        words[words.Length - 1] := And(words[words.Length - 1], Pow2(used) - 1);
      }
    }

    // Marks the padding of every level.
    method MaskPadding()
      requires 0 < maxFlows && Separate() && level2 == FULL
      requires leaf.Length == BitsToWords(maxFlows) && (forall i | 0 <= i < leaf.Length :: leaf[i] == 0)
      requires level0.Length == BitsToWords(leaf.Length) && (forall i | 0 <= i < level0.Length :: level0[i] == FULL)
      requires level1.Length == BitsToWords(level0.Length) && (forall i | 0 <= i < level1.Length :: level1[i] == FULL)
      modifies this`level2, leaf, level0, level1
      ensures View() == Initial(maxFlows)
    {
      hide Or, And, PaddingMask, Pow2, EmptyWords, FullWords;
      MaskLeaf();
      MaskSummary(level0, leaf.Length);
      MaskSummary(level1, level0.Length);
      if level1.Length < 64 {
        level2 := And(level2, Pow2(level1.Length) - 1);
      }
    }

    // Sets the leaf bit of a free id and clears the bits above words that have become full.
    method TakeId(id: nat)
      requires Separate() && Sound(View(), maxFlows) && id < maxFlows && InReach(View(), id)
      requires !BitAt(leaf[..], id)
      modifies this`level2, leaf, level0, level1
      ensures View() == AfterTake(old(View()), id)
    {
      var w := id / 64;
      SetBitIn(leaf, id);
      if leaf[w] == FULL {
        ClearBitIn(level0, w);
        if level0[w / 64] == 0 {
          ClearBitIn(level1, w / 64);
          if level1[w / 64 / 64] == 0 {
            level2 := ClearBit(level2, w / 64 / 64, 64);
          }
        }
      }
    }

    // Clears the leaf bit of an id in use and sets the bits above words that have become vacant.
    method ReleaseId(id: nat)
      requires Separate() && Sound(View(), maxFlows) && id < maxFlows && InReach(View(), id)
      modifies this`level2, leaf, level0, level1
      ensures View() == AfterRelease(old(View()), id)
    {
      var w := id / 64;
      var wasFull := leaf[w] == FULL;
      ClearBitIn(leaf, id);
      if wasFull {
        SetBitIn(level0, w);
        if level0[w / 64] == Pow2(w % 64) {
          SetBitIn(level1, w / 64);
          if level1[w / 64 / 64] == Pow2(w / 64 % 64) {
            level2 := SetBit(level2, w / 64 / 64);
          }
        }
      }
    }

    // Follows the lowest set bit down the levels. The branches for inconsistent summaries are dead.
    method Descend() returns (id: nat)
      requires maxFlows <= 64 * leaf.Length && Sound(View(), maxFlows) && level2 != 0
      ensures id < maxFlows && id < COVERED && !BitAt(leaf[..], id)
      ensures forall f: nat | f < id :: f in Taken(leaf[..], maxFlows)
    {
      hide Sound, Taken, BitAt, Lowest, FirstZero;
      ghost var t := View();
      DescentIsSafe(t, maxFlows);
      DescentIsLeast(t, maxFlows);
      var level1Word := FindFirstSet(level2) - 1;
      assert level1Word == Level1Word(t) && level1[level1Word] == t.level1[level1Word];
      var level1Bit := FindFirstSet(level1[level1Word]);
      if level1Bit == 0 {
        assert false;
      }
      var level0Word := level1Word * 64 + (level1Bit - 1);
      assert level0Word == Level0Word(t) && level0[level0Word] == t.level0[level0Word];
      var level0Bit := FindFirstSet(level0[level0Word]);
      if level0Bit == 0 {
        assert false;
      }
      var leafWord := level0Word * 64 + (level0Bit - 1);
      assert leafWord == LeafWord(t) && leaf[leafWord] == t.leaf[leafWord];
      var leafBit := FindFirstZero(leaf[leafWord]);
      if leafBit == 0 {
        assert false;
      }
      id := leafWord * 64 + (leafBit - 1);
    }

    // Hands out the least free id. It fails exactly when no id within reach of level 2 is free,
    // and then changes nothing.
    method Alloc() returns (status: Status, id: nat)
      requires Valid()
      modifies this, leaf, level0, level1
      ensures Valid()
      ensures status == Success || status == NoMemory
      ensures status == Success ==>
        && id < maxFlows && id !in old(Ids()) && (forall f: nat | f < id :: f in old(Ids()))
        && Ids() == old(Ids()) + {id} && id != 0
      ensures status == NoMemory ==> View() == old(View()) && allocatedCount == old(allocatedCount)
      ensures status == NoMemory <==> forall f: nat | f < maxFlows && f < COVERED :: f in old(Ids())
    {
      hide Sound, AfterTake, BitAt, InReach;
      if level2 == 0 {
        forall f: nat | f < maxFlows && f < COVERED
          ensures f in Ids()
        {
          EmptyMeansTaken(View(), maxFlows, f);
        }
        return NoMemory, 0;
      }
      id := Descend();
      SoundReach(View(), maxFlows, id);
      TakeTaken(View(), maxFlows, id);
      ghost var before := View();
      TakeId(id);
      assert View() == AfterTake(before, id);
      allocatedCount := allocatedCount + 1;
      status := Success;
    }

    // Releases an id that is in use. The reserved id, an id out of range and a free id are left alone.
    method Free(id: nat)
      requires Valid()
      modifies this, leaf, level0, level1
      ensures Valid()
      ensures Ids() == if id == 0 then old(Ids()) else old(Ids()) - {id}
    {
      hide Sound, AfterRelease, BitAt, InReach;
      if id == 0 || id >= maxFlows || !BitAt(leaf[..], id) {
        return;
      }
      hide Taken;
      ReachOfTaken(View(), maxFlows, id);
      SoundReach(View(), maxFlows, id);
      ReleaseTaken(View(), maxFlows, id);
      ghost var before := View();
      ReleaseId(id);
      assert View() == AfterRelease(before, id);
      allocatedCount := allocatedCount - 1;
    }

    method IsAllocated(id: nat) returns (r: bool)
      requires Valid()
      ensures r <==> id in Ids()
    {
      r := id < maxFlows && BitAt(leaf[..], id);
    }
  }
}
