/**
 Machine words as naturals, with the bitwise operators the bitmaps are built from. A word of
 width n is below Pow2(n).
 */
module Bits {

  function Pow2(n: nat): (r: nat)
    ensures r > 0
  {
    if n == 0 then 1 else 2 * Pow2(n - 1)
  }

  const WORD32: nat := 0x1_0000_0000
  const WORD64: nat := 0x1_0000_0000_0000_0000

  predicate Bit(w: nat, k: nat) {
    if k == 0 then w % 2 == 1 else Bit(w / 2, k - 1)
  }

  function Or(a: nat, b: nat): nat {
    if a == 0 && b == 0 then 0
    else 2 * Or(a / 2, b / 2) + if a % 2 == 1 || b % 2 == 1 then 1 else 0
  }

  function And(a: nat, b: nat): nat {
    if a == 0 || b == 0 then 0
    else 2 * And(a / 2, b / 2) + if a % 2 == 1 && b % 2 == 1 then 1 else 0
  }

  // Complement in a word of width n.
  function Not(w: nat, n: nat): nat
    requires w < Pow2(n)
  {
    Pow2(n) - 1 - w
  }

  // Position of the lowest set bit.
  function Lowest(w: nat): (k: nat)
    requires w != 0
    ensures Bit(w, k) && forall j | 0 <= j < k :: !Bit(w, j)
  {
    if w % 2 == 1 then 0
    else
      var k := Lowest(w / 2) + 1;
      assert forall j | 0 < j < k :: Bit(w, j) == Bit(w / 2, j - 1);
      k
  }

  // ---------- Bits of the operators ----------

  lemma {:induction false} BitZero(j: nat)
    ensures !Bit(0, j)
  {
    if j != 0 {
      BitZero(j - 1);
    }
  }

  lemma {:induction false} BitOr(a: nat, b: nat, j: nat)
    ensures Bit(Or(a, b), j) <==> Bit(a, j) || Bit(b, j)
  {
    if a == 0 && b == 0 {
      BitZero(j);
    } else {
      assert Or(a, b) / 2 == Or(a / 2, b / 2);
      if j != 0 {
        BitOr(a / 2, b / 2, j - 1);
      }
    }
  }

  lemma {:induction false} BitAnd(a: nat, b: nat, j: nat)
    ensures Bit(And(a, b), j) <==> Bit(a, j) && Bit(b, j)
  {
    if a == 0 || b == 0 {
      BitZero(j);
    } else {
      assert And(a, b) / 2 == And(a / 2, b / 2);
      if j != 0 {
        BitAnd(a / 2, b / 2, j - 1);
      }
    }
  }

  lemma {:induction false} BitPow2(k: nat, j: nat)
    ensures Bit(Pow2(k), j) <==> j == k
  {
    if j == 0 {
      assert k != 0 ==> Pow2(k) % 2 == 0;
    } else if k == 0 {
      BitZero(j - 1);
    } else {
      assert Pow2(k) / 2 == Pow2(k - 1);
      BitPow2(k - 1, j - 1);
    }
  }

  lemma {:induction false} BitNot(w: nat, n: nat, j: nat)
    requires w < Pow2(n) && j < n
    ensures Bit(Not(w, n), j) <==> !Bit(w, j)
  {
    assert Not(w, n) / 2 == Not(w / 2, n - 1);
    if j != 0 {
      BitNot(w / 2, n - 1, j - 1);
    }
  }

  lemma {:induction false} BitBeyond(w: nat, n: nat, j: nat)
    requires w < Pow2(n) && j >= n
    ensures !Bit(w, j)
  {
    if n == 0 {
      BitZero(j);
    } else {
      BitBeyond(w / 2, n - 1, j - 1);
    }
  }

  lemma ZeroHasNoBits()
    ensures forall j: nat :: !Bit(0, j)
  {
    forall j: nat
      ensures !Bit(0, j)
    {
      BitZero(j);
    }
  }

  // ---------- Shifts and masks as arithmetic ----------

  lemma {:induction false} OrIsSum(hi: nat, lo: nat, k: nat)
    requires lo < Pow2(k)
    ensures Or(hi * Pow2(k), lo) == hi * Pow2(k) + lo
  {
    if k > 0 {
      assert hi * Pow2(k) == 2 * (hi * Pow2(k - 1));
      OrIsSum(hi, lo / 2, k - 1);
    } else {
      OrZero(hi);
    }
  }

  lemma {:induction false} OrZero(a: nat)
    ensures Or(a, 0) == a == Or(0, a)
  {
    if a > 0 {
      OrZero(a / 2);
    }
  }

  lemma {:induction false} AndIsRemainder(a: nat, k: nat)
    ensures And(a, Pow2(k) - 1) == a % Pow2(k)
  {
    if k > 0 && a > 0 {
      var p := Pow2(k - 1);
      AndIsRemainder(a / 2, k - 1);
      assert (Pow2(k) - 1) / 2 == p - 1 && (Pow2(k) - 1) % 2 == 1;
      assert And(a, Pow2(k) - 1) == 2 * And(a / 2, p - 1) + a % 2;
      HalfRemainder(a, p);
    } else if a == 0 {
      SmallRemainder(Pow2(k));
    }
  }

  lemma SmallRemainder(p: nat)
    requires p > 0
    ensures 0 % p == 0
  {
  }

  lemma HalfRemainder(a: nat, p: nat)
    requires p > 0
    ensures a % (2 * p) == 2 * ((a / 2) % p) + a % 2
  {
    var q, r := a / 2 / p, (a / 2) % p;
    assert a == 2 * (q * p + r) + a % 2;
    assert a == (2 * p) * q + (2 * r + a % 2);
    Remainder(a, 2 * p, q, 2 * r + a % 2);
  }

  lemma Remainder(a: nat, m: nat, q: nat, r: nat)
    requires m > 0 && a == m * q + r && r < m
    ensures a % m == r && a / m == q
  {
    var d := a / m - q;
    assert m * d == r - a % m;
    Outgrows(m, d);
  }

  lemma Outgrows(m: int, d: int)
    requires m > 0
    ensures d > 0 ==> m * d >= m
    ensures d < 0 ==> m * d <= 0 - m
  {
  }

  // The k low bits of a word.
  function Masked(a: nat, k: nat): (r: nat)
    ensures r == a % Pow2(k)
  {
    AndIsRemainder(a, k);
    And(a, Pow2(k) - 1)
  }

  // A mask of the k low bits.
  lemma {:induction false} BitMask(k: nat, j: nat)
    ensures Bit(Pow2(k) - 1, j) <==> j < k
  {
    if k == 0 {
      BitZero(j);
    } else {
      assert (Pow2(k) - 1) / 2 == Pow2(k - 1) - 1;
      if j != 0 {
        BitMask(k - 1, j - 1);
      }
    }
  }

  lemma {:induction false} OrBound(a: nat, b: nat, n: nat)
    requires a < Pow2(n) && b < Pow2(n)
    ensures Or(a, b) < Pow2(n)
  {
    if n != 0 && (a != 0 || b != 0) {
      OrBound(a / 2, b / 2, n - 1);
    }
  }

  lemma {:induction false} AndBound(a: nat, b: nat)
    ensures And(a, b) <= a
  {
    if a != 0 && b != 0 {
      AndBound(a / 2, b / 2);
    }
  }

  lemma {:induction false} Pow2Monotone(k: nat, n: nat)
    requires k < n
    ensures Pow2(k) < Pow2(n)
  {
    if k + 1 < n {
      Pow2Monotone(k, n - 1);
    }
  }

  // The lowest clear bit of a word that is not all ones.
  lemma LowestZero(w: nat, n: nat)
    requires w < Pow2(n) - 1
    ensures var k := Lowest(Not(w, n));
      k < n && !Bit(w, k) && forall j | 0 <= j < k :: Bit(w, j)
  {
    var k := Lowest(Not(w, n));
    if k >= n {
      BitBeyond(Not(w, n), n, k);
    }
    BitNot(w, n, k);
    forall j | 0 <= j < k
      ensures Bit(w, j)
    {
      BitNot(w, n, j);
    }
  }

  // ---------- Setting and clearing one bit ----------

  // w |= 1 << k
  function SetBit(w: nat, k: nat): nat {
    Or(w, Pow2(k))
  }

  // w &= ~(1 << k), in a word of width n
  function ClearBit(w: nat, k: nat, n: nat): nat
    requires k < n
  {
    Pow2Monotone(k, n);
    And(w, Not(Pow2(k), n))
  }

  lemma SetBitEffect(w: nat, k: nat, n: nat)
    requires w < Pow2(n) && k < n
    ensures SetBit(w, k) < Pow2(n)
    ensures forall j: nat :: Bit(SetBit(w, k), j) <==> j == k || Bit(w, j)
  {
    Pow2Monotone(k, n);
    OrBound(w, Pow2(k), n);
    forall j: nat
      ensures Bit(SetBit(w, k), j) <==> j == k || Bit(w, j)
    {
      BitOr(w, Pow2(k), j);
      BitPow2(k, j);
    }
  }

  lemma ClearBitEffect(w: nat, k: nat, n: nat)
    requires w < Pow2(n) && k < n
    ensures ClearBit(w, k, n) < Pow2(n)
    ensures forall j: nat :: Bit(ClearBit(w, k, n), j) <==> j != k && Bit(w, j)
    ensures Bit(w, k) ==> ClearBit(w, k, n) < w
  {
    Pow2Monotone(k, n);
    AndBound(w, Not(Pow2(k), n));
    forall j: nat
      ensures Bit(ClearBit(w, k, n), j) <==> j != k && Bit(w, j)
    {
      BitAnd(w, Not(Pow2(k), n), j);
      if j < n {
        BitNot(Pow2(k), n, j);
        BitPow2(k, j);
      } else {
        BitBeyond(w, n, j);
      }
    }
  }

  lemma PowersOfWords()
    ensures Pow2(32) == WORD32 && Pow2(64) == WORD64
  {
    assert Pow2(8) == 0x100;
    assert Pow2(16) == 0x1_0000;
    assert Pow2(24) == 0x100_0000;
    assert Pow2(32) == WORD32;
    assert Pow2(40) == 0x100_0000_0000;
    assert Pow2(48) == 0x1_0000_0000_0000;
    assert Pow2(56) == 0x100_0000_0000_0000;
  }

  // ---------- Bitmaps: sequences of 64-bit words ----------

  const FULL: nat := WORD64 - 1

  ghost predicate Words(ws: seq<nat>) {
    forall i | 0 <= i < |ws| :: ws[i] < WORD64
  }

  predicate BitAt(ws: seq<nat>, i: nat)
    requires i < 64 * |ws|
  {
    Bit(ws[i / 64], i % 64)
  }

  function SetBitAt(ws: seq<nat>, i: nat): seq<nat>
    requires i < 64 * |ws|
  {
    ws[i / 64 := SetBit(ws[i / 64], i % 64)]
  }

  function ClearBitAt(ws: seq<nat>, i: nat): seq<nat>
    requires i < 64 * |ws|
  {
    ws[i / 64 := ClearBit(ws[i / 64], i % 64, 64)]
  }

  // The lowest clear bit of a word.
  function FirstZero(w: nat): nat
    requires w < FULL
  {
    PowersOfWords();
    Lowest(Not(w, 64))
  }

  lemma SetBitAtEffect(ws: seq<nat>, i: nat)
    requires Words(ws) && i < 64 * |ws|
    ensures Words(SetBitAt(ws, i)) && |SetBitAt(ws, i)| == |ws|
    ensures forall j: nat | j < 64 * |ws| :: BitAt(SetBitAt(ws, i), j) <==> j == i || BitAt(ws, j)
  {
    PowersOfWords();
    SetBitEffect(ws[i / 64], i % 64, 64);
  }

  lemma ClearBitAtEffect(ws: seq<nat>, i: nat)
    requires Words(ws) && i < 64 * |ws|
    ensures Words(ClearBitAt(ws, i)) && |ClearBitAt(ws, i)| == |ws|
    ensures forall j: nat | j < 64 * |ws| :: BitAt(ClearBitAt(ws, i), j) <==> j != i && BitAt(ws, j)
  {
    PowersOfWords();
    ClearBitEffect(ws[i / 64], i % 64, 64);
  }

  // A word is zero exactly when none of its bits is set.
  lemma WordZero(ws: seq<nat>, w: nat)
    requires w < |ws|
    ensures ws[w] == 0 ==> forall i: nat | i < 64 * |ws| && i / 64 == w :: !BitAt(ws, i)
    ensures ws[w] != 0 && ws[w] < WORD64 ==>
      var i := 64 * w + Lowest(ws[w]);
      i / 64 == w && BitAt(ws, i) && forall j: nat | 64 * w <= j < i :: !BitAt(ws, j)
  {
    if ws[w] == 0 {
      forall i: nat | i < 64 * |ws| && i / 64 == w
        ensures !BitAt(ws, i)
      {
        BitZero(i % 64);
      }
    } else if ws[w] < WORD64 {
      var k := Lowest(ws[w]);
      PowersOfWords();
      if k >= 64 {
        BitBeyond(ws[w], 64, k);
      }
    }
  }

  // A word is full exactly when all of its bits are set.
  lemma WordFull(ws: seq<nat>, w: nat)
    requires w < |ws| && ws[w] < WORD64
    ensures ws[w] == FULL ==> forall i: nat | i < 64 * |ws| && i / 64 == w :: BitAt(ws, i)
    ensures ws[w] != FULL ==>
      var i := 64 * w + FirstZero(ws[w]);
      i / 64 == w && !BitAt(ws, i) && forall j: nat | 64 * w <= j < i :: BitAt(ws, j)
  {
    PowersOfWords();
    if ws[w] == FULL {
      forall i: nat | i < 64 * |ws| && i / 64 == w
        ensures BitAt(ws, i)
      {
        BitMask(64, i % 64);
      }
    } else {
      LowestZero(ws[w], 64);
    }
  }

  // ---------- Bitmaps of 32-bit words ----------

  ghost predicate Words32(ws: seq<nat>) {
    forall i | 0 <= i < |ws| :: ws[i] < WORD32
  }

  predicate BitAt32(ws: seq<nat>, i: nat)
    requires i < 32 * |ws|
  {
    Bit(ws[i / 32], i % 32)
  }

  function SetBitAt32(ws: seq<nat>, i: nat): seq<nat>
    requires i < 32 * |ws|
  {
    ws[i / 32 := SetBit(ws[i / 32], i % 32)]
  }

  function ClearBitAt32(ws: seq<nat>, i: nat): seq<nat>
    requires i < 32 * |ws|
  {
    ws[i / 32 := ClearBit(ws[i / 32], i % 32, 32)]
  }

  lemma SetBitAt32Effect(ws: seq<nat>, i: nat)
    requires Words32(ws) && i < 32 * |ws|
    ensures Words32(SetBitAt32(ws, i)) && |SetBitAt32(ws, i)| == |ws|
    ensures forall j: nat | j < 32 * |ws| :: BitAt32(SetBitAt32(ws, i), j) <==> j == i || BitAt32(ws, j)
  {
    PowersOfWords();
    SetBitEffect(ws[i / 32], i % 32, 32);
  }

  lemma ClearBitAt32Effect(ws: seq<nat>, i: nat)
    requires Words32(ws) && i < 32 * |ws|
    ensures Words32(ClearBitAt32(ws, i)) && |ClearBitAt32(ws, i)| == |ws|
    ensures forall j: nat | j < 32 * |ws| :: BitAt32(ClearBitAt32(ws, i), j) <==> j != i && BitAt32(ws, j)
  {
    PowersOfWords();
    ClearBitEffect(ws[i / 32], i % 32, 32);
  }

  // Clearing the lowest set bit, as the scanning loops do.
  lemma ClearLowest32(w: nat)
    requires 0 != w < WORD32
    ensures Lowest(w) < 32 && ClearBit(w, Lowest(w), 32) < w
    ensures forall j: nat :: Bit(ClearBit(w, Lowest(w), 32), j) <==> j != Lowest(w) && Bit(w, j)
  {
    PowersOfWords();
    if Lowest(w) >= 32 {
      BitBeyond(w, 32, Lowest(w));
    }
    ClearBitEffect(w, Lowest(w), 32);
  }

  lemma WordZero32(ws: seq<nat>, w: nat)
    requires w < |ws|
    ensures ws[w] == 0 ==> forall i: nat | i < 32 * |ws| && i / 32 == w :: !BitAt32(ws, i)
    ensures 0 != ws[w] < WORD32 ==> exists i: nat :: i < 32 * |ws| && i / 32 == w && BitAt32(ws, i)
  {
    if ws[w] == 0 {
      forall i: nat | i < 32 * |ws| && i / 32 == w
        ensures !BitAt32(ws, i)
      {
        BitZero(i % 32);
      }
    } else if ws[w] < WORD32 {
      ClearLowest32(ws[w]);
      var k := Lowest(ws[w]);
      var i := 32 * w + k;
      hide Bit;
      assert i / 32 == w && i % 32 == k;
      assert BitAt32(ws, i);
    }
  }
}
