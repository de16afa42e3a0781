/**
  Unsigned 64-bit words as naturals below 2^64.  The operators the ring ladder's bitmap uses are
  written out bit by bit, so that their width and their truncation are explicit.
 */
module Words {

  const WORD_BITS: nat := 64
  const WORD_SIZE: nat := 0x1_0000_0000_0000_0000

  type Word = w: nat | w < WORD_SIZE

  function Pow2(k: nat): (p: nat)
    ensures p >= 1
  {
    if k == 0 then 1 else 2 * Pow2(k - 1)
  }

  /** The k-th binary digit of w. */
  predicate Bit(w: nat, k: nat)
    decreases k
  {
    if k == 0 then w % 2 == 1 else Bit(w / 2, k - 1)
  }

  /** `a & b` */
  function And(a: nat, b: nat): (r: nat)
    ensures r <= a && r <= b
    decreases a
  {
    if a == 0 || b == 0 then 0
    else 2 * And(a / 2, b / 2) + if a % 2 == 1 && b % 2 == 1 then 1 else 0
  }

  /** `a | b` */
  function Or(a: nat, b: nat): (r: nat)
    decreases a + b
  {
    if a == 0 then b
    else if b == 0 then a
    else 2 * Or(a / 2, b / 2) + if a % 2 == 1 || b % 2 == 1 then 1 else 0
  }

  /** `~w` on 64 bits */
  function Not(w: Word): (r: Word) {
    WORD_SIZE - 1 - w
  }

  /** `w << k` on 64 bits: what leaves the word is lost. */
  function Shl(w: Word, k: nat): (r: Word) {
    (w * Pow2(k)) % WORD_SIZE
  }

  /** `std::countr_zero` of a non-zero word */
  function CountrZero(w: nat): (k: nat)
    requires w > 0
    ensures Bit(w, k)
  {
    if w % 2 == 1 then 0 else 1 + CountrZero(w / 2)
  }

  /** `std::bit_width` minus one: the position of the highest set bit */
  function HighestBit(w: nat): (k: nat)
    requires w > 0
    ensures Bit(w, k)
    ensures Pow2(k) <= w < Pow2(k + 1)
  {
    if w == 1 then 0 else 1 + HighestBit(w / 2)
  }

  /** `std::countl_zero` of a non-zero word */
  function CountlZero(w: Word): (n: nat)
    requires w > 0
    ensures n < WORD_BITS
  {
    WidthBound(w, HighestBit(w), WORD_BITS);
    WORD_BITS - 1 - HighestBit(w)
  }

  lemma Pow2Of64()
    ensures Pow2(WORD_BITS) == WORD_SIZE
  {
    assert Pow2(1) == 2;
    Pow2Square(1, 2);
    Pow2Square(2, 4);
    Pow2Square(4, 16);
    Pow2Square(8, 256);
    Pow2Square(16, 0x1_0000);
    Pow2Square(32, 0x1_0000_0000);
  }

  lemma Pow2Square(k: nat, p: nat)
    requires Pow2(k) == p
    ensures Pow2(2 * k) == p * p
  {
    Pow2Sum(k, k);
  }

  lemma {:induction false} Pow2Sum(a: nat, b: nat)
    ensures Pow2(a + b) == Pow2(a) * Pow2(b)
  {
    if a > 0 {
      Pow2Sum(a - 1, b);
      assert 2 * (Pow2(a - 1) * Pow2(b)) == (2 * Pow2(a - 1)) * Pow2(b);
    }
  }

  /** A word below 2^n has no digit at or above n. */
  lemma {:induction false} BitBelow(w: nat, k: nat, n: nat)
    requires w < Pow2(n) && Bit(w, k)
    ensures k < n
    decreases k
  {
    if n == 0 {
      ZeroHasNoBit(k);
    } else if k > 0 {
      BitBelow(w / 2, k - 1, n - 1);
    }
  }

  lemma {:induction false} ZeroHasNoBit(k: nat)
    ensures !Bit(0, k)
  {
    if k > 0 { ZeroHasNoBit(k - 1); }
  }

  lemma WidthBound(w: Word, k: nat, n: nat)
    requires Bit(w, k) && n == WORD_BITS
    ensures k < n
  {
    Pow2Of64();
    BitBelow(w, k, n);
  }

  lemma Halves(h: nat, d: nat)
    requires d < 2
    ensures (2 * h + d) / 2 == h && (2 * h + d) % 2 == d
  {
  }

  lemma {:induction false} AndBit(a: nat, b: nat, k: nat)
    ensures Bit(And(a, b), k) <==> Bit(a, k) && Bit(b, k)
    decreases k
  {
    if a == 0 || b == 0 {
      ZeroHasNoBit(k);
    } else {
      var d := if a % 2 == 1 && b % 2 == 1 then 1 else 0;
      assert And(a, b) == 2 * And(a / 2, b / 2) + d;
      Halves(And(a / 2, b / 2), d);
      if k == 0 { return; }
      AndBit(a / 2, b / 2, k - 1);
    }
  }

  lemma {:induction false} OrBit(a: nat, b: nat, k: nat)
    ensures Bit(Or(a, b), k) <==> Bit(a, k) || Bit(b, k)
    decreases k
  {
    if a == 0 || b == 0 {
      ZeroHasNoBit(k);
    } else {
      var d := if a % 2 == 1 || b % 2 == 1 then 1 else 0;
      assert Or(a, b) == 2 * Or(a / 2, b / 2) + d;
      Halves(Or(a / 2, b / 2), d);
      if k == 0 { return; }
      OrBit(a / 2, b / 2, k - 1);
    }
  }

  lemma {:induction false} OrBound(a: nat, b: nat, n: nat)
    requires a < Pow2(n) && b < Pow2(n)
    ensures Or(a, b) < Pow2(n)
  {
    if n > 0 && a > 0 && b > 0 {
      OrBound(a / 2, b / 2, n - 1);
    }
  }

  /** Complementing within n digits flips each of them. */
  lemma {:induction false} ComplementBit(w: nat, k: nat, n: nat)
    requires w < Pow2(n) && k < n
    ensures Bit(Pow2(n) - 1 - w, k) <==> !Bit(w, k)
    decreases k
  {
    if k > 0 {
      assert (Pow2(n) - 1 - w) / 2 == Pow2(n - 1) - 1 - w / 2;
      ComplementBit(w / 2, k - 1, n - 1);
    }
  }

  lemma NotBit(w: Word, k: nat)
    requires k < WORD_BITS
    ensures Bit(Not(w), k) <==> !Bit(w, k)
  {
    Pow2Of64();
    ComplementBit(w, k, WORD_BITS);
  }

  lemma {:induction false} Pow2Bit(j: nat, k: nat)
    ensures Bit(Pow2(j), k) <==> j == k
    decreases k
  {
    if j == 0 {
      if k > 0 { ZeroHasNoBit(k - 1); }
    } else if k > 0 {
      Pow2Bit(j - 1, k - 1);
    }
  }

  lemma {:induction false} BelowPow2Bit(n: nat, k: nat)
    ensures Bit(Pow2(n) - 1, k) <==> k < n
    decreases k
  {
    if n == 0 {
      ZeroHasNoBit(k);
    } else if k > 0 {
      assert (Pow2(n) - 1) / 2 == Pow2(n - 1) - 1;
      BelowPow2Bit(n - 1, k - 1);
    }
  }

  lemma {:induction false} Pow2Less(a: nat, b: nat)
    requires a < b
    ensures 2 * Pow2(a) <= Pow2(b)
  {
    if a + 1 < b { Pow2Less(a, b - 1); }
  }

  /** `1 << k` is the word with exactly bit k. */
  lemma OneShifted(k: nat, j: nat)
    requires k < WORD_BITS
    ensures Bit(Shl(1, k), j) <==> j == k
  {
    Pow2Of64();
    Pow2Less(k, WORD_BITS);
    Pow2Bit(k, j);
  }

  /** `~0 << k` is the word with exactly the bits from k upward. */
  lemma OnesShifted(k: nat, j: nat)
    requires k < WORD_BITS && j < WORD_BITS
    ensures Bit(Shl(Not(0), k), j) <==> k <= j
  {
    Pow2Of64();
    Pow2Less(k, WORD_BITS);
    var p := Pow2(k);
    assert (WORD_SIZE - 1) * p == (p - 1) * WORD_SIZE + (WORD_SIZE - p);
    RemainderOf(p - 1, WORD_SIZE - p);
    BelowPow2Bit(k, j);
    NotBit(p - 1, j);
  }

  /** `(1 << (k + 1)) - 1`, or all ones for the last bit: exactly the bits up to k. */
  function BitsThrough(k: nat): (w: Word)
    requires k < WORD_BITS
  {
    if k == WORD_BITS - 1 then Not(0)
    else
      OneShiftedPositive(k + 1);
      Shl(1, k + 1) - 1
  }

  lemma OneShiftedPositive(k: nat)
    requires k < WORD_BITS
    ensures Shl(1, k) == Pow2(k)
  {
    Pow2Of64();
    Pow2Less(k, WORD_BITS);
  }

  lemma BitsThroughBit(k: nat, j: nat)
    requires k < WORD_BITS && j < WORD_BITS
    ensures Bit(BitsThrough(k), j) <==> j <= k
  {
    if k == WORD_BITS - 1 {
      ZeroHasNoBit(j);
      NotBit(0, j);
    } else {
      OneShiftedPositive(k + 1);
      BelowPow2Bit(k + 1, j);
    }
  }

  lemma RemainderOf(q: nat, r: nat)
    requires r < WORD_SIZE
    ensures (q * WORD_SIZE + r) % WORD_SIZE == r
  {
  }

  /** No digit of w lies below CountrZero(w). */
  lemma {:induction false} CountrZeroIsLowest(w: nat, k: nat)
    requires w > 0 && Bit(w, k)
    ensures CountrZero(w) <= k
    decreases k
  {
    if w % 2 == 0 {
      if w / 2 == 0 { ZeroHasNoBit(k); }
      if k > 0 { CountrZeroIsLowest(w / 2, k - 1); }
    }
  }

  /** No digit of w lies above HighestBit(w). */
  lemma HighestBitIsHighest(w: nat, k: nat)
    requires w > 0 && Bit(w, k)
    ensures k <= HighestBit(w)
  {
    BitBelow(w, k, HighestBit(w) + 1);
  }

  lemma {:induction false} AndSelf(w: nat)
    ensures And(w, w) == w
  {
    if w > 0 { AndSelf(w / 2); }
  }

  /** `w & (w - 1)` drops exactly the lowest set bit. */
  lemma {:induction false} DropLowest(w: nat, k: nat)
    requires w > 0
    ensures Bit(And(w, w - 1), k) <==> Bit(w, k) && k != CountrZero(w)
    decreases w
  {
    if w % 2 == 1 {
      AndSelf(w / 2);
      if w == 1 { ZeroHasNoBit(k); if k > 0 { ZeroHasNoBit(k - 1); } }
      else {
        assert And(w, w - 1) == 2 * And(w / 2, w / 2);
      }
    } else {
      assert And(w, w - 1) == 2 * And(w / 2, w / 2 - 1);
      if k > 0 { DropLowest(w / 2, k - 1); }
    }
  }
}
