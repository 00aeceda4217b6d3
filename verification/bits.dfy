module Bits {
  // Unsigned 64-bit words and the bit operations the program uses on them. A
  // word is a number below 2^64; bit 0 is the least significant.

  const WORD_BITS := 64

  function Pow2(n: nat): (p: nat)
    ensures p > 0
  {
    if n == 0 then 1 else 2 * Pow2(n - 1)
  }

  type Word = w: nat | w < Pow2(64)

  /** `w & (1 << i) != 0` */
  predicate Bit(w: nat, i: nat) {
    if i == 0 then w % 2 == 1 else Bit(w / 2, i - 1)
  }

  /** `w | (1 << i)` */
  function WithBit(w: nat, i: nat): (r: nat)
    ensures r >= w
  {
    if i == 0 then w - w % 2 + 1 else 2 * WithBit(w / 2, i - 1) + w % 2
  }

  /** `a & b` */
  function And(a: nat, b: nat): (r: nat)
    ensures r <= b
  {
    if b == 0 then 0 else 2 * And(a / 2, b / 2) + (if a % 2 == 1 && b % 2 == 1 then 1 else 0)
  }

  /** `w << 1`: the top bit leaves the word. */
  function Double(w: Word): Word {
    2 * (if w >= Pow2(63) then w - Pow2(63) else w)
  }

  /** `w.checked_shl(places).unwrap_or(0)` */
  function ShiftLeft(w: Word, places: nat): Word {
    if places >= WORD_BITS then 0
    else if places == 0 then w
    else Double(ShiftLeft(w, places - 1))
  }

  lemma ZeroBits(i: nat)
    ensures !Bit(0, i)
  {
  }

  lemma OneBits(i: nat)
    ensures Bit(1, i) <==> i == 0
  {
    if i > 0 { ZeroBits(i - 1); }
  }

  lemma {:induction false} WithBitAt(w: nat, i: nat, j: nat)
    ensures Bit(WithBit(w, i), j) <==> Bit(w, j) || i == j
  {
    if i == 0 {
      assert WithBit(w, 0) / 2 == w / 2;
    } else {
      assert WithBit(w, i) / 2 == WithBit(w / 2, i - 1);
      if j > 0 { WithBitAt(w / 2, i - 1, j - 1); }
    }
  }

  /** Setting a clear bit adds its weight. */
  lemma WithBitAdds(w: nat, i: nat)
    requires !Bit(w, i)
    ensures WithBit(w, i) == w + Pow2(i)
  {
    if i > 0 { WithBitAdds(w / 2, i - 1); }
  }

  /** A number below 2^n has no bit at n or above. */
  lemma BitsBelow(w: nat, n: nat, i: nat)
    requires w < Pow2(n) && n <= i
    ensures !Bit(w, i)
    decreases n
  {
    if n == 0 { ZeroBits(i); } else { BitsBelow(w / 2, n - 1, i - 1); }
  }

  lemma WithBitBelow(w: nat, i: nat, n: nat)
    requires w < Pow2(n) && i < n
    ensures WithBit(w, i) < Pow2(n)
  {
    if i > 0 { WithBitBelow(w / 2, i - 1, n - 1); }
  }

  /** Clearing bit n leaves the bits below it alone. */
  lemma WithoutHigh(w: nat, n: nat, j: nat)
    requires Pow2(n) <= w && j < n
    ensures Bit(w - Pow2(n), j) <==> Bit(w, j)
  {
    if j > 0 {
      assert (w - Pow2(n)) / 2 == w / 2 - Pow2(n - 1);
      WithoutHigh(w / 2, n - 1, j - 1);
    }
  }

  lemma DoubleAt(w: Word, j: nat)
    requires j < WORD_BITS
    ensures Bit(Double(w), j) <==> j > 0 && Bit(w, j - 1)
  {
    if j > 0 && w >= Pow2(63) { WithoutHigh(w, 63, j - 1); }
  }

  /** Shifting moves every bit up by `places` and drops what leaves the word. */
  lemma {:induction false} ShiftLeftAt(w: Word, places: nat, j: nat)
    requires j < WORD_BITS
    ensures Bit(ShiftLeft(w, places), j) <==> j >= places && Bit(w, j - places)
    decreases places
  {
    if places >= WORD_BITS {
      ZeroBits(j);
    } else if places > 0 {
      DoubleAt(ShiftLeft(w, places - 1), j);
      if j > 0 { ShiftLeftAt(w, places - 1, j - 1); }
    }
  }

  lemma AndKeeps(a: nat, b: nat, i: nat)
    requires And(a, b) == b && Bit(b, i)
    ensures Bit(a, i)
  {
    if b == 0 {
      ZeroBits(i);
    } else if i > 0 {
      AndKeeps(a / 2, b / 2, i - 1);
    }
  }

  ghost predicate BitsWithin(b: nat, a: nat) {
    forall i: nat :: Bit(b, i) ==> Bit(a, i)
  }

  lemma AndOfSubset(a: nat, b: nat)
    requires BitsWithin(b, a)
    ensures And(a, b) == b
  {
    if b > 0 {
      assert Bit(b, 0) ==> Bit(a, 0);
      forall i: nat ensures Bit(b / 2, i) ==> Bit(a / 2, i) {
        assert Bit(b, i + 1) ==> Bit(a, i + 1);
      }
      AndOfSubset(a / 2, b / 2);
    }
  }

  /** Masking by b gives b back exactly when every bit of b is set in a. */
  lemma AndIsSubset(a: nat, b: nat)
    ensures And(a, b) == b <==> BitsWithin(b, a)
  {
    if And(a, b) == b {
      forall i: nat ensures Bit(b, i) ==> Bit(a, i) {
        if Bit(b, i) { AndKeeps(a, b, i); }
      }
    }
    if BitsWithin(b, a) {
      AndOfSubset(a, b);
    }
  }
}
