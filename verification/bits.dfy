/** Unsigned 64-bit words as numbers: the operators of C++ on size_t that size computations use. */
module Bits {
  function Pow2(k: nat): (p: nat)
    ensures 0 < p
  {
    if k == 0 then 1 else 2 * Pow2(k - 1)
  }

  const WORD: nat := 0x1_0000_0000_0000_0000

  /** What is left of a result in a word. */
  function Word(x: int): nat {
    x % WORD
  }

  /** Bitwise and. */
  function And(x: nat, y: nat): nat
    decreases x + y
  {
    if x == 0 || y == 0 then 0 else (x % 2) * (y % 2) + 2 * And(x / 2, y / 2)
  }

  /** Bitwise complement of a word. */
  function Not(x: nat): nat
    requires x < WORD
  {
    WORD - 1 - x
  }

  /** Shift to the right. */
  function Shr(x: nat, k: nat): nat {
    if k == 0 then x else Shr(x / 2, k - 1)
  }

  lemma {:induction false} ShrDivides(x: nat, k: nat)
    ensures Shr(x, k) == x / Pow2(k)
  {
    if k > 0 {
      ShrDivides(x / 2, k - 1);
      HalveFirst(x, Pow2(k - 1));
    }
  }

  lemma HalveFirst(x: nat, p: nat)
    requires 0 < p
    ensures x / 2 / p == x / (2 * p)
  {
    var q, r := x / 2 / p, x / 2 % p;
    assert x / 2 == p * q + r;
    assert x == 2 * (p * q + r) + x % 2;
    assert x == (2 * p) * q + (2 * r + x % 2);
    Quotient(x, 2 * p, q, 2 * r + x % 2);
  }

  lemma Quotient(x: nat, d: nat, q: nat, r: nat)
    requires 0 < d && x == d * q + r && r < d
    ensures x / d == q
  {
    assert x == d * (x / d) + x % d;
    assert d * (x / d - q) == r - x % d;
    NoSmallMultiple(d, x / d - q);
  }

  lemma NoSmallMultiple(d: nat, z: int)
    ensures z == 0 || d <= d * z || d * z + d <= 0
  {
    if z >= 1 {
      assert d * z == d + d * (z - 1);
    } else if z <= -1 {
      assert d * z == d * (z + 1) - d;
    }
  }

  /** x with its low k bits cleared. */
  function Clear(x: nat, k: nat): nat {
    if k == 0 then x else 2 * Clear(x / 2, k - 1)
  }

  lemma {:induction false} ClearIsShift(x: nat, k: nat)
    ensures Clear(x, k) == Shr(x, k) * Pow2(k)
  {
    if k > 0 {
      ClearIsShift(x / 2, k - 1);
      assert 2 * (Shr(x / 2, k - 1) * Pow2(k - 1)) == Shr(x / 2, k - 1) * (2 * Pow2(k - 1));
    }
  }

  lemma {:induction false} ClearDrops(x: nat, k: nat)
    ensures Clear(x, k) <= x < Clear(x, k) + Pow2(k)
  {
    if k > 0 {
      ClearDrops(x / 2, k - 1);
    }
  }

  lemma {:induction false} Monotonic(k: nat, w: nat)
    requires k <= w
    ensures Pow2(k) <= Pow2(w)
  {
    if k < w {
      Monotonic(k, w - 1);
    }
  }

  /** Of the w bits of x, the mask with the low k bits clear and the others set keeps the high ones. */
  lemma {:induction false} HighMask(x: nat, k: nat, w: nat)
    requires k <= w && x < Pow2(w)
    ensures Pow2(k) <= Pow2(w) && And(x, Pow2(w) - Pow2(k)) == Clear(x, k)
    decreases w
  {
    Monotonic(k, w);
    if w > 0 {
      if k == 0 {
        HighMask(x / 2, 0, w - 1);
        AndStep(x, Pow2(w - 1) - 1, 1);
      } else {
        HighMask(x / 2, k - 1, w - 1);
        AndStep(x, Pow2(w - 1) - Pow2(k - 1), 0);
      }
    }
  }

  lemma AndStep(x: nat, y: nat, b: nat)
    requires b < 2
    ensures And(x, 2 * y + b) == (x % 2) * b + 2 * And(x / 2, y)
  {
    assert (2 * y + b) / 2 == y && (2 * y + b) % 2 == b;
  }

  lemma WordIs64Bits()
    ensures Pow2(64) == WORD
  {
    assert Pow2(8) == 0x100;
    assert Pow2(16) == 0x1_0000;
    assert Pow2(24) == 0x100_0000;
    assert Pow2(32) == 0x1_0000_0000;
    assert Pow2(40) == 0x100_0000_0000;
    assert Pow2(48) == 0x1_0000_0000_0000;
    assert Pow2(56) == 0x100_0000_0000_0000;
  }

  lemma SmallPower(k: nat)
    requires k < 64
    ensures 2 * Pow2(k) <= WORD
  {
    Monotonic(k + 1, 64);
    WordIs64Bits();
  }

  /** Rounding up to a power of two with a mask, `(x + align - 1) & ~(align - 1)`, in words. */
  function RoundTo(x: nat, align: nat): nat
    requires 0 < align <= WORD
  {
    And(Word(x + align - 1), Not(align - 1))
  }

  /** The mask clears the low bits of the sum, which may have wrapped. */
  lemma RoundToClears(x: nat, k: nat)
    requires k <= 64
    ensures Pow2(k) <= WORD && RoundTo(x, Pow2(k)) == Clear(Word(x + Pow2(k) - 1), k)
  {
    hide Pow2, And, Clear;
    WordIs64Bits();
    HighMask(Word(x + Pow2(k) - 1), k, 64);
  }

  /** A word is rounded up to the next multiple of the alignment if and only if the sum stays within a word. */
  lemma RoundsUp(x: nat, k: nat)
    requires k < 64 && x < WORD
    ensures Pow2(k) <= WORD
    ensures var r := RoundTo(x, Pow2(k));
            && (exists q: nat :: r == q * Pow2(k))
            && (x + Pow2(k) - 1 < WORD <==> x <= r)
            && (x <= r ==> r - x < Pow2(k))
  {
    SmallPower(k);
    hide Pow2, And, Clear, Shr, RoundTo;
    RoundToClears(x, k);
    var n := Word(x + Pow2(k) - 1);
    ClearDrops(n, k);
    ClearIsShift(n, k);
    assert n == x + Pow2(k) - 1 || n == x + Pow2(k) - 1 - WORD;
  }
}
