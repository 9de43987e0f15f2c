/** `size_class` of inc/memory_pool/comm.h: sizes up to 64K rounded up by four alignments, and the number of
    the free list for each rounded size. Sizes are 64-bit words. */
module SizeClass {
  import opened Bits

  const MAX_BYTES: nat := 0x1_0000
  const NLISTS: nat := 240

  /** The largest size whose rounding is below MAX_BYTES. */
  const LAST_INDEXED: nat := 65024

  /** The result of a function that starts with an assert. */
  datatype Checked = AssertFails | Is(n: nat)

  /** index(bytes, align_shift). */
  function NumberIn(bytes: nat, shift: nat): nat {
    Word(Shr(Word(bytes + Pow2(shift) - 1), shift) - 1)
  }

  function RoundUp(size: nat): Checked {
    if MAX_BYTES < size then AssertFails
    else if size <= 128 then Is(RoundTo(size, 8))
    else if size <= 1024 then Is(RoundTo(size, 16))
    else if size <= 8 * 1024 then Is(RoundTo(size, 128))
    else Is(RoundTo(size, 512))
  }

  /** Its assert is stricter than that of round_up. */
  function Index(bytes: nat): Checked {
    if MAX_BYTES <= bytes then AssertFails
    else if bytes <= 128 then Is(NumberIn(bytes, 3))
    else if bytes <= 1024 then Is(Word(NumberIn(bytes - 128, 4) + 16))
    else if bytes <= 8 * 1024 then Is(Word(NumberIn(bytes - 1024, 7) + 56 + 16))
    else Is(Word(NumberIn(bytes - 8 * 1024, 9) + 56 + 56 + 16))
  }

  /** The size that list k serves. */
  function SizeOf(k: nat): nat
    requires k < NLISTS
  {
    if k < 16 then 8 * (k + 1)
    else if k < 72 then 128 + 16 * (k - 15)
    else if k < 128 then 1024 + 128 * (k - 71)
    else 8 * 1024 + 512 * (k - 127)
  }

  // ---------------------------------------------------------------- mask and shift

  /** For every size and every alignment, wrapped or not: the size rounded with the mask is the number found
      with the shift, plus one, times the alignment. The source shifts an int, so for it the alignment is two to
      the power shift only for shifts below 31; it uses 3, 4, 7 and 9. */
  lemma MaskIsShift(size: nat, shift: nat)
    requires shift < 64 && size < WORD
    ensures Pow2(shift) <= WORD
    ensures RoundTo(size, Pow2(shift)) == Word(NumberIn(size, shift) + 1) * Pow2(shift)
  {
    RoundToClears(size, shift);
    var sum := Word(size + Pow2(shift) - 1);
    ClearIsShift(sum, shift);
    ShrShrinks(sum, shift);
    BackAgain(Shr(sum, shift));
  }

  lemma {:induction false} ShrShrinks(x: nat, k: nat)
    ensures Shr(x, k) <= x
  {
    if k > 0 {
      ShrShrinks(x / 2, k - 1);
    }
  }

  lemma BackAgain(n: nat)
    requires n < WORD
    ensures Word(Word(n - 1) + 1) == n
  {
    assert n == 0 ==> Word(n - 1) == WORD - 1;
  }

  lemma Powers()
    ensures Pow2(3) == 8 && Pow2(4) == 16 && Pow2(7) == 128 && Pow2(9) == 512
  {
    assert Pow2(5) == 32;
    assert Pow2(8) == 256;
  }

  /** How many units of d bytes hold x bytes. */
  function Units(x: nat, d: nat): nat
    requires 0 < d
  {
    (x + d - 1) / d
  }

  /** Below the limit nothing wraps, and both are plain division. */
  lemma Divides(size: nat, shift: nat)
    requires size <= MAX_BYTES && Pow2(shift) <= 512 && shift < 64
    ensures RoundTo(size, Pow2(shift)) == Units(size, Pow2(shift)) * Pow2(shift)
    ensures 0 < size ==> NumberIn(size, shift) == Units(size, Pow2(shift)) - 1
  {
    hide Pow2, RoundTo, Shr, Clear;
    var sum := size + Pow2(shift) - 1;
    RoundToClears(size, shift);
    ClearIsShift(sum, shift);
    ShrDivides(sum, shift);
    ShrShrinks(sum, shift);
    if 0 < size {
      AtLeastOne(sum, Pow2(shift));
    }
  }

  lemma AtLeastOne(x: nat, d: nat)
    requires 0 < d <= x
    ensures 0 < x / d
  {
    assert x == d * (x / d) + x % d;
  }

  /** The alignment of a size, and where its group begins: the size and the list behind which it does. */
  function AlignOf(size: nat): nat {
    if size <= 128 then 8 else if size <= 1024 then 16 else if size <= 8 * 1024 then 128 else 512
  }

  function GroupStart(size: nat): nat {
    if size <= 128 then 0 else if size <= 1024 then 128 else if size <= 8 * 1024 then 1024 else 8 * 1024
  }

  function ListsBefore(size: nat): nat {
    if size <= 128 then 0 else if size <= 1024 then 16 else if size <= 8 * 1024 then 72 else 128
  }

  /** round_up and index without words. */
  lemma InPlainTerms(size: nat)
    requires 0 < size <= MAX_BYTES
    ensures RoundUp(size) == Is(Units(size, AlignOf(size)) * AlignOf(size))
    ensures size < MAX_BYTES ==>
      Index(size) == Is(ListsBefore(size) + Units(size - GroupStart(size), AlignOf(size)) - 1)
  {
    hide Pow2, RoundTo, NumberIn, Units;
    Powers();
    if size <= 128 {
      Divides(size, 3);
    } else if size <= 1024 {
      Divides(size, 4);
      InGroup(size, 4);
    } else if size <= 8 * 1024 {
      Divides(size, 7);
      InGroup(size, 7);
    } else {
      Divides(size, 9);
      InGroup(size, 9);
    }
  }

  lemma InGroup(size: nat, shift: nat)
    requires GroupStart(size) < size <= MAX_BYTES && Pow2(shift) <= 512 && shift < 64
    ensures NumberIn(size - GroupStart(size), shift) == Units(size - GroupStart(size), Pow2(shift)) - 1
    ensures 0 < Units(size - GroupStart(size), Pow2(shift)) <= MAX_BYTES
  {
    hide Pow2, RoundTo, NumberIn;
    var x, d := size - GroupStart(size), Pow2(shift);
    Divides(x, shift);
    AtLeastOne(x + d - 1, d);
    AtMost(x, d);
  }

  lemma AtMost(x: nat, d: nat)
    requires 0 < d && 0 < x
    ensures Units(x, d) <= x
  {
    hide Units;
    UnitsHold(x, d);
    Stretches(Units(x, d) - 1, d);
  }

  lemma Stretches(z: nat, d: nat)
    requires 0 < d
    ensures z <= d * z
  {
    assert d * z == (d - 1) * z + z;
  }

  /** The last of the units is begun. */
  lemma UnitsHold(x: nat, d: nat)
    requires 0 < d && 0 < x
    ensures 0 < Units(x, d) && d * (Units(x, d) - 1) < x <= d * Units(x, d)
  {
    AtLeastOne(x + d - 1, d);
    assert x + d - 1 == d * Units(x, d) + (x + d - 1) % d;
    assert d * (Units(x, d) - 1) == d * Units(x, d) - d;
  }

  /** Where in its group a size is: its rounding and its list by the number u of units. */
  lemma Located(size: nat) returns (u: nat)
    requires 0 < size <= MAX_BYTES
    ensures 0 < u && GroupStart(size) + AlignOf(size) * (u - 1) < size <= GroupStart(size) + AlignOf(size) * u
    ensures RoundUp(size) == Is(GroupStart(size) + AlignOf(size) * u)
    ensures size < MAX_BYTES ==> Index(size) == Is(ListsBefore(size) + u - 1)
  {
    hide RoundUp, Index, Units;
    var g, d := GroupStart(size), AlignOf(size);
    InPlainTerms(size);
    u := Units(size - g, d);
    UnitsHold(size - g, d);
    UnitsHold(size, d);
  }

  // ---------------------------------------------------------------- lists and sizes

  /** The list of a size is in the table exactly for one byte or more, and serves exactly the rounded size. */
  lemma ServesRounded(size: nat)
    requires size < MAX_BYTES
    ensures Index(size).Is? && RoundUp(size).Is? && (Index(size).n < NLISTS <==> 0 < size)
    ensures 0 < size ==> SizeOf(Index(size).n) == RoundUp(size).n && size <= RoundUp(size).n <= MAX_BYTES
  {
    if 0 < size {
      hide RoundUp, Index;
      var u := Located(size);
    } else {
      hide Pow2, Shr;
      Powers();
      ShrDivides(7, 3);
    }
  }

  /** A rounded size has the list of the size; but index refuses 64K, the rounding of the last sizes that
      round_up takes. */
  lemma RoundedIsIndexed(size: nat)
    requires 0 < size
    ensures RoundUp(size).Is? <==> size <= MAX_BYTES
    ensures Index(size).Is? <==> size < MAX_BYTES
    ensures size <= MAX_BYTES ==>
      (if size <= LAST_INDEXED then Index(RoundUp(size).n) == Index(size) else Index(RoundUp(size).n) == AssertFails)
  {
    if size <= MAX_BYTES {
      var u := Located(size);
      RoundTwice(size);
    }
  }

  lemma RoundTwice(size: nat)
    requires 0 < size <= MAX_BYTES
    ensures RoundUp(size).Is?
    ensures if size <= LAST_INDEXED then Index(RoundUp(size).n) == Index(size) else RoundUp(size).n == MAX_BYTES
  {
    hide RoundUp, Index;
    var u := Located(size);
    if size <= LAST_INDEXED {
      var v := Located(RoundUp(size).n);
    }
  }

  /** Every list serves a size, which is its own rounding; index finds every list but the last by its size. */
  lemma EveryListServes(k: nat)
    requires k < NLISTS
    ensures 0 < SizeOf(k) <= MAX_BYTES && RoundUp(SizeOf(k)) == Is(SizeOf(k))
    ensures k + 1 < NLISTS ==> SizeOf(k) < SizeOf(k + 1) && Index(SizeOf(k)) == Is(k)
  {
    hide RoundUp, Index;
    var u := Located(SizeOf(k));
  }

  lemma {:induction false} SizesAscend(j: nat, k: nat)
    requires j < k < NLISTS
    ensures SizeOf(j) < SizeOf(k)
  {
    EveryListServes(k - 1);
    if j < k - 1 {
      SizesAscend(j, k - 1);
    }
  }

  /** Two sizes share a list exactly when they are rounded alike, and the lists are in the order of sizes. */
  lemma SameListSameSize(a: nat, b: nat)
    requires 0 < a < MAX_BYTES && 0 < b < MAX_BYTES
    ensures Index(a) == Index(b) <==> RoundUp(a) == RoundUp(b)
    ensures Index(a).Is? && Index(b).Is? && RoundUp(a).Is? && RoundUp(b).Is?
    ensures Index(a).n < Index(b).n <==> RoundUp(a).n < RoundUp(b).n
    ensures a <= b ==> Index(a).n <= Index(b).n
  {
    hide RoundUp, Index;
    ServesRounded(a);
    ServesRounded(b);
    if Index(a).n < Index(b).n {
      SizesAscend(Index(a).n, Index(b).n);
    } else if Index(b).n < Index(a).n {
      SizesAscend(Index(b).n, Index(a).n);
      BetweenLists(b, a);
    }
  }

  /** A larger size has no earlier list. */
  lemma BetweenLists(a: nat, b: nat)
    requires 0 < a < MAX_BYTES && 0 < b < MAX_BYTES && Index(a).Is? && Index(b).Is? && Index(a).n < Index(b).n
    ensures a < b
  {
    hide RoundUp, Index;
    var u := Located(a);
    var v := Located(b);
  }

  /** A rounded size is the smallest served size that is enough. */
  lemma TightestFit(size: nat, k: nat)
    requires 0 < size <= MAX_BYTES && k < NLISTS && size <= SizeOf(k)
    ensures RoundUp(size).Is? && RoundUp(size).n <= SizeOf(k)
  {
    hide RoundUp;
    var u := Located(size);
  }

  /** Above 128 bytes less than an eighth of a block is wasted. */
  lemma LittleWaste(size: nat)
    requires 128 < size <= MAX_BYTES
    ensures RoundUp(size).Is? && 8 * (RoundUp(size).n - size) < RoundUp(size).n
  {
    hide RoundUp;
    var u := Located(size);
  }
}
