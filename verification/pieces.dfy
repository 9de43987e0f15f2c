/** The memory pool of inc/public/myallocator.h as a set of pieces: what the pool has obtained from
    malloc, cut into live blocks, free blocks and the reserve. */
module Pieces {
  import Bits

  /** A byte address: the malloc block it lies in and the offset there. */
  datatype Ptr = Null | At(chunk: nat, off: nat)

  datatype Kind = Live | Loose | Free(k: nat) | Reserve

  datatype Piece = Piece(size: nat, kind: Kind)

  const ALIGN: nat := 8
  const MAX_BYTES: nat := 128
  const NFREELISTS: nat := 16

  function Plus(p: Ptr, n: nat): Ptr
    requires p.At?
  {
    At(p.chunk, p.off + n)
  }

  /** Two stretches of memory that share no byte. */
  predicate Apart(p: Ptr, n: nat, q: Ptr, m: nat)
    requires p.At? && q.At?
  {
    p.chunk != q.chunk || p.off + n <= q.off || q.off + m <= p.off
  }

  predicate Fits(p: Ptr, n: nat, chunks: seq<nat>) {
    p.At? && p.chunk < |chunks| && p.off + n <= chunks[p.chunk] && 0 < n && n % ALIGN == 0 && p.off % ALIGN == 0
  }

  /** Aligned pieces inside the chunks, no two sharing a byte. */
  ghost predicate Sound(ps: map<Ptr, Piece>, chunks: seq<nat>) {
    && (forall p :: p in ps ==> Fits(p, ps[p].size, chunks))
    && (forall p, q :: p in ps && q in ps && p != q ==> Apart(p, ps[p].size, q, ps[q].size))
  }

  ghost function Pick(ps: map<Ptr, Piece>): (p: Ptr)
    requires ps != map[]
    ensures p in ps
  {
    assert exists p :: p in ps by {
      assert ps.Keys != {};
    }
    var p :| p in ps;
    p
  }

  ghost function Total(ps: map<Ptr, Piece>): nat
    decreases |ps|
  {
    if ps == map[] then 0 else ps[Pick(ps)].size + Total(ps - {Pick(ps)})
  }

  lemma {:induction false} TotalWithout(ps: map<Ptr, Piece>, p: Ptr)
    requires p in ps
    ensures Total(ps) == ps[p].size + Total(ps - {p})
    decreases |ps|
  {
    var q := Pick(ps);
    if q != p {
      TotalWithout(ps - {q}, p);
      TotalWithout(ps - {p}, q);
      assert ps - {q} - {p} == ps - {p} - {q};
    }
  }

  lemma TotalUpdate(ps: map<Ptr, Piece>, p: Ptr, x: Piece)
    ensures Total(ps[p := x]) == Total(ps) + x.size - (if p in ps then ps[p].size else 0)
  {
    TotalWithout(ps[p := x], p);
    assert ps[p := x] - {p} == ps - {p};
    if p in ps {
      TotalWithout(ps, p);
    } else {
      assert ps - {p} == ps;
    }
  }

  /** Giving a piece another role moves no byte. */
  lemma Recast(ps: map<Ptr, Piece>, chunks: seq<nat>, p: Ptr, kind: Kind)
    requires Sound(ps, chunks) && p in ps
    ensures var ps' := ps[p := ps[p].(kind := kind)]; Sound(ps', chunks) && Total(ps') == Total(ps)
  {
    TotalUpdate(ps, p, ps[p].(kind := kind));
  }

  function Cut(ps: map<Ptr, Piece>, p: Ptr, m: nat, first: Kind, second: Kind): map<Ptr, Piece>
    requires p in ps && p.At? && m < ps[p].size
  {
    ps[p := Piece(m, first)][Plus(p, m) := Piece(ps[p].size - m, second)]
  }

  /** No piece starts inside another. */
  lemma NothingInside(ps: map<Ptr, Piece>, chunks: seq<nat>, p: Ptr, m: nat)
    requires Sound(ps, chunks) && p in ps && 0 < m < ps[p].size
    ensures p.At? && Plus(p, m) !in ps
  {
    assert Fits(p, ps[p].size, chunks);
    var q := Plus(p, m);
    assert q in ps ==> Fits(q, ps[q].size, chunks) && Apart(p, ps[p].size, q, ps[q].size);
  }

  lemma CutApart(ps: map<Ptr, Piece>, chunks: seq<nat>, p: Ptr, m: nat, r: Ptr)
    requires Sound(ps, chunks) && p in ps && 0 < m < ps[p].size && r in ps && r != p
    ensures p.At? && r.At? && Apart(p, m, r, ps[r].size) && Apart(Plus(p, m), ps[p].size - m, r, ps[r].size)
    ensures Apart(r, ps[r].size, p, m) && Apart(r, ps[r].size, Plus(p, m), ps[p].size - m)
  {
    assert Fits(p, ps[p].size, chunks) && Fits(r, ps[r].size, chunks) && Apart(p, ps[p].size, r, ps[r].size);
  }

  lemma CutTotal(ps: map<Ptr, Piece>, p: Ptr, m: nat, first: Kind, second: Kind)
    requires p in ps && p.At? && 0 < m < ps[p].size && Plus(p, m) !in ps
    ensures Total(Cut(ps, p, m, first, second)) == Total(ps)
  {
    TotalUpdate(ps, p, Piece(m, first));
    TotalUpdate(ps[p := Piece(m, first)], Plus(p, m), Piece(ps[p].size - m, second));
  }

  lemma Multiples(a: int, b: int)
    requires a % ALIGN == 0 && b % ALIGN == 0
    ensures (a + b) % ALIGN == 0 && (a - b) % ALIGN == 0
  {
  }

  lemma CutFits(ps: map<Ptr, Piece>, chunks: seq<nat>, p: Ptr, m: nat, first: Kind, second: Kind, r: Ptr)
    requires Sound(ps, chunks) && p in ps && 0 < m < ps[p].size && m % ALIGN == 0 && p.At?
    requires r in Cut(ps, p, m, first, second)
    ensures Fits(r, Cut(ps, p, m, first, second)[r].size, chunks)
  {
    assert Fits(p, ps[p].size, chunks);
    Multiples(p.off, m);
    Multiples(ps[p].size, m);
    if r != p && r != Plus(p, m) {
      assert Fits(r, ps[r].size, chunks);
    }
  }

  lemma CutPair(ps: map<Ptr, Piece>, chunks: seq<nat>, p: Ptr, m: nat, first: Kind, second: Kind, r: Ptr, u: Ptr)
    requires Sound(ps, chunks) && p in ps && 0 < m < ps[p].size && p.At? && Plus(p, m) !in ps
    requires r in Cut(ps, p, m, first, second) && u in Cut(ps, p, m, first, second) && r != u
    ensures var ps' := Cut(ps, p, m, first, second); r.At? && u.At? && Apart(r, ps'[r].size, u, ps'[u].size)
  {
    var q, ps' := Plus(p, m), Cut(ps, p, m, first, second);
    if r in {p, q} {
      if u !in {p, q} {
        CutApart(ps, chunks, p, m, u);
      }
    } else if u in {p, q} {
      CutApart(ps, chunks, p, m, r);
    } else {
      assert Fits(r, ps[r].size, chunks) && Fits(u, ps[u].size, chunks) && Apart(r, ps[r].size, u, ps[u].size);
    }
  }

  /** Cutting a piece in two keeps the pool sound and loses no byte. */
  lemma CutIsSound(ps: map<Ptr, Piece>, chunks: seq<nat>, p: Ptr, m: nat, first: Kind, second: Kind)
    requires Sound(ps, chunks) && p in ps && 0 < m < ps[p].size && m % ALIGN == 0
    ensures p.At? && Plus(p, m) !in ps
    ensures var ps' := Cut(ps, p, m, first, second); Sound(ps', chunks) && Total(ps') == Total(ps)
  {
    NothingInside(ps, chunks, p, m);
    CutTotal(ps, p, m, first, second);
    var ps' := Cut(ps, p, m, first, second);
    forall r | r in ps' ensures Fits(r, ps'[r].size, chunks) {
      CutFits(ps, chunks, p, m, first, second, r);
    }
    forall r, u | r in ps' && u in ps' && r != u ensures Apart(r, ps'[r].size, u, ps'[u].size) {
      CutPair(ps, chunks, p, m, first, second, r, u);
    }
  }

  /** A block fresh from malloc joins as one piece. */
  lemma GrowIsSound(ps: map<Ptr, Piece>, chunks: seq<nat>, n: nat, kind: Kind)
    requires Sound(ps, chunks) && 0 < n && n % ALIGN == 0
    ensures At(|chunks|, 0) !in ps
    ensures var ps' := ps[At(|chunks|, 0) := Piece(n, kind)]; Sound(ps', chunks + [n]) && Total(ps') == Total(ps) + n
  {
    var p := At(|chunks|, 0);
    var ps' := ps[p := Piece(n, kind)];
    assert forall r :: r in ps ==> Fits(r, ps[r].size, chunks);
    assert p !in ps;
    TotalUpdate(ps, p, Piece(n, kind));
    forall r | r in ps' ensures Fits(r, ps'[r].size, chunks + [n]) {
      if r != p {
        assert Fits(r, ps[r].size, chunks);
      }
    }
    forall r, u | r in ps' && u in ps' && r != u ensures Apart(r, ps'[r].size, u, ps'[u].size) {
      if r != p && u != p {
        assert Apart(r, ps[r].size, u, ps[u].size);
      }
    }
  }

  /** Chunks that the pool does not own may come between. */
  lemma MoreChunks(ps: map<Ptr, Piece>, chunks: seq<nat>, n: nat)
    requires Sound(ps, chunks)
    ensures Sound(ps, chunks + [n])
  {
    forall r | r in ps ensures Fits(r, ps[r].size, chunks + [n]) {
      assert Fits(r, ps[r].size, chunks);
    }
  }

  // ---------------------------------------------------------------- sizes

  const SIZE_MODULUS: nat := Bits.WORD

  /** _S_round_up, as the arithmetic it stands for. */
  function RoundUp(n: nat): nat {
    (n + ALIGN - 1) / ALIGN * ALIGN
  }

  /** _S_freelist_index: an unsigned subtraction, which wraps for zero bytes. */
  function FreelistIndex(n: nat): nat {
    ((n + ALIGN - 1) / ALIGN + SIZE_MODULUS - 1) % SIZE_MODULUS
  }

  /** The mask of the source rounds a word up like the arithmetic if and only if the sum stays within a word. */
  lemma MaskRoundsUp(n: nat)
    requires n < SIZE_MODULUS
    ensures Bits.RoundTo(n, ALIGN) == RoundUp(n) <==> n + ALIGN - 1 < SIZE_MODULUS
  {
    assert Bits.Pow2(3) == ALIGN;
    Bits.RoundToClears(n, 3);
    Bits.RoundsUp(n, 3);
    var sum := Bits.Word(n + ALIGN - 1);
    Bits.ClearIsShift(sum, 3);
    Bits.ShrDivides(sum, 3);
  }

  /** The index is a list of the table exactly for one to 128 bytes; the list's blocks have the
      rounded size. */
  lemma IndexInTable(n: nat)
    requires n <= MAX_BYTES
    ensures FreelistIndex(n) < NFREELISTS <==> 1 <= n
    ensures 1 <= n ==>
            RoundUp(n) == ALIGN * (FreelistIndex(n) + 1) && n <= RoundUp(n) <= MAX_BYTES && RoundUp(n) - n < ALIGN
  {
  }
}
