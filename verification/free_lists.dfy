/** The sixteen free lists and the reserve of inc/public/myallocator.h, over the set of pieces:
    what one push, one pop and one carving do to them. */
module FreeLists {
  import opened Pieces

  /** The words that link free blocks; clients write the words of their own blocks. */
  type Memory = map<Ptr, Ptr>

  ghost predicate NoDup(l: seq<Ptr>) {
    forall i, j :: 0 <= i < j < |l| ==> l[i] != l[j]
  }

  /** Following the links from h visits l and arrives at last. */
  ghost predicate ChainTo(m: Memory, h: Ptr, l: seq<Ptr>, last: Ptr)
    decreases l
  {
    if l == [] then h == last else h == l[0] && h in m && ChainTo(m, m[h], l[1..], last)
  }

  lemma {:induction false} ChainFrame(m: Memory, m': Memory, h: Ptr, l: seq<Ptr>, last: Ptr)
    requires ChainTo(m, h, l, last)
    requires forall p :: p in l && p in m ==> p in m' && m'[p] == m[p]
    ensures ChainTo(m', h, l, last)
    decreases l
  {
    if l != [] {
      assert h in l;
      ChainFrame(m, m', m[h], l[1..], last);
    }
  }

  lemma {:induction false} ChainSnoc(m: Memory, h: Ptr, l: seq<Ptr>, p: Ptr, next: Ptr)
    requires ChainTo(m, h, l, p) && p !in l
    ensures ChainTo(m[p := next], h, l + [p], next)
    decreases l
  {
    if l == [] {
      assert ChainTo(m[p := next], next, [], next);
      assert ([] + [p])[1..] == [];
    } else {
      ChainSnoc(m, m[h], l[1..], p, next);
      assert (l + [p])[1..] == l[1..] + [p];
    }
  }

  /** Every free piece is in the list of its size, once, and the lists hold nothing else. */
  ghost predicate Classed(ps: map<Ptr, Piece>, lists: seq<seq<Ptr>>) {
    && |lists| == NFREELISTS
    && (forall k, p :: 0 <= k < NFREELISTS && p in lists[k] ==> p in ps && ps[p] == Piece(ALIGN * (k + 1), Free(k)))
    && (forall p :: p in ps && ps[p].kind.Free? ==> ps[p].kind.k < NFREELISTS && p in lists[ps[p].kind.k])
    && (forall k :: 0 <= k < NFREELISTS ==> NoDup(lists[k]))
  }

  ghost predicate Linked(m: Memory, heads: seq<Ptr>, lists: seq<seq<Ptr>>) {
    |heads| == |lists| && forall k :: 0 <= k < |lists| ==> ChainTo(m, heads[k], lists[k], Null)
  }

  /** The reserve [start, end) is one piece, or there is none. */
  ghost predicate Reserved(ps: map<Ptr, Piece>, start: Ptr, end: Ptr) {
    if start == end then
      forall p :: p in ps ==> ps[p].kind != Reserve
    else
      && start.At? && end.At? && start.chunk == end.chunk && start.off < end.off
      && start in ps && ps[start] == Piece(end.off - start.off, Reserve)
      && forall p :: p in ps && ps[p].kind == Reserve ==> p == start
  }

  ghost predicate NoLoose(ps: map<Ptr, Piece>) {
    forall p :: p in ps ==> ps[p].kind != Loose
  }

  ghost predicate OnlyLoose(ps: map<Ptr, Piece>, p: Ptr, size: nat) {
    p in ps && ps[p] == Piece(size, Loose) && forall q :: q in ps && ps[q].kind == Loose ==> q == p
  }

  /** The client holds a block of n bytes at p. */
  predicate LiveAt(ps: map<Ptr, Piece>, p: Ptr, n: nat) {
    p in ps && ps[p] == Piece(n, Live)
  }

  ghost predicate SameLive(ps: map<Ptr, Piece>, ps': map<Ptr, Piece>) {
    forall p, n :: LiveAt(ps', p, n) <==> LiveAt(ps, p, n)
  }

  /** A piece that is the pool's to write in. */
  predicate PoolOwns(ps: map<Ptr, Piece>, a: Ptr) {
    a in ps && ps[a].kind != Live
  }

  ghost predicate StillOwned(ps: map<Ptr, Piece>, ps': map<Ptr, Piece>) {
    forall a :: PoolOwns(ps, a) ==> PoolOwns(ps', a)
  }

  predicate SameWord(m: Memory, m': Memory, a: Ptr) {
    (a in m' <==> a in m) && (a in m ==> m'[a] == m[a])
  }

  /** Only first words of the pool's own pieces have changed. */
  ghost predicate OwnWrites(ps: map<Ptr, Piece>, m: Memory, m': Memory) {
    forall a :: SameWord(m, m', a) || PoolOwns(ps, a)
  }

  // ---------------------------------------------------------------- one block in, one block out

  /** Putting a piece of the right size at the head of list k. */
  lemma Push(ps: map<Ptr, Piece>, chunks: seq<nat>, m: Memory, heads: seq<Ptr>, lists: seq<seq<Ptr>>, p: Ptr, k: nat)
    requires Sound(ps, chunks) && Classed(ps, lists) && Linked(m, heads, lists)
    requires k < NFREELISTS && p in ps && !ps[p].kind.Free? && ps[p].size == ALIGN * (k + 1)
    ensures var ps', lists' := ps[p := ps[p].(kind := Free(k))], lists[k := [p] + lists[k]];
      && Sound(ps', chunks) && Total(ps') == Total(ps)
      && Classed(ps', lists') && Linked(m[p := heads[k]], heads[k := p], lists')
  {
    Recast(ps, chunks, p, Free(k));
    assert forall j :: 0 <= j < NFREELISTS ==> p !in lists[j];
    var m', heads', lists' := m[p := heads[k]], heads[k := p], lists[k := [p] + lists[k]];
    forall j | 0 <= j < |lists| ensures ChainTo(m', heads'[j], lists'[j], Null) {
      ChainFrame(m, m', heads[j], lists[j], Null);
      assert ([p] + lists[k])[1..] == lists[k];
    }
    PushClassed(ps, lists, p, k);
  }

  lemma PushClassed(ps: map<Ptr, Piece>, lists: seq<seq<Ptr>>, p: Ptr, k: nat)
    requires Classed(ps, lists)
    requires k < NFREELISTS && p in ps && !ps[p].kind.Free? && ps[p].size == ALIGN * (k + 1)
    ensures Classed(ps[p := ps[p].(kind := Free(k))], lists[k := [p] + lists[k]])
  {
    var ps', lists' := ps[p := ps[p].(kind := Free(k))], lists[k := [p] + lists[k]];
    assert p !in lists[k] && p in lists'[k];
    assert forall q, j :: 0 <= j < NFREELISTS && q in lists[j] ==> q in lists'[j];
    assert forall q, j :: 0 <= j < NFREELISTS && q in lists'[j] ==> q in lists[j] || (q == p && j == k);
  }

  /** Taking the head of list k. */
  lemma Pop(ps: map<Ptr, Piece>, chunks: seq<nat>, m: Memory, heads: seq<Ptr>, lists: seq<seq<Ptr>>, k: nat, kind: Kind)
    requires Sound(ps, chunks) && Classed(ps, lists) && Linked(m, heads, lists)
    requires k < NFREELISTS && heads[k] != Null && !kind.Free?
    ensures lists[k] != [] && heads[k] == lists[k][0] && heads[k] in m && heads[k] in ps
    ensures ps[heads[k]] == Piece(ALIGN * (k + 1), Free(k))
    ensures var ps', lists' := ps[heads[k] := ps[heads[k]].(kind := kind)], lists[k := lists[k][1..]];
      && Sound(ps', chunks) && Total(ps') == Total(ps)
      && Classed(ps', lists') && Linked(m, heads[k := m[heads[k]]], lists')
  {
    var p := heads[k];
    assert ChainTo(m, p, lists[k], Null);
    assert p == lists[k][0] && p in lists[k];
    Recast(ps, chunks, p, kind);
    PopClassed(ps, lists, k, kind);
  }

  lemma PopClassed(ps: map<Ptr, Piece>, lists: seq<seq<Ptr>>, k: nat, kind: Kind)
    requires Classed(ps, lists) && k < NFREELISTS && lists[k] != [] && !kind.Free?
    ensures lists[k][0] in ps
    ensures Classed(ps[lists[k][0] := ps[lists[k][0]].(kind := kind)], lists[k := lists[k][1..]])
  {
    var p, lists' := lists[k][0], lists[k := lists[k][1..]];
    assert p in lists[k];
    var ps' := ps[p := ps[p].(kind := kind)];
    assert lists[k] == [p] + lists[k][1..];
    assert forall q, j :: 0 <= j < NFREELISTS && q in lists'[j] ==> q in lists[j] && q != p;
    assert forall q, j :: 0 <= j < NFREELISTS && q in lists[j] && q != p ==> q in lists'[j];
  }

  /** An empty list is the one whose head is null. */
  lemma EmptyIffNull(ps: map<Ptr, Piece>, chunks: seq<nat>, m: Memory, heads: seq<Ptr>, lists: seq<seq<Ptr>>, k: nat)
    requires Sound(ps, chunks) && Classed(ps, lists) && Linked(m, heads, lists) && k < NFREELISTS
    ensures heads[k] == Null <==> lists[k] == []
  {
    assert ChainTo(m, heads[k], lists[k], Null);
    if lists[k] != [] {
      assert lists[k][0] in lists[k];
      assert Fits(lists[k][0], ps[lists[k][0]].size, chunks);
    }
  }

  // ---------------------------------------------------------------- a run of equal blocks

  /** The addresses of count blocks of n bytes, one after the other from p. */
  function Run(p: Ptr, n: nat, count: nat): (l: seq<Ptr>)
    requires p.At?
    ensures |l| == count
    ensures forall q :: q in l ==> q.At? && q.chunk == p.chunk && q.off >= p.off
    decreases count
  {
    if count == 0 then [] else [p] + Run(Plus(p, n), n, count - 1)
  }

  lemma {:induction false} RunNoDup(p: Ptr, n: nat, count: nat)
    requires p.At? && 0 < n
    ensures NoDup(Run(p, n, count))
    decreases count
  {
    if count > 0 {
      RunNoDup(Plus(p, n), n, count - 1);
    }
  }

  lemma {:induction false} RunSnoc(p: Ptr, n: nat, count: nat)
    requires p.At?
    ensures Run(p, n, count + 1) == Run(p, n, count) + [Plus(p, count * n)]
    decreases count
  {
    if count > 0 {
      RunSnoc(Plus(p, n), n, count - 1);
      assert Plus(Plus(p, n), (count - 1) * n) == Plus(p, count * n);
    }
  }

  /** The loose piece at p cut into count free blocks of n bytes. */
  ghost function Carve(ps: map<Ptr, Piece>, p: Ptr, n: nat, count: nat, k: nat): map<Ptr, Piece>
    requires p in ps && p.At? && 0 < n && 0 < count && ps[p].size == count * n
    decreases count
  {
    if count == 1 then ps[p := ps[p].(kind := Free(k))]
    else
      assert count * n == n + (count - 1) * n;
      assert 0 < (count - 1) * n;
      Carve(Cut(ps, p, n, Free(k), Loose), Plus(p, n), n, count - 1, k)
  }

  /** What carving does: the blocks of the run replace the piece at p, all else stays. */
  ghost predicate Carved(ps: map<Ptr, Piece>, ps': map<Ptr, Piece>, p: Ptr, run: seq<Ptr>, block: Piece) {
    && (forall q :: q in ps && q != p ==> q in ps' && ps'[q] == ps[q] && q !in run)
    && (forall q :: q in ps' && q !in run ==> q in ps && q != p)
    && (forall q :: q in run ==> q in ps' && ps'[q] == block)
  }

  lemma {:induction false} CarveIsSound(ps: map<Ptr, Piece>, chunks: seq<nat>, p: Ptr, n: nat, count: nat, k: nat)
    requires Sound(ps, chunks) && p in ps && p.At? && 0 < n && n % ALIGN == 0 && 0 < count && ps[p].size == count * n
    ensures var ps' := Carve(ps, p, n, count, k);
      && Sound(ps', chunks) && Total(ps') == Total(ps)
      && Carved(ps, ps', p, Run(p, n, count), Piece(n, Free(k)))
    decreases count
  {
    if count == 1 {
      Recast(ps, chunks, p, Free(k));
      assert Run(p, n, 1) == [p];
    } else {
      assert count * n == n + (count - 1) * n;
      assert 0 < (count - 1) * n;
      CutIsSound(ps, chunks, p, n, Free(k), Loose);
      var ps1 := Cut(ps, p, n, Free(k), Loose);
      CarveIsSound(ps1, chunks, Plus(p, n), n, count - 1, k);
      CutThenCarved(ps, ps1, Carve(ps1, Plus(p, n), n, count - 1, k), p, n, Run(Plus(p, n), n, count - 1), k);
    }
  }

  lemma CutThenCarved(ps: map<Ptr, Piece>, ps1: map<Ptr, Piece>, ps': map<Ptr, Piece>, p: Ptr, n: nat, run: seq<Ptr>,
                      k: nat)
    requires p in ps && p.At? && 0 < n < ps[p].size && Plus(p, n) !in ps && ps1 == Cut(ps, p, n, Free(k), Loose)
    requires Carved(ps1, ps', Plus(p, n), run, Piece(n, Free(k)))
    requires Plus(p, n) in run
    ensures Carved(ps, ps', p, [p] + run, Piece(n, Free(k)))
  {
    assert p in ps1;
  }

  /** Carving a loose piece into the blocks of an empty list. */
  lemma CarveClassed(ps: map<Ptr, Piece>, ps': map<Ptr, Piece>, lists: seq<seq<Ptr>>, p: Ptr, run: seq<Ptr>, k: nat)
    requires p in ps && ps[p].kind == Loose && p in run && NoDup(run)
    requires Carved(ps, ps', p, run, Piece(ALIGN * (k + 1), Free(k)))
    requires Classed(ps, lists) && k < NFREELISTS && lists[k] == []
    ensures Classed(ps', lists[k := run])
  {
    var lists' := lists[k := run];
    forall j, q | 0 <= j < NFREELISTS && q in lists'[j] ensures q in ps' && ps'[q] == Piece(ALIGN * (j + 1), Free(j)) {
      if j != k {
        assert q in ps && q != p;
      }
    }
    forall q | q in ps' && ps'[q].kind.Free? ensures ps'[q].kind.k < NFREELISTS && q in lists'[ps'[q].kind.k] {
      if q !in run {
        assert q in lists[ps[q].kind.k];
      }
    }
  }
}
