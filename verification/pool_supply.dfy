/** How much the allocator of inc/public/myallocator.h gets from malloc, how much of it a refill leaves, and
    for how many requests that is enough. All amounts are written out as numbers. */
module PoolSupply {
  import opened Pieces
  import opened FreeLists
  import opened PoolBooks
  import opened PoolRequests

  /** A sixteenth of the memory obtained so far, rounded up to eights. */
  function Share(heap: nat): nat {
    (heap / 16 + 7) / 8 * 8
  }

  /** The bytes a chunk of want objects is cut from. */
  ghost function Supply(b: Books, size: nat, want: nat, o: Origin): nat {
    match o
    case TheReserve => Left(b)
    case FromMalloc(_) => 2 * (size * want) + Share(b.heap)
    case BiggerList(j) => 8 * (j + 1)
    case Nowhere => 0
  }

  function AsMany(want: nat, supply: nat, size: nat): nat
    requires 0 < size
  {
    if want * size <= supply then want else supply / size
  }

  /** The malloc blocks after a chunk. */
  ghost predicate GrownBy(b: Books, b': Books, bytes: nat) {
    b'.heap == b.heap + bytes && b'.chunks == (if bytes == 0 then b.chunks else b.chunks + [bytes])
  }

  lemma StockLeft(b: Books, size: nat, want: nat, o: Origin)
    requires Serving(b, size, o) && 0 < want
    ensures var s := Stocked(b, size, want, o);
      && Left(s) == Supply(b, size, want, o)
      && GrownBy(b, s, if o.FromMalloc? then Supply(b, size, want, o) else 0)
  {
    hide Sound, Classed, Linked, Reserved, NoLoose, LargeApart, SameLive, StillOwned, OwnWrites;
    Sizes(b);
    if !o.TheReserve? {
      FileKeeps(b);
      var f := Filed(b);
      Sizes(f);
      match o {
        case FromMalloc(_) =>
          BytesToGetEnough(size, want, b.heap);
          GrowKeeps(f, BytesToGet(size, want, b.heap));
        case BiggerList(k) =>
          ReopenKeeps(f, k);
        case Nowhere =>
      }
    }
  }

  /** A chunk is as many objects as are wanted or as fit, and what is left of the supply is the reserve. From
      malloc come all that are wanted, and as many bytes again and a share of the heap stay in reserve. */
  lemma ChunkLeaves(b: Books, size: nat, want: nat, o: Origin)
    requires Serving(b, size, o) && 0 < want && !o.Nowhere?
    ensures var (b', r) := Chunked(b, size, want, o);
      var supply := Supply(b, size, want, o);
      && r.Granted? && r.count == AsMany(want, supply, size) && Left(b') == supply - r.count * size
      && GrownBy(b, b', if o.FromMalloc? then supply else 0)
      && (o.FromMalloc? ==> r.at == At(|b.chunks|, 0) && r.count == want && Left(b') == size * want + Share(b.heap))
      && (o.TheReserve? ==> r.at == b.start)
  {
    hide Sound, Classed, Linked, NoLoose, LargeApart, SameLive, StillOwned, OwnWrites, Reserved;
    StockKeeps(b, size, want, o);
    StockLeft(b, size, want, o);
    var s := Stocked(b, size, want, o);
    TakeChunk(b, s, size, want);
    Objects(size, want, Left(s));
    LeftoverIsWhole(s);
    Commutes(size, want);
  }

  lemma Commutes(a: nat, b: nat)
    ensures a * b == b * a
  {
  }

  /** The blocks of the class that can be served before malloc is needed. */
  ghost function Ready(b: Books, size: nat): nat
    requires |b.lists| == NFREELISTS && 8 <= size <= MAX_BYTES
  {
    |b.lists[size / 8 - 1]| + Left(b) / size
  }

  /** After a refill: one object is the client's, the others of the chunk are the list. */
  lemma RefillLeaves(b: Books, n: nat, o: Origin)
    requires Serving(b, n, o) && b.lists[n / 8 - 1] == [] && !o.Nowhere?
    ensures var a := Refilled(b, n, o);
      var supply := Supply(b, n, 20, o);
      var count := AsMany(20, supply, n);
      && a.result.Block? && Valid(a.books) && |a.books.lists| == NFREELISTS
      && |a.books.lists[n / 8 - 1]| == count - 1 && Left(a.books) == supply - count * n
      && GrownBy(b, a.books, if o.FromMalloc? then supply else 0)
      && (o.FromMalloc? ==> count == 20 && Left(a.books) == 20 * n + Share(b.heap))
  {
    hide Sound, Classed, Linked, NoLoose, LargeApart, SameLive, StillOwned, OwnWrites, Reserved, LinkRun, Carve, Cut;
    RefillKeeps(b, n, o);
    ChunkKeeps(b, n, 20, o);
    ChunkSparesList(b, n, 20, o);
    ChunkLeaves(b, n, 20, o);
    var (c, r) := Chunked(b, n, 20, o);
    Sizes(Refilled(b, n, o).books);
  }

  /** The size of the blocks that serve n bytes. */
  function ClassOf(n: nat): nat {
    (n + 7) / 8 * 8
  }

  lemma AllocatedByList(b: Books, n: nat, first: bool, second: bool)
    requires Valid(b) && 1 <= n <= 128
    ensures var size := ClassOf(n); 8 <= size <= 128 && |b.lists| == NFREELISTS && FreelistIndex(n) == size / 8 - 1
    ensures var k, size := ClassOf(n) / 8 - 1, ClassOf(n);
      var o := OriginOf(size, Left(b), b.lists, first, second);
      Serving(b, size, o)
      && Allocated(b, n, first, second) == if b.lists[k] != [] then HandedOut(b, k) else Refilled(b, size, o)
  {
    Sizes(b);
    hide Sound, Classed, Linked, LargeApart, NoLoose, Reserved, Refilled, HandedOut, FirstFilled, Left;
    IndexInTable(n);
  }

  lemma TakenFromList(b: Books, k: nat)
    requires Valid(b) && k < NFREELISTS && b.lists[k] != []
    ensures var a := HandedOut(b, k);
      && a.result == Block(b.lists[k][0]) && a.calls == 0 && Valid(a.books) && |a.books.lists| == NFREELISTS
      && |a.books.lists[k]| == |b.lists[k]| - 1 && Left(a.books) == Left(b) && GrownBy(b, a.books, 0)
  {
    hide Sound, Classed, Linked, NoLoose, LargeApart, Reserved;
    HandOutKeeps(b, k);
    HeadOf(b, k);
    Sizes(b);
  }

  /** What is left after the objects of a refill, counted in objects. */
  lemma FewerObjects(size: nat, left: nat)
    requires 0 < size <= left
    ensures var count := AsMany(20, left, size);
      0 < count && count * size <= left && count - 1 + (left - count * size) / size == left / size - 1
  {
    var count, d := AsMany(20, left, size), left / size;
    assert d * size <= left < (d + 1) * size;
    if 20 * size <= left {
      assert 20 <= d by {
        if d < 20 {
          Multiply(d + 1, 20, size);
        }
      }
      Multiply(20, d, size);
    }
    var rest := left - count * size;
    assert rest == (d - count) * size + left % size by {
      assert left == d * size + left % size;
      assert (d - count) * size == d * size - count * size;
    }
    QuotientOf(rest, size, d - count, left % size);
  }

  lemma QuotientOf(x: nat, size: nat, q: nat, r: nat)
    requires r < size && x == q * size + r
    ensures x / size == q
  {
    var e := x / size;
    assert e * size <= x < (e + 1) * size;
    if e < q {
      Multiply(e + 1, q, size);
    } else if q < e {
      Multiply(q + 1, e, size);
    }
  }

  lemma Positive(x: nat, size: nat)
    requires 0 < size
    ensures 0 < x / size <==> size <= x
  {
  }

  /** A block is ready exactly when the list has one or the reserve is long enough for one. */
  lemma ReadyFrom(b: Books, size: nat)
    requires |b.lists| == NFREELISTS && 8 <= size <= MAX_BYTES
    ensures 0 < Ready(b, size) <==> b.lists[size / 8 - 1] != [] || size <= Left(b)
  {
    Positive(Left(b), size);
  }

  lemma ReadyInList(b: Books, size: nat)
    requires Valid(b) && |b.lists| == NFREELISTS && 8 <= size <= 128 && b.lists[size / 8 - 1] != []
    ensures var a := HandedOut(b, size / 8 - 1);
      && a.result.Block? && a.calls == 0 && Valid(a.books) && |a.books.lists| == NFREELISTS
      && Ready(a.books, size) == Ready(b, size) - 1 && GrownBy(b, a.books, 0)
  {
    hide Valid, HandedOut;
    TakenFromList(b, size / 8 - 1);
  }

  lemma ReadyInReserve(b: Books, size: nat)
    requires Serving(b, size, TheReserve) && |b.lists| == NFREELISTS && b.lists[size / 8 - 1] == []
    ensures var a := Refilled(b, size, TheReserve);
      && a.result.Block? && a.calls == 0 && Valid(a.books) && |a.books.lists| == NFREELISTS
      && Ready(a.books, size) == Ready(b, size) - 1 && GrownBy(b, a.books, 0)
  {
    hide Valid, Refilled, AsMany;
    RefillCalls(b, size, TheReserve);
    RefillLeaves(b, size, TheReserve);
    FewerObjects(size, Left(b));
  }

  /** A request is served without malloc exactly when a block of its class is ready, and it takes one of them,
      whatever malloc would answer. */
  lemma ReadyServes(b: Books, n: nat, first: bool, second: bool)
    requires Valid(b) && 1 <= n <= 128
    ensures |b.lists| == NFREELISTS && 8 <= ClassOf(n) <= 128
    ensures var a := Allocated(b, n, first, second);
      && (a.calls == 0 <==> 0 < Ready(b, ClassOf(n)))
      && (a.calls == 0 ==>
          && a.result.Block? && Valid(a.books) && |a.books.lists| == NFREELISTS
          && Ready(a.books, ClassOf(n)) == Ready(b, ClassOf(n)) - 1 && GrownBy(b, a.books, 0))
  {
    hide Valid, Ready, Refilled, HandedOut, Allocated, GrownBy, FirstFilled;
    AllocatedByList(b, n, first, second);
    var size := ClassOf(n);
    ReadyFrom(b, size);
    if b.lists[size / 8 - 1] != [] {
      ReadyInList(b, size);
    } else if size <= Left(b) {
      ReadyInReserve(b, size);
    } else {
      RefillCalls(b, size, OriginOf(size, Left(b), b.lists, first, second));
    }
  }

  lemma RefillCalls(b: Books, n: nat, o: Origin)
    requires Serving(b, n, o) && b.lists[n / 8 - 1] == []
    ensures Refilled(b, n, o).calls == match o { case TheReserve => 0 case FromMalloc(c) => c case BiggerList(_) => 1
                                                 case Nowhere => 2 }
  {
  }

  /** A refill that malloc pays for leaves 39 more blocks of the class, and those of the share of the heap. It asks
      for forty objects and the share. */
  lemma MallocStocksUp(b: Books, n: nat, first: bool, second: bool)
    requires Valid(b) && 1 <= n <= 128 && |b.lists| == NFREELISTS && Ready(b, ClassOf(n)) == 0
    requires first || (second && forall k :: ClassOf(n) / 8 - 1 <= k < NFREELISTS ==> b.lists[k] == [])
    ensures var a := Allocated(b, n, first, second);
      && a.result == Block(At(|b.chunks|, 0)) && a.calls == (if first then 1 else 2)
      && Valid(a.books) && |a.books.lists| == NFREELISTS
      && GrownBy(b, a.books, 40 * ClassOf(n) + Share(b.heap))
      && Left(a.books) == 20 * ClassOf(n) + Share(b.heap)
      && |a.books.lists[ClassOf(n) / 8 - 1]| == 19
      && Ready(a.books, ClassOf(n)) == 39 + Share(b.heap) / ClassOf(n)
  {
    hide Valid, Refilled, HandedOut, Allocated, FirstFilled, Share, Ready;
    AllocatedByList(b, n, first, second);
    var size := ClassOf(n);
    ReadyFrom(b, size);
    var o := FromMalloc(if first then 1 else 2);
    OriginIsMalloc(b, size, first, second);
    RefillCalls(b, size, o);
    StockedUp(b, size, o);
    RefillAt(b, size, o);
  }

  lemma OriginIsMalloc(b: Books, size: nat, first: bool, second: bool)
    requires |b.lists| == NFREELISTS && 8 <= size <= 128 && Left(b) < size
    requires first || (second && forall k :: size / 8 - 1 <= k < NFREELISTS ==> b.lists[k] == [])
    ensures OriginOf(size, Left(b), b.lists, first, second) == FromMalloc(if first then 1 else 2)
  {
  }

  lemma StockedUp(b: Books, size: nat, o: Origin)
    requires Serving(b, size, o) && |b.lists| == NFREELISTS && b.lists[size / 8 - 1] == [] && o.FromMalloc?
    ensures var a := Refilled(b, size, o);
      && a.result.Block? && Valid(a.books) && |a.books.lists| == NFREELISTS
      && GrownBy(b, a.books, 40 * size + Share(b.heap)) && Left(a.books) == 20 * size + Share(b.heap)
      && |a.books.lists[size / 8 - 1]| == 19 && Ready(a.books, size) == 39 + Share(b.heap) / size
  {
    hide Valid, Refilled, AsMany, Share;
    RefillLeaves(b, size, o);
    var share := Share(b.heap);
    QuotientOf(20 * size + share, size, 20 + share / size, share % size);
  }

  lemma RefillAt(b: Books, n: nat, o: Origin)
    requires Serving(b, n, o) && b.lists[n / 8 - 1] == [] && o.FromMalloc?
    ensures Refilled(b, n, o).result == Block(At(|b.chunks|, 0))
  {
    hide Sound, Classed, Linked, NoLoose, LargeApart, Reserved, SameLive, StillOwned, OwnWrites;
    ChunkLeaves(b, n, 20, o);
  }

  /** Right after such a refill no request of up to 128 bytes needs malloc. */
  lemma EnoughForAnySize(b: Books, n: nat, first: bool, second: bool, m: nat)
    requires Valid(b) && 1 <= n <= 128 && |b.lists| == NFREELISTS && Ready(b, ClassOf(n)) == 0 && 1 <= m <= 128
    requires first || (second && forall k :: ClassOf(n) / 8 - 1 <= k < NFREELISTS ==> b.lists[k] == [])
    ensures var b' := Allocated(b, n, first, second).books;
      Valid(b') && var a := Allocated(b', m, false, false); a.result.Block? && a.calls == 0
  {
    hide Allocated, Valid;
    MallocStocksUp(b, n, first, second);
    var b' := Allocated(b, n, first, second).books;
    assert 128 <= Left(b');
    ReadyServes(b', m, false, false);
    FewerObjects(ClassOf(m), Left(b'));
  }

  // ---------------------------------------------------------------- many requests

  ghost predicate OfClass(ns: seq<nat>, size: nat) {
    forall i :: 0 <= i < |ns| ==> 1 <= ns[i] <= 128 && ClassOf(ns[i]) == size
  }

  /** Each of the requests, made one after the other, gets a block without a call of malloc. */
  ghost predicate AllServed(b: Books, ns: seq<nat>)
    requires Valid(b)
    decreases ns
  {
    ns != [] ==>
      var a := Allocated(b, ns[0], false, false);
      a.result.Block? && a.calls == 0 && Valid(a.books) && AllServed(a.books, ns[1..])
  }

  /** The blocks that are ready are served without malloc, and no more. */
  lemma {:induction false} LastsExactly(b: Books, ns: seq<nat>, size: nat)
    requires Valid(b) && |b.lists| == NFREELISTS && 8 <= size <= 128 && OfClass(ns, size)
    ensures AllServed(b, ns) <==> |ns| <= Ready(b, size)
    decreases ns
  {
    hide Valid, Allocated, Ready;
    if ns != [] {
      ReadyServes(b, ns[0], false, false);
      var a := Allocated(b, ns[0], false, false);
      if a.calls == 0 {
        LastsExactly(a.books, ns[1..], size);
      }
    }
  }

  /** One call of malloc that succeeds serves the request and exactly this many further ones of its class. */
  lemma MallocLasts(b: Books, n: nat, first: bool, second: bool, ns: seq<nat>)
    requires Valid(b) && 1 <= n <= 128 && |b.lists| == NFREELISTS && Ready(b, ClassOf(n)) == 0
    requires first || (second && forall k :: ClassOf(n) / 8 - 1 <= k < NFREELISTS ==> b.lists[k] == [])
    requires OfClass(ns, ClassOf(n))
    ensures var b' := Allocated(b, n, first, second).books;
      Valid(b') && (AllServed(b', ns) <==> |ns| <= 39 + Share(b.heap) / ClassOf(n))
  {
    hide Valid, Allocated, Ready, AllServed;
    MallocStocksUp(b, n, first, second);
    LastsExactly(Allocated(b, n, first, second).books, ns, ClassOf(n));
  }
}
