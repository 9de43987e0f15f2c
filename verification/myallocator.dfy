/** The allocator of inc/public/myallocator.h in its own form: an array of list heads, the ends of the
    reserve and the heap size, changed in place. Each method is proved against the functions of PoolBooks
    and PoolRequests. malloc is a parameter that says which of its calls succeed. */
module MyAllocator {
  import opened Pieces
  import opened FreeLists
  import opened PoolBooks
  import opened PoolRequests

  /** Filing the leftover away is possible and changes no list that is searched. */
  ghost predicate Searchable(b: Books, size: nat)
    requires ALIGN <= size <= MAX_BYTES
  {
    && |b.lists| == |b.heads| == NFREELISTS && Left(b) <= MAX_BYTES && Left(b) % ALIGN == 0
    && (0 < Left(b) ==> b.start in b.pieces)
    && var f := Filed(b);
      && GoodHeads(f.pieces, f.memory, f.heads, f.lists)
      && FirstFilled(f.lists, size / ALIGN - 1) == FirstFilled(b.lists, size / ALIGN - 1)
  }

  lemma IsSearchable(b: Books, size: nat)
    requires Valid(b) && Left(b) < size && ALIGN <= size <= MAX_BYTES && size % ALIGN == 0
    ensures Searchable(b, size)
  {
    FileKeeps(b);
    HeadsAreGood(Filed(b));
    FiledSearch(b, size);
  }

  lemma HeadsAreGood(b: Books)
    requires Core(b)
    ensures GoodHeads(b.pieces, b.memory, b.heads, b.lists)
  {
    forall k | 0 <= k < NFREELISTS ensures GoodHead(b.pieces, b.memory, b.heads, b.lists, k) {
      HeadOf(b, k);
    }
  }

  lemma FiledSearch(b: Books, size: nat)
    requires |b.lists| == |b.heads| == NFREELISTS && Left(b) < size && ALIGN <= size <= MAX_BYTES && size % ALIGN == 0
    requires 0 < Left(b) ==> b.start in b.pieces
    ensures FirstFilled(Filed(b).lists, size / ALIGN - 1) == FirstFilled(b.lists, size / ALIGN - 1)
  {
    FirstFilledSame(b.lists, Filed(b).lists, size / ALIGN - 1);
  }

  /** A chunk off the reserve, in the words of the two first branches. */
  lemma ReserveBranch(b: Books, size: nat, want: nat)
    requires Serving(b, size, TheReserve) && 0 < want
    ensures var bytes := size * (if size * want <= Left(b) then want else Left(b) / size);
      && 0 < bytes <= Left(b) && bytes % ALIGN == 0
      && b.start in b.pieces && b.start.At? && b.pieces[b.start].size == Left(b)
      && Chunked(b, size, want, TheReserve) ==
         (Taken(b, bytes), Granted(b.start, if size * want <= Left(b) then want else Left(b) / size))
  {
    Objects(size, want, Left(b));
    LeftoverIsWhole(b);
    var count := if size * want <= Left(b) then want else Left(b) / size;
    Commute(size, want);
    Commute(size, count);
    assert count == Min(want, Left(b) / size);
  }

  lemma Commute(a: nat, b: nat)
    ensures a * b == b * a
  {
  }

  /** After a restock the chunk comes off the new reserve. */
  lemma RestockBranch(b: Books, size: nat, want: nat, o: Origin)
    requires Serving(b, size, o) && 0 < want && !o.TheReserve?
    ensures var s := Stocked(b, size, want, o);
      && Valid(s)
      && (o.Nowhere? ==> Chunked(b, size, want, o) == (s, NoMemory))
      && (!o.Nowhere? ==>
          Serving(s, size, TheReserve) && Chunked(b, size, want, o) == Chunked(s, size, want, TheReserve))
  {
    StockKeeps(b, size, want, o);
  }

  /** What a refill needs of its chunk. */
  lemma CanDeal(b: Books, n: nat, o: Origin)
    requires Serving(b, n, o) && b.lists[n / ALIGN - 1] == []
    ensures var (c, r) := Chunked(b, n, OBJECTS_PER_REFILL, o);
      && |c.lists| == |c.heads| == NFREELISTS
      && (r.Granted? ==> r.at in c.pieces && r.at.At? && 0 < r.count && c.pieces[r.at].size == r.count * n)
  {
    ChunkKeeps(b, n, OBJECTS_PER_REFILL, o);
    ChunkSparesList(b, n, OBJECTS_PER_REFILL, o);
  }

  class Pool {
    const mallocSucceeds: nat -> bool
    const freeList: array<Ptr>
    var startFree: Ptr
    var endFree: Ptr
    var heapSize: nat
    var memory: Memory
    var chunks: seq<nat>
    var large: map<Ptr, nat>
    var mallocCalls: nat
    ghost var pieces: map<Ptr, Piece>
    ghost var lists: seq<seq<Ptr>>

    ghost function Now(): Books
      reads this, freeList
    {
      Books(pieces, lists, freeList[..], memory, startFree, endFree, heapSize, chunks, large)
    }

    constructor (mallocSucceeds: nat -> bool)
      ensures Now() == FreshBooks() && Valid(Now()) && mallocCalls == 0
      ensures fresh(freeList) && this.mallocSucceeds == mallocSucceeds
    {
      this.mallocSucceeds := mallocSucceeds;
      freeList := new Ptr[NFREELISTS](_ => Null);
      startFree, endFree, heapSize, mallocCalls := Null, Null, 0, 0;
      memory, chunks, large := map[], [], map[];
      pieces, lists := map[], EmptyLists();
      new;
      assert freeList[..] == NullHeads();
      FreshIsValid();
    }

    /** malloc, of which only its success is known. */
    method Malloc(n: nat) returns (p: Ptr)
      modifies this`chunks, this`mallocCalls
      ensures mallocCalls == old(mallocCalls) + 1
      ensures p == if mallocSucceeds(old(mallocCalls)) then At(|old(chunks)|, 0) else Null
      ensures chunks == if p == Null then old(chunks) else old(chunks) + [n]
    {
      p := Null;
      if mallocSucceeds(mallocCalls) {
        p := At(|chunks|, 0);
        chunks := chunks + [n];
      }
      mallocCalls := mallocCalls + 1;
    }

    method SetHead(k: nat, p: Ptr)
      requires k < freeList.Length
      modifies freeList
      ensures freeList[..] == old(freeList[..])[k := p]
    {
      freeList[k] := p;
    }

    /** The first two branches of _S_chunk_alloc. */
    method TakeFromReserve(bytes: nat) returns (at: Ptr)
      requires Valid(Now()) && 0 < bytes <= Left(Now()) && bytes % ALIGN == 0
      modifies this`startFree, this`pieces
      ensures old(startFree) in old(pieces) && old(startFree).At?
      ensures old(pieces)[old(startFree)].size == old(Left(Now()))
      ensures at == old(startFree) && Now() == Taken(old(Now()), bytes)
    {
      TakeKeeps(Now(), bytes);
      at := startFree;
      pieces := Taken(Now(), bytes).pieces;
      startFree := Plus(startFree, bytes);
    }

    /** The left-over piece goes to its free list. */
    method KeepLeftover(left: nat)
      requires 0 < left == Left(Now()) <= MAX_BYTES && left % ALIGN == 0
      requires freeList.Length == |lists| == NFREELISTS && startFree in pieces
      modifies this`pieces, this`lists, this`memory, freeList
      ensures Now() == Filed(old(Now()))
    {
      var k := FreelistIndex(left);
      assert k == left / ALIGN - 1 && k < NFREELISTS;
      ghost var after := Filed(Now());
      pieces, lists := after.pieces, after.lists;
      memory := memory[startFree := freeList[k]];
      SetHead(k, startFree);
    }

    /** Out of memory: the first block of the first list with blocks of size bytes or more becomes
        the reserve. */
    method TryBiggerLists(size: nat) returns (found: bool)
      requires GoodHeads(pieces, memory, freeList[..], lists)
      requires ALIGN <= size <= MAX_BYTES && size % ALIGN == 0
      modifies this`pieces, this`lists, this`startFree, this`endFree, freeList
      ensures var k := FirstFilled(old(lists), size / ALIGN - 1);
        && (found <==> k < NFREELISTS)
        && (!found ==> Now() == old(Now()))
        && (found ==>
          CanReopen(old(Now()), k) && Now() == Reopened(old(Now()), k))
    {
      var i := size;
      while i <= MAX_BYTES
        invariant size <= i <= MAX_BYTES + ALIGN && i % ALIGN == 0 && |lists| == NFREELISTS
        invariant FirstFilled(lists, size / ALIGN - 1) == FirstFilled(lists, i / ALIGN - 1)
        invariant Now() == old(Now())
      {
        var k := FreelistIndex(i);
        assert k == i / ALIGN - 1;
        var p := freeList[k];
        assert GoodHead(pieces, memory, freeList[..], lists, k);
        if p != Null {
          ghost var after := Reopened(Now(), k);
          SetHead(k, memory[p]);
          startFree := p;
          endFree := Plus(p, i);
          pieces, lists := after.pieces, after.lists;
          return true;
        }
        i := i + ALIGN;
      }
      return false;
    }

    /** The last branch of _S_chunk_alloc once the leftover is filed away and up to its recursive calls:
        a new reserve from malloc, from a bigger list, or from malloc once more. */
    method NewReserve(size: nat, bytesToGet: nat) returns (ok: bool)
      requires ALIGN <= size <= MAX_BYTES && size % ALIGN == 0 && GoodHeads(pieces, memory, freeList[..], lists)
      modifies this, freeList
      ensures var k := FirstFilled(old(lists), size / ALIGN - 1);
        var first, second := mallocSucceeds(old(mallocCalls)), mallocSucceeds(old(mallocCalls) + 1);
        if first then ok && Now() == Grown(old(Now()), bytesToGet) && mallocCalls == old(mallocCalls) + 1
        else if k < NFREELISTS then
          ok && CanReopen(old(Now()), k) && Now() == Reopened(old(Now()), k) && mallocCalls == old(mallocCalls) + 1
        else
          && ok == second && mallocCalls == old(mallocCalls) + 2
          && Now() == if ok then Grown(old(Now()), bytesToGet) else old(Now()).(start := Null, end := Null)
    {
      hide GoodHeads;
      startFree := Malloc(bytesToGet);
      if startFree == Null {
        var found := TryBiggerLists(size);
        if found {
          return true;
        }
        endFree := Null;
        startFree := Malloc(bytesToGet);
        if startFree == Null {
          return false;
        }
      }
      heapSize := heapSize + bytesToGet;
      endFree := Plus(startFree, bytesToGet);
      pieces := pieces[startFree := Piece(bytesToGet, Reserve)];
      return true;
    }

    /** The last branch of _S_chunk_alloc up to its recursive calls. */
    method Restock(size: nat, want: nat, ghost o: Origin) returns (ok: bool)
      requires Serving(Now(), size, o) && 0 < want && Left(Now()) < size
      requires o == OriginOf(size, Left(Now()), lists, mallocSucceeds(mallocCalls), mallocSucceeds(mallocCalls + 1))
      modifies this, freeList
      ensures Now() == Stocked(old(Now()), size, want, o) && (ok <==> !o.Nowhere?)
      ensures mallocCalls == old(mallocCalls) + CallsOf(o)
    {
      ghost var was := Now();
      IsSearchable(was, size);
      var left := BytesLeft(startFree, endFree);
      var bytesToGet := BytesToGet(size, want, heapSize);
      if left > 0 {
        KeepLeftover(left);
      }
      assert Now() == Filed(was);
      ok := NewReserve(size, bytesToGet);
    }

    /** _S_chunk_alloc: a stretch for want objects of size bytes, or for as many as there are. */
    method ChunkAlloc(size: nat, want: nat) returns (r: Grant)
      requires Valid(Now()) && ALIGN <= size <= MAX_BYTES && size % ALIGN == 0 && 0 < want
      modifies this, freeList
      ensures var o := OriginOf(size, old(Left(Now())), old(lists),
                                mallocSucceeds(old(mallocCalls)), mallocSucceeds(old(mallocCalls) + 1));
        && Serving(old(Now()), size, o) && (Now(), r) == Chunked(old(Now()), size, want, o)
        && mallocCalls == old(mallocCalls) + CallsOf(o)
      decreases Left(Now()) < size
    {
      var totalBytes := size * want;
      var left := BytesLeft(startFree, endFree);
      ghost var was := Now();
      ghost var o := OriginOf(size, left, lists, mallocSucceeds(mallocCalls), mallocSucceeds(mallocCalls + 1));
      OriginServes(was, size, mallocSucceeds(mallocCalls), mallocSucceeds(mallocCalls + 1));
      if left >= size {
        ReserveBranch(was, size, want);
      } else {
        RestockBranch(was, size, want, o);
        assert totalBytes > left by {
          BytesToGetEnough(size, want, heapSize);
        }
      }
      if left >= totalBytes {
        var at := TakeFromReserve(totalBytes);
        r := Granted(at, want);
      } else if left >= size {
        var count := left / size;
        totalBytes := size * count;
        var at := TakeFromReserve(totalBytes);
        r := Granted(at, count);
      } else {
        var ok := Restock(size, want, o);
        if ok {
          r := ChunkAlloc(size, want);
        } else {
          r := NoMemory;
        }
      }
    }

    /** Linking count blocks from next on: each to the one behind it, the last to null. */
    method LinkBlocks(first: Ptr, n: nat, count: nat)
      requires first.At? && 0 < count
      modifies this`memory
      ensures memory == LinkRun(old(memory), first, n, count)
    {
      var nextObj := first;
      var i := 1;
      while true
        invariant 1 <= i <= count && nextObj.At?
        invariant LinkRun(memory, nextObj, n, count + 1 - i) == LinkRun(old(memory), first, n, count)
        decreases count - i
      {
        var currentObj := nextObj;
        nextObj := Plus(nextObj, n);
        if count == i {
          memory := memory[currentObj := Null];
          break;
        } else {
          memory := memory[currentObj := nextObj];
        }
        i := i + 1;
      }
    }

    /** The second half of _S_refill: the first object is the caller's, the others become list k. */
    method DealOut(chunk: Ptr, n: nat, nobjs: nat)
      requires chunk in pieces && chunk.At? && 0 < nobjs && pieces[chunk].size == nobjs * n
      requires ALIGN <= n <= MAX_BYTES && n % ALIGN == 0 && |lists| == freeList.Length == NFREELISTS
      modifies this`memory, this`pieces, this`lists, freeList
      ensures Now() == Dealt(old(Now()), chunk, n, nobjs, n / ALIGN - 1)
    {
      hide Carve;
      ghost var after := Dealt(Now(), chunk, n, nobjs, n / ALIGN - 1);
      if nobjs != 1 {
        SetHead(FreelistIndex(n), Plus(chunk, n));
        LinkBlocks(Plus(chunk, n), n, nobjs - 1);
      }
      pieces, lists := after.pieces, after.lists;
    }

    /** _S_refill: twenty objects of n bytes or as many as there are, the first for the caller and the
        others in the list of that size, which is empty. */
    method Refill(n: nat) returns (result: Allocation)
      requires Valid(Now()) && ALIGN <= n <= MAX_BYTES && n % ALIGN == 0 && lists[n / ALIGN - 1] == []
      modifies this, freeList
      ensures old(mallocCalls) <= mallocCalls
      ensures var o := OriginOf(n, old(Left(Now())), old(lists),
                                mallocSucceeds(old(mallocCalls)), mallocSucceeds(old(mallocCalls) + 1));
        Serving(old(Now()), n, o) && Answer(Now(), result, mallocCalls - old(mallocCalls)) == Refilled(old(Now()), n, o)
    {
      ghost var o := OriginOf(n, Left(Now()), lists, mallocSucceeds(mallocCalls), mallocSucceeds(mallocCalls + 1));
      OriginServes(Now(), n, mallocSucceeds(mallocCalls), mallocSucceeds(mallocCalls + 1));
      CanDeal(Now(), n, o);
      var r := ChunkAlloc(n, OBJECTS_PER_REFILL);
      match r
      case NoMemory => result := BadAlloc;
      case Granted(at, count) =>
        DealOut(at, n, count);
        result := Block(at);
    }

    /** allocate for n bytes. */
    method Allocate(n: nat) returns (result: Allocation)
      requires Valid(Now())
      modifies this, freeList
      ensures var a := Allocated(old(Now()), n, mallocSucceeds(old(mallocCalls)), mallocSucceeds(old(mallocCalls) + 1));
        Now() == a.books && result == a.result && mallocCalls == old(mallocCalls) + a.calls
    {
      if n > MAX_BYTES {
        var p := Malloc(n);
        if p == Null {
          return BadAlloc;
        }
        large := large[p := n];
        return Block(p);
      }
      var k := FreelistIndex(n);
      IndexInTable(n);
      if k >= NFREELISTS {
        return OutsideTable;
      }
      var p := freeList[k];
      HeadOf(Now(), k);
      if p == Null {
        result := Refill(RoundUp(n));
      } else {
        ghost var after := HandedOut(Now(), k).books;
        SetHead(k, memory[p]);
        pieces, lists := after.pieces, after.lists;
        result := Block(p);
      }
    }

    /** deallocate of the block of n bytes at p. */
    method Deallocate(p: Ptr, n: nat)
      requires Valid(Now()) && Holds(Now(), p, n)
      modifies this, freeList
      ensures Now() == Released(old(Now()), p, n) && mallocCalls == old(mallocCalls)
    {
      if n > MAX_BYTES {
        large := large - {p};
      } else {
        IndexInTable(n);
        var k := FreelistIndex(n);
        ghost var after := Released(Now(), p, n);
        memory := memory[p := freeList[k]];
        SetHead(k, p);
        pieces, lists := after.pieces, after.lists;
      }
    }
  }

  method HandleTake(pool: Pool, n: nat, held: map<Ptr, nat>, wrote: map<Ptr, Ptr>) returns (held': map<Ptr, nat>)
    requires Agrees(Session(pool.Now(), held, wrote, pool.mallocCalls))
    modifies pool, pool.freeList
    ensures Session(pool.Now(), held', wrote, pool.mallocCalls)
         == Served(old(Session(pool.Now(), held, wrote, pool.mallocCalls)), Take(n), pool.mallocSucceeds)
  {
    ghost var s := Session(pool.Now(), held, wrote, pool.mallocCalls);
    ghost var a := Allocated(s.books, n, pool.mallocSucceeds(s.calls), pool.mallocSucceeds(s.calls + 1));
    var result := pool.Allocate(n);
    assert pool.Now() == a.books && result == a.result && pool.mallocCalls == s.calls + a.calls;
    TakeIs(s, n, pool.mallocSucceeds, a);
    held' := if result.Block? then held[result.at := n] else held;
  }

  lemma TakeIs(s: Session, n: nat, malloc: nat -> bool, a: Answer)
    requires Agrees(s) && a == Allocated(s.books, n, malloc(s.calls), malloc(s.calls + 1))
    ensures Served(s, Take(n), malloc)
         == Session(a.books, if a.result.Block? then s.held[a.result.at := n] else s.held, s.wrote, s.calls + a.calls)
  {
    hide Allocated, TableAgrees, WordsAgree, Sound, Classed, Linked;
  }

  method HandleWrite(pool: Pool, a: Ptr, v: Ptr, held: map<Ptr, nat>, wrote: map<Ptr, Ptr>)
    returns (wrote': map<Ptr, Ptr>)
    requires Agrees(Session(pool.Now(), held, wrote, pool.mallocCalls))
    modifies pool`memory
    ensures Session(pool.Now(), held, wrote', pool.mallocCalls)
         == Served(old(Session(pool.Now(), held, wrote, pool.mallocCalls)), Write(a, v), pool.mallocSucceeds)
  {
    wrote' := wrote;
    if exists p | p in held :: Covers(p, held[p], a) {
      pool.memory := pool.memory[a := v];
      wrote' := wrote[a := v];
    }
  }

  method HandleGiveBack(pool: Pool, p: Ptr, held: map<Ptr, nat>, wrote: map<Ptr, Ptr>)
    returns (held': map<Ptr, nat>, wrote': map<Ptr, Ptr>)
    requires Agrees(Session(pool.Now(), held, wrote, pool.mallocCalls))
    modifies pool, pool.freeList
    ensures Session(pool.Now(), held', wrote', pool.mallocCalls)
         == Served(old(Session(pool.Now(), held, wrote, pool.mallocCalls)), GiveBack(p), pool.mallocSucceeds)
  {
    held', wrote' := held, wrote;
    if p in held {
      assert Holds(pool.Now(), p, held[p]);
      pool.Deallocate(p, held[p]);
      held', wrote' := held - {p}, Elsewhere(wrote, p, held[p]);
    }
  }

  /** One request of a client that keeps a table of its blocks and remembers what it wrote. */
  method Handle(pool: Pool, r: Request, held: map<Ptr, nat>, wrote: map<Ptr, Ptr>)
    returns (held': map<Ptr, nat>, wrote': map<Ptr, Ptr>)
    requires Agrees(Session(pool.Now(), held, wrote, pool.mallocCalls))
    modifies pool, pool.freeList
    ensures Session(pool.Now(), held', wrote', pool.mallocCalls)
         == Served(old(Session(pool.Now(), held, wrote, pool.mallocCalls)), r, pool.mallocSucceeds)
  {
    held', wrote' := held, wrote;
    match r
    case Take(n) => held' := HandleTake(pool, n, held, wrote);
    case Write(a, v) => wrote' := HandleWrite(pool, a, v, held, wrote);
    case GiveBack(p) => held', wrote' := HandleGiveBack(pool, p, held, wrote);
  }

  /** A client's whole run: at the end it holds and finds what Serve says, so that ClientIsSafe is about
      this allocator. */
  method Drive(requests: seq<Request>, mallocSucceeds: nat -> bool)
    returns (pool: Pool, held: map<Ptr, nat>, wrote: map<Ptr, Ptr>)
    ensures Session(pool.Now(), held, wrote, pool.mallocCalls) == Serve(requests, mallocSucceeds)
  {
    pool := new Pool(mallocSucceeds);
    held, wrote := map[], map[];
    for i := 0 to |requests|
      invariant fresh(pool) && fresh(pool.freeList) && pool.mallocSucceeds == mallocSucceeds
      invariant Session(pool.Now(), held, wrote, pool.mallocCalls) == Serve(requests[..i], mallocSucceeds)
    {
      assert requests[..i + 1][..i] == requests[..i];
      held, wrote := Handle(pool, requests[i], held, wrote);
    }
    assert requests[..|requests|] == requests;
  }
}
