/** allocate and deallocate of inc/public/myallocator.h as functions on the whole state, and what a
    client that allocates, writes and releases in any order can rely on. */
module PoolRequests {
  import opened Pieces
  import opened FreeLists
  import opened PoolBooks

  /** allocate for zero bytes indexes outside the table of lists, which C++ leaves undefined. */
  datatype Allocation = Block(at: Ptr) | BadAlloc | OutsideTable

  /** A state, what the caller gets, and the calls of malloc it took. */
  datatype Answer = Answer(books: Books, result: Allocation, calls: nat)

  /** _S_refill for a list that is empty. */
  ghost function Refilled(b: Books, n: nat, o: Origin): Answer
    requires Serving(b, n, o) && b.lists[n / ALIGN - 1] == []
  {
    ChunkKeeps(b, n, OBJECTS_PER_REFILL, o);
    ChunkSparesList(b, n, OBJECTS_PER_REFILL, o);
    var (c, r) := Chunked(b, n, OBJECTS_PER_REFILL, o);
    match r
    case NoMemory => Answer(c, BadAlloc, CallsOf(o))
    case Granted(at, count) => Answer(Dealt(c, at, n, count, n / ALIGN - 1), Block(at), CallsOf(o))
  }

  /** The head of list k to the client. */
  ghost function HandedOut(b: Books, k: nat): Answer
    requires Valid(b) && k < NFREELISTS && b.lists[k] != []
  {
    HeadOf(b, k);
    var p := b.heads[k];
    Answer(b.(pieces := b.pieces[p := b.pieces[p].(kind := Live)], lists := b.lists[k := b.lists[k][1..]],
               heads := b.heads[k := b.memory[p]]),
           Block(p), 0)
  }

  /** malloc for a request over 128 bytes; a failed malloc has no handler and throws. */
  ghost function FromSystem(b: Books, n: nat, ok: bool): Answer {
    if ok then
      Answer(b.(chunks := b.chunks + [n], large := b.large[At(|b.chunks|, 0) := n]), Block(At(|b.chunks|, 0)), 1)
    else Answer(b, BadAlloc, 1)
  }

  /** allocate; first and second: whether the next two calls of malloc succeed. */
  ghost function Allocated(b: Books, n: nat, first: bool, second: bool): Answer
    requires Valid(b)
  {
    if MAX_BYTES < n then FromSystem(b, n, first)
    else if n == 0 then Answer(b, OutsideTable, 0)
    else
      IndexInTable(n);
      var k := FreelistIndex(n);
      if b.lists[k] != [] then HandedOut(b, k)
      else Refilled(b, RoundUp(n), OriginOf(RoundUp(n), Left(b), b.lists, first, second))
  }

  lemma RefillKeeps(b: Books, n: nat, o: Origin)
    requires Serving(b, n, o) && b.lists[n / ALIGN - 1] == []
    ensures var a := Refilled(b, n, o);
      match a.result
      case Block(at) => Given(b, a.books, at, n) && !o.Nowhere?
      case BadAlloc => Valid(a.books) && Unseen(b, a.books) && o.Nowhere?
      case OutsideTable => false
  {
    hide Sound, Classed, Linked, LargeApart, NoLoose, SameLive, StillOwned, OwnWrites, Reserved;
    ChunkKeeps(b, n, OBJECTS_PER_REFILL, o);
    ChunkSparesList(b, n, OBJECTS_PER_REFILL, o);
    var (c, r) := Chunked(b, n, OBJECTS_PER_REFILL, o);
    if r.Granted? {
      DealKeeps(c, r.at, n, r.count, n / ALIGN - 1);
      UnseenThenGiven(b, c, Refilled(b, n, o).books, r.at, n);
    }
  }

  lemma UnseenThenGiven(b: Books, c: Books, b': Books, at: Ptr, n: nat)
    requires Unseen(b, c) && Given(c, b', at, n)
    ensures Given(b, b', at, n)
  {
    forall a | !PoolOwns(b'.pieces, a) && a != at ensures SameWord(b.memory, b'.memory, a) {
      assert SameWord(b.memory, c.memory, a) && SameWord(c.memory, b'.memory, a);
    }
  }

  lemma HandOutCore(b: Books, k: nat)
    requires Valid(b) && k < NFREELISTS && b.lists[k] != []
    ensures Core(HandedOut(b, k).books) && HandedOut(b, k).result.Block?
  {
    EmptyIffNull(b.pieces, b.chunks, b.memory, b.heads, b.lists, k);
    Pop(b.pieces, b.chunks, b.memory, b.heads, b.lists, k, Live);
  }

  lemma HandOutKeeps(b: Books, k: nat)
    requires Valid(b) && k < NFREELISTS && b.lists[k] != []
    ensures var a := HandedOut(b, k); a.result.Block? && Given(b, a.books, a.result.at, ALIGN * (k + 1))
  {
    hide Sound, Classed, Linked;
    Sizes(b);
    HeadOf(b, k);
    HandOutCore(b, k);
    HandOutPieces(b.pieces, b.start, b.end, b.heads[k], ALIGN * (k + 1));
  }

  lemma HandOutPieces(ps: map<Ptr, Piece>, start: Ptr, end: Ptr, p: Ptr, n: nat)
    requires Reserved(ps, start, end) && NoLoose(ps) && p in ps && ps[p].kind.Free? && ps[p].size == n
    ensures var ps' := ps[p := Piece(n, Live)];
      && (forall q, m :: LiveAt(ps', q, m) <==> LiveAt(ps, q, m) || (q == p && m == n))
      && (forall a :: PoolOwns(ps, a) ==> PoolOwns(ps', a) || a == p)
      && NoLoose(ps') && Reserved(ps', start, end)
  {
  }

  lemma FromSystemKeeps(b: Books, n: nat, ok: bool)
    requires Valid(b)
    ensures Valid(FromSystem(b, n, ok).books)
  {
    MoreChunks(b.pieces, b.chunks, n);
    assert forall p :: p in b.pieces ==> Fits(p, b.pieces[p].size, b.chunks);
  }

  /** deallocate of a block of n requested bytes. */
  ghost function Released(b: Books, p: Ptr, n: nat): Books
    requires |b.lists| == |b.heads| == NFREELISTS && 0 < n && (n <= MAX_BYTES ==> p in b.pieces)
  {
    if MAX_BYTES < n then b.(large := b.large - {p})
    else
      IndexInTable(n);
      var k := FreelistIndex(n);
      b.(pieces := b.pieces[p := b.pieces[p].(kind := Free(k))],
         lists := b.lists[k := [p] + b.lists[k]],
         memory := b.memory[p := b.heads[k]],
         heads := b.heads[k := p])
  }

  /** The client no longer holds the block at p; it keeps all its others. */
  ghost predicate TakenBack(b: Books, b': Books, p: Ptr) {
    && Valid(b') && b'.large == b.large
    && (forall q, m :: LiveAt(b'.pieces, q, m) <==> LiveAt(b.pieces, q, m) && q != p)
    && OwnWrites(b'.pieces, b.memory, b'.memory)
  }

  lemma ReleaseKeeps(b: Books, p: Ptr, n: nat)
    requires Valid(b) && 0 < n <= MAX_BYTES && LiveAt(b.pieces, p, RoundUp(n))
    ensures TakenBack(b, Released(b, p, n), p)
  {
    hide Sound, Classed, Linked;
    Sizes(b);
    IndexInTable(n);
    var k := FreelistIndex(n);
    Push(b.pieces, b.chunks, b.memory, b.heads, b.lists, p, k);
    TakeBackPieces(b.pieces, b.start, b.end, p, k);
    WriteOwn(Released(b, p, n).pieces, b.memory, p, b.heads[k]);
  }

  lemma TakeBackPieces(ps: map<Ptr, Piece>, start: Ptr, end: Ptr, p: Ptr, k: nat)
    requires Reserved(ps, start, end) && NoLoose(ps) && p in ps && ps[p].kind == Live
    ensures var ps' := ps[p := ps[p].(kind := Free(k))];
      && (forall q, m :: LiveAt(ps', q, m) <==> LiveAt(ps, q, m) && q != p)
      && PoolOwns(ps', p) && NoLoose(ps') && Reserved(ps', start, end)
  {
  }

  /** allocate fails exactly when a malloc is needed and refused: for a small request, when the
      reserve is short, no list of that size or more has a block and malloc refuses twice. */
  lemma FailsExactly(b: Books, n: nat, first: bool, second: bool)
    requires Valid(b)
    ensures Allocated(b, n, first, second).result.BadAlloc? <==>
      if MAX_BYTES < n then !first
      else
        && 0 < n && Left(b) < RoundUp(n) && !first && !second
        && forall k :: FreelistIndex(n) <= k < NFREELISTS ==> b.lists[k] == []
  {
    if 0 < n <= MAX_BYTES {
      IndexInTable(n);
      if b.lists[FreelistIndex(n)] == [] {
        RefillKeeps(b, RoundUp(n), OriginOf(RoundUp(n), Left(b), b.lists, first, second));
      }
    }
  }

  /** Releasing a block and asking for one of the same class gives the same block back, and leaves
      every list, the reserve and the pieces as they were. */
  lemma SameBlockAgain(b: Books, p: Ptr, n: nat, m: nat, first: bool, second: bool)
    requires Valid(b) && 0 < n <= MAX_BYTES && 0 < m <= MAX_BYTES && RoundUp(n) == RoundUp(m)
    requires LiveAt(b.pieces, p, RoundUp(n))
    ensures Valid(Released(b, p, n))
    ensures var a := Allocated(Released(b, p, n), m, first, second);
      a.result == Block(p) && a.calls == 0 && a.books == b.(memory := b.memory[p := b.heads[FreelistIndex(n)]])
  {
    ReleaseKeeps(b, p, n);
    IndexInTable(n);
    IndexInTable(m);
    PopOfPush(b, p, n);
  }

  lemma PopOfPush(b: Books, p: Ptr, n: nat)
    requires Valid(b) && 0 < n <= MAX_BYTES && FreelistIndex(n) < NFREELISTS && LiveAt(b.pieces, p, RoundUp(n))
    requires Valid(Released(b, p, n))
    ensures Released(b, p, n).lists[FreelistIndex(n)] != []
    ensures var a := HandedOut(Released(b, p, n), FreelistIndex(n));
      a.result == Block(p) && a.books == b.(memory := b.memory[p := b.heads[FreelistIndex(n)]])
  {
    var k := FreelistIndex(n);
    var f := Released(b, p, n);
    HeadOf(f, k);
    var a := HandedOut(f, k);
    assert f.lists[k][1..] == b.lists[k];
    UpdateBack(b.lists, k, f.lists[k]);
    UpdateBack(b.heads, k, p);
    MapUpdateBack(b.pieces, p, b.pieces[p].(kind := Free(k)));
  }

  lemma UpdateBack<T>(s: seq<T>, k: nat, x: T)
    requires k < |s|
    ensures s[k := x][k := s[k]] == s
  {
  }

  lemma MapUpdateBack(ps: map<Ptr, Piece>, p: Ptr, x: Piece)
    requires p in ps
    ensures ps[p := x][p := ps[p]] == ps
  {
  }

  // ---------------------------------------------------------------- whole runs

  /** A client: the blocks it holds with the bytes it asked for, and the words it wrote in them. */
  datatype Session = Session(books: Books, held: map<Ptr, nat>, wrote: map<Ptr, Ptr>, calls: nat)

  /** A client writes only in blocks it holds and gives back only those; other requests do nothing. */
  datatype Request = Take(n: nat) | Write(a: Ptr, v: Ptr) | GiveBack(p: Ptr)

  /** The word at a lies wholly in the n bytes at p. */
  predicate Covers(p: Ptr, n: nat, a: Ptr) {
    a.At? && p.At? && a.chunk == p.chunk && p.off <= a.off && a.off + ALIGN <= p.off + n && a.off % ALIGN == 0
  }

  ghost predicate InHeld(held: map<Ptr, nat>, a: Ptr) {
    exists p :: p in held && Covers(p, held[p], a)
  }

  ghost predicate Holds(b: Books, p: Ptr, n: nat) {
    0 < n && if n <= MAX_BYTES then LiveAt(b.pieces, p, RoundUp(n)) else p in b.large && b.large[p] == n
  }

  /** What the client holds is what the allocator has given out. */
  ghost predicate TableAgrees(b: Books, held: map<Ptr, nat>) {
    && (forall p :: p in held ==> Holds(b, p, held[p]))
    && (forall p, n :: LiveAt(b.pieces, p, n) ==> p in held && held[p] <= MAX_BYTES)
    && (forall p :: p in b.large ==> p in held && MAX_BYTES < held[p])
  }

  /** The client finds in its blocks what it wrote there. */
  ghost predicate WordsAgree(b: Books, held: map<Ptr, nat>, wrote: map<Ptr, Ptr>) {
    forall a :: a in wrote ==> InHeld(held, a) && a in b.memory && b.memory[a] == wrote[a]
  }

  ghost predicate Agrees(s: Session) {
    Valid(s.books) && TableAgrees(s.books, s.held) && WordsAgree(s.books, s.held, s.wrote)
  }

  /** Two held blocks share no byte. */
  lemma HeldApart(b: Books, held: map<Ptr, nat>, p: Ptr, q: Ptr)
    requires Valid(b) && TableAgrees(b, held) && p in held && q in held && p != q
    ensures p.At? && q.At? && Apart(p, held[p], q, held[q])
  {
    assert Holds(b, p, held[p]) && Holds(b, q, held[q]);
    if held[p] <= MAX_BYTES {
      IndexInTable(held[p]);
      assert Fits(p, b.pieces[p].size, b.chunks);
    }
    if held[q] <= MAX_BYTES {
      IndexInTable(held[q]);
      assert Fits(q, b.pieces[q].size, b.chunks);
    }
    if held[p] <= MAX_BYTES && held[q] <= MAX_BYTES {
      assert Apart(p, b.pieces[p].size, q, b.pieces[q].size);
    }
  }

  /** The allocator's own words are in no held block. */
  lemma OwnWordsOutside(b: Books, held: map<Ptr, nat>, a: Ptr)
    requires Valid(b) && TableAgrees(b, held) && InHeld(held, a)
    ensures !PoolOwns(b.pieces, a)
  {
    var p :| p in held && Covers(p, held[p], a);
    assert Holds(b, p, held[p]);
    forall x | PoolOwns(b.pieces, x) ensures x != a {
      assert Fits(x, b.pieces[x].size, b.chunks);
      if held[p] <= MAX_BYTES {
        IndexInTable(held[p]);
        assert Apart(p, b.pieces[p].size, x, b.pieces[x].size);
      }
    }
  }

  /** The client's words outside the block at p. */
  function Elsewhere(wrote: map<Ptr, Ptr>, p: Ptr, n: nat): map<Ptr, Ptr> {
    map a | a in wrote && !Covers(p, n, a) :: wrote[a]
  }

  function AfterTake(s: Session, n: nat, a: Answer): Session {
    Session(a.books, if a.result.Block? then s.held[a.result.at := n] else s.held, s.wrote, s.calls + a.calls)
  }

  ghost predicate TakeIsSafe(s: Session, n: nat, a: Answer) {
    Agrees(AfterTake(s, n, a)) && (a.result.Block? ==> a.result.at !in s.held)
  }

  ghost function Served(s: Session, r: Request, malloc: nat -> bool): Session
    requires Agrees(s)
  {
    match r
    case Take(n) =>
      AfterTake(s, n, Allocated(s.books, n, malloc(s.calls), malloc(s.calls + 1)))
    case Write(a, v) =>
      if InHeld(s.held, a) then s.(books := s.books.(memory := s.books.memory[a := v]), wrote := s.wrote[a := v]) else s
    case GiveBack(p) =>
      if p in s.held then
        assert Holds(s.books, p, s.held[p]);
        s.(books := Released(s.books, p, s.held[p]), held := s.held - {p}, wrote := Elsewhere(s.wrote, p, s.held[p]))
      else s
  }

  lemma UnseenAgrees(b: Books, b': Books, held: map<Ptr, nat>, wrote: map<Ptr, Ptr>)
    requires Valid(b) && TableAgrees(b, held) && WordsAgree(b, held, wrote) && Valid(b') && Unseen(b, b')
    ensures TableAgrees(b', held) && WordsAgree(b', held, wrote)
  {
    forall p | p in held ensures Holds(b', p, held[p]) {
      assert Holds(b, p, held[p]);
    }
    forall a | a in wrote ensures SameWord(b.memory, b'.memory, a) {
      OwnWordsOutside(b', held, a);
    }
  }

  lemma GivenTable(b: Books, b': Books, held: map<Ptr, nat>, at: Ptr, n: nat)
    requires Valid(b) && TableAgrees(b, held) && 0 < n <= MAX_BYTES && Given(b, b', at, RoundUp(n))
    ensures at !in held && TableAgrees(b', held[at := n])
  {
    GivenIsNew(b, b', held, at, n);
    GivenEntries(b, b', held, at, n);
  }

  lemma GivenEntries(b: Books, b': Books, held: map<Ptr, nat>, at: Ptr, n: nat)
    requires TableAgrees(b, held) && 0 < n <= MAX_BYTES && Given(b, b', at, RoundUp(n)) && at !in held
    requires Holds(b', at, n)
    ensures TableAgrees(b', held[at := n])
  {
    forall p | p in held && p != at ensures Holds(b', p, held[p]) {
      GivenHolds(b, b', at, RoundUp(n), p, held[p]);
    }
  }

  lemma GivenHolds(b: Books, b': Books, at: Ptr, n: nat, p: Ptr, m: nat)
    requires Given(b, b', at, n) && Holds(b, p, m)
    ensures Holds(b', p, m)
  {
  }

  lemma GivenIsNew(b: Books, b': Books, held: map<Ptr, nat>, at: Ptr, n: nat)
    requires Valid(b) && TableAgrees(b, held) && 0 < n <= MAX_BYTES && Given(b, b', at, RoundUp(n))
    ensures at !in held && Holds(b', at, n)
  {
    assert LiveAt(b'.pieces, at, RoundUp(n));
    assert at !in b'.large;
    assert at in held ==> Holds(b, at, held[at]);
  }

  /** A word of another held block is not the first word of the new one. */
  lemma NewBlockElsewhere(b': Books, held: map<Ptr, nat>, at: Ptr, n: nat, a: Ptr)
    requires Valid(b') && TableAgrees(b', held[at := n]) && at !in held && InHeld(held, a) && 0 < n
    ensures InHeld(held[at := n], a) && a != at
  {
    var p :| p in held && Covers(p, held[p], a);
    assert p in held[at := n] && Covers(p, held[at := n][p], a);
    HeldApart(b', held[at := n], p, at);
  }

  lemma GivenAgrees(b: Books, b': Books, held: map<Ptr, nat>, wrote: map<Ptr, Ptr>, at: Ptr, n: nat)
    requires Valid(b) && TableAgrees(b, held) && WordsAgree(b, held, wrote)
    requires 0 < n <= MAX_BYTES && Given(b, b', at, RoundUp(n))
    ensures at !in held && TableAgrees(b', held[at := n]) && WordsAgree(b', held[at := n], wrote)
  {
    GivenTable(b, b', held, at, n);
    forall a | a in wrote ensures InHeld(held[at := n], a) && SameWord(b.memory, b'.memory, a) {
      NewBlockElsewhere(b', held, at, n, a);
      OwnWordsOutside(b', held[at := n], a);
    }
  }

  lemma MoreHeld(held: map<Ptr, nat>, at: Ptr, n: nat, a: Ptr)
    requires InHeld(held, a) && at !in held
    ensures InHeld(held[at := n], a)
  {
    var p :| p in held && Covers(p, held[p], a);
    assert p in held[at := n] && Covers(p, held[at := n][p], a);
  }

  lemma SystemAgrees(b: Books, held: map<Ptr, nat>, wrote: map<Ptr, Ptr>, n: nat, ok: bool)
    requires Valid(b) && TableAgrees(b, held) && WordsAgree(b, held, wrote) && MAX_BYTES < n
    ensures var a := FromSystem(b, n, ok);
      var held' := if ok then held[a.result.at := n] else held;
      && Valid(a.books) && (ok ==> a.result.at !in held)
      && TableAgrees(a.books, held') && WordsAgree(a.books, held', wrote)
  {
    FromSystemKeeps(b, n, ok);
    if ok {
      var at, b' := At(|b.chunks|, 0), FromSystem(b, n, ok).books;
      assert forall p :: p in b.pieces ==> Fits(p, b.pieces[p].size, b.chunks);
      assert at in held ==> Holds(b, at, held[at]);
      forall p | p in held ensures Holds(b', p, held[p]) {
        assert Holds(b, p, held[p]);
      }
      forall a | a in wrote ensures InHeld(held[at := n], a) {
        MoreHeld(held, at, n, a);
      }
    }
  }

  lemma TakeAgrees(s: Session, n: nat, first: bool, second: bool)
    requires Agrees(s)
    ensures TakeIsSafe(s, n, Allocated(s.books, n, first, second))
  {
    if MAX_BYTES < n {
      SystemAgrees(s.books, s.held, s.wrote, n, first);
    } else if 0 < n {
      SmallTakeAgrees(s, n, first, second);
    }
  }

  lemma SmallTakeAgrees(s: Session, n: nat, first: bool, second: bool)
    requires Agrees(s) && 0 < n <= MAX_BYTES
    ensures TakeIsSafe(s, n, Allocated(s.books, n, first, second))
  {
    hide TakeIsSafe, Sound, Classed, Linked, Refilled, HandedOut, WordsAgree, TableAgrees;
    Sizes(s.books);
    IndexInTable(n);
    if s.books.lists[FreelistIndex(n)] != [] {
      HandOutAgrees(s, n);
    } else {
      RefillAgrees(s, n, OriginOf(RoundUp(n), Left(s.books), s.books.lists, first, second));
    }
  }

  lemma HandOutAgrees(s: Session, n: nat)
    requires Agrees(s) && 0 < n <= MAX_BYTES && FreelistIndex(n) < NFREELISTS && s.books.lists[FreelistIndex(n)] != []
    ensures TakeIsSafe(s, n, HandedOut(s.books, FreelistIndex(n)))
  {
    IndexInTable(n);
    HandOutKeeps(s.books, FreelistIndex(n));
    var a := HandedOut(s.books, FreelistIndex(n));
    GivenAgrees(s.books, a.books, s.held, s.wrote, a.result.at, n);
  }

  lemma RefillAgrees(s: Session, n: nat, o: Origin)
    requires Agrees(s) && 0 < n <= MAX_BYTES && Serving(s.books, RoundUp(n), o)
    requires s.books.lists[RoundUp(n) / ALIGN - 1] == []
    ensures TakeIsSafe(s, n, Refilled(s.books, RoundUp(n), o))
  {
    RefillKeeps(s.books, RoundUp(n), o);
    var a := Refilled(s.books, RoundUp(n), o);
    if a.result.Block? {
      GivenAgrees(s.books, a.books, s.held, s.wrote, a.result.at, n);
    } else {
      UnseenAgrees(s.books, a.books, s.held, s.wrote);
    }
  }

  lemma ListIsOwn(ps: map<Ptr, Piece>, lists: seq<seq<Ptr>>, k: nat)
    requires Classed(ps, lists) && k < NFREELISTS
    ensures forall q :: q in lists[k] ==> PoolOwns(ps, q)
  {
  }

  lemma WriteKeeps(b: Books, held: map<Ptr, nat>, a: Ptr, v: Ptr)
    requires Valid(b) && TableAgrees(b, held) && InHeld(held, a)
    ensures Valid(b.(memory := b.memory[a := v]))
  {
    OwnWordsOutside(b, held, a);
    forall k | 0 <= k < NFREELISTS ensures ChainTo(b.memory[a := v], b.heads[k], b.lists[k], Null) {
      ListIsOwn(b.pieces, b.lists, k);
      ChainFrame(b.memory, b.memory[a := v], b.heads[k], b.lists[k], Null);
    }
  }

  lemma SameTable(b: Books, b': Books, held: map<Ptr, nat>)
    requires TableAgrees(b, held) && b'.pieces == b.pieces && b'.large == b.large
    ensures TableAgrees(b', held)
  {
    assert forall p :: p in held ==> Holds(b, p, held[p]);
  }

  lemma WriteAgrees(s: Session, a: Ptr, v: Ptr)
    requires Agrees(s) && InHeld(s.held, a)
    ensures Agrees(s.(books := s.books.(memory := s.books.memory[a := v]), wrote := s.wrote[a := v]))
  {
    WriteKeeps(s.books, s.held, a, v);
    SameTable(s.books, s.books.(memory := s.books.memory[a := v]), s.held);
  }

  lemma GiveBackAgrees(s: Session, p: Ptr)
    requires Agrees(s) && p in s.held
    ensures Holds(s.books, p, s.held[p])
    ensures Agrees(s.(books := Released(s.books, p, s.held[p]), held := s.held - {p},
                      wrote := Elsewhere(s.wrote, p, s.held[p])))
  {
    var b, n := s.books, s.held[p];
    assert Holds(b, p, n);
    var b', held' := Released(b, p, n), s.held - {p};
    if n <= MAX_BYTES {
      ReleaseKeeps(b, p, n);
    } else {
      assert Valid(b');
    }
    forall q | q in held' ensures Holds(b', q, held'[q]) {
      assert Holds(b, q, s.held[q]);
    }
    assert TableAgrees(b', held');
    forall a | a in s.wrote && !Covers(p, n, a) ensures InHeld(held', a) && SameWord(b.memory, b'.memory, a) {
      HeldWithout(s.held, p, a);
      OwnWordsOutside(b', held', a);
    }
  }

  lemma HeldWithout(held: map<Ptr, nat>, p: Ptr, a: Ptr)
    requires InHeld(held, a) && p in held && !Covers(p, held[p], a)
    ensures InHeld(held - {p}, a)
  {
    var q :| q in held && Covers(q, held[q], a);
    assert q in held - {p} && Covers(q, (held - {p})[q], a);
  }

  lemma ServedAgrees(s: Session, r: Request, malloc: nat -> bool)
    requires Agrees(s)
    ensures Agrees(Served(s, r, malloc))
  {
    match r
    case Take(n) => ServedTakeAgrees(s, n, malloc);
    case Write(a, v) => ServedWriteAgrees(s, a, v, malloc);
    case GiveBack(p) => ServedGiveBackAgrees(s, p, malloc);
  }

  lemma ServedTakeAgrees(s: Session, n: nat, malloc: nat -> bool)
    requires Agrees(s)
    ensures Agrees(Served(s, Take(n), malloc))
  {
    hide Agrees, Allocated;
    TakeAgrees(s, n, malloc(s.calls), malloc(s.calls + 1));
  }

  lemma ServedWriteAgrees(s: Session, a: Ptr, v: Ptr, malloc: nat -> bool)
    requires Agrees(s)
    ensures Agrees(Served(s, Write(a, v), malloc))
  {
    if InHeld(s.held, a) {
      WriteAgrees(s, a, v);
    }
  }

  lemma ServedGiveBackAgrees(s: Session, p: Ptr, malloc: nat -> bool)
    requires Agrees(s)
    ensures Agrees(Served(s, GiveBack(p), malloc))
  {
    if p in s.held {
      GiveBackAgrees(s, p);
    }
  }

  /** The allocator before its first request. */
  function FreshBooks(): Books {
    Books(map[], EmptyLists(), NullHeads(), map[], Null, Null, 0, [], map[])
  }

  function EmptyLists(): seq<seq<Ptr>> {
    seq(NFREELISTS, _ => [])
  }

  function NullHeads(): seq<Ptr> {
    seq(NFREELISTS, _ => Null)
  }

  lemma FreshIsValid()
    ensures Valid(FreshBooks())
  {
  }

  ghost function Session0(): (s: Session)
    ensures Agrees(s)
  {
    FreshIsValid();
    Session(FreshBooks(), map[], map[], 0)
  }

  /** The client's whole run, from an allocator that has obtained nothing. */
  ghost function Serve(requests: seq<Request>, malloc: nat -> bool): (s: Session)
    ensures Agrees(s)
  {
    if requests == [] then Session0()
    else
      var s := Serve(requests[..|requests| - 1], malloc);
      var r := requests[|requests| - 1];
      ServedAgrees(s, r, malloc);
      Served(s, r, malloc)
  }

  /** In every run, whatever malloc answers: held blocks lie apart inside malloc blocks, every word the
      client wrote in a block it holds is still there, and the heap size is the sum of all pieces. */
  lemma ClientIsSafe(requests: seq<Request>, malloc: nat -> bool)
    ensures var s := Serve(requests, malloc);
      && (forall p, q :: p in s.held && q in s.held && p != q ==> p.At? && q.At? && Apart(p, s.held[p], q, s.held[q]))
      && (forall p :: p in s.held ==>
          p.At? && p.chunk < |s.books.chunks| && p.off + s.held[p] <= s.books.chunks[p.chunk])
      && (forall a :: a in s.wrote ==> a in s.books.memory && s.books.memory[a] == s.wrote[a])
      && s.books.heap == Total(s.books.pieces)
  {
    var s := Serve(requests, malloc);
    forall p, q | p in s.held && q in s.held && p != q ensures p.At? && q.At? && Apart(p, s.held[p], q, s.held[q]) {
      HeldApart(s.books, s.held, p, q);
    }
    forall p | p in s.held ensures p.At? && p.chunk < |s.books.chunks| && p.off + s.held[p] <= s.books.chunks[p.chunk] {
      assert Holds(s.books, p, s.held[p]);
      if s.held[p] <= MAX_BYTES {
        IndexInTable(s.held[p]);
        assert Fits(p, s.books.pieces[p].size, s.books.chunks);
      }
    }
  }

  /** A block handed out is one the client does not hold. */
  lemma NewBlockIsNew(requests: seq<Request>, malloc: nat -> bool, n: nat, first: bool, second: bool)
    ensures var s := Serve(requests, malloc); TakeIsSafe(s, n, Allocated(s.books, n, first, second))
  {
    TakeAgrees(Serve(requests, malloc), n, first, second);
  }
}
