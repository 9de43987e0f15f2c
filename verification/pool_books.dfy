/** The allocator of inc/public/myallocator.h as functions on its whole state, each step a value:
    what the steps keep, and what a request of the client gets. */
module PoolBooks {
  import opened Pieces
  import opened FreeLists

  const OBJECTS_PER_REFILL: nat := 20

  /** The variables of the allocator, the words of the memory, the malloc blocks obtained so far and
      the pieces and lists they stand for. A large block is one the client has from malloc itself. */
  datatype Books = Books(
    pieces: map<Ptr, Piece>, lists: seq<seq<Ptr>>,
    heads: seq<Ptr>, memory: Memory, start: Ptr, end: Ptr, heap: nat,
    chunks: seq<nat>, large: map<Ptr, nat>)

  ghost predicate LargeApart(b: Books) {
    forall p :: p in b.large ==>
      p.At? && p.off == 0 && p.chunk < |b.chunks| && b.chunks[p.chunk] == b.large[p]
      && forall q :: q in b.pieces ==> q.At? && q.chunk != p.chunk
  }

  /** What every step keeps, apart from the reserve. */
  ghost predicate Core(b: Books) {
    && Sound(b.pieces, b.chunks)
    && Classed(b.pieces, b.lists)
    && Linked(b.memory, b.heads, b.lists)
    && b.heap == Total(b.pieces)
    && LargeApart(b)
  }

  ghost predicate Whole(b: Books) {
    Core(b) && Reserved(b.pieces, b.start, b.end)
  }

  lemma Sizes(b: Books)
    requires Core(b)
    ensures |b.lists| == |b.heads| == NFREELISTS
  {
  }

  /** The state between two calls. */
  ghost predicate Valid(b: Books) {
    Whole(b) && NoLoose(b.pieces)
  }

  /** The state in _S_chunk_alloc after the reserve has been filed away. */
  ghost predicate NoReserve(b: Books) {
    Core(b) && Reserved(b.pieces, Null, Null) && NoLoose(b.pieces)
  }

  /** A step that gives the client nothing, takes nothing and writes none of its words. */
  ghost predicate Unseen(b: Books, b': Books) {
    && SameLive(b.pieces, b'.pieces) && StillOwned(b.pieces, b'.pieces) && b'.large == b.large
    && OwnWrites(b'.pieces, b.memory, b'.memory)
  }

  function BytesLeft(start: Ptr, end: Ptr): nat {
    if start.At? && end.At? && start.off <= end.off then end.off - start.off else 0
  }

  ghost function Left(b: Books): nat {
    BytesLeft(b.start, b.end)
  }

  /** What is left of the reserve is a whole number of eights. */
  lemma LeftoverIsWhole(b: Books)
    requires Valid(b)
    ensures Left(b) % ALIGN == 0
    ensures 0 < Left(b) ==>
            && b.start in b.pieces && b.start.At? && b.end == Plus(b.start, Left(b))
            && b.pieces[b.start] == Piece(Left(b), Reserve)
    ensures Left(b) == 0 ==> Reserved(b.pieces, Null, Null)
  {
    if b.start != b.end {
      assert Fits(b.start, b.pieces[b.start].size, b.chunks);
    }
  }

  // ---------------------------------------------------------------- off the front of the reserve

  /** The first bytes of the reserve, taken in hand. */
  ghost function Taken(b: Books, bytes: nat): Books
    requires b.start in b.pieces && b.start.At? && 0 < bytes <= b.pieces[b.start].size
  {
    b.(start := Plus(b.start, bytes),
       pieces := if bytes < b.pieces[b.start].size then Cut(b.pieces, b.start, bytes, Loose, Reserve)
                 else b.pieces[b.start := Piece(bytes, Loose)])
  }

  lemma SplitRoles(ps: map<Ptr, Piece>, start: Ptr, end: Ptr, bytes: nat)
    requires Reserved(ps, start, end) && NoLoose(ps) && start != end && 0 < bytes < end.off - start.off
    requires Plus(start, bytes) !in ps
    ensures var ps' := Cut(ps, start, bytes, Loose, Reserve);
      && SameLive(ps, ps') && StillOwned(ps, ps') && Reserved(ps', Plus(start, bytes), end)
      && OnlyLoose(ps', start, bytes)
  {
  }

  /** Part of the reserve in hand, the rest still the reserve. */
  lemma SplitReserve(ps: map<Ptr, Piece>, chunks: seq<nat>, lists: seq<seq<Ptr>>, start: Ptr, end: Ptr, bytes: nat)
    requires Sound(ps, chunks) && Classed(ps, lists) && Reserved(ps, start, end) && NoLoose(ps)
    requires start != end && 0 < bytes < end.off - start.off && bytes % ALIGN == 0
    ensures var ps' := Cut(ps, start, bytes, Loose, Reserve);
      && Sound(ps', chunks) && Total(ps') == Total(ps) && Classed(ps', lists) && SameLive(ps, ps')
      && StillOwned(ps, ps')
      && Reserved(ps', Plus(start, bytes), end) && OnlyLoose(ps', start, bytes)
  {
    hide Sound, Classed, SameLive, StillOwned, NoLoose;
    CutIsSound(ps, chunks, start, bytes, Loose, Reserve);
    SplitRoles(ps, start, end, bytes);
    CutClassed(ps, lists, start, bytes, Loose, Reserve);
  }

  /** All of the reserve in hand. */
  lemma EmptyReserve(ps: map<Ptr, Piece>, chunks: seq<nat>, lists: seq<seq<Ptr>>, start: Ptr, end: Ptr)
    requires Sound(ps, chunks) && Classed(ps, lists) && Reserved(ps, start, end) && NoLoose(ps) && start != end
    ensures var ps' := ps[start := Piece(end.off - start.off, Loose)];
      && Sound(ps', chunks) && Total(ps') == Total(ps) && Classed(ps', lists) && SameLive(ps, ps')
      && StillOwned(ps, ps')
      && Reserved(ps', end, end) && OnlyLoose(ps', start, end.off - start.off)
  {
    Recast(ps, chunks, start, Loose);
    RecastClassed(ps, lists, start, Loose);
  }

  /** The client sees nothing, and one piece of that many bytes is between hands. */
  ghost predicate InHand(b: Books, b': Books, at: Ptr, bytes: nat) {
    Whole(b') && Unseen(b, b') && OnlyLoose(b'.pieces, at, bytes)
  }

  lemma TakePart(b: Books, bytes: nat)
    requires Valid(b) && 0 < bytes < Left(b) && bytes % ALIGN == 0
    requires b.start in b.pieces && b.start.At? && b.pieces[b.start].size == Left(b) && b.end == Plus(b.start, Left(b))
    ensures InHand(b, Taken(b, bytes), b.start, bytes)
  {
    hide Sound, Classed, Linked;
    SplitReserve(b.pieces, b.chunks, b.lists, b.start, b.end, bytes);
  }

  lemma TakeAll(b: Books)
    requires Valid(b) && 0 < Left(b)
    requires b.start in b.pieces && b.start.At? && b.pieces[b.start].size == Left(b) && b.end == Plus(b.start, Left(b))
    ensures InHand(b, Taken(b, Left(b)), b.start, Left(b))
  {
    hide Sound, Classed, Linked;
    EmptyReserve(b.pieces, b.chunks, b.lists, b.start, b.end);
    var b' := Taken(b, Left(b));
    assert b' == b.(start := b.end, pieces := b.pieces[b.start := Piece(Left(b), Loose)]);
    EmptiedLarge(b, b');
  }

  lemma EmptiedLarge(b: Books, b': Books)
    requires LargeApart(b) && b.start in b.pieces && b'.large == b.large && b'.chunks == b.chunks
    requires b'.pieces.Keys == b.pieces.Keys
    ensures LargeApart(b')
  {
    assert forall q :: q in b'.pieces ==> q in b.pieces;
  }

  lemma TakeKeeps(b: Books, bytes: nat)
    requires Valid(b) && 0 < bytes <= Left(b) && bytes % ALIGN == 0
    ensures b.start in b.pieces && b.start.At? && b.pieces[b.start].size == Left(b)
    ensures InHand(b, Taken(b, bytes), b.start, bytes)
  {
    LeftoverIsWhole(b);
    if bytes < Left(b) {
      TakePart(b, bytes);
    } else {
      TakeAll(b);
    }
  }

  /** Pieces that are in no list may change hands without touching the lists. */
  lemma RecastClassed(ps: map<Ptr, Piece>, lists: seq<seq<Ptr>>, p: Ptr, kind: Kind)
    requires Classed(ps, lists) && p in ps && !ps[p].kind.Free? && !kind.Free?
    ensures Classed(ps[p := ps[p].(kind := kind)], lists)
  {
  }

  lemma CutClassed(ps: map<Ptr, Piece>, lists: seq<seq<Ptr>>, p: Ptr, m: nat, first: Kind, second: Kind)
    requires Classed(ps, lists) && p in ps && p.At? && m < ps[p].size && Plus(p, m) !in ps
    requires !ps[p].kind.Free? && !first.Free? && !second.Free?
    ensures Classed(Cut(ps, p, m, first, second), lists)
  {
  }

  // ---------------------------------------------------------------- the left-over piece

  /** The rest of the reserve at the head of the list of its own size. */
  ghost function Filed(b: Books): Books
    requires |b.lists| == |b.heads| == NFREELISTS && Left(b) <= MAX_BYTES
    requires 0 < Left(b) ==> b.start in b.pieces
  {
    if Left(b) < ALIGN then b else
      var k := Left(b) / ALIGN - 1;
      b.(pieces := b.pieces[b.start := b.pieces[b.start].(kind := Free(k))],
         lists := b.lists[k := [b.start] + b.lists[k]],
         memory := b.memory[b.start := b.heads[k]],
         heads := b.heads[k := b.start])
  }

  ghost predicate FiledAway(b: Books, b': Books) {
    NoReserve(b') && Unseen(b, b')
  }

  lemma FileSome(b: Books)
    requires Valid(b) && ALIGN <= Left(b) <= MAX_BYTES && Left(b) % ALIGN == 0
    requires b.start in b.pieces && b.start.At? && b.pieces[b.start] == Piece(Left(b), Reserve)
    ensures FiledAway(b, Filed(b))
  {
    hide Sound, Reserved, NoLoose;
    Sizes(b);
    var k := Left(b) / ALIGN - 1;
    Push(b.pieces, b.chunks, b.memory, b.heads, b.lists, b.start, k);
    FileReserve(b.pieces, b.start, b.end, Free(k));
    WriteOwn(Filed(b).pieces, b.memory, b.start, b.heads[k]);
  }

  lemma FileKeeps(b: Books)
    requires Valid(b) && Left(b) <= MAX_BYTES
    ensures 0 < Left(b) ==> b.start in b.pieces
    ensures FiledAway(b, Filed(b)) && Left(b) % ALIGN == 0
  {
    LeftoverIsWhole(b);
    if 0 < Left(b) {
      FileSome(b);
    }
  }

  lemma WriteOwn(ps: map<Ptr, Piece>, m: Memory, p: Ptr, v: Ptr)
    requires PoolOwns(ps, p)
    ensures OwnWrites(ps, m, m[p := v])
  {
  }

  lemma FileReserve(ps: map<Ptr, Piece>, start: Ptr, end: Ptr, kind: Kind)
    requires Reserved(ps, start, end) && NoLoose(ps) && start != end && kind.Free?
    ensures var ps' := ps[start := ps[start].(kind := kind)];
      SameLive(ps, ps') && StillOwned(ps, ps') && Reserved(ps', Null, Null) && NoLoose(ps')
  {
  }

  // ---------------------------------------------------------------- a new reserve

  ghost predicate Restocked(b: Books, b': Books, left: nat) {
    Valid(b') && Unseen(b, b') && Left(b') == left
  }

  ghost predicate CanReopen(b: Books, k: nat) {
    k < |b.lists| == |b.heads| && b.lists[k] != [] && b.heads[k].At? && b.heads[k] in b.pieces && b.heads[k] in b.memory
  }

  /** The head of list k becomes the reserve. */
  ghost function Reopened(b: Books, k: nat): Books
    requires CanReopen(b, k)
  {
    var p := b.heads[k];
    b.(pieces := b.pieces[p := b.pieces[p].(kind := Reserve)], lists := b.lists[k := b.lists[k][1..]],
       heads := b.heads[k := b.memory[p]], start := p, end := Plus(p, ALIGN * (k + 1)))
  }

  /** The head of list k is null for an empty list, and else its first block. */
  ghost predicate GoodHead(ps: map<Ptr, Piece>, m: Memory, heads: seq<Ptr>, lists: seq<seq<Ptr>>, k: nat)
    requires k < |heads| == |lists|
  {
    var p := heads[k];
    && (p == Null <==> lists[k] == [])
    && (lists[k] != [] ==> p == lists[k][0] && p.At? && p in ps && p in m && ps[p] == Piece(ALIGN * (k + 1), Free(k)))
  }

  ghost predicate GoodHeads(ps: map<Ptr, Piece>, m: Memory, heads: seq<Ptr>, lists: seq<seq<Ptr>>) {
    |heads| == |lists| == NFREELISTS && forall k :: 0 <= k < NFREELISTS ==> GoodHead(ps, m, heads, lists, k)
  }

  lemma HeadOf(b: Books, k: nat)
    requires Core(b) && k < NFREELISTS
    ensures GoodHead(b.pieces, b.memory, b.heads, b.lists, k)
  {
    EmptyIffNull(b.pieces, b.chunks, b.memory, b.heads, b.lists, k);
    if b.lists[k] != [] {
      Pop(b.pieces, b.chunks, b.memory, b.heads, b.lists, k, Loose);
      assert Fits(b.heads[k], b.pieces[b.heads[k]].size, b.chunks);
    }
  }

  lemma ReopenKeeps(b: Books, k: nat)
    requires NoReserve(b) && k < NFREELISTS && b.lists[k] != []
    ensures CanReopen(b, k) && Restocked(b, Reopened(b, k), ALIGN * (k + 1))
  {
    hide Sound, Classed, Linked;
    Sizes(b);
    HeadOf(b, k);
    Pop(b.pieces, b.chunks, b.memory, b.heads, b.lists, k, Reserve);
    OpenReserve(b.pieces, b.heads[k]);
  }

  lemma OpenReserve(ps: map<Ptr, Piece>, p: Ptr)
    requires Reserved(ps, Null, Null) && NoLoose(ps) && p in ps && p.At? && ps[p].kind.Free? && 0 < ps[p].size
    ensures var ps' := ps[p := ps[p].(kind := Reserve)];
      SameLive(ps, ps') && StillOwned(ps, ps') && Reserved(ps', p, Plus(p, ps[p].size)) && NoLoose(ps')
  {
  }

  /** A block of bytes bytes from malloc becomes the reserve. */
  ghost function Grown(b: Books, bytes: nat): Books {
    var p := At(|b.chunks|, 0);
    b.(pieces := b.pieces[p := Piece(bytes, Reserve)], chunks := b.chunks + [bytes], heap := b.heap + bytes,
       start := p, end := Plus(p, bytes))
  }

  lemma GrowKeeps(b: Books, bytes: nat)
    requires NoReserve(b) && 0 < bytes && bytes % ALIGN == 0
    ensures Restocked(b, Grown(b, bytes), bytes)
  {
    hide Sound, Classed, Linked;
    GrowIsSound(b.pieces, b.chunks, bytes, Reserve);
    GrowClassed(b.pieces, b.lists, At(|b.chunks|, 0), Piece(bytes, Reserve));
    GrowReserve(b.pieces, At(|b.chunks|, 0), bytes);
  }

  lemma GrowReserve(ps: map<Ptr, Piece>, p: Ptr, bytes: nat)
    requires Reserved(ps, Null, Null) && NoLoose(ps) && p !in ps && p.At? && 0 < bytes
    ensures var ps' := ps[p := Piece(bytes, Reserve)];
      SameLive(ps, ps') && StillOwned(ps, ps') && Reserved(ps', p, Plus(p, bytes)) && NoLoose(ps')
  {
  }

  lemma GrowClassed(ps: map<Ptr, Piece>, lists: seq<seq<Ptr>>, p: Ptr, x: Piece)
    requires Classed(ps, lists) && p !in ps && !x.kind.Free?
    ensures Classed(ps[p := x], lists)
  {
  }

  // ---------------------------------------------------------------- _S_chunk_alloc

  /** Where the bytes of a refill come from. */
  datatype Origin = TheReserve | FromMalloc(calls: nat) | BiggerList(k: nat) | Nowhere

  /** What _S_chunk_alloc hands back: count objects side by side, or the bad_alloc of malloc. */
  datatype Grant = Granted(at: Ptr, count: nat) | NoMemory

  /** The first list at or after k that has a block; NFREELISTS if none has. */
  function FirstFilled(lists: seq<seq<Ptr>>, k: nat): (j: nat)
    requires |lists| == NFREELISTS && k <= NFREELISTS
    ensures k <= j <= NFREELISTS && (forall i :: k <= i < j ==> lists[i] == [])
    ensures j < NFREELISTS ==> lists[j] != []
    decreases NFREELISTS - k
  {
    if k == NFREELISTS || lists[k] != [] then k else FirstFilled(lists, k + 1)
  }

  /** first and second: whether the next two calls of malloc succeed. */
  function OriginOf(size: nat, left: nat, lists: seq<seq<Ptr>>, first: bool, second: bool): Origin
    requires |lists| == NFREELISTS && ALIGN <= size <= MAX_BYTES
  {
    if size <= left then TheReserve
    else if first then FromMalloc(1)
    else
      var j := FirstFilled(lists, size / ALIGN - 1);
      if j < NFREELISTS then BiggerList(j) else if second then FromMalloc(2) else Nowhere
  }

  lemma {:induction false} FirstFilledSame(l: seq<seq<Ptr>>, l': seq<seq<Ptr>>, k: nat)
    requires |l| == |l'| == NFREELISTS && k <= NFREELISTS
    requires forall j :: k <= j < NFREELISTS ==> l'[j] == l[j]
    ensures FirstFilled(l', k) == FirstFilled(l, k)
    decreases NFREELISTS - k
  {
    if k < NFREELISTS {
      FirstFilledSame(l, l', k + 1);
    }
  }

  function CallsOf(o: Origin): nat {
    match o
    case TheReserve => 0
    case FromMalloc(n) => n
    case BiggerList(_) => 1
    case Nowhere => 2
  }

  function BytesToGet(size: nat, want: nat, heap: nat): nat {
    2 * (size * want) + RoundUp(heap / 16)
  }

  function Min(a: nat, b: nat): nat {
    if a <= b then a else b
  }

  lemma MultipleTimes(a: nat, b: nat)
    requires a % ALIGN == 0
    ensures (a * b) % ALIGN == 0
  {
    var q := a / ALIGN;
    assert a * b == ALIGN * (q * b);
  }

  lemma OneMore(n: nat, c: nat)
    requires 0 < n && 0 < c
    ensures (c + 1) * n == n + c * n && 0 < c * n
  {
  }

  lemma BytesToGetEnough(size: nat, want: nat, heap: nat)
    requires size % ALIGN == 0 && 0 < size && 0 < want
    ensures BytesToGet(size, want, heap) % ALIGN == 0
    ensures size * want <= BytesToGet(size, want, heap) && size <= size * want
  {
    MultipleTimes(size, want);
    assert size * want == size + size * (want - 1);
  }

  lemma Multiply(a: nat, b: nat, n: nat)
    requires a <= b
    ensures a * n <= b * n
  {
  }

  /** As many objects as are wanted, or as fit. */
  lemma Objects(size: nat, want: nat, left: nat)
    requires 0 < size <= left && 0 < want && size % ALIGN == 0
    ensures var c := Min(want, left / size);
      0 < c <= want && 0 < c * size <= left && (c * size) % ALIGN == 0 && (want * size <= left <==> c == want)
  {
    var d := left / size;
    var c := Min(want, d);
    assert d * size <= left < d * size + size;
    assert 0 < d;
    if want <= d {
      Multiply(want, d, size);
    } else {
      Multiply(d + 1, want, size);
    }
    Multiply(1, c, size);
    MultipleTimes(size, c);
  }

  ghost predicate Serving(b: Books, size: nat, o: Origin) {
    && Valid(b) && ALIGN <= size <= MAX_BYTES && size % ALIGN == 0
    && (o.TheReserve? <==> size <= Left(b))
    && (o.BiggerList? ==> size / ALIGN - 1 <= o.k < NFREELISTS && b.lists[o.k] != [])
  }

  lemma OriginServes(b: Books, size: nat, first: bool, second: bool)
    requires Valid(b) && ALIGN <= size <= MAX_BYTES && size % ALIGN == 0
    ensures Serving(b, size, OriginOf(size, Left(b), b.lists, first, second))
  {
  }

  /** The state whose reserve a chunk comes from. */
  ghost function Stocked(b: Books, size: nat, want: nat, o: Origin): Books
    requires Serving(b, size, o)
  {
    if o.TheReserve? then b
    else
      FileKeeps(b);
      match o
      case FromMalloc(_) => Grown(Filed(b), BytesToGet(size, want, b.heap))
      case BiggerList(k) =>
        HeadOf(Filed(b), k);
        Reopened(Filed(b), k)
      case Nowhere => Filed(b).(start := Null, end := Null)
  }

  lemma StockKeeps(b: Books, size: nat, want: nat, o: Origin)
    requires Serving(b, size, o) && 0 < want
    ensures var s := Stocked(b, size, want, o); Valid(s) && Unseen(b, s) && (!o.Nowhere? ==> size <= Left(s))
  {
    hide Sound, Classed, Linked;
    Sizes(b);
    if !o.TheReserve? {
      FileKeeps(b);
      var f := Filed(b);
      Sizes(f);
      match o {
        case FromMalloc(_) =>
          BytesToGetEnough(size, want, b.heap);
          GrowKeeps(f, BytesToGet(size, want, b.heap));
        case BiggerList(k) =>
          ReopenKeeps(f, k);
        case Nowhere =>
      }
    }
  }

  /** The bytes of as many objects as are wanted, or as fit. */
  function BytesFor(size: nat, want: nat, left: nat): nat
    requires 0 < size
  {
    Min(want, left / size) * size
  }

  /** A chunk fits the reserve it is taken from. */
  lemma ChunkFits(s: Books, size: nat, want: nat)
    requires Valid(s) && 0 < size <= Left(s) && 0 < want && size % ALIGN == 0
    ensures s.start in s.pieces && s.start.At? && 0 < BytesFor(size, want, Left(s)) <= s.pieces[s.start].size
  {
    Objects(size, want, Left(s));
    LeftoverIsWhole(s);
  }

  ghost function Chunked(b: Books, size: nat, want: nat, o: Origin): (Books, Grant)
    requires Serving(b, size, o) && 0 < want
  {
    var s := Stocked(b, size, want, o);
    if o.Nowhere? then (s, NoMemory)
    else
      StockKeeps(b, size, want, o);
      ChunkFits(s, size, want);
      (Taken(s, BytesFor(size, want, Left(s))), Granted(s.start, Min(want, Left(s) / size)))
  }

  /** A chunk is one loose piece of between one and want objects; the client sees nothing of it. */
  ghost predicate ChunkFrom(b: Books, b': Books, size: nat, want: nat, r: Grant) {
    match r
    case NoMemory => Valid(b') && Unseen(b, b') && b'.start == b'.end == Null
    case Granted(at, count) => 0 < count <= want && at.At? && InHand(b, b', at, count * size)
  }

  lemma ChunkKeeps(b: Books, size: nat, want: nat, o: Origin)
    requires Serving(b, size, o) && 0 < want
    ensures var (b', r) := Chunked(b, size, want, o); ChunkFrom(b, b', size, want, r)
    ensures Chunked(b, size, want, o).1.NoMemory? <==> o.Nowhere?
  {
    hide Sound, Classed, Linked, LargeApart, NoLoose, SameLive, StillOwned, OwnWrites, Reserved;
    StockKeeps(b, size, want, o);
    if !o.Nowhere? {
      TakeChunk(b, Stocked(b, size, want, o), size, want);
    }
  }

  lemma TakeChunk(b: Books, s: Books, size: nat, want: nat)
    requires Valid(s) && Unseen(b, s) && 0 < size <= Left(s) && 0 < want && size % ALIGN == 0
    ensures var count := Min(want, Left(s) / size); 0 < count <= want && 0 < count * size <= Left(s)
    ensures s.start in s.pieces && s.start.At? && s.pieces[s.start].size == Left(s)
    ensures var count := Min(want, Left(s) / size);
      ChunkFrom(b, Taken(s, count * size), size, want, Granted(s.start, count))
  {
    var count := Min(want, Left(s) / size);
    Objects(size, want, Left(s));
    TakeKeeps(s, count * size);
    UnseenThenInHand(b, s, Taken(s, count * size), s.start, count * size);
  }

  lemma UnseenThenInHand(b: Books, s: Books, b': Books, at: Ptr, bytes: nat)
    requires Unseen(b, s) && InHand(s, b', at, bytes)
    ensures InHand(b, b', at, bytes)
  {
    forall a | !PoolOwns(b'.pieces, a) ensures SameWord(b.memory, b'.memory, a) {
      assert SameWord(b.memory, s.memory, a) && SameWord(s.memory, b'.memory, a);
    }
  }

  /** The list of the requested size is left alone, so that _S_refill overwrites no block: leftovers
      are smaller, and only a list that has blocks is opened. */
  lemma ChunkSparesList(b: Books, size: nat, want: nat, o: Origin)
    requires Serving(b, size, o) && 0 < want && b.lists[size / ALIGN - 1] == []
    ensures var b' := Chunked(b, size, want, o).0;
      |b'.lists| == |b'.heads| == NFREELISTS && b'.lists[size / ALIGN - 1] == [] && b'.heads[size / ALIGN - 1] == Null
  {
    var k := size / ALIGN - 1;
    StockSpares(b, size, want, o);
    var b' := Chunked(b, size, want, o).0;
    assert b'.lists == Stocked(b, size, want, o).lists;
    ChunkKeeps(b, size, want, o);
    HeadOf(b', k);
  }

  lemma StockSpares(b: Books, size: nat, want: nat, o: Origin)
    requires Serving(b, size, o) && 0 < want && b.lists[size / ALIGN - 1] == []
    ensures var s := Stocked(b, size, want, o); |s.lists| == NFREELISTS && s.lists[size / ALIGN - 1] == []
  {
    hide Sound, Linked, LargeApart, NoLoose, SameLive, StillOwned, OwnWrites;
    if !o.TheReserve? {
      Sizes(b);
      FileKeeps(b);
      Sizes(Filed(b));
      assert Filed(b).lists[size / ALIGN - 1] == [];
    }
  }

  // ---------------------------------------------------------------- _S_refill

  /** The link words of count blocks from p on, each to the next and the last to null. */
  function LinkRun(m: Memory, p: Ptr, n: nat, count: nat): Memory
    requires p.At?
    decreases count
  {
    if count == 0 then m
    else if count == 1 then m[p := Null]
    else LinkRun(m[p := Plus(p, n)], Plus(p, n), n, count - 1)
  }

  lemma {:induction false} LinkRunChains(m: Memory, p: Ptr, n: nat, count: nat)
    requires p.At? && 0 < n && 0 < count
    ensures var m' := LinkRun(m, p, n, count);
      && ChainTo(m', p, Run(p, n, count), Null)
      && (forall q :: q !in Run(p, n, count) ==> SameWord(m, m', q))
    decreases count
  {
    if count == 1 {
      assert Run(p, n, 1) == [p];
      assert ChainTo(m[p := Null], Null, [], Null);
    } else {
      LinkRunChains(m[p := Plus(p, n)], Plus(p, n), n, count - 1);
      assert p !in Run(Plus(p, n), n, count - 1);
      assert Run(p, n, count) == [p] + Run(Plus(p, n), n, count - 1);
    }
  }

  /** The first object to the client, the others into list k. */
  ghost function Dealt(b: Books, at: Ptr, n: nat, count: nat, k: nat): Books
    requires at in b.pieces && at.At? && 0 < n && 0 < count && b.pieces[at].size == count * n
    requires k < |b.lists| == |b.heads|
  {
    if count == 1 then b.(pieces := b.pieces[at := Piece(n, Live)])
    else
      OneMore(n, count - 1);
      var p := Plus(at, n);
      b.(pieces := Carve(Cut(b.pieces, at, n, Live, Loose), p, n, count - 1, k),
         lists := b.lists[k := Run(p, n, count - 1)],
         heads := b.heads[k := p],
         memory := LinkRun(b.memory, p, n, count - 1))
  }

  /** The client gets a block of n bytes at at, and its other blocks keep their words. */
  ghost predicate Given(b: Books, b': Books, at: Ptr, n: nat) {
    && Valid(b') && (forall m :: !LiveAt(b.pieces, at, m))
    && (forall p, m :: LiveAt(b'.pieces, p, m) <==> LiveAt(b.pieces, p, m) || (p == at && m == n))
    && (forall a :: PoolOwns(b.pieces, a) ==> PoolOwns(b'.pieces, a) || a == at)
    && (forall a :: SameWord(b.memory, b'.memory, a) || PoolOwns(b'.pieces, a) || a == at)
    && b'.large == b.large
  }

  lemma DealOne(b: Books, at: Ptr, n: nat)
    requires Whole(b) && OnlyLoose(b.pieces, at, n)
    ensures Given(b, b.(pieces := b.pieces[at := Piece(n, Live)]), at, n)
  {
    hide Sound, Classed, Linked;
    Recast(b.pieces, b.chunks, at, Live);
    RecastClassed(b.pieces, b.lists, at, Live);
    DealPiece(b.pieces, b.start, b.end, at, n);
  }

  lemma DealPiece(ps: map<Ptr, Piece>, start: Ptr, end: Ptr, at: Ptr, n: nat)
    requires Reserved(ps, start, end) && OnlyLoose(ps, at, n)
    ensures var ps' := ps[at := Piece(n, Live)];
      && (forall q, m :: LiveAt(ps', q, m) <==> LiveAt(ps, q, m) || (q == at && m == n))
      && (forall a :: PoolOwns(ps, a) ==> PoolOwns(ps', a) || a == at)
      && NoLoose(ps') && Reserved(ps', start, end)
  {
  }

  /** Linking the run writes only words of the loose piece. */
  lemma DealLinks(ps: map<Ptr, Piece>, lists: seq<seq<Ptr>>, m: Memory, m': Memory, heads: seq<Ptr>,
                  ps': map<Ptr, Piece>, run: seq<Ptr>, k: nat)
    requires Classed(ps, lists) && Linked(m, heads, lists)
    requires k < NFREELISTS && lists[k] == [] && run != [] && ChainTo(m', run[0], run, Null)
    requires forall q :: q in run ==> PoolOwns(ps', q)
    requires forall q :: q in ps && ps[q].kind.Free? ==> q !in run
    requires forall q :: q !in run ==> SameWord(m, m', q)
    ensures Linked(m', heads[k := run[0]], lists[k := run]) && OwnWrites(ps', m, m')
  {
    forall j | 0 <= j < |lists| && j != k ensures ChainTo(m', heads[j], lists[j], Null) {
      forall q | q in lists[j] ensures SameWord(m, m', q) {
        assert ps[q].kind.Free?;
      }
      ChainFrame(m, m', heads[j], lists[j], Null);
    }
  }

  /** What dealing does to the pieces: the first object is live, the run behind it is list k. */
  ghost predicate DealtPieces(ps: map<Ptr, Piece>, ps': map<Ptr, Piece>, lists: seq<seq<Ptr>>, at: Ptr, n: nat, k: nat,
                              run: seq<Ptr>)
    requires k < |lists| && at.At?
  {
    && Classed(ps', lists[k := run]) && NoLoose(ps')
    && (forall q, m :: LiveAt(ps', q, m) <==> LiveAt(ps, q, m) || (q == at && m == n))
    && (forall a :: PoolOwns(ps, a) ==> PoolOwns(ps', a) || a == at)
    && (forall start, end :: Reserved(ps, start, end) ==> Reserved(ps', start, end))
    && (forall q :: q in run ==> PoolOwns(ps', q))
    && (forall q :: q in ps && ps[q].kind.Free? ==> q !in run)
    && (forall q :: q in ps' ==> q.At? && (q in ps || q.chunk == at.chunk))
  }

  lemma DealPieces(ps: map<Ptr, Piece>, ps': map<Ptr, Piece>, lists: seq<seq<Ptr>>, at: Ptr, n: nat, rest: nat, k: nat,
                   run: seq<Ptr>)
    requires Classed(ps, lists) && at.At? && Plus(at, n) !in ps && 0 < n && 0 < rest
    requires k < NFREELISTS && n == ALIGN * (k + 1) && lists[k] == [] && NoDup(run) && Plus(at, n) in run && at !in run
    requires OnlyLoose(ps, at, n + rest)
    requires Carved(Cut(ps, at, n, Live, Loose), ps', Plus(at, n), run, Piece(n, Free(k)))
    requires forall q :: q in ps ==> q.At?
    requires forall q :: q in run ==> q.At? && q.chunk == at.chunk
    ensures DealtPieces(ps, ps', lists, at, n, k, run)
  {
    var ps1 := Cut(ps, at, n, Live, Loose);
    assert Classed(ps', lists[k := run]) by {
      CutClassed(ps, lists, at, n, Live, Loose);
      CarveClassed(ps1, ps', lists, Plus(at, n), run, k);
    }
  }

  lemma DealRun(ps: map<Ptr, Piece>, chunks: seq<nat>, lists: seq<seq<Ptr>>, at: Ptr, n: nat, c: nat, k: nat)
    requires Sound(ps, chunks) && Classed(ps, lists) && at.At? && 0 < c && OnlyLoose(ps, at, n + c * n) && 0 < c * n
    requires k < NFREELISTS && n == ALIGN * (k + 1) && lists[k] == []
    ensures var ps', run := Carve(Cut(ps, at, n, Live, Loose), Plus(at, n), n, c, k), Run(Plus(at, n), n, c);
      Sound(ps', chunks) && Total(ps') == Total(ps) && DealtPieces(ps, ps', lists, at, n, k, run)
  {
    var p := Plus(at, n);
    var run := Run(p, n, c);
    CutIsSound(ps, chunks, at, n, Live, Loose);
    var ps1 := Cut(ps, at, n, Live, Loose);
    CarveIsSound(ps1, chunks, p, n, c, k);
    RunNoDup(p, n, c);
    assert run[0] == p;
    assert forall q :: q in ps ==> Fits(q, ps[q].size, chunks);
    DealPieces(ps, Carve(ps1, p, n, c, k), lists, at, n, c * n, k, run);
  }

  lemma DealtLarge(b: Books, b': Books, at: Ptr)
    requires LargeApart(b) && at in b.pieces && at.At? && b'.large == b.large && b'.chunks == b.chunks
    requires forall q :: q in b'.pieces ==> q.At? && (q in b.pieces || q.chunk == at.chunk)
    ensures LargeApart(b')
  {
  }

  /** The parts of a dealt state, put together. */
  lemma GivenParts(b: Books, b': Books, at: Ptr, n: nat, k: nat, run: seq<Ptr>)
    requires Whole(b) && at.At? && k < |b.lists| && at in b.pieces && b.pieces[at].kind == Loose
    requires Sound(b'.pieces, b'.chunks) && b'.heap == Total(b'.pieces) && LargeApart(b') && b'.large == b.large
    requires b'.lists == b.lists[k := run] && b'.start == b.start && b'.end == b.end
    requires DealtPieces(b.pieces, b'.pieces, b.lists, at, n, k, run)
    requires Linked(b'.memory, b'.heads, b'.lists) && OwnWrites(b'.pieces, b.memory, b'.memory)
    ensures Given(b, b', at, n)
  {
    hide Sound, Classed, Linked, LargeApart, Reserved;
  }

  lemma DealMany(b: Books, at: Ptr, n: nat, count: nat, k: nat)
    requires Whole(b) && at.At? && 1 < count && OnlyLoose(b.pieces, at, count * n)
    requires k < NFREELISTS && n == ALIGN * (k + 1) && b.lists[k] == []
    ensures Given(b, Dealt(b, at, n, count, k), at, n)
  {
    Sizes(b);
    hide Sound, Classed, Linked, Carve, LinkRun, LargeApart, Run, Given;
    var p, c, b' := Plus(at, n), count - 1, Dealt(b, at, n, count, k);
    OneMore(n, c);
    DealRun(b.pieces, b.chunks, b.lists, at, n, c, k);
    RunStarts(p, n, c);
    var run := Run(p, n, c);
    assert Linked(b'.memory, b'.heads, b'.lists) && OwnWrites(b'.pieces, b.memory, b'.memory) by {
      LinkRunChains(b.memory, p, n, c);
      DealLinks(b.pieces, b.lists, b.memory, b'.memory, b.heads, b'.pieces, run, k);
    }
    DealtLarge(b, b', at);
    GivenParts(b, b', at, n, k, run);
  }

  lemma RunStarts(p: Ptr, n: nat, c: nat)
    requires p.At? && 0 < c
    ensures |Run(p, n, c)| == c && Run(p, n, c)[0] == p
  {
  }

  lemma DealKeeps(b: Books, at: Ptr, n: nat, count: nat, k: nat)
    requires Whole(b) && at.At? && 0 < count && OnlyLoose(b.pieces, at, count * n)
    requires k < NFREELISTS && n == ALIGN * (k + 1) && b.lists[k] == []
    ensures Given(b, Dealt(b, at, n, count, k), at, n)
  {
    if count == 1 {
      DealOne(b, at, n);
    } else {
      DealMany(b, at, n, count, k);
    }
  }
}
