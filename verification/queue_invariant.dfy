/** What every reachable state of `lock_free_queue` satisfies, and the frame lemmas that say when a
    step of one thread keeps it.  The proof record (`Proof`) is carried beside the state; the
    program never reads it. */
module QueueInvariant {
  import opened Options
  import opened AtomicQueue
  import opened LockFreeQueue

  /** One of the two counted links to a node: not there yet, the live head or tail, taken down by
      a thread that has still to fold its count into the node, or folded. */
  datatype Side = Ahead | Live | Detached(t: Tid) | Folded

  /** Who answers for an allocated node: the pusher that has not linked it, the queue -- at a
      position counted from the first node ever linked -- or the thread that will delete it. */
  datatype Role = Private(t: Tid) | Shared(pos: nat, hd: Side, tl: Side) | Doomed(t: Tid)

  /** `chain` runs from the head to the last linked node; the head is at position `base`, the tail
      at `tailAt`. */
  datatype Proof = Proof(chain: seq<Addr>, base: nat, tailAt: nat, role: map<Addr, Role>)

  /** The node a thread has counted itself on and not yet let go of. */
  function HeldBy(pc: Pc): Addr {
    match pc
    case PushData(_, _, was) => was.ptr
    case PushPeek(_, _, was) => was.ptr
    case PushLink(_, _, was) => was.ptr
    case PushTrash(_, _, was, _) => was.ptr
    case HelpLink(_, _, was) => was.ptr
    case HelpNew(_, was, _) => was.ptr
    case SetTail(cur, _, _, _) => cur
    case FoldLoad(was, _) => was.ptr
    case FoldCas(was, _, _) => was.ptr
    case RelLoad(p, _) => p
    case RelCas(p, _, _) => p
    case PopTail(was) => was.ptr
    case PopNext(was) => was.ptr
    case PopCas(was, _) => was.ptr
    case PopTake(was) => was.ptr
    case _ => NULL
  }

  predicate Holds(pc: Pc, p: Addr) {
    p != NULL && HeldBy(pc) == p
  }

  function Holders(s: State, p: Addr): set<Tid> {
    set t | t in s.threads && Holds(s.threads[t], p)
  }

  function SpareIn(after: After): Addr {
    match after
    case PushAgain(_, node, _) => node
    case _ => NULL
  }

  /** The unlinked node a pusher carries. */
  function SpareOf(pc: Pc): Addr {
    match pc
    case PushLoad(_, node) => node
    case PushCount(_, node, _) => node
    case PushData(_, node, _) => node
    case PushPeek(_, node, _) => node
    case PushLink(_, node, _) => node
    case PushTrash(_, node, _, _) => node
    case HelpLink(_, node, _) => node
    case SetTail(_, _, _, then_) => if then_.Again? then then_.node else NULL
    case FoldLoad(_, after) => SpareIn(after)
    case FoldCas(_, _, after) => SpareIn(after)
    case RelLoad(_, after) => SpareIn(after)
    case RelCas(_, _, after) => SpareIn(after)
    case Reap(_, after) => SpareIn(after)
    case _ => NULL
  }

  /** The count a thread took down with a link and has still to fold, if it took one down. */
  function Taken(pc: Pc): Option<CountedPtr> {
    match pc
    case FoldLoad(was, _) => Some(was)
    case FoldCas(was, _, _) => Some(was)
    case PopTake(was) => Some(was)
    case _ => None
  }

  /** Whether the link a thread took down was the head's. */
  predicate FromHead(pc: Pc) {
    match pc
    case FoldLoad(_, after) => after.PopEnd?
    case FoldCas(_, _, after) => after.PopEnd?
    case _ => pc.PopTake?
  }

  /** What one side of a node adds to the threads that came through it. */
  function Share(s: State, side: Side, live: CountedPtr): int {
    match side
    case Live => live.ext - 1
    case Detached(t) => if Taken(PcOf(s, t)).Some? then Taken(PcOf(s, t)).value.ext - 1 else 0
    case _ => 0
  }

  function Links(hd: Side, tl: Side): int {
    (if hd.Folded? then 0 else 1) + (if tl.Folded? then 0 else 1)
  }

  /** A side agrees with where the live link stands, and a detached one with its thread. */
  predicate SideOk(s: State, side: Side, pos: nat, live: nat, p: Addr, head: bool) {
    match side
    case Ahead => live < pos
    case Live => live == pos
    case Detached(t) =>
      pos < live && Taken(PcOf(s, t)).Some? && Taken(PcOf(s, t)).value.ptr == p && FromHead(PcOf(s, t)) == head
    case Folded => pos < live
  }

  predicate NodeOk(s: State, x: Proof, p: Addr) {
    p in s.heap && p in x.role &&
    var n := s.heap[p];
    match x.role[p]
    case Private(t) => SpareOf(PcOf(s, t)) == p && n == NEW_NODE && |Holders(s, p)| == 0
    case Shared(pos, hd, tl) =>
      && SideOk(s, hd, pos, x.base, p, true) && SideOk(s, tl, pos, x.tailAt, p, false)
      && n.count.links == Links(hd, tl)
      && n.count.internal == Wrap(|Holders(s, p)| - Share(s, hd, s.head) - Share(s, tl, s.tail))
      && (n.count.links == 0 ==> |Holders(s, p)| > 0)
      && (if pos < x.base then n.next.ptr != NULL else pos - x.base < |x.chain| && x.chain[pos - x.base] == p)
    case Doomed(t) => |Holders(s, p)| == 0 && (match PcOf(s, t) case Reap(q, _) => q == p case _ => false)
  }

  predicate RoleAt(s: State, x: Proof, p: Addr, pos: nat) {
    p in s.heap && p in x.role && x.role[p].Shared? && x.role[p].pos == pos
  }

  function LinkFrom(x: Proof, i: nat): CountedPtr
    requires i < |x.chain|
  {
    if i + 1 < |x.chain| then CountedPtr(1, x.chain[i + 1]) else EMPTY
  }

  predicate Leads(s: State, x: Proof, i: nat)
    requires i < |x.chain| && x.chain[i] in s.heap
  {
    s.heap[x.chain[i]].next == LinkFrom(x, i)
  }

  predicate DataAt(s: State, x: Proof, a: Spec, i: nat)
    requires i < |x.chain| && i < |a.items|
  {
    x.chain[i] in s.heap && s.heap[x.chain[i]].data.Some? && s.heap[x.chain[i]].data.value.v == a.items[i]
  }

  /** The chain: one value for each node from the head up to the tail, at most one node past the
      tail, and that one only behind a value. */
  ghost predicate ChainOk(s: State, x: Proof, a: Spec) {
    && x.base <= x.tailAt < x.base + |x.chain| <= x.tailAt + 2
    && |a.items| == x.tailAt - x.base
    && x.chain[0] == s.head.ptr && x.chain[x.tailAt - x.base] == s.tail.ptr
    && (forall i :: 0 <= i < |x.chain| ==> RoleAt(s, x, x.chain[i], x.base + i))
    && (forall i {:trigger Leads(s, x, i)} :: 0 <= i < |x.chain| ==> Leads(s, x, i))
    && (forall i {:trigger DataAt(s, x, a, i)} :: 0 <= i < |a.items| ==> DataAt(s, x, a, i))
    && (x.base + |x.chain| == x.tailAt + 2 ==>
          s.heap[s.tail.ptr].data.Some? && s.heap[x.chain[|x.chain| - 1]].data == None)
    && (s.heap[s.tail.ptr].data.Some? ==>
          Installing(PcOf(s, s.heap[s.tail.ptr].data.value.owner), s.tail.ptr) == Some(s.heap[s.tail.ptr].data.value))
  }

  /** The item a pusher has installed in the node it holds. */
  function Installing(pc: Pc, p: Addr): Option<Item> {
    match pc
    case PushPeek(item, _, was) => if was.ptr == p then Some(item) else None
    case PushLink(item, _, was) => if was.ptr == p then Some(item) else None
    case PushTrash(item, _, was, _) => if was.ptr == p then Some(item) else None
    case SetTail(cur, _, _, then_) => if cur == p && then_.Finish? then Some(then_.item) else None
    case _ => None
  }

  predicate Held(s: State, x: Proof, p: Addr, atMost: nat) {
    p != NULL && p in s.heap && p in x.role && x.role[p].Shared? && x.role[p].pos <= atMost
  }

  predicate IsSpare(s: State, x: Proof, t: Tid, p: Addr) {
    p in s.heap && p in x.role && x.role[p] == Private(t)
  }

  predicate Pending(a: Spec, t: Tid, item: Item) {
    item.owner == t && OpOf(a, t) == Pushing(item.v)
  }

  predicate Settled(a: Spec, t: Tid) {
    OpOf(a, t) == Pushed || OpOf(a, t) == Dropped
  }

  /** A pusher that has installed its item: while the tail stays, the item waits in the tail node;
      once the tail has gone on, the push has taken effect or been dropped. */
  predicate InstallOk(s: State, x: Proof, a: Spec, t: Tid, p: Addr, item: Item) {
    && Held(s, x, p, x.tailAt)
    && item.owner == t
    && if x.role[p].pos == x.tailAt then s.heap[p].data == Some(item) && Pending(a, t, item) else Settled(a, t)
  }

  predicate AfterOk(s: State, x: Proof, a: Spec, t: Tid, after: After) {
    match after
    case PushEnd => Settled(a, t)
    case PushAgain(item, node, _) => Pending(a, t, item) && IsSpare(s, x, t, node)
    case PopNone => OpOf(a, t) == Popped(None)
    case PopAgain(_) => OpOf(a, t) == Popping
    case PopEnd(res) => res.Some? && OpOf(a, t) == Popped(ValueOf(res))
  }

  /** The node whose link a thread took down still says so. */
  predicate TakenOk(s: State, x: Proof, t: Tid, p: Addr, head: bool) {
    && Held(s, x, p, x.tailAt)
    && (if head then x.role[p].hd else x.role[p].tl) == Detached(t)
  }

  predicate ThreadOk(s: State, x: Proof, a: Spec, t: Tid) {
    match PcOf(s, t)
    case Idle => OpOf(a, t) == Op.Free
    case PushLoad(item, node) => Pending(a, t, item) && IsSpare(s, x, t, node)
    case PushCount(item, node, _) => Pending(a, t, item) && IsSpare(s, x, t, node)
    case PushData(item, node, was) => Pending(a, t, item) && IsSpare(s, x, t, node) && Held(s, x, was.ptr, x.tailAt)
    case PushPeek(item, node, was) => IsSpare(s, x, t, node) && InstallOk(s, x, a, t, was.ptr, item)
    case PushLink(item, node, was) => IsSpare(s, x, t, node) && InstallOk(s, x, a, t, was.ptr, item)
    case PushTrash(item, node, was, next) =>
      IsSpare(s, x, t, node) && InstallOk(s, x, a, t, was.ptr, item) && next == s.heap[was.ptr].next && next.ptr != NULL
    case HelpLink(item, node, was) =>
      && Pending(a, t, item) && IsSpare(s, x, t, node) && Held(s, x, was.ptr, x.tailAt)
      && (x.role[was.ptr].pos == x.tailAt ==> s.heap[was.ptr].data.Some?)
    case HelpNew(item, was, next) =>
      Pending(a, t, item) && Held(s, x, was.ptr, x.tailAt) && next == s.heap[was.ptr].next && next.ptr != NULL
    case SetTail(cur, was, next, then_) =>
      && Held(s, x, cur, x.tailAt) && was.ptr == cur && next == s.heap[cur].next && next.ptr != NULL
      && (match then_
          case Finish(item) => InstallOk(s, x, a, t, cur, item)
          case Again(item, node) => Pending(a, t, item) && IsSpare(s, x, t, node))
    case FoldLoad(was, after) => TakenOk(s, x, t, was.ptr, after.PopEnd?) && AfterOk(s, x, a, t, after)
    case FoldCas(was, _, after) => TakenOk(s, x, t, was.ptr, after.PopEnd?) && AfterOk(s, x, a, t, after)
    case RelLoad(p, after) => Held(s, x, p, x.tailAt) && AfterOk(s, x, a, t, after)
    case RelCas(p, _, after) => Held(s, x, p, x.tailAt) && AfterOk(s, x, a, t, after)
    case Reap(p, after) => p in s.heap && p in x.role && x.role[p] == Doomed(t) && AfterOk(s, x, a, t, after)
    case PopLoad => OpOf(a, t) == Popping
    case PopCount(_) => OpOf(a, t) == Popping
    case PopTail(was) => OpOf(a, t) == Popping && Held(s, x, was.ptr, x.base)
    case PopNext(was) => OpOf(a, t) == Popping && Held(s, x, was.ptr, x.base) && x.role[was.ptr].pos < x.tailAt
    case PopCas(was, next) =>
      && OpOf(a, t) == Popping && Held(s, x, was.ptr, x.base) && x.role[was.ptr].pos < x.tailAt
      && next == s.heap[was.ptr].next && next.ptr != NULL
    case PopTake(was) =>
      && TakenOk(s, x, t, was.ptr, true) && s.heap[was.ptr].data.Some?
      && OpOf(a, t) == Popped(ValueOf(s.heap[was.ptr].data))
    case PushRet => Settled(a, t)
    case PopRet(res) => OpOf(a, t) == Popped(ValueOf(res))
  }

  ghost predicate Inv(s: State, x: Proof, a: Spec) {
    && !s.fault && NULL !in s.heap && x.role.Keys == s.heap.Keys
    && ChainOk(s, x, a)
    && (forall p {:trigger NodeOk(s, x, p)} :: p in s.heap ==> NodeOk(s, x, p))
    && (forall t: Tid {:trigger ThreadOk(s, x, a, t)} :: ThreadOk(s, x, a, t))
  }

  ghost predicate Simulates(o: Outcome, x: Proof, a: Spec) {
    Next(a, o.l).Some? && Inv(o.s, x, Next(a, o.l).value)
  }

  // ---------------------------------------------------------------- counting

  lemma WrapAdd(n: int, k: int)
    ensures Wrap(Wrap(n) + k) == Wrap(n + k)
  {
  }

  lemma {:induction false} SmallSet(ts: set<Tid>, n: nat)
    requires n <= MAX_THREADS && forall t :: t in ts ==> t < n
    ensures |ts| <= n
  {
    if n > 0 {
      SmallSet(ts - {n - 1}, n - 1);
      assert ts <= ts - {n - 1} + {n - 1};
    } else {
      assert ts == {};
    }
  }

  /** Fewer holders than the count can hold. */
  lemma HoldersFit(s: State, p: Addr)
    ensures Wrap(|Holders(s, p)|) == |Holders(s, p)|
  {
    SmallSet(Holders(s, p), MAX_THREADS);
  }

  lemma Counting(s: State, s': State, t: Tid, p: Addr)
    requires s'.threads == s.threads[t := PcOf(s', t)]
    ensures |Holders(s', p)| == |Holders(s, p)|
            + (if Holds(PcOf(s', t), p) then 1 else 0) - (if Holds(PcOf(s, t), p) then 1 else 0)
  {
    var rest := Holders(s, p) - {t};
    assert Holders(s, p) == if Holds(PcOf(s, t), p) then rest + {t} else rest;
    assert Holders(s', p) == if Holds(PcOf(s', t), p) then rest + {t} else rest;
  }

  lemma NobodyHolds(s: State, x: Proof, a: Spec, p: Addr)
    requires Inv(s, x, a) && (p !in s.heap || !x.role[p].Shared?)
    ensures |Holders(s, p)| == 0
  {
    forall u | u in s.threads ensures !Holds(s.threads[u], p) {
      assert ThreadOk(s, x, a, u);
    }
    assert Holders(s, p) == {};
  }

  // ---------------------------------------------------------------- frames

  predicate Still(s: State, x: Proof, s': State, x': Proof, p: Addr) {
    p in s.heap && p in x.role && p in s'.heap && p in x'.role && s'.heap[p] == s.heap[p] && x'.role[p] == x.role[p]
  }

  /** A linked node that `u` holds keeps what `u` relies on: its position, its link once it has
      one, the sides `u` took down, its data until they are taken -- and at the tail as long as the
      tail stays. */
  predicate Persists(s: State, x: Proof, s': State, x': Proof, p: Addr, u: Tid) {
    p in s.heap && p in x.role && x.role[p].Shared? ==>
      && p in s'.heap && p in x'.role && x'.role[p].Shared? && x'.role[p].pos == x.role[p].pos
      && (s.heap[p].next.ptr != NULL ==> s'.heap[p].next == s.heap[p].next)
      && (x.role[p].hd == Detached(u) ==> x'.role[p].hd == Detached(u))
      && (x.role[p].tl == Detached(u) ==> x'.role[p].tl == Detached(u))
      && (s.heap[p].data.Some? && (x.role[p].hd == Detached(u) || x.role[p].pos == x.tailAt == x'.tailAt) ==>
            s'.heap[p].data == s.heap[p].data)
  }

  predicate OthersOwn(x: Proof, t: Tid, p: Addr) {
    p in x.role && ((x.role[p].Private? && x.role[p].t != t) || (x.role[p].Doomed? && x.role[p].t != t))
  }

  /** A step of `t`, seen from the other threads.  When the tail moves, the push that waited in the
      tail node takes effect. */
  ghost predicate Quiet(s: State, x: Proof, a: Spec, s': State, x': Proof, a': Spec, t: Tid) {
    && s'.threads == s.threads[t := PcOf(s', t)]
    && x.base <= x'.base && x.tailAt <= x'.tailAt
    && (forall u: Tid {:trigger OpOf(a', u)} :: u != t ==>
          || OpOf(a', u) == OpOf(a, u)
          || (x.tailAt < x'.tailAt && Installing(PcOf(s, u), s.tail.ptr).Some? && OpOf(a', u) == Pushed))
    && (x.tailAt < x'.tailAt ==> forall u: Tid {:trigger OpOf(a', u)} ::
          (u != t && s.tail.ptr in s.heap && s.heap[s.tail.ptr].data.Some?
           && s.heap[s.tail.ptr].data.value.owner == u) ==> OpOf(a', u) == Pushed)
    && (forall p {:trigger Still(s, x, s', x', p)} :: OthersOwn(x, t, p) ==> Still(s, x, s', x', p))
    && (forall u, p {:trigger Holds(PcOf(s, u), p)} :: u != t && Holds(PcOf(s, u), p) ==> Persists(s, x, s', x', p, u))
  }

  /** What the others may rely on about `p` stays. */
  ghost predicate KeptFor(s: State, x: Proof, s': State, x': Proof, t: Tid, p: Addr) {
    !OthersOwn(x, t, p) && forall u: Tid {:trigger Persists(s, x, s', x', p, u)} :: u != t ==>
        Persists(s, x, s', x', p, u)
  }

  /** A step of `t` about `n` and `m` that does not move the tail. */
  lemma QuietNode(s: State, x: Proof, a: Spec, s': State, x': Proof, a': Spec, t: Tid, n: Addr, m: Addr)
    requires s'.threads == s.threads[t := PcOf(s', t)] && x.base <= x'.base && x'.tailAt == x.tailAt
    requires x.role.Keys == s.heap.Keys && forall u: Tid :: u != t ==> OpOf(a', u) == OpOf(a, u)
    requires forall p :: p in s.heap && p != n && p != m ==> Still(s, x, s', x', p)
    requires KeptFor(s, x, s', x', t, n) && KeptFor(s, x, s', x', t, m)
    ensures Quiet(s, x, a, s', x', a', t)
  {
    forall u, p | u != t && Holds(PcOf(s, u), p) ensures Persists(s, x, s', x', p, u) {
      if p in s.heap && p != n && p != m {
        assert Still(s, x, s', x', p);
      }
    }
  }

  /** The tail is the one node at the tail's position. */
  lemma TailIs(s: State, x: Proof, a: Spec, p: Addr)
    requires ChainOk(s, x, a) && NodeOk(s, x, p) && x.role[p].Shared?
    ensures x.role[p].pos == x.tailAt <==> p == s.tail.ptr
    ensures x.role[p].pos == x.base <==> p == s.head.ptr
  {
    assert RoleAt(s, x, x.chain[x.tailAt - x.base], x.tailAt) && RoleAt(s, x, x.chain[0], x.base);
  }

  lemma InstallKeeps(s: State, x: Proof, a: Spec, s': State, x': Proof, a': Spec, t: Tid, u: Tid, p: Addr, item: Item)
    requires Quiet(s, x, a, s', x', a', t) && ChainOk(s, x, a) && u != t
    requires InstallOk(s, x, a, u, p, item) && NodeOk(s, x, p)
    requires Holds(PcOf(s, u), p) && Installing(PcOf(s, u), p) == Some(item)
    ensures InstallOk(s', x', a', u, p, item)
  {
    TailIs(s, x, a, p);
    assert Persists(s, x, s', x', p, u);
    assert p != s.tail.ptr ==> Installing(PcOf(s, u), s.tail.ptr) == None;
    assert OpOf(a', u) == OpOf(a, u) || OpOf(a', u) == Pushed;
  }

  lemma InstallersKeep(s: State, x: Proof, a: Spec, s': State, x': Proof, a': Spec, t: Tid, u: Tid)
    requires Quiet(s, x, a, s', x', a', t) && ChainOk(s, x, a) && u != t && ThreadOk(s, x, a, u)
    requires Installing(PcOf(s, u), HeldBy(PcOf(s, u))).Some? && NodeOk(s, x, HeldBy(PcOf(s, u)))
    ensures ThreadOk(s', x', a', u)
  {
    var pc := PcOf(s, u);
    var p := HeldBy(pc);
    assert Holds(pc, p) && Persists(s, x, s', x', p, u);
    if OthersOwn(x, t, SpareOf(pc)) {
      assert Still(s, x, s', x', SpareOf(pc));
    }
    InstallKeeps(s, x, a, s', x', a', t, u, p, Installing(pc, p).value);
  }

  lemma AfterKeeps(s: State, x: Proof, a: Spec, s': State, x': Proof, a': Spec, t: Tid, u: Tid)
    requires Quiet(s, x, a, s', x', a', t) && u != t && ThreadOk(s, x, a, u)
    requires var pc := PcOf(s, u); pc.FoldLoad? || pc.FoldCas? || pc.RelLoad? || pc.RelCas? || pc.Reap?
    ensures ThreadOk(s', x', a', u)
  {
    var pc := PcOf(s, u);
    assert OpOf(a', u) == OpOf(a, u);
    assert Holds(pc, HeldBy(pc)) ==> Persists(s, x, s', x', HeldBy(pc), u);
    if OthersOwn(x, t, SpareOf(pc)) {
      assert Still(s, x, s', x', SpareOf(pc));
    }
    if pc.Reap? {
      assert Still(s, x, s', x', pc.p);
    }
  }

  lemma OthersKeep(s: State, x: Proof, a: Spec, s': State, x': Proof, a': Spec, t: Tid, u: Tid)
    requires Quiet(s, x, a, s', x', a', t) && ChainOk(s, x, a) && u != t && ThreadOk(s, x, a, u)
    requires HeldBy(PcOf(s, u)) in s.heap ==> NodeOk(s, x, HeldBy(PcOf(s, u)))
    ensures ThreadOk(s', x', a', u)
  {
    var pc := PcOf(s, u);
    var p := HeldBy(pc);
    if Installing(pc, p).Some? {
      InstallersKeep(s, x, a, s', x', a', t, u);
    } else if pc.FoldLoad? || pc.FoldCas? || pc.RelLoad? || pc.RelCas? || pc.Reap? {
      AfterKeeps(s, x, a, s', x', a', t, u);
    } else {
      assert OpOf(a', u) == OpOf(a, u);
      assert Holds(pc, p) ==> Persists(s, x, s', x', p, u);
      if OthersOwn(x, t, SpareOf(pc)) {
        assert Still(s, x, s', x', SpareOf(pc));
      }
    }
  }

  /** How the chain may move in one step: not at all, longer by one node, or past its head. */
  ghost predicate ChainMove(x: Proof, x': Proof) {
    || (x'.base == x.base && x.chain <= x'.chain)
    || (x'.base == x.base + 1 && x.chain != [] && x'.chain == x.chain[1..])
  }

  /** A node that a step of `t` does not touch. */
  lemma NodeStays(s: State, x: Proof, s': State, x': Proof, t: Tid, p: Addr)
    requires NodeOk(s, x, p) && Still(s, x, s', x', p) && ChainMove(x, x')
    requires s'.threads == s.threads[t := PcOf(s', t)] && p != NULL
    requires Holds(PcOf(s', t), p) == Holds(PcOf(s, t), p)
    requires x.role[p] == Private(t) ==> SpareOf(PcOf(s', t)) == SpareOf(PcOf(s, t))
    requires x.role[p] != Doomed(t)
    requires x.role[p].Shared? && (x.role[p].hd == Detached(t) || x.role[p].tl == Detached(t)) ==>
      Taken(PcOf(s', t)) == Taken(PcOf(s, t)) && FromHead(PcOf(s', t)) == FromHead(PcOf(s, t))
    requires x.role[p].Shared? ==>
      var Shared(pos, hd, tl) := x.role[p];
      && (hd.Live? ==> s'.head.ext == s.head.ext) && (tl.Live? ==> s'.tail.ext == s.tail.ext)
      && (x'.base == x.base || (x'.base == x.base + 1 && pos != x.base && pos != x'.base))
      && (x'.tailAt == x.tailAt || (x'.tailAt == x.tailAt + 1 && pos != x.tailAt && pos != x'.tailAt))
    ensures NodeOk(s', x', p)
  {
    hide Wrap, Links;
    Counting(s, s', t, p);
  }

  lemma Frame(s: State, x: Proof, a: Spec, s': State, x': Proof, a': Spec, t: Tid)
    requires Inv(s, x, a) && Quiet(s, x, a, s', x', a', t)
    requires !s'.fault && NULL !in s'.heap && x'.role.Keys == s'.heap.Keys
    requires ChainOk(s', x', a') && ThreadOk(s', x', a', t)
    requires forall p {:trigger NodeOk(s', x', p)} :: p in s'.heap ==> NodeOk(s', x', p)
    ensures Inv(s', x', a')
  {
    forall u: Tid ensures ThreadOk(s', x', a', u) {
      if u != t {
        assert ThreadOk(s, x, a, u) && (HeldBy(PcOf(s, u)) in s.heap ==> NodeOk(s, x, HeldBy(PcOf(s, u))));
        OthersKeep(s, x, a, s', x', a', t, u);
      }
    }
  }

  /** All nodes but `n` and `m` come out of a step of `t` in order. */
  lemma NodesStay(s: State, x: Proof, a: Spec, s': State, x': Proof, t: Tid, n: Addr, m: Addr)
    requires Inv(s, x, a) && ChainMove(x, x') && s'.threads == s.threads[t := PcOf(s', t)]
    requires !PcOf(s, t).Reap?
    requires NULL !in s'.heap && forall p :: p in s'.heap && p != n && p != m ==> Still(s, x, s', x', p)
    requires forall p :: p != n && p != m ==> Holds(PcOf(s', t), p) == Holds(PcOf(s, t), p)
    requires SpareOf(PcOf(s, t)) == n || SpareOf(PcOf(s, t)) == m || SpareOf(PcOf(s', t)) == SpareOf(PcOf(s, t))
    requires Taken(PcOf(s, t)).Some? && Taken(PcOf(s, t)).value.ptr != n && Taken(PcOf(s, t)).value.ptr != m ==>
      Taken(PcOf(s', t)) == Taken(PcOf(s, t)) && FromHead(PcOf(s', t)) == FromHead(PcOf(s, t))
    requires s.head.ptr == n || s.head.ptr == m || s'.head.ext == s.head.ext
    requires s.tail.ptr == n || s.tail.ptr == m || s'.tail.ext == s.tail.ext
    requires x'.base == x.base || (x.base < x.tailAt && n == x.chain[0] && m == x.chain[1])
    requires x'.tailAt == x.tailAt ||
             (x'.tailAt == x.tailAt + 1 && x.tailAt + 1 < x.base + |x.chain| && n == s.tail.ptr
              && m == x.chain[x.tailAt + 1 - x.base])
    ensures forall p {:trigger NodeOk(s', x', p)} :: p in s'.heap && p != n && p != m ==> NodeOk(s', x', p)
  {
    forall p | p in s'.heap && p != n && p != m ensures NodeOk(s', x', p) {
      assert Still(s, x, s', x', p) && NodeOk(s, x, p);
      if x.role[p].Shared? {
        TailIs(s, x, a, p);
      }
      NodeStays(s, x, s', x', t, p);
    }
  }
}
