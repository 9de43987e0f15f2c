/** Every step of every thread of `lock_free_queue` keeps the invariant and is a step of the queue
    object. */
module QueueSteps {
  import opened Options
  import opened AtomicQueue
  import opened LockFreeQueue
  import opened QueueInvariant

  lemma SameChain(s: State, x: Proof, a: Spec, s': State, x': Proof, a': Spec)
    requires ChainOk(s, x, a) && a'.items == a.items && s'.head.ptr == s.head.ptr && s'.tail.ptr == s.tail.ptr
    requires x'.chain == x.chain && x'.base == x.base && x'.tailAt == x.tailAt
    requires forall i :: 0 <= i < |x.chain| ==>
      var p := x.chain[i];
      && p in s'.heap && s'.heap[p].next == s.heap[p].next
      && (s'.heap[p].data == s.heap[p].data || (p == s.tail.ptr && s.heap[p].data == None))
      && p in x'.role && x'.role[p].Shared? && x'.role[p].pos == x.role[p].pos
    requires s'.heap[s.tail.ptr].data.Some? ==>
      Installing(PcOf(s', s'.heap[s.tail.ptr].data.value.owner), s.tail.ptr) == Some(s'.heap[s.tail.ptr].data.value)
    ensures ChainOk(s', x', a')
  {
    forall i | 0 <= i < |x.chain| ensures RoleAt(s', x', x.chain[i], x.base + i) && Leads(s', x', i) {
      assert RoleAt(s, x, x.chain[i], x.base + i) && Leads(s, x, i);
    }
    assert RoleAt(s, x, x.chain[x.tailAt - x.base], x.tailAt);
    forall i | 0 <= i < |a.items| ensures DataAt(s', x', a', i) {
      assert DataAt(s, x, a, i) && RoleAt(s, x, x.chain[i], x.base + i);
    }
  }

  /** A step that changes nothing but the thread that takes it. */
  lemma LocalStep(s: State, x: Proof, a: Spec, s': State, a': Spec, t: Tid)
    requires Inv(s, x, a) && s' == s.(threads := s.threads[t := PcOf(s', t)])
    requires a'.items == a.items && forall u: Tid :: u != t ==> OpOf(a', u) == OpOf(a, u)
    requires HeldBy(PcOf(s', t)) == HeldBy(PcOf(s, t)) && SpareOf(PcOf(s', t)) == SpareOf(PcOf(s, t))
    requires Taken(PcOf(s', t)) == Taken(PcOf(s, t)) && FromHead(PcOf(s', t)) == FromHead(PcOf(s, t))
    requires Installing(PcOf(s', t), s.tail.ptr) == Installing(PcOf(s, t), s.tail.ptr)
    requires !PcOf(s, t).Reap? && ThreadOk(s', x, a', t)
    ensures Inv(s', x, a')
  {
    hide Quiet;
    assert forall i :: 0 <= i < |x.chain| ==> RoleAt(s, x, x.chain[i], x.base + i);
    SameChain(s, x, a, s', x, a');
    NodesStay(s, x, a, s', x, t, NULL, NULL);
    QuietNode(s, x, a, s', x, a', t, NULL, NULL);
    Frame(s, x, a, s', x, a', t);
  }

  lemma KeepsIdle(s: State, x: Proof, a: Spec, t: Tid, c: Choice) returns (x': Proof)
    requires Inv(s, x, a) && PcOf(s, t) == Idle
    ensures Simulates(Start(s, t, c), x', a)
  {
    assert ThreadOk(s, x, a, t);
    x' := x;
    if c.Push? && c.at != NULL && c.at !in s.heap {
      var s' := Start(s, t, c).s;
      x' := KeepsAlloc(s, x, a, s', Set(a, t, Pushing(c.v)), t, c.at);
    } else if c.Pop? {
      LocalStep(s, x, a, Start(s, t, c).s, Set(a, t, Popping), t);
    }
  }

  /** `t` takes a new spare node at `n`. */
  lemma KeepsAlloc(s: State, x: Proof, a: Spec, s': State, a': Spec, t: Tid, n: Addr) returns (x': Proof)
    requires Inv(s, x, a) && n != NULL && n !in s.heap
    requires s' == s.(heap := s.heap[n := NEW_NODE], threads := s.threads[t := PcOf(s', t)])
    requires a'.items == a.items && forall u: Tid :: u != t ==> OpOf(a', u) == OpOf(a, u)
    requires HeldBy(PcOf(s', t)) == HeldBy(PcOf(s, t)) && SpareOf(PcOf(s', t)) == n && SpareOf(PcOf(s, t)) == NULL
    requires Taken(PcOf(s', t)) == Taken(PcOf(s, t)) == None && !PcOf(s, t).Reap?
    requires Installing(PcOf(s', t), s.tail.ptr) == Installing(PcOf(s, t), s.tail.ptr)
    requires ThreadOk(s', x.(role := x.role[n := Private(t)]), a', t)
    ensures Inv(s', x', a')
  {
    x' := x.(role := x.role[n := Private(t)]);
    assert forall i :: 0 <= i < |x.chain| ==> RoleAt(s, x, x.chain[i], x.base + i);
    SameChain(s, x, a, s', x', a');
    NobodyHolds(s, x, a, n);
    Counting(s, s', t, n);
    NodesStay(s, x, a, s', x', t, n, NULL);
    Frame(s, x, a, s', x', a', t);
  }

  lemma KeepsHelpNew(s: State, x: Proof, a: Spec, t: Tid, item: Item, was: CountedPtr, next: CountedPtr, at: Addr)
    returns (x': Proof)
    requires Inv(s, x, a) && PcOf(s, t) == HelpNew(item, was, next)
    ensures Simulates(StepHelpNew(s, t, item, was, next, at), x', a)
  {
    assert ThreadOk(s, x, a, t);
    x' := x;
    if at != NULL && at !in s.heap {
      x' := KeepsAlloc(s, x, a, StepHelpNew(s, t, item, was, next, at).s, a, t, at);
    }
  }

  lemma KeepsPushCount(s: State, x: Proof, a: Spec, t: Tid, item: Item, node: Addr, was: CountedPtr)
    requires Inv(s, x, a) && PcOf(s, t) == PushCount(item, node, was)
    ensures Simulates(StepPushCount(s, t, item, node, was), x, a)
  {
    assert ThreadOk(s, x, a, t);
    var s' := StepPushCount(s, t, item, node, was).s;
    if s.tail == was {
      KeepsCount(s, x, a, s', t, was.ptr);
    } else {
      LocalStep(s, x, a, s', a, t);
    }
  }

  lemma KeepsPopCount(s: State, x: Proof, a: Spec, t: Tid, was: CountedPtr)
    requires Inv(s, x, a) && PcOf(s, t) == PopCount(was)
    ensures Simulates(StepPopCount(s, t, was), x, a)
  {
    assert ThreadOk(s, x, a, t);
    var s' := StepPopCount(s, t, was).s;
    if s.head == was {
      KeepsCount(s, x, a, s', t, was.ptr);
    } else {
      LocalStep(s, x, a, s', a, t);
    }
  }

  /** `t` counts itself on the head or the tail. */
  lemma KeepsCount(s: State, x: Proof, a: Spec, s': State, t: Tid, n: Addr)
    requires Inv(s, x, a)
    requires n in s.heap && NodeOk(s, x, n)
    requires (PcOf(s, t).PushCount? && s.tail.ptr == n
              && PcOf(s', t) == PushData(PcOf(s, t).item, PcOf(s, t).node, s'.tail)
              && s' == s.(tail := s.tail.(ext := s.tail.ext + 1), threads := s.threads[t := PcOf(s', t)]))
          || (PcOf(s, t).PopCount? && s.head.ptr == n && PcOf(s', t) == PopTail(s'.head)
              && s' == s.(head := s.head.(ext := s.head.ext + 1), threads := s.threads[t := PcOf(s', t)]))
    ensures Inv(s', x, a)
  {
    hide Quiet;
    assert ThreadOk(s, x, a, t);
    assert RoleAt(s, x, x.chain[0], x.base) && RoleAt(s, x, x.chain[x.tailAt - x.base], x.tailAt);
    assert forall i :: 0 <= i < |x.chain| ==> RoleAt(s, x, x.chain[i], x.base + i);
    SameChain(s, x, a, s', x, a);
    CountedNode(s, x, s', t, n);
    NodesStay(s, x, a, s', x, t, n, NULL);
    QuietNode(s, x, a, s', x, a, t, n, NULL);
    Frame(s, x, a, s', x, a, t);
  }

  lemma CountedNode(s: State, x: Proof, s': State, t: Tid, n: Addr)
    requires NodeOk(s, x, n) && n != NULL && !Holds(PcOf(s, t), n) && Holds(PcOf(s', t), n) && x.role[n].Shared?
    requires SpareOf(PcOf(s, t)) != n && Taken(PcOf(s, t)) == None && !PcOf(s, t).Reap?
    requires s'.heap == s.heap && s'.threads == s.threads[t := PcOf(s', t)]
    requires (x.role[n].tl.Live? && s'.head == s.head && s'.tail == s.tail.(ext := s.tail.ext + 1))
          || (x.role[n].hd.Live? && s'.tail == s.tail && s'.head == s.head.(ext := s.head.ext + 1))
    ensures NodeOk(s', x, n)
  {
    Counting(s, s', t, n);
  }

  lemma KeepsPushData(s: State, x: Proof, a: Spec, t: Tid, item: Item, node: Addr, was: CountedPtr)
    requires Inv(s, x, a) && PcOf(s, t) == PushData(item, node, was)
    ensures Simulates(StepPushData(s, t, item, node, was), x, a)
  {
    assert ThreadOk(s, x, a, t);
    if s.heap[was.ptr].data == None {
      KeepsInstall(s, x, a, t, item, node, was);
    } else {
      LocalStep(s, x, a, StepPushData(s, t, item, node, was).s, a, t);
    }
  }

  /** A node without data that the tail has left has left the chain too. */
  lemma EmptiedIsOff(s: State, x: Proof, a: Spec, p: Addr, i: nat)
    requires Inv(s, x, a) && Held(s, x, p, x.tailAt) && s.heap[p].data == None && p != s.tail.ptr && i < |x.chain|
    ensures x.chain[i] != p
  {
    assert NodeOk(s, x, p) && RoleAt(s, x, x.chain[i], x.base + i);
    TailIs(s, x, a, p);
    if i < |a.items| {
      assert DataAt(s, x, a, i);
    }
  }

  lemma InstallChain(s: State, x: Proof, a: Spec, t: Tid, item: Item, node: Addr, was: CountedPtr)
    requires Inv(s, x, a) && PcOf(s, t) == PushData(item, node, was) && was.ptr in s.heap
    requires s.heap[was.ptr].data == None
    requires ThreadOk(s, x, a, t) && NodeOk(s, x, was.ptr)
    requires Next(a, StepPushData(s, t, item, node, was).l).Some?
    ensures ChainOk(StepPushData(s, t, item, node, was).s, x, Next(a, StepPushData(s, t, item, node, was).l).value)
  {
    var n := was.ptr;
    TailIs(s, x, a, n);
    forall i | 0 <= i < |x.chain|
      ensures RoleAt(s, x, x.chain[i], x.base + i) && (n != s.tail.ptr ==> x.chain[i] != n)
    {
      assert RoleAt(s, x, x.chain[i], x.base + i);
      if n != s.tail.ptr {
        EmptiedIsOff(s, x, a, n, i);
      }
    }
    SameChain(s, x, a, StepPushData(s, t, item, node, was).s, x, Next(a, StepPushData(s, t, item, node, was).l).value);
  }

  lemma KeepsInstall(s: State, x: Proof, a: Spec, t: Tid, item: Item, node: Addr, was: CountedPtr)
    requires Inv(s, x, a) && PcOf(s, t) == PushData(item, node, was) && was.ptr in s.heap
    requires s.heap[was.ptr].data == None
    ensures Simulates(StepPushData(s, t, item, node, was), x, a)
  {
    hide Quiet, ChainOk;
    assert ThreadOk(s, x, a, t) && NodeOk(s, x, was.ptr);
    var n := was.ptr;
    TailIs(s, x, a, n);
    var o := StepPushData(s, t, item, node, was);
    var s', a' := o.s, Next(a, o.l).value;
    InstallChain(s, x, a, t, item, node, was);
    Counting(s, s', t, n);
    NodesStay(s, x, a, s', x, t, n, NULL);
    QuietNode(s, x, a, s', x, a', t, n, NULL);
    Frame(s, x, a, s', x, a', t);
  }

  /** A node whose link is still open is the tail, and the chain ends there. */
  lemma OpenIsTail(s: State, x: Proof, a: Spec, p: Addr)
    requires Inv(s, x, a) && Held(s, x, p, x.tailAt) && s.heap[p].next == EMPTY
    ensures p == s.tail.ptr && |x.chain| == x.tailAt - x.base + 1
    ensures x.base <= x.tailAt && x.role[p].pos == x.tailAt
  {
    assert NodeOk(s, x, p);
    var i := x.role[p].pos - x.base;
    assert i >= 0 && Leads(s, x, i);
  }

  lemma ExtendNodes(s: State, x: Proof, s': State, x': Proof, t: Tid, n: Addr, m: Addr)
    requires Held(s, x, n, x.tailAt) && x.role[n].pos == x.tailAt && NodeOk(s, x, n) && NodeOk(s, x, m)
    requires n != m && IsSpare(s, x, t, m) && x.base <= x.tailAt && x.tailAt + 1 == x.base + |x.chain|
    requires s' == s.(heap := s.heap[n := s.heap[n].(next := CountedPtr(1, m))], threads := s.threads[t := PcOf(s', t)])
    requires x' == x.(chain := x.chain + [m], role := x.role[m := Shared(x.tailAt + 1, Ahead, Ahead)])
    requires Holds(PcOf(s', t), n) == Holds(PcOf(s, t), n) && !Holds(PcOf(s', t), m)
    requires Taken(PcOf(s', t)) == Taken(PcOf(s, t))
    requires FromHead(PcOf(s', t)) == FromHead(PcOf(s, t)) || Taken(PcOf(s, t)) == None
    ensures NodeOk(s', x', n) && NodeOk(s', x', m)
  {
    Counting(s, s', t, n);
    Counting(s, s', t, m);
  }

  lemma KeepsExtend(s: State, x: Proof, a: Spec, s': State, t: Tid, n: Addr, m: Addr) returns (x': Proof)
    requires Inv(s, x, a) && Held(s, x, n, x.tailAt) && s.heap[n].next == EMPTY && s.heap[n].data.Some?
    requires IsSpare(s, x, t, m) && m != NULL
    requires s' == s.(heap := s.heap[n := s.heap[n].(next := CountedPtr(1, m))], threads := s.threads[t := PcOf(s', t)])
    requires HeldBy(PcOf(s', t)) == HeldBy(PcOf(s, t)) == n && SpareOf(PcOf(s, t)) == m && SpareOf(PcOf(s', t)) == NULL
    requires Taken(PcOf(s', t)) == Taken(PcOf(s, t)) == None && !PcOf(s, t).Reap?
    requires Installing(PcOf(s', t), s.tail.ptr) == Installing(PcOf(s, t), s.tail.ptr)
    requires ThreadOk(s', x.(chain := x.chain + [m], role := x.role[m := Shared(x.tailAt + 1, Ahead, Ahead)]), a, t)
    ensures Inv(s', x', a)
  {
    hide ChainOk, Quiet;
    OpenIsTail(s, x, a, n);
    assert NodeOk(s, x, n) && NodeOk(s, x, m);
    x' := x.(chain := x.chain + [m], role := x.role[m := Shared(x.tailAt + 1, Ahead, Ahead)]);
    ChainExtend(s, x, a, s', x', n, m);
    ExtendNodes(s, x, s', x', t, n, m);
    NodesStay(s, x, a, s', x', t, n, m);
    QuietNode(s, x, a, s', x', a, t, n, m);
    Frame(s, x, a, s', x', a, t);
  }

  lemma ChainExtend(s: State, x: Proof, a: Spec, s': State, x': Proof, n: Addr, m: Addr)
    requires Inv(s, x, a) && n == s.tail.ptr && |x.chain| == x.tailAt - x.base + 1 && s.heap[n].data.Some?
    requires m in s.heap && x.role[m].Private? && s.heap[m] == NEW_NODE
    requires s'.heap == s.heap[n := s.heap[n].(next := CountedPtr(1, m))] && s'.head == s.head && s'.tail == s.tail
    requires x' == x.(chain := x.chain + [m], role := x.role[m := Shared(x.tailAt + 1, Ahead, Ahead)])
    requires var o := s.heap[n].data.value.owner; Installing(PcOf(s', o), n) == Installing(PcOf(s, o), n)
    ensures ChainOk(s', x', a)
  {
    assert RoleAt(s, x, x.chain[|x.chain| - 1], x.tailAt);
    forall i | 0 <= i < |x'.chain| ensures RoleAt(s', x', x'.chain[i], x'.base + i) && Leads(s', x', i) {
      if i < |x.chain| {
        assert RoleAt(s, x, x.chain[i], x.base + i) && Leads(s, x, i);
      }
    }
    forall i | 0 <= i < |a.items| ensures DataAt(s', x', a, i) {
      assert DataAt(s, x, a, i);
    }
  }

  lemma KeepsPushLink(s: State, x: Proof, a: Spec, t: Tid, item: Item, node: Addr, was: CountedPtr) returns (x': Proof)
    requires Inv(s, x, a) && PcOf(s, t) == PushLink(item, node, was)
    ensures Simulates(StepPushLink(s, t, item, node, was), x', a)
  {
    assert ThreadOk(s, x, a, t) && NodeOk(s, x, was.ptr);
    var s' := StepPushLink(s, t, item, node, was).s;
    if s.heap[was.ptr].next == EMPTY {
      OpenIsTail(s, x, a, was.ptr);
      TailIs(s, x, a, was.ptr);
      x' := KeepsExtend(s, x, a, s', t, was.ptr, node);
    } else {
      x' := x;
      LinkedNext(s, x, a, was.ptr);
      LocalStep(s, x, a, s', a, t);
    }
  }

  /** A link that is not open leads to a node. */
  lemma LinkedNext(s: State, x: Proof, a: Spec, p: Addr)
    requires Inv(s, x, a) && Held(s, x, p, x.tailAt) && s.heap[p].next != EMPTY
    ensures s.heap[p].next.ptr != NULL
  {
    assert NodeOk(s, x, p);
    var i := x.role[p].pos - x.base;
    if i >= 0 {
      assert Leads(s, x, i);
      assert i + 1 < |x.chain| ==> RoleAt(s, x, x.chain[i + 1], x.base + i + 1);
    }
  }

  lemma KeepsHelpLink(s: State, x: Proof, a: Spec, t: Tid, item: Item, node: Addr, was: CountedPtr) returns (x': Proof)
    requires Inv(s, x, a) && PcOf(s, t) == HelpLink(item, node, was)
    ensures Simulates(StepHelpLink(s, t, item, node, was), x', a)
  {
    assert ThreadOk(s, x, a, t) && NodeOk(s, x, was.ptr);
    var s' := StepHelpLink(s, t, item, node, was).s;
    if s.heap[was.ptr].next == EMPTY {
      OpenIsTail(s, x, a, was.ptr);
      TailIs(s, x, a, was.ptr);
      x' := KeepsExtend(s, x, a, s', t, was.ptr, node);
    } else {
      x' := x;
      LinkedNext(s, x, a, was.ptr);
      LocalStep(s, x, a, s', a, t);
    }
  }

  lemma KeepsTrash(s: State, x: Proof, a: Spec, t: Tid, item: Item, m: Addr, was: CountedPtr, next: CountedPtr)
    returns (x': Proof)
    requires Inv(s, x, a) && PcOf(s, t) == PushTrash(item, m, was, next)
    ensures Simulates(StepDelete(s, t, m, SetTail(was.ptr, was, next, Finish(item))), x', a)
  {
    hide Quiet;
    assert ThreadOk(s, x, a, t) && NodeOk(s, x, m);
    var s' := StepDelete(s, t, m, SetTail(was.ptr, was, next, Finish(item))).s;
    x' := x.(role := x.role - {m});
    assert forall i :: 0 <= i < |x.chain| ==> RoleAt(s, x, x.chain[i], x.base + i);
    NobodyHolds(s, x, a, m);
    NobodyIn(s, m);
    assert RoleAt(s, x, x.chain[x.tailAt - x.base], x.tailAt);
    SameChain(s, x, a, s', x', a);
    NodesStay(s, x, a, s', x', t, m, NULL);
    QuietNode(s, x, a, s', x', a, t, m, NULL);
    Frame(s, x, a, s', x', a, t);
  }

  lemma NobodyIn(s: State, p: Addr)
    ensures |Holders(s, p)| == 0 ==> forall u: Tid :: !Holds(PcOf(s, u), p)
  {
    if |Holders(s, p)| == 0 {
      forall u: Tid ensures !Holds(PcOf(s, u), p) {
        assert u !in Holders(s, p);
      }
    }
  }

  lemma KeepsPopTail(s: State, x: Proof, a: Spec, t: Tid, was: CountedPtr)
    requires Inv(s, x, a) && PcOf(s, t) == PopTail(was)
    ensures Simulates(StepPopTail(s, t, was), x, a)
  {
    assert ThreadOk(s, x, a, t) && NodeOk(s, x, was.ptr);
    TailIs(s, x, a, was.ptr);
    var o := StepPopTail(s, t, was);
    LocalStep(s, x, a, o.s, Next(a, o.l).value, t);
  }

  lemma KeepsPopNext(s: State, x: Proof, a: Spec, t: Tid, was: CountedPtr)
    requires Inv(s, x, a) && PcOf(s, t) == PopNext(was)
    ensures Simulates(StepPopNext(s, t, was), x, a)
  {
    assert ThreadOk(s, x, a, t) && NodeOk(s, x, was.ptr);
    TailIs(s, x, a, was.ptr);
    LinkedIfBehind(s, x, a, was.ptr);
    LocalStep(s, x, a, StepPopNext(s, t, was).s, a, t);
  }

  /** A node behind the tail is linked. */
  lemma LinkedIfBehind(s: State, x: Proof, a: Spec, p: Addr)
    requires Inv(s, x, a) && Held(s, x, p, x.tailAt) && x.role[p].pos < x.tailAt
    ensures s.heap[p].next.ptr != NULL
  {
    assert NodeOk(s, x, p);
    TailIs(s, x, a, p);
    assert s.heap[p].next != EMPTY by {
      if s.heap[p].next == EMPTY {
        OpenIsTail(s, x, a, p);
      }
    }
    LinkedNext(s, x, a, p);
  }

  lemma KeepsSetTail(s: State, x: Proof, a: Spec, t: Tid, cur: Addr, was: CountedPtr, next: CountedPtr, then_: Then,
                     spurious: bool)
    returns (x': Proof)
    requires Inv(s, x, a) && PcOf(s, t) == SetTail(cur, was, next, then_)
    ensures Simulates(StepSetTail(s, t, cur, was, next, then_, spurious), x', a)
  {
    assert ThreadOk(s, x, a, t) && NodeOk(s, x, cur);
    TailIs(s, x, a, cur);
    x' := x;
    if s.tail == was && !spurious {
      x' := KeepsAdvance(s, x, a, t, cur, was, next, then_);
    } else {
      LocalStep(s, x, a, StepSetTail(s, t, cur, was, next, then_, spurious).s, a, t);
    }
  }

  function Advanced(x: Proof, t: Tid, n: Addr, m: Addr): Proof
    requires n in x.role && m in x.role && x.role[n].Shared? && x.role[m].Shared?
  {
    x.(tailAt := x.tailAt + 1, role := x.role[n := x.role[n].(tl := Detached(t))][m := x.role[m].(tl := Live)])
  }

  /** What the tail node and the one after it are when the tail is about to move. */
  lemma TailPair(s: State, x: Proof, a: Spec, n: Addr)
    requires Inv(s, x, a) && n == s.tail.ptr && n in s.heap && s.heap[n].next.ptr != NULL
    ensures x.tailAt + 1 < x.base + |x.chain| && n == x.chain[x.tailAt - x.base]
    ensures var m := x.chain[x.tailAt + 1 - x.base];
            && s.heap[n].next == CountedPtr(1, m) && RoleAt(s, x, n, x.tailAt) && RoleAt(s, x, m, x.tailAt + 1)
               && m != n
            && s.heap[n].data.Some? && s.heap[m].data == None && x.role[n].tl == Live && x.role[m].tl == Ahead
  {
    var k := x.tailAt - x.base;
    assert RoleAt(s, x, x.chain[k], x.base + k) && Leads(s, x, k);
    assert RoleAt(s, x, x.chain[k + 1], x.base + k + 1);
    assert NodeOk(s, x, n) && NodeOk(s, x, x.chain[k + 1]);
  }

  lemma ChainAdvance(s: State, x: Proof, a: Spec, s': State, a': Spec, t: Tid, n: Addr, m: Addr)
    requires Inv(s, x, a) && n == s.tail.ptr && x.tailAt + 1 < x.base + |x.chain| && m == x.chain[x.tailAt + 1 - x.base]
    requires n in s.heap && m in s.heap && s.heap[n].data.Some? && s.heap[m].data == None
    requires RoleAt(s, x, n, x.tailAt) && RoleAt(s, x, m, x.tailAt + 1) && m != n
    requires s'.heap == s.heap && s'.head == s.head && s'.tail.ptr == m
    requires a'.items == a.items + [s.heap[n].data.value.v]
    ensures ChainOk(s', Advanced(x, t, n, m), a')
  {
    var x' := Advanced(x, t, n, m);
    forall i | 0 <= i < |x.chain| ensures RoleAt(s', x', x.chain[i], x.base + i) && Leads(s', x', i) {
      assert RoleAt(s, x, x.chain[i], x.base + i) && Leads(s, x, i);
    }
    forall i | 0 <= i < |a'.items| ensures DataAt(s', x', a', i) {
      if i < |a.items| {
        assert DataAt(s, x, a, i);
      }
    }
  }

  lemma KeepsAdvance(s: State, x: Proof, a: Spec, t: Tid, cur: Addr, was: CountedPtr, next: CountedPtr, then_: Then)
    returns (x': Proof)
    requires Inv(s, x, a) && PcOf(s, t) == SetTail(cur, was, next, then_) && s.tail == was
    ensures Simulates(StepSetTail(s, t, cur, was, next, then_, false), x', a)
  {
    hide Quiet;
    assert ThreadOk(s, x, a, t) && NodeOk(s, x, cur);
    var m := next.ptr;
    TailPair(s, x, a, cur);
    assert NodeOk(s, x, m);
    var owner := s.heap[cur].data.value.owner;
    assert ThreadOk(s, x, a, owner);
    var o := StepSetTail(s, t, cur, was, next, then_, false);
    assert OpOf(a, owner) == Pushing(s.heap[cur].data.value.v);
    var s', a' := o.s, Next(a, o.l).value;
    x' := Advanced(x, t, cur, m);
    ChainAdvance(s, x, a, s', a', t, cur, m);
    AdvanceNodes(s, x, a, s', t, cur, m);
    AdvanceQuiet(s, x, a, s', a', t, cur, m);
    Frame(s, x, a, s', x', a', t);
  }

  lemma AdvanceQuiet(s: State, x: Proof, a: Spec, s': State, a': Spec, t: Tid, n: Addr, m: Addr)
    requires ChainOk(s, x, a) && n == s.tail.ptr && n in s.heap && s.heap[n].data.Some? && x.role.Keys == s.heap.Keys
    requires RoleAt(s, x, n, x.tailAt) && RoleAt(s, x, m, x.tailAt + 1) && x.role[n].tl == Live && x.role[m].tl == Ahead
    requires s'.heap == s.heap && s'.threads == s.threads[t := PcOf(s', t)]
    requires a'.ops == a.ops[s.heap[n].data.value.owner := Pushed]
    ensures Quiet(s, x, a, s', Advanced(x, t, n, m), a', t)
  {
    var x' := Advanced(x, t, n, m);
    forall u, p | u != t && Holds(PcOf(s, u), p) ensures Persists(s, x, s', x', p, u) {
    }
  }

  lemma AdvanceNodes(s: State, x: Proof, a: Spec, s': State, t: Tid, n: Addr, m: Addr)
    requires Inv(s, x, a) && n == s.tail.ptr && x.tailAt + 1 < x.base + |x.chain| && m == x.chain[x.tailAt + 1 - x.base]
    requires RoleAt(s, x, n, x.tailAt) && RoleAt(s, x, m, x.tailAt + 1) && m != n
    requires x.role[n].tl == Live && x.role[m].tl == Ahead
    requires PcOf(s, t).SetTail? && PcOf(s, t).cur == n && PcOf(s, t).was == s.tail
    requires PcOf(s', t) == FoldLoad(s.tail, Leaving(PcOf(s, t).then_, s.tail))
    requires s' == s.(tail := CountedPtr(1, m), threads := s.threads[t := PcOf(s', t)])
    ensures forall p {:trigger NodeOk(s', Advanced(x, t, n, m), p)} :: p in s'.heap ==>
            NodeOk(s', Advanced(x, t, n, m), p)
  {
    var x' := Advanced(x, t, n, m);
    assert NodeOk(s, x, n) && NodeOk(s, x, m);
    Counting(s, s', t, n);
    Counting(s, s', t, m);
    NodesStay(s, x, a, s', x', t, n, m);
    assert NodeOk(s', x', n) && NodeOk(s', x', m);
  }

  function Behead(x: Proof, t: Tid, n: Addr, m: Addr): Proof
    requires n in x.role && m in x.role && x.role[n].Shared? && x.role[m].Shared? && x.chain != []
  {
    x.(base := x.base + 1, chain := x.chain[1..],
       role := x.role[n := x.role[n].(hd := Detached(t))][m := x.role[m].(hd := Live)])
  }

  lemma HeadPair(s: State, x: Proof, a: Spec)
    requires Inv(s, x, a) && x.base < x.tailAt
    ensures var n, m := s.head.ptr, x.chain[1];
            && n == x.chain[0] && n in s.heap && s.heap[n].next == CountedPtr(1, m) && m != n
            && RoleAt(s, x, n, x.base) && RoleAt(s, x, m, x.base + 1)
            && DataAt(s, x, a, 0) && x.role[n].hd == Live && x.role[m].hd == Ahead
  {
    assert RoleAt(s, x, x.chain[0], x.base + 0) && RoleAt(s, x, x.chain[1], x.base + 1) && Leads(s, x, 0)
        && DataAt(s, x, a, 0);
    assert NodeOk(s, x, x.chain[0]) && NodeOk(s, x, x.chain[1]);
  }

  lemma ChainBehead(s: State, x: Proof, a: Spec, s': State, a': Spec, t: Tid, n: Addr, m: Addr)
    requires Inv(s, x, a) && x.base < x.tailAt && n == x.chain[0] && m == x.chain[1]
    requires RoleAt(s, x, n, x.base) && RoleAt(s, x, m, x.base + 1)
    requires s'.heap == s.heap && s'.head.ptr == m && s'.tail == s.tail && a'.items == a.items[1..]
    requires s.heap[s.tail.ptr].data.Some? ==>
      var o := s.heap[s.tail.ptr].data.value.owner;
      Installing(PcOf(s', o), s.tail.ptr) == Installing(PcOf(s, o), s.tail.ptr)
    ensures ChainOk(s', Behead(x, t, n, m), a')
  {
    var x' := Behead(x, t, n, m);
    forall i | 0 <= i < |x'.chain| ensures RoleAt(s', x', x'.chain[i], x'.base + i) && Leads(s', x', i) {
      assert RoleAt(s, x, x.chain[i + 1], x.base + (i + 1)) && Leads(s, x, i + 1);
    }
    forall i | 0 <= i < |a'.items| ensures DataAt(s', x', a', i) {
      assert DataAt(s, x, a, i + 1);
    }
  }

  lemma BeheadNodes(s: State, x: Proof, a: Spec, s': State, t: Tid, n: Addr, m: Addr)
    requires Inv(s, x, a) && x.base < x.tailAt && n == x.chain[0] == s.head.ptr && m == x.chain[1] && m != n
    requires RoleAt(s, x, n, x.base) && RoleAt(s, x, m, x.base + 1) && x.role[n].hd == Live && x.role[m].hd == Ahead
    requires s.heap[n].next.ptr != NULL
    requires PcOf(s, t).PopCas? && PcOf(s, t).was == s.head && PcOf(s', t) == PopTake(s.head)
    requires s' == s.(head := CountedPtr(1, m), threads := s.threads[t := PcOf(s', t)])
    ensures forall p {:trigger NodeOk(s', Behead(x, t, n, m), p)} :: p in s'.heap ==> NodeOk(s', Behead(x, t, n, m), p)
  {
    var x' := Behead(x, t, n, m);
    assert NodeOk(s, x, n) && NodeOk(s, x, m);
    Counting(s, s', t, n);
    Counting(s, s', t, m);
    BeheadOwn(s, x, a, s', t, n, m);
    NodesStay(s, x, a, s', x', t, n, m);
  }

  lemma BeheadOwn(s: State, x: Proof, a: Spec, s': State, t: Tid, n: Addr, m: Addr)
    requires ChainOk(s, x, a) && NodeOk(s, x, n) && NodeOk(s, x, m) && x.base < x.tailAt && n == s.head.ptr && m != n
    requires n != NULL && m != NULL
    requires RoleAt(s, x, n, x.base) && RoleAt(s, x, m, x.base + 1) && x.role[n].hd == Live && x.role[m].hd == Ahead
    requires s.heap[n].next.ptr != NULL
    requires PcOf(s, t).PopCas? && PcOf(s, t).was == s.head && PcOf(s', t) == PopTake(s.head)
    requires s' == s.(head := CountedPtr(1, m), threads := s.threads[t := PcOf(s', t)])
    requires |Holders(s', n)| == |Holders(s, n)|
             + (if Holds(PcOf(s', t), n) then 1 else 0) - (if Holds(PcOf(s, t), n) then 1 else 0)
    requires |Holders(s', m)| == |Holders(s, m)|
             + (if Holds(PcOf(s', t), m) then 1 else 0) - (if Holds(PcOf(s, t), m) then 1 else 0)
    ensures NodeOk(s', Behead(x, t, n, m), n) && NodeOk(s', Behead(x, t, n, m), m)
  {
  }

  lemma BeheadQuiet(s: State, x: Proof, a: Spec, s': State, a': Spec, t: Tid, n: Addr, m: Addr)
    requires x.role.Keys == s.heap.Keys && n == s.head.ptr && n != NULL && RoleAt(s, x, n, x.base) && x.chain != []
    requires x.role[n].hd == Live && RoleAt(s, x, m, x.base + 1) && x.role[m].hd == Ahead
    requires s' == s.(head := CountedPtr(1, m), threads := s.threads[t := PcOf(s', t)])
    requires forall u: Tid :: u != t ==> OpOf(a', u) == OpOf(a, u)
    ensures Quiet(s, x, a, s', Behead(x, t, n, m), a', t)
  {
    QuietNode(s, x, a, s', Behead(x, t, n, m), a', t, n, m);
  }

  lemma KeepsBehead(s: State, x: Proof, a: Spec, t: Tid, was: CountedPtr, next: CountedPtr) returns (x': Proof)
    requires Inv(s, x, a) && PcOf(s, t) == PopCas(was, next) && s.head == was
    ensures Simulates(StepPopCas(s, t, was, next), x', a)
  {
    hide Quiet;
    assert ThreadOk(s, x, a, t) && NodeOk(s, x, was.ptr);
    TailIs(s, x, a, was.ptr);
    HeadPair(s, x, a);
    var n, m := was.ptr, next.ptr;
    var o := StepPopCas(s, t, was, next);
    assert o.l == LinPop(t, Front(a.items));
    var s', a' := o.s, Next(a, o.l).value;
    x' := Behead(x, t, n, m);
    ChainBehead(s, x, a, s', a', t, n, m);
    BeheadNodes(s, x, a, s', t, n, m);
    BeheadQuiet(s, x, a, s', a', t, n, m);
    Frame(s, x, a, s', x', a', t);
  }

  lemma KeepsPopCas(s: State, x: Proof, a: Spec, t: Tid, was: CountedPtr, next: CountedPtr) returns (x': Proof)
    requires Inv(s, x, a) && PcOf(s, t) == PopCas(was, next)
    ensures Simulates(StepPopCas(s, t, was, next), x', a)
  {
    assert ThreadOk(s, x, a, t);
    if s.head == was {
      x' := KeepsBehead(s, x, a, t, was, next);
    } else {
      x' := x;
      LocalStep(s, x, a, StepPopCas(s, t, was, next).s, a, t);
    }
  }

  lemma KeepsPopTake(s: State, x: Proof, a: Spec, t: Tid, was: CountedPtr)
    requires Inv(s, x, a) && PcOf(s, t) == PopTake(was)
    ensures Simulates(StepPopTake(s, t, was), x, a)
  {
    hide Quiet;
    var n := was.ptr;
    assert ThreadOk(s, x, a, t) && NodeOk(s, x, n);
    var s' := StepPopTake(s, t, was).s;
    assert ChainOk(s', x, a) by {
      assert forall i :: 0 <= i < |x.chain| ==> RoleAt(s, x, x.chain[i], x.base + i);
      assert RoleAt(s, x, x.chain[x.tailAt - x.base], x.tailAt);
      SameChain(s, x, a, s', x, a);
    }
    Counting(s, s', t, n);
    NodesStay(s, x, a, s', x, t, n, NULL);
    QuietNode(s, x, a, s', x, a, t, n, NULL);
    Frame(s, x, a, s', x, a, t);
  }

  // ---------------------------------------------------------------- letting go

  function WithoutSide(r: Role, head: bool): Role
    requires r.Shared?
  {
    if head then r.(hd := Folded) else r.(tl := Folded)
  }

  /** What folding does to the count of the node: the node's account still balances. */
  lemma FoldBalances(s: State, x: Proof, a: Spec, s': State, t: Tid, n: Addr, was: CountedPtr, after: After)
    requires Inv(s, x, a) && n == was.ptr && TakenOk(s, x, t, n, after.PopEnd?)
    requires Taken(PcOf(s, t)) == Some(was) && FromHead(PcOf(s, t)) == after.PopEnd? && Holds(PcOf(s, t), n)
    requires s'.threads == s.threads[t := PcOf(s', t)] && !Holds(PcOf(s', t), n)
    requires s'.head == s.head && s'.tail == s.tail
    ensures var r := WithoutSide(x.role[n], after.PopEnd?);
            && (s.heap[n].count.links + 3) % 4 == Links(r.hd, r.tl)
            && Wrap(s.heap[n].count.internal + was.ext - 2)
               == Wrap(|Holders(s', n)| - Share(s', r.hd, s'.head) - Share(s', r.tl, s'.tail))
  {
    assert NodeOk(s, x, n);
    Counting(s, s', t, n);
    var Shared(pos, hd, tl) := x.role[n];
    WrapAdd(|Holders(s, n)| - Share(s, hd, s.head) - Share(s, tl, s.tail), was.ext - 2);
    var other := if after.PopEnd? then tl else hd;
    assert other != Detached(t);
    assert Share(s', other, if after.PopEnd? then s'.tail else s'.head)
        == Share(s, other, if after.PopEnd? then s.tail else s.head);
  }

  lemma ReleaseBalances(s: State, x: Proof, a: Spec, s': State, t: Tid, p: Addr)
    requires Inv(s, x, a) && Held(s, x, p, x.tailAt) && Taken(PcOf(s, t)) == None && Holds(PcOf(s, t), p)
    requires s'.threads == s.threads[t := PcOf(s', t)] && !Holds(PcOf(s', t), p)
    requires s'.head == s.head && s'.tail == s.tail
    ensures var r := x.role[p];
            Wrap(s.heap[p].count.internal - 1)
                == Wrap(|Holders(s', p)| - Share(s', r.hd, s'.head) - Share(s', r.tl, s'.tail))
  {
    assert NodeOk(s, x, p);
    Counting(s, s', t, p);
    var Shared(pos, hd, tl) := x.role[p];
    WrapAdd(|Holders(s, p)| - Share(s, hd, s.head) - Share(s, tl, s.tail), -1);
    assert hd != Detached(t) && tl != Detached(t);
    assert Share(s', hd, s'.head) == Share(s, hd, s.head) && Share(s', tl, s'.tail) == Share(s, tl, s.tail);
  }

  /** `t` lets go of `n`, whose account balances with role `r` and count `c`: it goes on, or is the
      one to delete the node. */
  lemma KeepsLetGo(s: State, x: Proof, a: Spec, s': State, t: Tid, n: Addr, r: Role, c: Count, after: After)
    returns (x': Proof)
    requires Inv(s, x, a) && Held(s, x, n, x.tailAt) && AfterOk(s, x, a, t, after)
    requires HeldBy(PcOf(s, t)) == n && SpareOf(PcOf(s, t)) == SpareIn(after) && !PcOf(s, t).Reap?
    requires Taken(PcOf(s, t)).Some? ==> Taken(PcOf(s, t)).value.ptr == n
    requires Installing(PcOf(s, t), s.tail.ptr) == None
    requires PcOf(s', t) == (if Gone(c) then Reap(n, after) else Resume(after))
    requires s' == s.(heap := s.heap[n := s.heap[n].(count := c)], threads := s.threads[t := PcOf(s', t)])
    requires r.Shared? && r.pos == x.role[n].pos
    requires r.hd == x.role[n].hd || (x.role[n].hd == Detached(t) && r.hd == Folded)
    requires r.tl == x.role[n].tl || (x.role[n].tl == Detached(t) && r.tl == Folded)
    requires c.links == Links(r.hd, r.tl)
    requires r.hd != Detached(t) && r.tl != Detached(t)
    requires c.internal == Wrap(|Holders(s', n)| - Share(s', r.hd, s'.head) - Share(s', r.tl, s'.tail))
    ensures Inv(s', x', a)
  {
    hide ChainOk, Quiet;
    x' := x.(role := x.role[n := if Gone(c) then Doomed(t) else r]);
    LetGoChain(s, x, a, s', t, n, r, c);
    NodesStay(s, x, a, s', x', t, n, NULL);
    LetGoNode(s, x, s', x', t, n, r, c, after);
    LetGoQuiet(s, x, a, s', x', t, n);
    Frame(s, x, a, s', x', a, t);
  }

  lemma LetGoChain(s: State, x: Proof, a: Spec, s': State, t: Tid, n: Addr, r: Role, c: Count)
    requires Inv(s, x, a) && Held(s, x, n, x.tailAt) && Installing(PcOf(s, t), s.tail.ptr) == None
    requires s'.heap == s.heap[n := s.heap[n].(count := c)] && s'.head == s.head && s'.tail == s.tail
    requires s'.threads == s.threads[t := PcOf(s', t)]
    requires r.Shared? && r.pos == x.role[n].pos && c.links == Links(r.hd, r.tl)
    requires r.hd == x.role[n].hd || (x.role[n].hd == Detached(t) && r.hd == Folded)
    requires r.tl == x.role[n].tl || (x.role[n].tl == Detached(t) && r.tl == Folded)
    ensures ChainOk(s', x.(role := x.role[n := if Gone(c) then Doomed(t) else r]), a)
    ensures Gone(c) ==> n !in x.chain
  {
    GoneIsOff(s, x, a, n, r, c);
    assert forall i :: 0 <= i < |x.chain| ==> RoleAt(s, x, x.chain[i], x.base + i);
    SameChain(s, x, a, s', x.(role := x.role[n := if Gone(c) then Doomed(t) else r]), a);
  }

  lemma LetGoQuiet(s: State, x: Proof, a: Spec, s': State, x': Proof, t: Tid, n: Addr)
    requires n in s.heap && n in x.role && x.role[n].Shared? && n in s'.heap && n in x'.role
    requires s'.threads == s.threads[t := PcOf(s', t)] && s'.heap == s.heap[n := s.heap[n].(count := s'.heap[n].count)]
    requires x' == x.(role := x.role[n := x'.role[n]]) && x.role.Keys == s.heap.Keys
    requires (forall u: Tid :: u != t ==> !Holds(PcOf(s, u), n))
             || (x'.role[n].Shared? && x'.role[n].pos == x.role[n].pos
                 && (x'.role[n].hd == x.role[n].hd || x.role[n].hd == Detached(t))
                 && (x'.role[n].tl == x.role[n].tl || x.role[n].tl == Detached(t)))
    ensures Quiet(s, x, a, s', x', a, t)
  {
    forall u, p | u != t && Holds(PcOf(s, u), p) ensures Persists(s, x, s', x', p, u) {
    }
  }

  lemma LetGoNode(s: State, x: Proof, s': State, x': Proof, t: Tid, n: Addr, r: Role, c: Count, after: After)
    requires NodeOk(s, x, n) && x.role[n].Shared? && n in s'.heap
    requires PcOf(s', t) == (if Gone(c) then Reap(n, after) else Resume(after))
    requires s'.threads == s.threads[t := PcOf(s', t)] && s'.heap[n] == s.heap[n].(count := c)
    requires x' == x.(role := x.role[n := if Gone(c) then Doomed(t) else r])
    requires r.Shared? && r.pos == x.role[n].pos && c.links == Links(r.hd, r.tl)
    requires r.hd == x.role[n].hd || (x.role[n].hd == Detached(t) && r.hd == Folded)
    requires r.tl == x.role[n].tl || (x.role[n].tl == Detached(t) && r.tl == Folded)
    requires r.hd != Detached(t) && r.tl != Detached(t)
    requires c.internal == Wrap(|Holders(s', n)| - Share(s', r.hd, s'.head) - Share(s', r.tl, s'.tail))
    ensures NodeOk(s', x', n)
    ensures Gone(c) ==> forall u: Tid :: u != t ==> !Holds(PcOf(s, u), n)
  {
    HoldersFit(s', n);
    NobodyIn(s', n);
    assert forall u: Tid :: u != t ==> PcOf(s', u) == PcOf(s, u);
  }

  /** A node both of whose links are folded is behind the head. */
  lemma GoneIsOff(s: State, x: Proof, a: Spec, n: Addr, r: Role, c: Count)
    requires Inv(s, x, a) && Held(s, x, n, x.tailAt) && r.Shared?
    requires r.hd == x.role[n].hd || (x.role[n].hd.Detached? && r.hd == Folded)
    requires c.links == Links(r.hd, r.tl)
    ensures Gone(c) ==> forall i :: 0 <= i < |x.chain| ==> x.chain[i] != n
  {
    assert NodeOk(s, x, n);
    if Gone(c) {
      forall i | 0 <= i < |x.chain| ensures x.chain[i] != n {
        assert RoleAt(s, x, x.chain[i], x.base + i);
      }
    }
  }

  lemma FoldTakes(s: State, x: Proof, a: Spec, t: Tid, was: CountedPtr, seen: Count, after: After) returns (x': Proof)
    requires Inv(s, x, a) && PcOf(s, t) == FoldCas(was, seen, after) && was.ptr in s.heap
    requires s.heap[was.ptr].count == seen
    ensures Inv(StepFoldCas(s, t, was, seen, after).s, x', a)
  {
    hide ChainOk;
    assert ThreadOk(s, x, a, t) && NodeOk(s, x, was.ptr);
    var s' := StepFoldCas(s, t, was, seen, after).s;
    FoldBalances(s, x, a, s', t, was.ptr, was, after);
    x' := KeepsLetGo(s, x, a, s', t, was.ptr, WithoutSide(x.role[was.ptr], after.PopEnd?),
                     Count(Wrap(seen.internal + was.ext - 2), (seen.links + 3) % 4), after);
  }

  lemma KeepsFold(s: State, x: Proof, a: Spec, t: Tid, was: CountedPtr, seen: Count, after: After) returns (x': Proof)
    requires Inv(s, x, a) && PcOf(s, t) == FoldCas(was, seen, after)
    ensures Simulates(StepFoldCas(s, t, was, seen, after), x', a)
  {
    hide ChainOk;
    assert ThreadOk(s, x, a, t);
    if s.heap[was.ptr].count == seen {
      x' := FoldTakes(s, x, a, t, was, seen, after);
    } else {
      x' := x;
      LocalStep(s, x, a, StepFoldCas(s, t, was, seen, after).s, a, t);
    }
  }

  lemma KeepsRelease(s: State, x: Proof, a: Spec, t: Tid, p: Addr, seen: Count, after: After) returns (x': Proof)
    requires Inv(s, x, a) && PcOf(s, t) == RelCas(p, seen, after)
    ensures Simulates(StepRelCas(s, t, p, seen, after), x', a)
  {
    hide ChainOk, Quiet;
    assert ThreadOk(s, x, a, t) && NodeOk(s, x, p);
    var s' := StepRelCas(s, t, p, seen, after).s;
    if s.heap[p].count == seen {
      ReleaseBalances(s, x, a, s', t, p);
      x' := KeepsLetGo(s, x, a, s', t, p, x.role[p], Count(Wrap(seen.internal - 1), seen.links), after);
    } else {
      x' := x;
      LocalStep(s, x, a, s', a, t);
    }
  }

  lemma KeepsReap(s: State, x: Proof, a: Spec, t: Tid, p: Addr, after: After) returns (x': Proof)
    requires Inv(s, x, a) && PcOf(s, t) == Reap(p, after)
    ensures Simulates(StepDelete(s, t, p, Resume(after)), x', a)
  {
    assert ThreadOk(s, x, a, t) && NodeOk(s, x, p);
    var s' := StepDelete(s, t, p, Resume(after)).s;
    x' := x.(role := x.role - {p});
    ReapChain(s, x, a, s', x', t, p);
    NobodyIn(s, p);
    ReapNodes(s, x, a, s', x', t, p);
    Frame(s, x, a, s', x', a, t);
  }

  lemma ReapChain(s: State, x: Proof, a: Spec, s': State, x': Proof, t: Tid, n: Addr)
    requires Inv(s, x, a) && n in s.heap && x.role[n] == Doomed(t) && PcOf(s, t).Reap? && PcOf(s, t).p == n
    requires s' == s.(heap := s.heap - {n}, threads := s.threads[t := Resume(PcOf(s, t).after)])
    requires x' == x.(role := x.role - {n})
    ensures ChainOk(s', x', a)
  {
    assert forall i :: 0 <= i < |x.chain| ==> RoleAt(s, x, x.chain[i], x.base + i);
    assert RoleAt(s, x, x.chain[x.tailAt - x.base], x.tailAt);
    SameChain(s, x, a, s', x', a);
  }

  lemma ReapNodes(s: State, x: Proof, a: Spec, s': State, x': Proof, t: Tid, n: Addr)
    requires Inv(s, x, a) && n in s.heap && x.role[n] == Doomed(t) && PcOf(s, t).Reap? && PcOf(s, t).p == n
    requires s' == s.(heap := s.heap - {n}, threads := s.threads[t := Resume(PcOf(s, t).after)])
    requires x' == x.(role := x.role - {n})
    ensures forall p {:trigger NodeOk(s', x', p)} :: p in s'.heap ==> NodeOk(s', x', p)
  {
    forall p | p in s'.heap ensures NodeOk(s', x', p) {
      assert NodeOk(s, x, p) && Still(s, x, s', x', p);
      NodeStays(s, x, s', x', t, p);
    }
  }

  lemma KeepsLocal(s: State, x: Proof, a: Spec, t: Tid, c: Choice)
    requires Inv(s, x, a)
    requires var pc := PcOf(s, t);
             pc.PushLoad? || pc.PushPeek? || pc.FoldLoad? || pc.RelLoad? || pc.PopLoad? || pc.PushRet? || pc.PopRet?
    ensures Simulates(Step(s, t, c), x, a)
  {
    assert ThreadOk(s, x, a, t);
    var o := Step(s, t, c);
    LocalStep(s, x, a, o.s, Next(a, o.l).value, t);
  }

  lemma KeepsPush(s: State, x: Proof, a: Spec, t: Tid, c: Choice) returns (x': Proof)
    requires Inv(s, x, a)
    requires var pc := PcOf(s, t);
             pc.PushCount? || pc.PushData? || pc.PushLink? || pc.PushTrash? || pc.HelpLink? || pc.HelpNew?
                 || pc.SetTail?
    ensures Simulates(Step(s, t, c), x', a)
  {
    var spurious := c.Go? && c.spurious;
    x' := x;
    match PcOf(s, t) {
      case PushCount(item, node, was) =>
        assert Step(s, t, c) == StepPushCount(s, t, item, node, was);
        KeepsPushCount(s, x, a, t, item, node, was);
      case PushData(item, node, was) =>
        assert Step(s, t, c) == StepPushData(s, t, item, node, was);
        KeepsPushData(s, x, a, t, item, node, was);
      case PushLink(item, node, was) =>
        assert Step(s, t, c) == StepPushLink(s, t, item, node, was);
        x' := KeepsPushLink(s, x, a, t, item, node, was);
      case PushTrash(item, node, was, next) =>
        assert Step(s, t, c) == StepDelete(s, t, node, SetTail(was.ptr, was, next, Finish(item)));
        x' := KeepsTrash(s, x, a, t, item, node, was, next);
      case HelpLink(item, node, was) =>
        assert Step(s, t, c) == StepHelpLink(s, t, item, node, was);
        x' := KeepsHelpLink(s, x, a, t, item, node, was);
      case HelpNew(item, was, next) =>
        assert Step(s, t, c) == StepHelpNew(s, t, item, was, next, if c.Go? then c.at else NULL);
        x' := KeepsHelpNew(s, x, a, t, item, was, next, if c.Go? then c.at else NULL);
      case SetTail(cur, was, next, then_) =>
        assert Step(s, t, c) == StepSetTail(s, t, cur, was, next, then_, spurious);
        x' := KeepsSetTail(s, x, a, t, cur, was, next, then_, spurious);
    }
  }

  lemma Keeps(s: State, x: Proof, a: Spec, t: Tid, c: Choice) returns (x': Proof)
    requires Inv(s, x, a)
    ensures Simulates(Step(s, t, c), x', a)
  {
    x' := x;
    match PcOf(s, t) {
      case Idle =>
        assert Step(s, t, c) == Start(s, t, c);
        x' := KeepsIdle(s, x, a, t, c);
      case FoldCas(was, seen, after) =>
        assert Step(s, t, c) == StepFoldCas(s, t, was, seen, after);
        x' := KeepsFold(s, x, a, t, was, seen, after);
      case RelCas(p, seen, after) =>
        assert Step(s, t, c) == StepRelCas(s, t, p, seen, after);
        x' := KeepsRelease(s, x, a, t, p, seen, after);
      case Reap(p, after) =>
        assert Step(s, t, c) == StepDelete(s, t, p, Resume(after));
        x' := KeepsReap(s, x, a, t, p, after);
      case PopCount(was) =>
        assert Step(s, t, c) == StepPopCount(s, t, was);
        KeepsPopCount(s, x, a, t, was);
      case PopTail(was) =>
        assert Step(s, t, c) == StepPopTail(s, t, was);
        KeepsPopTail(s, x, a, t, was);
      case PopNext(was) =>
        assert Step(s, t, c) == StepPopNext(s, t, was);
        KeepsPopNext(s, x, a, t, was);
      case PopCas(was, next) =>
        assert Step(s, t, c) == StepPopCas(s, t, was, next);
        x' := KeepsPopCas(s, x, a, t, was, next);
      case PopTake(was) =>
        assert Step(s, t, c) == StepPopTake(s, t, was);
        KeepsPopTake(s, x, a, t, was);
      case _ =>
        if PcOf(s, t).PushLoad? || PcOf(s, t).PushPeek? || PcOf(s, t).FoldLoad? || PcOf(s, t).RelLoad?
            || PcOf(s, t).PopLoad?
           || PcOf(s, t).PushRet? || PcOf(s, t).PopRet? {
          KeepsLocal(s, x, a, t, c);
        } else {
          x' := KeepsPush(s, x, a, t, c);
        }
    }
  }
}
