/** What holds of every run of `lock_free_queue`, for any number of threads and any schedule. */
module QueueRuns {
  import opened Options
  import opened AtomicQueue
  import opened LockFreeQueue
  import opened QueueInvariant
  import opened QueueSteps

  lemma {:induction false} Runs(s: State, x: Proof, a: Spec, sched: Schedule) returns (x': Proof)
    requires Inv(s, x, a)
    ensures Replay(a, Labels(s, sched)).Some? && Inv(Run(s, sched), x', Replay(a, Labels(s, sched)).value)
    decreases sched
  {
    x' := x;
    if sched != [] {
      var o := Step(s, sched[0].0, sched[0].1);
      var y := Keeps(s, x, a, sched[0].0, sched[0].1);
      x' := Runs(o.s, y, Next(a, o.l).value, sched[1..]);
      var ls := Labels(s, sched);
      assert ls == [o.l] + Labels(o.s, sched[1..]) && ls[1..] == Labels(o.s, sched[1..]);
    }
  }

  lemma InitOk() returns (x: Proof)
    ensures Inv(INIT, x, NEW_QUEUE)
  {
    x := Proof([1], 0, 0, map[1 := Shared(0, Live, Live)]);
    assert Holders(INIT, 1) == {};
    assert NodeOk(INIT, x, 1);
  }

  lemma FromInit(sched: Schedule) returns (x: Proof)
    ensures Replay(NEW_QUEUE, Labels(INIT, sched)).Some?
    ensures Inv(Run(INIT, sched), x, Replay(NEW_QUEUE, Labels(INIT, sched)).value)
  {
    var y := InitOk();
    x := Runs(INIT, y, NEW_QUEUE, sched);
  }

  /** Every interleaving of any number of threads is a run of the queue object. */
  lemma Linearizable(sched: Schedule)
    ensures Replay(NEW_QUEUE, Labels(INIT, sched)).Some?
  {
    var x := FromInit(sched);
  }

  /** No step reads, writes or frees an address that is not allocated. */
  lemma MemorySafe(sched: Schedule)
    ensures !Run(INIT, sched).fault
  {
    var x := FromInit(sched);
  }

  /** The values delivered are, in order, a prefix of the values that entered: first in, first out,
      each at most once. */
  lemma DeliveredInOrder(sched: Schedule)
    ensures Left(Labels(INIT, sched)) <= Entered(Labels(INIT, sched))
  {
    Linearizable(sched);
    FifoFromInit(Labels(INIT, sched));
  }

  /** `chain` runs from the head; the tail is at index `k`; a value waits in every node before it. */
  ghost predicate IsQueue(s: State, chain: seq<Addr>, k: nat, items: seq<Value>) {
    && k < |chain| <= k + 2 && |items| == k
    && chain[0] == s.head.ptr && chain[k] == s.tail.ptr
    && (forall i, j :: 0 <= i < j < |chain| ==> chain[i] != chain[j])
    && (forall i :: 0 <= i < |chain| ==> chain[i] in s.heap)
    && (forall i, j :: 0 <= i && j == i + 1 < |chain| ==> s.heap[chain[i]].next == CountedPtr(1, chain[j]))
    && s.heap[chain[|chain| - 1]].next == EMPTY
    && (forall i :: 0 <= i < k ==> s.heap[chain[i]].data.Some? && s.heap[chain[i]].data.value.v == items[i])
  }

  /** The head never passes the tail, the chain reaches at most one node past the tail, and the
      data from the head up to the tail are the contents of the queue object. */
  lemma ContentsAgree(sched: Schedule)
    ensures exists chain: seq<Addr>, k: nat :: Replay(NEW_QUEUE, Labels(INIT, sched)).Some?
              && IsQueue(Run(INIT, sched), chain, k, Replay(NEW_QUEUE, Labels(INIT, sched)).value.items)
  {
    var x := FromInit(sched);
    Shape(Run(INIT, sched), x, Replay(NEW_QUEUE, Labels(INIT, sched)).value);
  }

  lemma Shape(s: State, x: Proof, a: Spec)
    requires ChainOk(s, x, a)
    ensures IsQueue(s, x.chain, x.tailAt - x.base, a.items)
  {
    forall i | 0 <= i < |x.chain|
      ensures RoleAt(s, x, x.chain[i], x.base + i) && s.heap[x.chain[i]].next == LinkFrom(x, i)
    {
      assert RoleAt(s, x, x.chain[i], x.base + i) && Leads(s, x, i);
    }
    forall i, j | 0 <= i && j == i + 1 < |x.chain| ensures s.heap[x.chain[i]].next == CountedPtr(1, x.chain[j]) {
      assert Leads(s, x, i);
    }
    forall i, j | 0 <= i < j < |x.chain| ensures x.chain[i] != x.chain[j] {
      assert RoleAt(s, x, x.chain[i], x.base + i) && RoleAt(s, x, x.chain[j], x.base + j);
    }
    forall i | 0 <= i < |a.items|
      ensures s.heap[x.chain[i]].data.Some? && s.heap[x.chain[i]].data.value.v == a.items[i]
    {
      assert DataAt(s, x, a, i);
    }
  }

  /** A pop that has won the head finds a value there. */
  lemma WinnerFindsValue(sched: Schedule, t: Tid, was: CountedPtr)
    requires PcOf(Run(INIT, sched), t) == PopTake(was)
    ensures was.ptr in Run(INIT, sched).heap && Run(INIT, sched).heap[was.ptr].data.Some?
  {
    var x := FromInit(sched);
    assert ThreadOk(Run(INIT, sched), x, Replay(NEW_QUEUE, Labels(INIT, sched)).value, t);
  }

  /** Thread t took the head's (or the tail's) link to p down and has still to fold its count. */
  predicate Took(s: State, t: Tid, p: Addr, head: bool) {
    var taken := Taken(PcOf(s, t));
    taken.Some? && taken.value.ptr == p && FromHead(PcOf(s, t)) == head
  }

  /** The side of `p` as the state has it: the link is there, or one thread has taken it down, or it has not
      come that far yet, or it has been folded. */
  ghost predicate SideIs(s: State, side: Side, p: Addr, head: bool, ahead: bool) {
    && (side.Live? <==> (if head then s.head.ptr else s.tail.ptr) == p)
    && (forall t: Tid {:trigger Took(s, t, p, head)} :: side == Detached(t) <==> Took(s, t, p, head))
    && (side.Ahead? <==> ahead)
  }

  /** The sides of `p` and its account: the 2-bit count is the links not yet folded, and the 30-bit count with
      what each live or detached link adds is the number of threads that hold it. */
  ghost predicate Balanced(s: State, p: Addr, chain: seq<Addr>, k: nat, hd: Side, tl: Side)
    requires p in s.heap && k < |chain|
  {
    && SideIs(s, hd, p, true, p in chain[1..]) && SideIs(s, tl, p, false, p in chain[k + 1..])
    && s.heap[p].count.links == Links(hd, tl)
    && s.heap[p].count.internal == Wrap(|Holders(s, p)| - Share(s, hd, s.head) - Share(s, tl, s.tail))
  }

  lemma SidesAre(s: State, x: Proof, a: Spec, p: Addr)
    requires Inv(s, x, a) && p in s.heap && x.role[p].Shared?
    ensures Balanced(s, p, x.chain, x.tailAt - x.base, x.role[p].hd, x.role[p].tl)
  {
    assert NodeOk(s, x, p);
    TailIs(s, x, a, p);
    var Shared(pos, hd, tl) := x.role[p];
    forall t: Tid ensures hd == Detached(t) <==> Took(s, t, p, true)
                  ensures tl == Detached(t) <==> Took(s, t, p, false)
    {
      assert ThreadOk(s, x, a, t);
    }
    Ahead(s, x, a, p, 1);
    Ahead(s, x, a, p, x.tailAt - x.base + 1);
  }

  /** The nodes from index `from` on are those from that position on. */
  lemma Ahead(s: State, x: Proof, a: Spec, p: Addr, from: nat)
    requires ChainOk(s, x, a) && NodeOk(s, x, p) && x.role[p].Shared? && 0 < from <= |x.chain|
    ensures p in x.chain[from..] <==> x.base + from <= x.role[p].pos
  {
    var pos := x.role[p].pos;
    if p in x.chain[from..] {
      var i :| from <= i < |x.chain| && x.chain[i] == p;
      assert RoleAt(s, x, x.chain[i], x.base + i);
    }
    if x.base + from <= pos {
      assert x.chain[from..][pos - x.base - from] == p;
    }
  }

  /** The account of every linked node balances, in every reachable state. */
  lemma CountsBalance(sched: Schedule, p: Addr)
    requires p in Run(INIT, sched).heap
    requires forall t: Tid :: SpareOf(PcOf(Run(INIT, sched), t)) != p
    requires forall t: Tid :: !Reaping(PcOf(Run(INIT, sched), t), p)
    ensures exists chain: seq<Addr>, k: nat, items: seq<Value>, hd: Side, tl: Side ::
      IsQueue(Run(INIT, sched), chain, k, items) && Balanced(Run(INIT, sched), p, chain, k, hd, tl)
  {
    var x := FromInit(sched);
    var s, a := Run(INIT, sched), Replay(NEW_QUEUE, Labels(INIT, sched)).value;
    assert NodeOk(s, x, p);
    assert x.role[p].Shared?;
    SidesAre(s, x, a, p);
    Shape(s, x, a);
  }

  /** With all threads idle the allocated nodes are exactly those of the chain from the head. */
  lemma NothingLeaks(sched: Schedule)
    requires forall t: Tid :: PcOf(Run(INIT, sched), t) == Idle
    ensures exists chain: seq<Addr>, k: nat, items: seq<Value> ::
      IsQueue(Run(INIT, sched), chain, k, items) && forall p :: p in Run(INIT, sched).heap <==> p in chain
  {
    var x := FromInit(sched);
    var s, a := Run(INIT, sched), Replay(NEW_QUEUE, Labels(INIT, sched)).value;
    Shape(s, x, a);
    forall p | p in s.heap ensures p in x.chain {
      assert NodeOk(s, x, p);
      forall t: Tid ensures t !in Holders(s, p) {
        assert PcOf(s, t) == Idle;
      }
      assert Holders(s, p) == {};
    }
  }

  predicate Reaping(pc: Pc, p: Addr) {
    pc.Reap? && pc.p == p
  }

  /** One thread deletes a node, and by then no thread holds it and it is off the chain. */
  lemma DeletedByOne(sched: Schedule, t: Tid, p: Addr)
    requires Reaping(PcOf(Run(INIT, sched), t), p)
    ensures p in Run(INIT, sched).heap && p != Run(INIT, sched).head.ptr && p != Run(INIT, sched).tail.ptr
    ensures forall u: Tid :: u != t ==> !Holds(PcOf(Run(INIT, sched), u), p) && !Reaping(PcOf(Run(INIT, sched), u), p)
  {
    var x := FromInit(sched);
    var s, a := Run(INIT, sched), Replay(NEW_QUEUE, Labels(INIT, sched)).value;
    assert ThreadOk(s, x, a, t) && NodeOk(s, x, p);
    NobodyIn(s, p);
    forall u: Tid | u != t ensures !Reaping(PcOf(s, u), p) {
      assert ThreadOk(s, x, a, u);
    }
    assert RoleAt(s, x, x.chain[0], x.base + 0)
        && RoleAt(s, x, x.chain[x.tailAt - x.base], x.base + (x.tailAt - x.base));
  }

  // ---------------------------------------------------------------- which pushes are lost

  /** A pusher that has installed its item and has only to finish. */
  predicate Finishing(pc: Pc) {
    match pc
    case PushPeek(_, _, _) => true
    case PushLink(_, _, _) => true
    case PushTrash(_, _, _, _) => true
    case SetTail(_, _, _, then_) => then_.Finish?
    case FoldLoad(_, after) => after.PushEnd?
    case FoldCas(_, _, after) => after.PushEnd?
    case RelLoad(_, after) => after.PushEnd?
    case RelCas(_, _, after) => after.PushEnd?
    case Reap(_, after) => after.PushEnd?
    case PushRet => true
    case _ => false
  }

  lemma OthersStandStill(s: State, u: Tid, c: Choice, w: Tid)
    requires w != u
    ensures PcOf(Step(s, u, c).s, w) == PcOf(s, w)
  {
    if Pushes(PcOf(s, u)) {
      PusherMovesAlone(s, u, c, w);
    } else {
      PopperMovesAlone(s, u, c, w);
    }
  }

  lemma PusherMovesAlone(s: State, u: Tid, c: Choice, w: Tid)
    requires w != u && Pushes(PcOf(s, u))
    ensures PcOf(Step(s, u, c).s, w) == PcOf(s, w)
  {
  }

  lemma PopperMovesAlone(s: State, u: Tid, c: Choice, w: Tid)
    requires w != u && !Pushes(PcOf(s, u))
    ensures PcOf(Step(s, u, c).s, w) == PcOf(s, w)
  {
  }

  /** A push is dropped only by the thread that makes it, at its data CAS. */
  lemma DropsOwn(s: State, u: Tid, c: Choice, t: Tid)
    requires Step(s, u, c).l == Drop(t)
    ensures t == u && PcOf(s, t).PushData? && s.tail.ptr != PcOf(s, t).was.ptr
    ensures var p := PcOf(s, t).was.ptr;
            && p in s.heap && s.heap[p].data == None
            && p in Step(s, u, c).s.heap && Step(s, u, c).s.heap[p].data == Some(PcOf(s, t).item)
  {
  }

  lemma FinishingOwn(s: State, t: Tid, c: Choice)
    requires Finishing(PcOf(s, t))
    ensures Finishing(PcOf(Step(s, t, c).s, t)) || Step(s, t, c).l == RetPush(t)
  {
  }

  lemma FinishingStep(s: State, u: Tid, c: Choice, t: Tid)
    requires Finishing(PcOf(s, t))
    ensures Step(s, u, c).l != Drop(t)
    ensures Finishing(PcOf(Step(s, u, c).s, t)) || Step(s, u, c).l == RetPush(t)
  {
    if Step(s, u, c).l == Drop(t) {
      DropsOwn(s, u, c, t);
    }
    if u == t {
      FinishingOwn(s, t, c);
    } else {
      OthersStandStill(s, u, c, t);
    }
  }

  lemma {:induction false} FinishingRun(s: State, sched: Schedule, t: Tid, j: nat)
    requires Finishing(PcOf(s, t)) && FirstReturn(Labels(s, sched), t, j)
    ensures forall i :: 0 <= i < j ==> Labels(s, sched)[i] != Drop(t)
    decreases sched
  {
    var o := Step(s, sched[0].0, sched[0].1);
    FinishingStep(s, sched[0].0, sched[0].1, t);
    var ls, rest := Labels(s, sched), Labels(o.s, sched[1..]);
    assert ls == [o.l] + rest;
    if j > 0 {
      assert ls[0] != RetPush(t);
      assert FirstReturn(rest, t, j - 1) by {
        assert forall i :: 0 <= i < j - 1 ==> rest[i] == ls[i + 1];
      }
      FinishingRun(o.s, sched[1..], t, j - 1);
      assert forall i :: 0 < i < j ==> ls[i] == rest[i - 1];
    }
  }

  /** The push of `t` that is under way returns at index `j`. */
  ghost predicate FirstReturn(ls: seq<Label>, t: Tid, j: nat) {
    j < |ls| && ls[j] == RetPush(t) && forall i :: 0 <= i < j ==> ls[i] != RetPush(t)
  }

  lemma {:induction false} DroppedStays(a: Spec, ls: seq<Label>, t: Tid, j: nat)
    requires Replay(a, ls).Some? && OpOf(a, t) == Dropped && FirstReturn(ls, t, j)
    ensures forall i, v :: 0 <= i < j ==> ls[i] != LinPush(t, v)
    decreases ls
  {
    if j > 0 {
      var b := Next(a, ls[0]).value;
      assert OpOf(b, t) == Dropped && forall v :: ls[0] != LinPush(t, v);
      assert FirstReturn(ls[1..], t, j - 1);
      DroppedStays(b, ls[1..], t, j - 1);
      assert forall i :: 0 < i < j ==> ls[i] == ls[1..][i - 1];
    }
  }

  lemma {:induction false} PendingEnters(a: Spec, ls: seq<Label>, t: Tid, v: Value, j: nat)
    requires Replay(a, ls).Some? && OpOf(a, t) == Pushing(v) && FirstReturn(ls, t, j)
    requires forall i :: 0 <= i < j ==> ls[i] != Drop(t)
    ensures exists i :: 0 <= i < j && ls[i] == LinPush(t, v)
    decreases ls
  {
    if ls[0] != LinPush(t, v) {
      var b := Next(a, ls[0]).value;
      assert OpOf(b, t) == Pushing(v);
      assert FirstReturn(ls[1..], t, j - 1);
      PendingEnters(b, ls[1..], t, v, j - 1);
      var i :| 0 <= i < j - 1 && ls[1..][i] == LinPush(t, v);
      assert ls[i + 1] == LinPush(t, v);
    }
  }

  /** A push of v that t calls at index c returns at index j. */
  ghost predicate Completed(ls: seq<Label>, t: Tid, v: Value, c: nat, j: nat) {
    c < j < |ls| && ls[c] == CallPush(t, v) && FirstReturn(ls[c + 1..], t, j - c - 1)
  }

  /** A push that is not dropped enters between its call and its return. */
  lemma {:induction false} CalledPushEnters(a: Spec, ls: seq<Label>, t: Tid, v: Value, c: nat, j: nat)
    requires Replay(a, ls).Some? && Completed(ls, t, v, c, j)
    requires forall i :: 0 <= i < |ls| ==> ls[i] != Drop(t)
    ensures exists i :: c < i < j && ls[i] == LinPush(t, v)
    decreases ls
  {
    var b, rest := Next(a, ls[0]).value, ls[1..];
    if c == 0 {
      PendingEnters(b, rest, t, v, j - 1);
      var i :| 0 <= i < j - 1 && rest[i] == LinPush(t, v);
      assert ls[i + 1] == LinPush(t, v);
    } else {
      assert rest[c..] == ls[c + 1..];
      CalledPushEnters(b, rest, t, v, c - 1, j - 1);
      var i :| c - 1 < i < j - 1 && rest[i] == LinPush(t, v);
      assert ls[i + 1] == LinPush(t, v);
    }
  }

  lemma LaterReturn(l: Label, rest: seq<Label>, t: Tid, j: nat)
    requires FirstReturn([l] + rest, t, j) && l != RetPush(t)
    ensures j > 0 && FirstReturn(rest, t, j - 1)
    ensures forall i :: 0 <= i < j - 1 ==> ([l] + rest)[i + 1] == rest[i]
  {
    var ls := [l] + rest;
    assert ls[j] == rest[j - 1];
    forall i | 0 <= i < j - 1 ensures rest[i] != RetPush(t) {
      assert ls[i + 1] == rest[i];
    }
  }

  lemma Unfold(s: State, t: Tid, c: Choice, more: Schedule)
    ensures Labels(s, [(t, c)] + more) == [Step(s, t, c).l] + Labels(Step(s, t, c).s, more)
  {
    var all := [(t, c)] + more;
    assert all[0] == (t, c) && all[1..] == more;
  }

  lemma InTimeEnters(s: State, x: Proof, a: Spec, t: Tid, item: Item, node: Addr, was: CountedPtr, c: Choice,
                     more: Schedule, j: nat)
    requires Inv(s, x, a) && PcOf(s, t) == PushData(item, node, was) && was.ptr in s.heap
    requires s.heap[was.ptr].data == None
    requires s.tail.ptr == was.ptr && FirstReturn(Labels(s, [(t, c)] + more), t, j)
    ensures exists i :: 0 <= i < j && Labels(s, [(t, c)] + more)[i] == LinPush(t, item.v)
  {
    assert ThreadOk(s, x, a, t);
    var o := Step(s, t, c);
    assert o == StepPushData(s, t, item, node, was);
    var y := Keeps(s, x, a, t, c);
    var z := Runs(o.s, y, a, more);
    var rest := Labels(o.s, more);
    Unfold(s, t, c, more);
    LaterReturn(o.l, rest, t, j);
    FinishingRun(o.s, more, t, j - 1);
    PendingEnters(a, rest, t, item.v, j - 1);
    var i :| 0 <= i < j - 1 && rest[i] == LinPush(t, item.v);
    assert ([o.l] + rest)[i + 1] == LinPush(t, item.v);
  }

  lemma TooLateIsLost(s: State, x: Proof, a: Spec, t: Tid, item: Item, node: Addr, was: CountedPtr, c: Choice,
                      more: Schedule, j: nat)
    requires Inv(s, x, a) && PcOf(s, t) == PushData(item, node, was) && was.ptr in s.heap
    requires s.heap[was.ptr].data == None
    requires s.tail.ptr != was.ptr && FirstReturn(Labels(s, [(t, c)] + more), t, j)
    ensures forall i :: 0 <= i < j ==> Labels(s, [(t, c)] + more)[i] != LinPush(t, item.v)
  {
    assert ThreadOk(s, x, a, t);
    var o := Step(s, t, c);
    assert o == StepPushData(s, t, item, node, was);
    var y := Keeps(s, x, a, t, c);
    var b := Set(a, t, Dropped);
    var z := Runs(o.s, y, b, more);
    var rest := Labels(o.s, more);
    Unfold(s, t, c, more);
    LaterReturn(o.l, rest, t, j);
    DroppedStays(b, rest, t, j - 1);
    forall i | 0 <= i < j ensures ([o.l] + rest)[i] != LinPush(t, item.v) {
      assert i > 0 ==> ([o.l] + rest)[i] == rest[i - 1];
    }
  }

  /** The queue does not deliver every push: a value is lost if and only if the thread's data CAS
      succeeds on a node that the tail has already left.  In every continuation up to the return of
      the push, the value enters the queue exactly when the node was still the tail. */
  lemma EntersIffAtTail(sched: Schedule, t: Tid, item: Item, node: Addr, was: CountedPtr, c: Choice, more: Schedule,
                        j: nat)
    requires PcOf(Run(INIT, sched), t) == PushData(item, node, was)
    requires was.ptr in Run(INIT, sched).heap && Run(INIT, sched).heap[was.ptr].data == None
    requires FirstReturn(Labels(Run(INIT, sched), [(t, c)] + more), t, j)
    ensures (exists i :: 0 <= i < j && Labels(Run(INIT, sched), [(t, c)] + more)[i] == LinPush(t, item.v))
            <==> Run(INIT, sched).tail.ptr == was.ptr
  {
    var x := FromInit(sched);
    var s, a := Run(INIT, sched), Replay(NEW_QUEUE, Labels(INIT, sched)).value;
    if s.tail.ptr == was.ptr {
      InTimeEnters(s, x, a, t, item, node, was, c, more, j);
    } else {
      TooLateIsLost(s, x, a, t, item, node, was, c, more, j);
    }
  }

  predicate Pushes(pc: Pc) {
    match pc
    case Idle => false
    case PopLoad => false
    case PopCount(_) => false
    case PopTail(_) => false
    case PopNext(_) => false
    case PopCas(_, _) => false
    case PopTake(_) => false
    case PopRet(_) => false
    case FoldLoad(_, after) => after.PushEnd? || after.PushAgain?
    case FoldCas(_, _, after) => after.PushEnd? || after.PushAgain?
    case RelLoad(_, after) => after.PushEnd? || after.PushAgain?
    case RelCas(_, _, after) => after.PushEnd? || after.PushAgain?
    case Reap(_, after) => after.PushEnd? || after.PushAgain?
    case _ => true
  }

  /** Only `t` pushes, and the node it is about to install into is the tail. */
  ghost predicate Alone(s: State, t: Tid) {
    && (forall u: Tid {:trigger PcOf(s, u)} :: u != t ==> !Pushes(PcOf(s, u)))
    && (PcOf(s, t).PushData? ==> PcOf(s, t).was.ptr == s.tail.ptr)
  }

  lemma PopperStaysOut(s: State, u: Tid, c: Choice)
    requires !Pushes(PcOf(s, u)) && !c.Push?
    ensures !Pushes(PcOf(Step(s, u, c).s, u)) && Step(s, u, c).s.tail == s.tail
  {
  }

  lemma PusherStaysAtTail(s: State, t: Tid, c: Choice)
    requires PcOf(s, t).PushData? ==> PcOf(s, t).was.ptr == s.tail.ptr
    ensures var s' := Step(s, t, c).s; PcOf(s', t).PushData? ==> PcOf(s', t).was.ptr == s'.tail.ptr
  {
  }

  lemma AloneStep(s: State, t: Tid, u: Tid, c: Choice)
    requires Alone(s, t) && (c.Push? ==> u == t)
    ensures Alone(Step(s, u, c).s, t) && forall w :: Step(s, u, c).l != Drop(w)
  {
    var o := Step(s, u, c);
    forall w ensures o.l != Drop(w) {
      if o.l == Drop(w) {
        DropsOwn(s, u, c, w);
      }
    }
    if u != t {
      OthersStandStill(s, u, c, t);
    }
    if u == t {
      PusherStaysAtTail(s, t, c);
    } else {
      PopperStaysOut(s, u, c);
    }
    forall w: Tid | w != t ensures !Pushes(PcOf(o.s, w)) {
      if w != u {
        OthersStandStill(s, u, c, w);
      }
    }
  }

  lemma {:induction false} AloneRun(s: State, sched: Schedule, t: Tid)
    requires Alone(s, t) && forall i :: 0 <= i < |sched| && sched[i].1.Push? ==> sched[i].0 == t
    ensures forall i, u :: 0 <= i < |Labels(s, sched)| ==> Labels(s, sched)[i] != Drop(u)
    decreases sched
  {
    LabelsLength(s, sched);
    if sched != [] {
      var o := Step(s, sched[0].0, sched[0].1);
      AloneStep(s, t, sched[0].0, sched[0].1);
      LabelsLength(o.s, sched[1..]);
      AloneRun(o.s, sched[1..], t);
      assert forall i :: 0 < i < |sched| ==> Labels(s, sched)[i] == Labels(o.s, sched[1..])[i - 1];
    }
  }

  lemma {:induction false} LabelsLength(s: State, sched: Schedule)
    ensures |Labels(s, sched)| == |sched|
    decreases sched
  {
    if sched != [] {
      LabelsLength(Step(s, sched[0].0, sched[0].1).s, sched[1..]);
    }
  }

  /** With a single pushing thread, and any number of popping ones, no push is ever lost: each push that
      returns has entered between its call and its return. */
  lemma OnePusherLosesNothing(sched: Schedule, t: Tid)
    requires forall i :: 0 <= i < |sched| && sched[i].1.Push? ==> sched[i].0 == t
    ensures var ls := Labels(INIT, sched);
      && (forall i, u :: 0 <= i < |ls| ==> ls[i] != Drop(u))
      && (forall u: Tid, v: Value, c: nat, j: nat :: Completed(ls, u, v, c, j) ==>
            exists i :: c < i < j && ls[i] == LinPush(u, v))
  {
    LabelsLength(INIT, sched);
    AloneRun(INIT, sched, t);
    Linearizable(sched);
    var ls := Labels(INIT, sched);
    forall u: Tid, v: Value, c: nat, j: nat | Completed(ls, u, v, c, j)
      ensures exists i :: c < i < j && ls[i] == LinPush(u, v)
    {
      CalledPushEnters(NEW_QUEUE, ls, u, v, c, j);
    }
  }
}
