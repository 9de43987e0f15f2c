/** `threadsafe_queue_s` of inc/concurrent/threadsafe_queue.h: a linked queue with a dummy node at the tail
    and two locks. A pop holds the head lock, and the tail lock only to read the tail; a push holds the
    tail lock; a steal holds both and unlinks at the tail.

    Every lock, unlock and access to a shared variable is one step of one thread. A step that touches an
    address that is not allocated, reads a value that is not there or was moved away, or destroys a node
    that still owns another, raises `fault`. */
module StealingQueue {
  import opened Options
  import opened AtomicDeque

  type Addr = nat

  /** The data pointer of a node: null, pointing to a value, or to what a move left behind. */
  datatype Cell = Empty | Full(v: Value) | MovedFrom
  datatype Node = Node(data: Cell, next: Option<Addr>, prev: Addr)

  /** try_pop, wait_and_pop and wait_and_pop_timeout. */
  datatype Kind = Try | Wait | Timed

  datatype Pc =
    | Idle
    | PushLock(n: Addr, v: Value)                       // tail_lock
    | PushData(n: Addr, v: Value)                       // tail->data = new_data
    | PushPrev(n: Addr, v: Value)                       // new_tail->prev = tail
    | PushLink(n: Addr, v: Value)                       // tail->next = p
    | PushTail(n: Addr, v: Value)                       // tail = new_tail
    | PushUnlock
    | PushRet
    | PopLock(k: Kind)                                  // head_lock
    | PopTailLock(k: Kind)                              // get_tail: tail_lock
    | PopTailRead(k: Kind)                              // get_tail: read tail
    | PopTailUnlock(k: Kind, saw: Addr, last: bool)     // get_tail: unlock
    | PopTest(k: Kind, saw: Addr, last: bool)           // head == saw?
    | PopStop(k: Kind, some: bool)                      // bstop?
    | PopTake(k: Kind)                                  // value = move(*head->data)
    | PopMove(k: Kind, v: Value)                        // old_head = move(head)
    | PopAdvance(k: Kind, v: Value, was: Addr)          // head = move(old_head->next)
    | PopFreeIn(v: Value, was: Addr)                    // the timed pop deletes inside the lock
    | PopUnlock(res: Option<Value>, left: Option<Addr>)
    | PopAgain(k: Kind)                                 // unlock and wait
    | PopFree(res: Option<Value>, was: Addr)            // delete old_head
    | PopRet(res: Option<Value>)
    | StealLock                                         // both locks
    | StealTest                                         // head == tail?
    | StealPrev                                         // prev_node = tail->prev
    | StealTake(p: Addr)                                // value = move(*prev_node->data)
    | StealTail(p: Addr, v: Value)                      // tail = prev_node
    | StealCut(p: Addr, v: Value)                       // tail->next = nullptr
    | StealUnlockHead(res: Option<Value>)
    | StealUnlockTail(res: Option<Value>)
    | StealRet(res: Option<Value>)

  datatype State = State(
    heap: map<Addr, Node>, head: Option<Addr>, tail: Addr, headLock: Option<Tid>, tailLock: Option<Tid>,
    stopped: bool, threads: map<Tid, Pc>, fault: bool)

  /** What the environment decides: the call of an idle thread, the address `new` returns, and whether the
      timed pop has run out of time. */
  datatype Choice = Push(v: Value, at: Addr) | Pop(k: Kind) | Steal | Exit | Go(late: bool)

  datatype Outcome = Outcome(s: State, l: Label)

  const FIRST: Addr := 1
  const INIT := State(map[FIRST := Node(Empty, None, 0)], Some(FIRST), FIRST, None, None, false, map[], false)

  function PcOf(s: State, t: Tid): Pc {
    if t in s.threads then s.threads[t] else Idle
  }

  function Goto(s: State, t: Tid, pc: Pc): State {
    s.(threads := s.threads[t := pc])
  }

  function Fault(s: State): Outcome {
    Outcome(s.(fault := true), Tau)
  }

  function SetNode(s: State, p: Addr, n: Node): State {
    s.(heap := s.heap[p := n])
  }

  function Start(s: State, t: Tid, c: Choice): Outcome {
    match c
    case Push(v, n) =>
      if n in s.heap then Outcome(s, Tau)
      else Outcome(Goto(SetNode(s, n, Node(Empty, None, 0)), t, PushLock(n, v)), CallPush(t, v))
    case Pop(k) => Outcome(Goto(s, t, PopLock(k)), CallPop(t))
    case Steal => Outcome(Goto(s, t, StealLock), CallSteal(t))
    case Exit => Outcome(Goto(s, t, Idle).(stopped := true), Stop)
    case Go(_) => Outcome(s, Tau)
  }

  // ---------------------------------------------------------------- push

  function StepPushLock(s: State, t: Tid, n: Addr, v: Value): Outcome {
    if s.tailLock.Some? then Outcome(s, Tau) else Outcome(Goto(s, t, PushData(n, v)).(tailLock := Some(t)), Tau)
  }

  function StepPushData(s: State, t: Tid, n: Addr, v: Value): Outcome {
    if s.tail !in s.heap then Fault(s)
    else Outcome(Goto(SetNode(s, s.tail, s.heap[s.tail].(data := Full(v))), t, PushPrev(n, v)), Tau)
  }

  function StepPushPrev(s: State, t: Tid, n: Addr, v: Value): Outcome {
    if n !in s.heap then Fault(s)
    else Outcome(Goto(SetNode(s, n, s.heap[n].(prev := s.tail)), t, PushLink(n, v)), Tau)
  }

  function StepPushLink(s: State, t: Tid, n: Addr, v: Value): Outcome {
    if s.tail !in s.heap || s.heap[s.tail].next.Some? then Fault(s)
    else Outcome(Goto(SetNode(s, s.tail, s.heap[s.tail].(next := Some(n))), t, PushTail(n, v)), Tau)
  }

  function StepPushTail(s: State, t: Tid, n: Addr, v: Value): Outcome {
    Outcome(Goto(s.(tail := n), t, PushUnlock), LinPush(t, v))
  }

  // ---------------------------------------------------------------- pop

  function StepPopLock(s: State, t: Tid, k: Kind): Outcome {
    if s.headLock.Some? then Outcome(s, Tau) else Outcome(Goto(s, t, PopTailLock(k)).(headLock := Some(t)), Tau)
  }

  function StepPopTailLock(s: State, t: Tid, k: Kind): Outcome {
    if s.tailLock.Some? then Outcome(s, Tau) else Outcome(Goto(s, t, PopTailRead(k)).(tailLock := Some(t)), Tau)
  }

  /** An empty queue is found here: try_pop returns, the timed pop does when it is out of time. */
  function StepPopTailRead(s: State, t: Tid, k: Kind, late: bool): Outcome {
    var last := k.Try? || (k.Timed? && late);
    Outcome(Goto(s, t, PopTailUnlock(k, s.tail, last)), if s.head == Some(s.tail) && last then LinPop(t, None) else Tau)
  }

  function StepPopTest(s: State, t: Tid, k: Kind, saw: Addr, last: bool): Outcome {
    if s.head == Some(saw) then
      if last then Outcome(Goto(s, t, PopUnlock(None, None)), Tau) else Outcome(Goto(s, t, PopStop(k, false)), Tau)
    else if k.Try? then Outcome(Goto(s, t, PopTake(k)), Tau)
    else Outcome(Goto(s, t, PopStop(k, true)), Tau)
  }

  function StepPopStop(s: State, t: Tid, k: Kind, some: bool): Outcome {
    if s.stopped then Outcome(Goto(s, t, PopUnlock(None, None)), GiveUp(t))
    else Outcome(Goto(s, t, if some then PopTake(k) else PopAgain(k)), Tau)
  }

  function StepPopTake(s: State, t: Tid, k: Kind): Outcome {
    if s.head.None? || s.head.value !in s.heap || !s.heap[s.head.value].data.Full? then Fault(s)
    else
      var p, v := s.head.value, s.heap[s.head.value].data.v;
      Outcome(Goto(SetNode(s, p, s.heap[p].(data := MovedFrom)), t, PopMove(k, v)), LinPop(t, Some(v)))
  }

  function StepPopMove(s: State, t: Tid, k: Kind, v: Value): Outcome {
    if s.head.None? then Fault(s)
    else Outcome(Goto(s.(head := None), t, PopAdvance(k, v, s.head.value)), Tau)
  }

  function StepPopAdvance(s: State, t: Tid, k: Kind, v: Value, was: Addr): Outcome {
    if was !in s.heap then Fault(s)
    else
      var s' := SetNode(s, was, s.heap[was].(next := None)).(head := s.heap[was].next);
      Outcome(Goto(s', t, if k.Timed? then PopFreeIn(v, was) else PopUnlock(Some(v), Some(was))), Tau)
  }

  /** delete of a node destroys what the node owns. */
  function StepDelete(s: State, t: Tid, p: Addr, next: Pc): Outcome {
    if p !in s.heap || s.heap[p].next.Some? then Fault(s) else Outcome(Goto(s.(heap := s.heap - {p}), t, next), Tau)
  }

  // ---------------------------------------------------------------- steal

  function StepStealLock(s: State, t: Tid): Outcome {
    if s.headLock.Some? || s.tailLock.Some? then Outcome(s, Tau)
    else Outcome(Goto(s, t, StealTest).(headLock := Some(t), tailLock := Some(t)), Tau)
  }

  function StepStealTest(s: State, t: Tid): Outcome {
    if s.head == Some(s.tail) then Outcome(Goto(s, t, StealUnlockHead(None)), LinSteal(t, None))
    else Outcome(Goto(s, t, StealPrev), Tau)
  }

  function StepStealPrev(s: State, t: Tid): Outcome {
    if s.tail !in s.heap then Fault(s) else Outcome(Goto(s, t, StealTake(s.heap[s.tail].prev)), Tau)
  }

  function StepStealTake(s: State, t: Tid, p: Addr): Outcome {
    if p !in s.heap || !s.heap[p].data.Full? then Fault(s)
    else
      var v := s.heap[p].data.v;
      Outcome(Goto(SetNode(s, p, s.heap[p].(data := MovedFrom)), t, StealTail(p, v)), LinSteal(t, Some(v)))
  }

  /** tail->next = nullptr deletes the node behind the new tail. */
  function StepStealCut(s: State, t: Tid, v: Value): Outcome {
    if s.tail !in s.heap then Fault(s)
    else
      var n := s.heap[s.tail];
      var cut := SetNode(s, s.tail, n.(next := None));
      if n.next.None? then Outcome(Goto(cut, t, StealUnlockHead(Some(v))), Tau)
      else StepDelete(cut, t, n.next.value, StealUnlockHead(Some(v)))
  }

  function Step(s: State, t: Tid, c: Choice): Outcome {
    match PcOf(s, t)
    case Idle => Start(s, t, c)
    case PushLock(n, v) => StepPushLock(s, t, n, v)
    case PushData(n, v) => StepPushData(s, t, n, v)
    case PushPrev(n, v) => StepPushPrev(s, t, n, v)
    case PushLink(n, v) => StepPushLink(s, t, n, v)
    case PushTail(n, v) => StepPushTail(s, t, n, v)
    case PushUnlock => Outcome(Goto(s, t, PushRet).(tailLock := None), Tau)
    case PushRet => Outcome(Goto(s, t, Idle), RetPush(t))
    case PopLock(k) => StepPopLock(s, t, k)
    case PopTailLock(k) => StepPopTailLock(s, t, k)
    case PopTailRead(k) => StepPopTailRead(s, t, k, c.Go? && c.late)
    case PopTailUnlock(k, saw, last) => Outcome(Goto(s, t, PopTest(k, saw, last)).(tailLock := None), Tau)
    case PopTest(k, saw, last) => StepPopTest(s, t, k, saw, last)
    case PopStop(k, some) => StepPopStop(s, t, k, some)
    case PopTake(k) => StepPopTake(s, t, k)
    case PopMove(k, v) => StepPopMove(s, t, k, v)
    case PopAdvance(k, v, was) => StepPopAdvance(s, t, k, v, was)
    case PopFreeIn(v, was) => StepDelete(s, t, was, PopUnlock(Some(v), None))
    case PopUnlock(res, left) =>
      Outcome(Goto(s, t, if left.Some? then PopFree(res, left.value) else PopRet(res)).(headLock := None), Tau)
    case PopAgain(k) => Outcome(Goto(s, t, PopLock(k)).(headLock := None), Tau)
    case PopFree(res, was) => StepDelete(s, t, was, PopRet(res))
    case PopRet(res) => Outcome(Goto(s, t, Idle), RetPop(t, res))
    case StealLock => StepStealLock(s, t)
    case StealTest => StepStealTest(s, t)
    case StealPrev => StepStealPrev(s, t)
    case StealTake(p) => StepStealTake(s, t, p)
    case StealTail(p, v) => Outcome(Goto(s.(tail := p), t, StealCut(p, v)), Tau)
    case StealCut(_, v) => StepStealCut(s, t, v)
    case StealUnlockHead(res) => Outcome(Goto(s, t, StealUnlockTail(res)).(headLock := None), Tau)
    case StealUnlockTail(res) => Outcome(Goto(s, t, StealRet(res)).(tailLock := None), Tau)
    case StealRet(res) => Outcome(Goto(s, t, Idle), RetSteal(t, res))
  }

  type Schedule = seq<(Tid, Choice)>

  function Run(s: State, sched: Schedule): State
    decreases sched
  {
    if sched == [] then s else Run(Step(s, sched[0].0, sched[0].1).s, sched[1..])
  }

  function Labels(s: State, sched: Schedule): seq<Label>
    decreases sched
  {
    if sched == [] then []
    else
      var o := Step(s, sched[0].0, sched[0].1);
      [o.l] + Labels(o.s, sched[1..])
  }

  // ---------------------------------------------------------------- the invariant

  predicate HasHead(pc: Pc) {
    match pc
    case PopTailLock(_) => true
    case PopTailRead(_) => true
    case PopTailUnlock(_, _, _) => true
    case PopTest(_, _, _) => true
    case PopStop(_, _) => true
    case PopTake(_) => true
    case PopMove(_, _) => true
    case PopAdvance(_, _, _) => true
    case PopFreeIn(_, _) => true
    case PopUnlock(_, _) => true
    case PopAgain(_) => true
    case StealTest => true
    case StealPrev => true
    case StealTake(_) => true
    case StealTail(_, _) => true
    case StealCut(_, _) => true
    case StealUnlockHead(_) => true
    case _ => false
  }

  predicate HasTail(pc: Pc) {
    match pc
    case PushData(_, _) => true
    case PushPrev(_, _) => true
    case PushLink(_, _) => true
    case PushTail(_, _) => true
    case PushUnlock => true
    case PopTailRead(_) => true
    case PopTailUnlock(_, _, _) => true
    case StealTest => true
    case StealPrev => true
    case StealTake(_) => true
    case StealTail(_, _) => true
    case StealCut(_, _) => true
    case StealUnlockHead(_) => true
    case StealUnlockTail(_) => true
    case _ => false
  }

  /** A node is linked into the queue, or one thread has it: a pusher not yet done linking it, or a popper
      or thief that has unlinked it. */
  datatype Role = Linked | Own(t: Tid)

  datatype Proof = Proof(chain: seq<Addr>, role: map<Addr, Role>)

  ghost predicate NoDup(c: seq<Addr>) {
    forall i, j :: 0 <= i < j < |c| ==> c[i] != c[j]
  }

  /** Item i of the queue: its node holds the value and points to the next, which points back. */
  predicate ItemAt(s: State, chain: seq<Addr>, items: seq<Item>, i: nat)
    requires i < |items| && |chain| == |items| + 1
  {
    && chain[i] in s.heap && chain[i + 1] in s.heap
    && s.heap[chain[i]].data == Full(items[i].v)
    && s.heap[chain[i]].next == Some(chain[i + 1])
    && s.heap[chain[i + 1]].prev == chain[i]
  }

  ghost predicate ChainOk(s: State, x: Proof, a: Spec) {
    && |x.chain| == |a.items| + 1 && NoDup(x.chain)
    && x.role.Keys == s.heap.Keys
    && (forall p :: p in x.chain ==> p in x.role && x.role[p] == Linked)
    && (forall p :: p in x.role && x.role[p] == Linked ==> p in x.chain)
    && (forall i {:trigger ItemAt(s, x.chain, a.items, i)} :: 0 <= i < |a.items| ==> ItemAt(s, x.chain, a.items, i))
    && s.stopped == a.stopped
  }

  function First(x: Proof): Addr
    requires x.chain != []
  {
    x.chain[0]
  }

  function Last(x: Proof): Addr
    requires x.chain != []
  {
    x.chain[|x.chain| - 1]
  }

  predicate HeadMoving(pc: Pc) {
    pc.PopMove? || pc.PopAdvance?
  }

  predicate TailMoving(pc: Pc) {
    pc.PushTail? || pc.StealTail? || pc.StealCut?
  }

  /** Both ends are where they should be, except in the hands of the thread that is moving them. */
  predicate EndsOk(s: State, x: Proof)
    requires x.chain != []
  {
    && ((s.headLock.Some? && HeadMoving(PcOf(s, s.headLock.value))) || s.head == Some(First(x)))
    && ((s.tailLock.Some? && TailMoving(PcOf(s, s.tailLock.value)))
        || (s.tail == Last(x) && Last(x) in s.heap && s.heap[Last(x)].next == None))
  }

  /** Thread t has node p, which owns `next`. */
  predicate Mine(s: State, x: Proof, t: Tid, p: Addr, next: Option<Addr>) {
    p in s.heap && p in x.role && x.role[p] == Own(t) && s.heap[p].next == next
  }

  /** What a pop in its lock knows about the tail that it has read: the queue was empty, or it is not
      empty now. */
  predicate Seen(s: State, x: Proof, a: Spec, t: Tid, saw: Addr, last: bool) {
    s.head.Some? &&
    if s.head.value == saw then (if last then OpOf(a, t) == Popped(None) else OpOf(a, t) == Popping)
    else OpOf(a, t) == Popping && a.items != []
  }

  predicate PcOk(s: State, x: Proof, a: Spec, t: Tid)
    requires x.chain != []
  {
    match PcOf(s, t)
    case Idle => OpOf(a, t) == Free
    case PushLock(n, v) => Mine(s, x, t, n, None) && OpOf(a, t) == Pushing(v)
    case PushData(n, v) => Mine(s, x, t, n, None) && OpOf(a, t) == Pushing(v)
    case PushPrev(n, v) => Mine(s, x, t, n, None) && OpOf(a, t) == Pushing(v)
                           && Last(x) in s.heap && s.heap[Last(x)].data == Full(v)
    case PushLink(n, v) => Mine(s, x, t, n, None) && OpOf(a, t) == Pushing(v) && s.heap[n].prev == Last(x)
                           && Last(x) in s.heap && s.heap[Last(x)].data == Full(v)
    case PushTail(n, v) => Mine(s, x, t, n, None) && OpOf(a, t) == Pushing(v) && s.heap[n].prev == Last(x)
                           && Last(x) in s.heap && s.heap[Last(x)].data == Full(v) && s.heap[Last(x)].next == Some(n)
    case PushUnlock => OpOf(a, t) == Pushed
    case PushRet => OpOf(a, t) == Pushed
    case PopLock(_) => OpOf(a, t) == Popping
    case PopTailLock(_) => OpOf(a, t) == Popping
    case PopTailRead(_) => OpOf(a, t) == Popping
    case PopTailUnlock(k, saw, last) => Seen(s, x, a, t, saw, last) && (k.Try? ==> last)
    case PopTest(k, saw, last) => Seen(s, x, a, t, saw, last) && (k.Try? ==> last)
    case PopStop(_, some) => OpOf(a, t) == Popping && (some ==> a.items != [])
    case PopTake(_) => OpOf(a, t) == Popping && a.items != []
    case PopMove(_, v) => OpOf(a, t) == Popped(Some(v)) && s.head.Some? && Mine(s, x, t, s.head.value, Some(First(x)))
    case PopAdvance(_, v, was) => OpOf(a, t) == Popped(Some(v)) && s.head == None && Mine(s, x, t, was, Some(First(x)))
    case PopFreeIn(v, was) => OpOf(a, t) == Popped(Some(v)) && Mine(s, x, t, was, None)
    case PopUnlock(res, left) => OpOf(a, t) == Popped(res) && (left.Some? ==> Mine(s, x, t, left.value, None))
    case PopAgain(_) => OpOf(a, t) == Popping
    case PopFree(res, was) => OpOf(a, t) == Popped(res) && Mine(s, x, t, was, None)
    case PopRet(res) => OpOf(a, t) == Popped(res)
    case StealLock => OpOf(a, t) == Stealing
    case StealTest => OpOf(a, t) == Stealing
    case StealPrev => OpOf(a, t) == Stealing && a.items != []
    case StealTake(p) => OpOf(a, t) == Stealing && a.items != [] && |x.chain| >= 2 && p == x.chain[|x.chain| - 2]
    case StealTail(p, v) => OpOf(a, t) == Stolen(Some(v)) && p == Last(x) && Mine(s, x, t, s.tail, None)
                            && p in s.heap && s.heap[p].next == Some(s.tail)
    case StealCut(p, v) => OpOf(a, t) == Stolen(Some(v)) && p == Last(x) == s.tail
                           && p in s.heap && s.heap[p].next.Some? && Mine(s, x, t, s.heap[p].next.value, None)
    case StealUnlockHead(res) => OpOf(a, t) == Stolen(res)
    case StealUnlockTail(res) => OpOf(a, t) == Stolen(res)
    case StealRet(res) => OpOf(a, t) == Stolen(res)
  }

  predicate ThreadOk(s: State, x: Proof, a: Spec, t: Tid)
    requires x.chain != []
  {
    && (HasHead(PcOf(s, t)) <==> s.headLock == Some(t))
    && (HasTail(PcOf(s, t)) <==> s.tailLock == Some(t))
    && PcOk(s, x, a, t)
  }

  /** The node that a thread has on its hands. */
  predicate Has(s: State, pc: Pc, p: Addr) {
    match pc
    case PushLock(n, _) => n == p
    case PushData(n, _) => n == p
    case PushPrev(n, _) => n == p
    case PushLink(n, _) => n == p
    case PushTail(n, _) => n == p
    case PopMove(_, _) => s.head == Some(p)
    case PopAdvance(_, _, was) => was == p
    case PopFreeIn(_, was) => was == p
    case PopUnlock(_, left) => left == Some(p)
    case PopFree(_, was) => was == p
    case StealTail(_, _) => s.tail == p
    case StealCut(q, _) => q in s.heap && s.heap[q].next == Some(p)
    case _ => false
  }

  ghost predicate NoneLost(s: State, x: Proof) {
    forall p :: p in x.role && x.role[p].Own? ==> Has(s, PcOf(s, x.role[p].t), p)
  }

  ghost predicate Inv(s: State, x: Proof, a: Spec) {
    && !s.fault && NoneLost(s, x)
    && ChainOk(s, x, a) && EndsOk(s, x)
    && (forall t: Tid {:trigger ThreadOk(s, x, a, t)} :: ThreadOk(s, x, a, t))
  }

  // ---------------------------------------------------------------- every step keeps it

  ghost predicate Simulates(o: Outcome, x: Proof, a: Spec) {
    Next(a, o.l).Some? && Inv(o.s, x, Next(a, o.l).value)
  }

  /** Nothing that matters to thread u has changed. */
  ghost predicate Leaves(s: State, x: Proof, a: Spec, s': State, x': Proof, a': Spec, u: Tid)
    requires x.chain != [] && x'.chain != []
  {
    && PcOf(s', u) == PcOf(s, u) && OpOf(a', u) == OpOf(a, u)
    && (s'.headLock == Some(u) <==> s.headLock == Some(u)) && (s'.tailLock == Some(u) <==> s.tailLock == Some(u))
    && (forall p :: p in x.role && x.role[p] == Own(u) ==>
          p in x'.role && x'.role[p] == Own(u) && p in s.heap && p in s'.heap && s'.heap[p] == s.heap[p])
    && (HasHead(PcOf(s, u)) ==> s'.head == s.head && First(x') == First(x) && (a.items != [] ==> a'.items != []))
    && (HasTail(PcOf(s, u)) ==>
          && s'.tail == s.tail && Last(x') == Last(x)
          && (Last(x) in s.heap ==> Last(x) in s'.heap && s'.heap[Last(x)] == s.heap[Last(x)]))
    && (HasHead(PcOf(s, u)) && HasTail(PcOf(s, u)) ==> x'.chain == x.chain && a'.items == a.items)
  }

  lemma LeftAlone(s: State, x: Proof, a: Spec, s': State, x': Proof, a': Spec, u: Tid)
    requires x.chain != [] && x'.chain != []
    requires ThreadOk(s, x, a, u) && Leaves(s, x, a, s', x', a', u)
    ensures ThreadOk(s', x', a', u)
  {
  }

  predicate LockMoves(l: Option<Tid>, l': Option<Tid>, t: Tid) {
    l' == l || ((l == None || l == Some(t)) && (l' == None || l' == Some(t)))
  }

  /** A step of t: what the locks it does not hold protect stays. */
  ghost predicate Quiet(s: State, x: Proof, a: Spec, s': State, x': Proof, a': Spec, t: Tid)
    requires x.chain != [] && x'.chain != []
  {
    && s'.threads == s.threads[t := PcOf(s', t)] && (forall u :: u != t ==> OpOf(a', u) == OpOf(a, u))
    && LockMoves(s.headLock, s'.headLock, t) && LockMoves(s.tailLock, s'.tailLock, t)
    && (forall p :: p in x.role && x.role[p].Own? && x.role[p].t != t ==>
          p in x'.role && x'.role[p] == x.role[p] && p in s.heap && p in s'.heap && s'.heap[p] == s.heap[p])
    && (forall p :: p in x'.role && x'.role[p].Own? && x'.role[p].t != t ==> p in x.role && x.role[p] == x'.role[p])
    && (!HasHead(PcOf(s, t)) ==> s'.head == s.head && First(x') == First(x) && (a.items != [] ==> a'.items != []))
    && (!HasTail(PcOf(s, t)) ==>
          && s'.tail == s.tail && Last(x') == Last(x)
          && (Last(x) in s.heap ==> Last(x) in s'.heap && s'.heap[Last(x)] == s.heap[Last(x)]))
    && (!HasHead(PcOf(s, t)) && !HasTail(PcOf(s, t)) ==> x'.chain == x.chain && a'.items == a.items)
  }

  lemma QuietLeaves(s: State, x: Proof, a: Spec, s': State, x': Proof, a': Spec, t: Tid, u: Tid)
    requires Inv(s, x, a) && x'.chain != [] && Quiet(s, x, a, s', x', a', t) && u != t
    ensures Leaves(s, x, a, s', x', a', u)
  {
    assert ThreadOk(s, x, a, t) && ThreadOk(s, x, a, u);
  }

  /** The ends of the queue and the thread that has moved are in order. */
  ghost predicate Settled(s: State, x: Proof, a: Spec, t: Tid)
    requires x.chain != []
  {
    && !s.fault && EndsOk(s, x) && ThreadOk(s, x, a, t)
    && forall p :: p in x.role && x.role[p] == Own(t) ==> Has(s, PcOf(s, t), p)
  }

  lemma Frame(s: State, x: Proof, a: Spec, s': State, x': Proof, a': Spec, t: Tid)
    requires Inv(s, x, a) && ChainOk(s', x', a') && Quiet(s, x, a, s', x', a', t) && Settled(s', x', a', t)
    ensures Inv(s', x', a')
  {
    forall p | p in x'.role && x'.role[p].Own? && x'.role[p].t != t ensures Has(s', PcOf(s', x'.role[p].t), p) {
      assert ThreadOk(s, x, a, x'.role[p].t);
      QuietLeaves(s, x, a, s', x', a', t, x'.role[p].t);
    }
    forall u: Tid ensures ThreadOk(s', x', a', u) {
      if u != t {
        assert ThreadOk(s, x, a, u);
        QuietLeaves(s, x, a, s', x', a', t, u);
        LeftAlone(s, x, a, s', x', a', u);
      }
    }
  }

  predicate SameItem(s: State, s': State, chain: seq<Addr>, i: nat)
    requires i + 1 < |chain|
  {
    var p, q := chain[i], chain[i + 1];
    p in s.heap && p in s'.heap && q in s.heap && q in s'.heap ==>
      s'.heap[p].data == s.heap[p].data && s'.heap[p].next == s.heap[p].next && s'.heap[q].prev == s.heap[q].prev
  }

  /** The chain survives a step that leaves the data and links of its items, and gives or takes no node. */
  lemma SameChain(s: State, x: Proof, a: Spec, s': State, a': Spec)
    requires ChainOk(s, x, a) && s'.heap.Keys == s.heap.Keys && a'.items == a.items && s'.stopped == a'.stopped
    requires forall i {:trigger SameItem(s, s', x.chain, i)} :: 0 <= i < |a.items| ==> SameItem(s, s', x.chain, i)
    ensures ChainOk(s', x, a')
  {
    forall i | 0 <= i < |a.items| ensures ItemAt(s', x.chain, a'.items, i) {
      assert ItemAt(s, x.chain, a.items, i) && SameItem(s, s', x.chain, i);
    }
  }

  predicate LocalStep(s: State, s': State, t: Tid) {
    && s'.threads == s.threads[t := PcOf(s', t)]
    && LockMoves(s.headLock, s'.headLock, t) && LockMoves(s.tailLock, s'.tailLock, t)
    && (HasHead(PcOf(s, t)) || s'.head == s.head) && (HasTail(PcOf(s, t)) || s'.tail == s.tail)
  }

  /** Steps that change no node. */
  lemma KeepsLocal(s: State, x: Proof, a: Spec, t: Tid, o: Outcome)
    requires Inv(s, x, a) && o.s.heap == s.heap && o.s.fault == s.fault && Next(a, o.l).Some?
    requires Next(a, o.l).value.items == a.items && o.s.stopped == Next(a, o.l).value.stopped
    requires LocalStep(s, o.s, t)
    requires var ops := Next(a, o.l).value.ops; ops == a.ops || ops == a.ops[t := OpOf(Next(a, o.l).value, t)]
    requires Settled(o.s, x, Next(a, o.l).value, t)
    ensures Simulates(o, x, a)
  {
    SameChain(s, x, a, o.s, Next(a, o.l).value);
    Frame(s, x, a, o.s, x, Next(a, o.l).value, t);
  }

  lemma SettledNew(s: State, x: Proof, a: Spec, t: Tid, v: Value, n: Addr)
    requires !s.fault && x.chain != [] && EndsOk(s, x) && NoneLost(s, x) && ThreadOk(s, x, a, t)
    requires PcOf(s, t) == Idle && n !in s.heap && n != Last(x)
    ensures Settled(Start(s, t, Push(v, n)).s, x.(role := x.role[n := Own(t)]), Set(a, t, Pushing(v)), t)
  {
  }

  lemma ChainNew(s: State, x: Proof, a: Spec, s': State, a': Spec, n: Addr, t: Tid)
    requires ChainOk(s, x, a) && n !in s.heap && s'.heap == s.heap[n := Node(Empty, None, 0)] && a'.items == a.items
    requires s'.stopped == s.stopped && a'.stopped == a.stopped
    ensures ChainOk(s', x.(role := x.role[n := Own(t)]), a')
  {
    forall i | 0 <= i < |a.items| ensures ItemAt(s', x.chain, a'.items, i) {
      assert ItemAt(s, x.chain, a.items, i);
    }
  }

  lemma QuietNew(s: State, x: Proof, a: Spec, t: Tid, v: Value, n: Addr)
    requires Inv(s, x, a) && PcOf(s, t) == Idle && n !in s.heap && Last(x) in s.heap
    ensures Quiet(s, x, a, Start(s, t, Push(v, n)).s, x.(role := x.role[n := Own(t)]), Set(a, t, Pushing(v)), t)
  {
  }

  lemma KeepsNew(s: State, x: Proof, a: Spec, t: Tid, v: Value, n: Addr) returns (x': Proof)
    requires Inv(s, x, a) && PcOf(s, t) == Idle && n !in s.heap
    ensures Simulates(Start(s, t, Push(v, n)), x', a)
  {
    assert ThreadOk(s, x, a, t);
    var o := Start(s, t, Push(v, n));
    x' := x.(role := x.role[n := Own(t)]);
    assert Last(x) in x.chain;
    ChainNew(s, x, a, o.s, Set(a, t, Pushing(v)), n, t);
    QuietNew(s, x, a, t, v, n);
    SettledNew(s, x, a, t, v, n);
    Frame(s, x, a, o.s, x', Set(a, t, Pushing(v)), t);
  }

  lemma KeepsCall(s: State, x: Proof, a: Spec, t: Tid, c: Choice)
    requires Inv(s, x, a) && PcOf(s, t) == Idle && (c.Pop? || c.Steal?)
    ensures Simulates(Start(s, t, c), x, a)
  {
    assert ThreadOk(s, x, a, t);
    KeepsLocal(s, x, a, t, Start(s, t, c));
  }

  lemma KeepsExit(s: State, x: Proof, a: Spec, t: Tid)
    requires Inv(s, x, a) && PcOf(s, t) == Idle
    ensures Simulates(Start(s, t, Exit), x, a)
  {
    assert ThreadOk(s, x, a, t);
    KeepsLocal(s, x, a, t, Start(s, t, Exit));
  }

  lemma KeepsStart(s: State, x: Proof, a: Spec, t: Tid, c: Choice) returns (x': Proof)
    requires Inv(s, x, a) && PcOf(s, t) == Idle
    ensures Simulates(Start(s, t, c), x', a)
  {
    assert ThreadOk(s, x, a, t);
    x' := x;
    match c {
      case Push(v, n) =>
        if n !in s.heap {
          x' := KeepsNew(s, x, a, t, v, n);
        }
      case Pop(_) => KeepsCall(s, x, a, t, c);
      case Steal => KeepsCall(s, x, a, t, c);
      case Exit => KeepsExit(s, x, a, t);
      case Go(_) =>
    }
  }

  // ---------------------------------------------------------------- push

  lemma LastIsNoItem(x: Proof, a: Spec)
    requires |x.chain| == |a.items| + 1 && NoDup(x.chain)
    ensures forall i :: 0 <= i < |a.items| ==> x.chain[i] != Last(x)
  {
  }

  /** A step that leaves the nodes and roles alone but for the node given. */
  lemma KeepsNode(s: State, x: Proof, a: Spec, t: Tid, o: Outcome, p: Addr, n: Node)
    requires Inv(s, x, a) && p in s.heap && o.s.heap == s.heap[p := n] && o.s.fault == s.fault
    requires o.s.stopped == s.stopped && o.l == Tau
    requires forall i {:trigger SameItem(s, o.s, x.chain, i)} :: 0 <= i < |a.items| ==> SameItem(s, o.s, x.chain, i)
    requires Quiet(s, x, a, o.s, x, a, t) && EndsOk(o.s, x) && ThreadOk(o.s, x, a, t)
    requires forall q :: q in x.role && x.role[q] == Own(t) ==> Has(o.s, PcOf(o.s, t), q)
    ensures Simulates(o, x, a)
  {
    SameChain(s, x, a, o.s, a);
    Frame(s, x, a, o.s, x, a, t);
  }

  lemma KeepsPushData(s: State, x: Proof, a: Spec, t: Tid, n: Addr, v: Value)
    requires Inv(s, x, a) && PcOf(s, t) == PushData(n, v)
    ensures Simulates(StepPushData(s, t, n, v), x, a)
  {
    assert ThreadOk(s, x, a, t);
    LastIsNoItem(x, a);
    assert Last(x) in x.chain;
    KeepsNode(s, x, a, t, StepPushData(s, t, n, v), s.tail, s.heap[s.tail].(data := Full(v)));
  }

  lemma KeepsPushPrev(s: State, x: Proof, a: Spec, t: Tid, n: Addr, v: Value)
    requires Inv(s, x, a) && PcOf(s, t) == PushPrev(n, v)
    ensures Simulates(StepPushPrev(s, t, n, v), x, a)
  {
    assert ThreadOk(s, x, a, t);
    assert Last(x) in x.chain;
    assert n !in x.chain;
    forall i | 0 <= i < |a.items| ensures SameItem(s, StepPushPrev(s, t, n, v).s, x.chain, i) {
      assert x.chain[i] in x.chain && x.chain[i + 1] in x.chain;
    }
    KeepsNode(s, x, a, t, StepPushPrev(s, t, n, v), n, s.heap[n].(prev := s.tail));
  }

  lemma KeepsPushLink(s: State, x: Proof, a: Spec, t: Tid, n: Addr, v: Value)
    requires Inv(s, x, a) && PcOf(s, t) == PushLink(n, v)
    ensures Simulates(StepPushLink(s, t, n, v), x, a)
  {
    assert ThreadOk(s, x, a, t);
    LastIsNoItem(x, a);
    assert Last(x) in x.chain;
    KeepsNode(s, x, a, t, StepPushLink(s, t, n, v), s.tail, s.heap[s.tail].(next := Some(n)));
  }

  /** The new tail makes the old dummy an item. */
  lemma ChainPush(s: State, x: Proof, a: Spec, s': State, a': Spec, t: Tid, n: Addr, v: Value)
    requires ChainOk(s, x, a) && PcOf(s, t) == PushTail(n, v) && PcOk(s, x, a, t)
    requires s' == StepPushTail(s, t, n, v).s && Next(a, LinPush(t, v)) == Some(a')
    ensures ChainOk(s', Proof(x.chain + [n], x.role[n := Linked]), a')
  {
    var chain := x.chain + [n];
    assert n !in x.chain && Last(x) in x.chain;
    forall i | 0 <= i < |a'.items| ensures ItemAt(s', chain, a'.items, i) {
      if i < |a.items| {
        assert ItemAt(s, x.chain, a.items, i);
      }
    }
  }

  lemma SettledPushTail(s: State, x: Proof, a: Spec, t: Tid, n: Addr, v: Value, x': Proof)
    requires !s.fault && x.chain != [] && EndsOk(s, x) && NoneLost(s, x) && ThreadOk(s, x, a, t)
    requires PcOf(s, t) == PushTail(n, v) && x' == Proof(x.chain + [n], x.role[n := Linked]) && n != Last(x)
    ensures var o := StepPushTail(s, t, n, v); Next(a, o.l).Some? && Settled(o.s, x', Next(a, o.l).value, t)
  {
  }

  lemma KeepsPushTail(s: State, x: Proof, a: Spec, t: Tid, n: Addr, v: Value) returns (x': Proof)
    requires Inv(s, x, a) && PcOf(s, t) == PushTail(n, v)
    ensures Simulates(StepPushTail(s, t, n, v), x', a)
  {
    assert ThreadOk(s, x, a, t);
    var o := StepPushTail(s, t, n, v);
    x' := Proof(x.chain + [n], x.role[n := Linked]);
    assert n !in x.chain && Last(x) in x.chain;
    SettledPushTail(s, x, a, t, n, v, x');
    ChainPush(s, x, a, o.s, Next(a, o.l).value, t, n, v);
    hide ChainOk;
    Frame(s, x, a, o.s, x', Next(a, o.l).value, t);
  }

  // ---------------------------------------------------------------- pop

  lemma ChainPop(s: State, x: Proof, a: Spec, o: Outcome, t: Tid)
    requires ChainOk(s, x, a) && a.items != [] && o.l == LinPop(t, Some(a.items[0].v)) && OpOf(a, t) == Popping
    requires First(x) in s.heap && o.s.heap == s.heap[First(x) := s.heap[First(x)].(data := MovedFrom)]
    requires o.s.stopped == s.stopped
    ensures ChainOk(o.s, Proof(x.chain[1..], x.role[First(x) := Own(t)]), Next(a, o.l).value)
  {
    var chain, a' := x.chain[1..], Next(a, o.l).value;
    forall i | 0 <= i < |a'.items| ensures ItemAt(o.s, chain, a'.items, i) {
      assert ItemAt(s, x.chain, a.items, i + 1);
    }
    assert First(x) in x.chain;
    assert x.chain == [First(x)] + chain;
  }

  lemma QuietPopTake(s: State, x: Proof, a: Spec, t: Tid, k: Kind, x': Proof)
    requires ChainOk(s, x, a) && PcOf(s, t) == PopTake(k) && a.items != [] && OpOf(a, t) == Popping
    requires s.head == Some(First(x))
    requires First(x) in s.heap && s.heap[First(x)].data == Full(a.items[0].v)
    requires x' == Proof(x.chain[1..], x.role[First(x) := Own(t)])
    ensures var o := StepPopTake(s, t, k); Next(a, o.l).Some? && Quiet(s, x, a, o.s, x', Next(a, o.l).value, t)
  {
    assert First(x) in x.chain;
  }

  lemma SettledPopTake(s: State, x: Proof, a: Spec, t: Tid, k: Kind, x': Proof)
    requires !s.fault && x.chain != [] && EndsOk(s, x) && NoneLost(s, x) && ThreadOk(s, x, a, t)
    requires PcOf(s, t) == PopTake(k) && a.items != [] && |x.chain| == |a.items| + 1 && ItemAt(s, x.chain, a.items, 0)
    requires x' == Proof(x.chain[1..], x.role[First(x) := Own(t)]) && First(x) != Last(x)
    ensures var o := StepPopTake(s, t, k); Next(a, o.l).Some? && Settled(o.s, x', Next(a, o.l).value, t)
  {
  }

  /** The front value leaves, and its node is the popper's. */
  lemma KeepsPopTake(s: State, x: Proof, a: Spec, t: Tid, k: Kind) returns (x': Proof)
    requires Inv(s, x, a) && PcOf(s, t) == PopTake(k)
    ensures Simulates(StepPopTake(s, t, k), x', a)
  {
    assert ThreadOk(s, x, a, t);
    assert ItemAt(s, x.chain, a.items, 0);
    var o := StepPopTake(s, t, k);
    x' := Proof(x.chain[1..], x.role[First(x) := Own(t)]);
    ChainPop(s, x, a, o, t);
    QuietPopTake(s, x, a, t, k, x');
    LastIsNoItem(x, a);
    SettledPopTake(s, x, a, t, k, x');
    Frame(s, x, a, o.s, x', Next(a, o.l).value, t);
  }

  lemma SettledPopAdvance(s: State, x: Proof, a: Spec, t: Tid, k: Kind, v: Value, was: Addr)
    requires !s.fault && x.chain != [] && EndsOk(s, x) && NoneLost(s, x) && ThreadOk(s, x, a, t)
    requires PcOf(s, t) == PopAdvance(k, v, was) && was != Last(x)
    ensures Settled(StepPopAdvance(s, t, k, v, was).s, x, a, t)
  {
  }

  lemma KeepsPopAdvance(s: State, x: Proof, a: Spec, t: Tid, k: Kind, v: Value, was: Addr)
    requires Inv(s, x, a) && PcOf(s, t) == PopAdvance(k, v, was)
    ensures Simulates(StepPopAdvance(s, t, k, v, was), x, a)
  {
    assert ThreadOk(s, x, a, t);
    assert was !in x.chain && Last(x) in x.chain && First(x) in x.chain;
    SettledPopAdvance(s, x, a, t, k, v, was);
    KeepsNode(s, x, a, t, StepPopAdvance(s, t, k, v, was), was, s.heap[was].(next := None));
  }

  /** Deleting a node that is not linked leaves the chain. */
  lemma ChainDelete(s: State, x: Proof, a: Spec, s': State, q: Addr)
    requires ChainOk(s, x, a) && q in x.role && x.role[q] != Linked && s'.stopped == s.stopped
    requires s'.heap.Keys == s.heap.Keys - {q}
    requires forall p :: p in s'.heap && p != Last(x) ==> s'.heap[p] == s.heap[p]
    requires Last(x) in s'.heap && s'.heap[Last(x)].prev == s.heap[Last(x)].prev
    ensures ChainOk(s', x.(role := x.role - {q}), a)
  {
    LastIsNoItem(x, a);
    forall i | 0 <= i < |a.items| ensures ItemAt(s', x.chain, a.items, i) {
      assert ItemAt(s, x.chain, a.items, i);
      assert x.chain[i] in x.chain && x.chain[i + 1] in x.chain;
    }
  }

  lemma QuietDelete(s: State, x: Proof, a: Spec, t: Tid, p: Addr, next: Pc)
    requires ChainOk(s, x, a) && Mine(s, x, t, p, None)
    ensures Quiet(s, x, a, StepDelete(s, t, p, next).s, x.(role := x.role - {p}), a, t)
  {
    assert Last(x) in x.chain && p !in x.chain;
  }

  predicate Deletes(pc: Pc, p: Addr, next: Pc) {
    match pc
    case PopFreeIn(v, q) => q == p && next == PopUnlock(Some(v), None)
    case PopFree(res, q) => q == p && next == PopRet(res)
    case _ => false
  }

  lemma SettledDelete(s: State, x: Proof, a: Spec, t: Tid, p: Addr, next: Pc)
    requires !s.fault && x.chain != [] && EndsOk(s, x) && NoneLost(s, x) && ThreadOk(s, x, a, t)
    requires Deletes(PcOf(s, t), p, next) && p != Last(x)
    ensures Settled(StepDelete(s, t, p, next).s, x.(role := x.role - {p}), a, t)
  {
  }

  /** delete of a node that thread t has. */
  lemma KeepsDelete(s: State, x: Proof, a: Spec, t: Tid, p: Addr, next: Pc) returns (x': Proof)
    requires Inv(s, x, a) && Deletes(PcOf(s, t), p, next)
    ensures Simulates(StepDelete(s, t, p, next), x', a)
  {
    assert ThreadOk(s, x, a, t);
    var o := StepDelete(s, t, p, next);
    x' := x.(role := x.role - {p});
    assert p !in x.chain && Last(x) in x.chain;
    ChainDelete(s, x, a, o.s, p);
    QuietDelete(s, x, a, t, p, next);
    SettledDelete(s, x, a, t, p, next);
    Frame(s, x, a, o.s, x', a, t);
  }

  // ---------------------------------------------------------------- steal

  lemma ChainSteal(s: State, x: Proof, a: Spec, o: Outcome, t: Tid, p: Addr)
    requires ChainOk(s, x, a) && a.items != [] && o.l == LinSteal(t, Back(a.items)) && OpOf(a, t) == Stealing
    requires p == x.chain[|a.items| - 1] && p in s.heap
    requires o.s.heap == s.heap[p := s.heap[p].(data := MovedFrom)] && o.s.stopped == s.stopped
    ensures ChainOk(o.s, Proof(x.chain[..|a.items|], x.role[Last(x) := Own(t)]), Next(a, o.l).value)
  {
    var chain, a' := x.chain[..|a.items|], Next(a, o.l).value;
    forall i | 0 <= i < |a'.items| ensures ItemAt(o.s, chain, a'.items, i) {
      assert ItemAt(s, x.chain, a.items, i);
    }
    assert x.chain == chain + [Last(x)];
    assert Last(x) in x.chain;
  }

  lemma QuietStealTake(s: State, x: Proof, a: Spec, t: Tid, p: Addr, x': Proof)
    requires ChainOk(s, x, a) && PcOf(s, t) == StealTake(p) && a.items != [] && OpOf(a, t) == Stealing
    requires p == x.chain[|a.items| - 1] && p in s.heap && s.heap[p].data == Full(a.items[|a.items| - 1].v)
    requires x' == Proof(x.chain[..|a.items|], x.role[Last(x) := Own(t)])
    ensures var o := StepStealTake(s, t, p); Next(a, o.l).Some? && Quiet(s, x, a, o.s, x', Next(a, o.l).value, t)
  {
    assert p in x.chain && Last(x) in x.chain;
  }

  lemma HoldsStealTake(s: State, x: Proof, t: Tid, p: Addr)
    requires x.chain != [] && NoneLost(s, x) && PcOf(s, t) == StealTake(p) && s.tail == Last(x)
    requires p in s.heap && s.heap[p].data.Full?
    ensures var s' := StepStealTake(s, t, p).s;
            forall q :: q in x.role && (x.role[q] == Own(t) || q == Last(x)) ==> Has(s', PcOf(s', t), q)
  {
  }

  lemma SettledStealTake(s: State, x: Proof, a: Spec, t: Tid, p: Addr, x': Proof)
    requires !s.fault && x.chain != [] && s.head == Some(First(x)) && s.tail == Last(x) && NoneLost(s, x)
    requires s.headLock == Some(t) && s.tailLock == Some(t) && OpOf(a, t) == Stealing
    requires Last(x) in s.heap && s.heap[Last(x)].next == None && Last(x) in x.role
    requires PcOf(s, t) == StealTake(p) && a.items != [] && |x.chain| == |a.items| + 1 && p == x.chain[|a.items| - 1]
    requires p in s.heap && s.heap[p].data == Full(a.items[|a.items| - 1].v) && s.heap[p].next == Some(Last(x))
    requires p != Last(x)
    requires x' == Proof(x.chain[..|a.items|], x.role[Last(x) := Own(t)])
    ensures var o := StepStealTake(s, t, p); Next(a, o.l).Some? && Settled(o.s, x', Next(a, o.l).value, t)
  {
    hide NoneLost;
    assert Last(x') == p && First(x') == First(x);
    HoldsStealTake(s, x, t, p);
  }

  /** The back value leaves: its node is the new dummy and the old dummy is the thief's. */
  lemma KeepsStealTake(s: State, x: Proof, a: Spec, t: Tid, p: Addr) returns (x': Proof)
    requires Inv(s, x, a) && PcOf(s, t) == StealTake(p)
    ensures Simulates(StepStealTake(s, t, p), x', a)
  {
    assert ThreadOk(s, x, a, t);
    var m := |a.items| - 1;
    assert ItemAt(s, x.chain, a.items, m);
    var o := StepStealTake(s, t, p);
    x' := Proof(x.chain[..m + 1], x.role[Last(x) := Own(t)]);
    ChainSteal(s, x, a, o, t, p);
    QuietStealTake(s, x, a, t, p, x');
    LastIsNoItem(x, a);
    assert Last(x) in x.chain;
    SettledStealTake(s, x, a, t, p, x');
    Frame(s, x, a, o.s, x', Next(a, o.l).value, t);
  }

  lemma QuietStealCut(s: State, x: Proof, a: Spec, t: Tid, p: Addr, v: Value, q: Addr)
    requires Inv(s, x, a) && PcOf(s, t) == StealCut(p, v) && HasHead(PcOf(s, t)) && HasTail(PcOf(s, t))
    requires p == Last(x) == s.tail && p in s.heap && s.heap[p].next == Some(q) && Mine(s, x, t, q, None)
    ensures Quiet(s, x, a, StepStealCut(s, t, v).s, x.(role := x.role - {q}), a, t)
  {
    assert Last(x) in x.chain && q !in x.chain;
  }

  lemma HoldsStealCut(s: State, x: Proof, t: Tid, p: Addr, v: Value, q: Addr)
    requires NoneLost(s, x) && PcOf(s, t) == StealCut(p, v) && p in s.heap && s.heap[p].next == Some(q)
    ensures forall r :: r in x.role && x.role[r] == Own(t) ==> r == q
  {
  }

  lemma SettledStealCut(s: State, x: Proof, a: Spec, t: Tid, p: Addr, v: Value, q: Addr)
    requires !s.fault && x.chain != [] && EndsOk(s, x) && NoneLost(s, x) && ThreadOk(s, x, a, t)
    requires PcOf(s, t) == StealCut(p, v) && s.heap[p].next == Some(q) && q != Last(x)
    ensures Settled(StepStealCut(s, t, v).s, x.(role := x.role - {q}), a, t)
  {
    hide NoneLost;
    HoldsStealCut(s, x, t, p, v, q);
  }

  lemma KeepsStealCut(s: State, x: Proof, a: Spec, t: Tid, p: Addr, v: Value) returns (x': Proof)
    requires Inv(s, x, a) && PcOf(s, t) == StealCut(p, v)
    ensures Simulates(StepStealCut(s, t, v), x', a)
  {
    assert ThreadOk(s, x, a, t);
    var o := StepStealCut(s, t, v);
    var q := s.heap[p].next.value;
    x' := x.(role := x.role - {q});
    assert q !in x.chain && Last(x) in x.chain;
    ChainDelete(s, x, a, o.s, q);
    QuietStealCut(s, x, a, t, p, v, q);
    SettledStealCut(s, x, a, t, p, v, q);
    Frame(s, x, a, o.s, x', a, t);
  }

  // ---------------------------------------------------------------- steps that change no node

  predicate QuietPush(pc: Pc) {
    pc.PushLock? || pc.PushUnlock? || pc.PushRet?
  }

  lemma KeepsQuietPush(s: State, x: Proof, a: Spec, t: Tid, c: Choice)
    requires Inv(s, x, a) && QuietPush(PcOf(s, t))
    ensures Simulates(Step(s, t, c), x, a)
  {
    assert ThreadOk(s, x, a, t);
    if Step(s, t, c).s != s {
      KeepsLocal(s, x, a, t, Step(s, t, c));
    }
  }

  lemma KeepsPopLock(s: State, x: Proof, a: Spec, t: Tid, k: Kind)
    requires Inv(s, x, a) && PcOf(s, t) == PopLock(k)
    ensures Simulates(StepPopLock(s, t, k), x, a)
  {
    assert ThreadOk(s, x, a, t);
    if StepPopLock(s, t, k).s != s {
      KeepsLocal(s, x, a, t, StepPopLock(s, t, k));
    }
  }

  lemma KeepsPopTailLock(s: State, x: Proof, a: Spec, t: Tid, k: Kind)
    requires Inv(s, x, a) && PcOf(s, t) == PopTailLock(k)
    ensures Simulates(StepPopTailLock(s, t, k), x, a)
  {
    assert ThreadOk(s, x, a, t);
    if StepPopTailLock(s, t, k).s != s {
      KeepsLocal(s, x, a, t, StepPopTailLock(s, t, k));
    }
  }

  lemma KeepsPopTailRead(s: State, x: Proof, a: Spec, t: Tid, k: Kind, late: bool)
    requires Inv(s, x, a) && PcOf(s, t) == PopTailRead(k)
    ensures Simulates(StepPopTailRead(s, t, k, late), x, a)
  {
    assert ThreadOk(s, x, a, t);
    KeepsLocal(s, x, a, t, StepPopTailRead(s, t, k, late));
  }

  lemma KeepsPopTailUnlock(s: State, x: Proof, a: Spec, t: Tid, c: Choice)
    requires Inv(s, x, a) && PcOf(s, t).PopTailUnlock?
    ensures Simulates(Step(s, t, c), x, a)
  {
    assert ThreadOk(s, x, a, t);
    KeepsLocal(s, x, a, t, Step(s, t, c));
  }

  lemma SettledPopTest(s: State, x: Proof, a: Spec, t: Tid, k: Kind, saw: Addr, last: bool)
    requires !s.fault && x.chain != [] && EndsOk(s, x) && NoneLost(s, x) && ThreadOk(s, x, a, t)
    requires PcOf(s, t) == PopTest(k, saw, last)
    ensures Settled(StepPopTest(s, t, k, saw, last).s, x, a, t)
  {
  }

  lemma KeepsPopTest(s: State, x: Proof, a: Spec, t: Tid, k: Kind, saw: Addr, last: bool)
    requires Inv(s, x, a) && PcOf(s, t) == PopTest(k, saw, last)
    ensures Simulates(StepPopTest(s, t, k, saw, last), x, a)
  {
    assert ThreadOk(s, x, a, t);
    SettledPopTest(s, x, a, t, k, saw, last);
    KeepsLocal(s, x, a, t, StepPopTest(s, t, k, saw, last));
  }

  lemma KeepsPopStop(s: State, x: Proof, a: Spec, t: Tid, k: Kind, some: bool)
    requires Inv(s, x, a) && PcOf(s, t) == PopStop(k, some)
    ensures Simulates(StepPopStop(s, t, k, some), x, a)
  {
    assert ThreadOk(s, x, a, t);
    KeepsLocal(s, x, a, t, StepPopStop(s, t, k, some));
  }

  lemma KeepsPopMove(s: State, x: Proof, a: Spec, t: Tid, c: Choice)
    requires Inv(s, x, a) && PcOf(s, t).PopMove?
    ensures Simulates(Step(s, t, c), x, a)
  {
    assert ThreadOk(s, x, a, t);
    KeepsLocal(s, x, a, t, Step(s, t, c));
  }

  lemma KeepsPopUnlock(s: State, x: Proof, a: Spec, t: Tid, c: Choice)
    requires Inv(s, x, a) && PcOf(s, t).PopUnlock?
    ensures Simulates(Step(s, t, c), x, a)
  {
    assert ThreadOk(s, x, a, t);
    KeepsLocal(s, x, a, t, Step(s, t, c));
  }

  lemma KeepsPopAgain(s: State, x: Proof, a: Spec, t: Tid, c: Choice)
    requires Inv(s, x, a) && PcOf(s, t).PopAgain?
    ensures Simulates(Step(s, t, c), x, a)
  {
    assert ThreadOk(s, x, a, t);
    KeepsLocal(s, x, a, t, Step(s, t, c));
  }

  lemma KeepsPopRet(s: State, x: Proof, a: Spec, t: Tid, c: Choice)
    requires Inv(s, x, a) && PcOf(s, t).PopRet?
    ensures Simulates(Step(s, t, c), x, a)
  {
    assert ThreadOk(s, x, a, t);
    KeepsLocal(s, x, a, t, Step(s, t, c));
  }

  lemma KeepsStealLock(s: State, x: Proof, a: Spec, t: Tid)
    requires Inv(s, x, a) && PcOf(s, t).StealLock?
    ensures Simulates(StepStealLock(s, t), x, a)
  {
    assert ThreadOk(s, x, a, t);
    if StepStealLock(s, t).s != s {
      KeepsLocal(s, x, a, t, StepStealLock(s, t));
    }
  }

  lemma SettledStealUnlockHead(s: State, x: Proof, a: Spec, t: Tid, c: Choice)
    requires !s.fault && x.chain != [] && EndsOk(s, x) && NoneLost(s, x) && ThreadOk(s, x, a, t)
    requires PcOf(s, t).StealUnlockHead?
    ensures var o := Step(s, t, c); Next(a, o.l).Some? && Settled(o.s, x, Next(a, o.l).value, t)
  {
  }

  lemma KeepsStealUnlockHead(s: State, x: Proof, a: Spec, t: Tid, c: Choice)
    requires Inv(s, x, a) && PcOf(s, t).StealUnlockHead?
    ensures Simulates(Step(s, t, c), x, a)
  {
    assert ThreadOk(s, x, a, t);
    SettledStealUnlockHead(s, x, a, t, c);
    KeepsLocal(s, x, a, t, Step(s, t, c));
  }

  lemma SettledStealUnlockTail(s: State, x: Proof, a: Spec, t: Tid, c: Choice)
    requires !s.fault && x.chain != [] && EndsOk(s, x) && NoneLost(s, x) && ThreadOk(s, x, a, t)
    requires PcOf(s, t).StealUnlockTail?
    ensures var o := Step(s, t, c); Next(a, o.l).Some? && Settled(o.s, x, Next(a, o.l).value, t)
  {
  }

  lemma KeepsStealUnlockTail(s: State, x: Proof, a: Spec, t: Tid, c: Choice)
    requires Inv(s, x, a) && PcOf(s, t).StealUnlockTail?
    ensures Simulates(Step(s, t, c), x, a)
  {
    assert ThreadOk(s, x, a, t);
    SettledStealUnlockTail(s, x, a, t, c);
    KeepsLocal(s, x, a, t, Step(s, t, c));
  }

  lemma KeepsStealRet(s: State, x: Proof, a: Spec, t: Tid, c: Choice)
    requires Inv(s, x, a) && PcOf(s, t).StealRet?
    ensures Simulates(Step(s, t, c), x, a)
  {
    assert ThreadOk(s, x, a, t);
    KeepsLocal(s, x, a, t, Step(s, t, c));
  }

  lemma SettledStealTest(s: State, x: Proof, a: Spec, t: Tid)
    requires !s.fault && x.chain != [] && EndsOk(s, x) && NoneLost(s, x) && ThreadOk(s, x, a, t)
    requires PcOf(s, t).StealTest? && (First(x) == Last(x) <==> a.items == [])
    ensures var o := StepStealTest(s, t); Next(a, o.l).Some? && Settled(o.s, x, Next(a, o.l).value, t)
  {
  }

  lemma KeepsStealTest(s: State, x: Proof, a: Spec, t: Tid)
    requires Inv(s, x, a) && PcOf(s, t).StealTest?
    ensures Simulates(StepStealTest(s, t), x, a)
  {
    assert ThreadOk(s, x, a, t);
    assert a.items != [] ==> x.chain[0] != x.chain[|a.items|];
    SettledStealTest(s, x, a, t);
    KeepsLocal(s, x, a, t, StepStealTest(s, t));
  }

  lemma SettledStealPrev(s: State, x: Proof, a: Spec, t: Tid, c: Choice)
    requires !s.fault && x.chain != [] && EndsOk(s, x) && NoneLost(s, x) && ThreadOk(s, x, a, t)
    requires PcOf(s, t).StealPrev?
    requires |x.chain| == |a.items| + 1 && (a.items != [] ==> ItemAt(s, x.chain, a.items, |a.items| - 1))
    ensures var o := Step(s, t, c); Next(a, o.l).Some? && Settled(o.s, x, Next(a, o.l).value, t)
  {
  }

  lemma KeepsStealPrev(s: State, x: Proof, a: Spec, t: Tid, c: Choice)
    requires Inv(s, x, a) && PcOf(s, t).StealPrev?
    ensures Simulates(Step(s, t, c), x, a)
  {
    assert ThreadOk(s, x, a, t);
    assert ItemAt(s, x.chain, a.items, |a.items| - 1);
    SettledStealPrev(s, x, a, t, c);
    KeepsLocal(s, x, a, t, Step(s, t, c));
  }

  lemma SettledStealTail(s: State, x: Proof, a: Spec, t: Tid, c: Choice)
    requires !s.fault && x.chain != [] && EndsOk(s, x) && NoneLost(s, x) && ThreadOk(s, x, a, t)
    requires PcOf(s, t).StealTail?
    ensures var o := Step(s, t, c); Next(a, o.l).Some? && Settled(o.s, x, Next(a, o.l).value, t)
  {
  }

  lemma KeepsStealTail(s: State, x: Proof, a: Spec, t: Tid, c: Choice)
    requires Inv(s, x, a) && PcOf(s, t).StealTail?
    ensures Simulates(Step(s, t, c), x, a)
  {
    assert ThreadOk(s, x, a, t);
    SettledStealTail(s, x, a, t, c);
    KeepsLocal(s, x, a, t, Step(s, t, c));
  }

  lemma Keeps(s: State, x: Proof, a: Spec, t: Tid, c: Choice) returns (x': Proof)
    requires Inv(s, x, a)
    ensures Simulates(Step(s, t, c), x', a)
  {
    hide Inv, Simulates;
    x' := x;
    match PcOf(s, t) {
      case Idle => x' := KeepsStart(s, x, a, t, c);
      case PushData(n, v) => KeepsPushData(s, x, a, t, n, v);
      case PushPrev(n, v) => KeepsPushPrev(s, x, a, t, n, v);
      case PushLink(n, v) => KeepsPushLink(s, x, a, t, n, v);
      case PushTail(n, v) => x' := KeepsPushTail(s, x, a, t, n, v);
      case PushLock(_, _) => KeepsQuietPush(s, x, a, t, c);
      case PushUnlock => KeepsQuietPush(s, x, a, t, c);
      case PushRet => KeepsQuietPush(s, x, a, t, c);
      case PopTake(k) => x' := KeepsPopTake(s, x, a, t, k);
      case PopAdvance(k, v, was) => KeepsPopAdvance(s, x, a, t, k, v, was);
      case PopFreeIn(v, was) => x' := KeepsDelete(s, x, a, t, was, PopUnlock(Some(v), None));
      case PopFree(res, was) => x' := KeepsDelete(s, x, a, t, was, PopRet(res));
      case PopTest(k, saw, last) => KeepsPopTest(s, x, a, t, k, saw, last);
      case PopStop(k, some) => KeepsPopStop(s, x, a, t, k, some);
      case PopMove(_, _) => KeepsPopMove(s, x, a, t, c);
      case PopUnlock(_, _) => KeepsPopUnlock(s, x, a, t, c);
      case PopAgain(_) => KeepsPopAgain(s, x, a, t, c);
      case PopRet(_) => KeepsPopRet(s, x, a, t, c);
      case PopLock(k) => KeepsPopLock(s, x, a, t, k);
      case PopTailLock(k) => KeepsPopTailLock(s, x, a, t, k);
      case PopTailRead(k) => KeepsPopTailRead(s, x, a, t, k, c.Go? && c.late);
      case PopTailUnlock(_, _, _) => KeepsPopTailUnlock(s, x, a, t, c);
      case StealTake(p) => x' := KeepsStealTake(s, x, a, t, p);
      case StealCut(p, v) => x' := KeepsStealCut(s, x, a, t, p, v);
      case StealTest => KeepsStealTest(s, x, a, t);
      case StealPrev => KeepsStealPrev(s, x, a, t, c);
      case StealTail(_, _) => KeepsStealTail(s, x, a, t, c);
      case StealLock => KeepsStealLock(s, x, a, t);
      case StealUnlockHead(_) => KeepsStealUnlockHead(s, x, a, t, c);
      case StealUnlockTail(_) => KeepsStealUnlockTail(s, x, a, t, c);
      case StealRet(_) => KeepsStealRet(s, x, a, t, c);
    }
  }

  // ---------------------------------------------------------------- every run

  lemma {:induction false} Runs(s: State, x: Proof, a: Spec, sched: Schedule) returns (x': Proof)
    requires Inv(s, x, a)
    ensures Replay(a, Labels(s, sched)).Some? && Inv(Run(s, sched), x', Replay(a, Labels(s, sched)).value)
    decreases sched
  {
    x' := x;
    if sched != [] {
      var o := Step(s, sched[0].0, sched[0].1);
      var y := Keeps(s, x, a, sched[0].0, sched[0].1);
      x' := Runs(o.s, y, Next(a, o.l).value, sched[1..]);
      var ls := Labels(s, sched);
      assert ls == [o.l] + Labels(o.s, sched[1..]) && ls[1..] == Labels(o.s, sched[1..]);
    }
  }

  lemma FromInit(sched: Schedule) returns (x: Proof)
    ensures Replay(NEW_DEQUE, Labels(INIT, sched)).Some?
    ensures Inv(Run(INIT, sched), x, Replay(NEW_DEQUE, Labels(INIT, sched)).value)
  {
    var y := Proof([FIRST], map[FIRST := Linked]);
    x := Runs(INIT, y, NEW_DEQUE, sched);
  }

  /** Every interleaving is linearizable: its calls, returns and linearization points are a run of the
      atomic deque. */
  lemma Linearizable(sched: Schedule)
    ensures Replay(NEW_DEQUE, Labels(INIT, sched)).Some?
  {
    var x := FromInit(sched);
  }

  /** No step touches a node that is not allocated, not even through the prev of the tail, or takes a value
      that is not there; no delete destroys a node that is still linked. */
  lemma MemorySafe(sched: Schedule)
    ensures !Run(INIT, sched).fault
  {
    var x := FromInit(sched);
  }

  /** Each push is taken at most once, and what is not taken is still there. */
  lemma NothingLost(sched: Schedule)
    ensures Replay(NEW_DEQUE, Labels(INIT, sched)).Some?
    ensures PushedIn(Labels(INIT, sched)) == TakenIn(Labels(INIT, sched))
            + Values(Replay(NEW_DEQUE, Labels(INIT, sched)).value.items)
  {
    Linearizable(sched);
    Conservation(NEW_DEQUE, Labels(INIT, sched));
  }

  /** Pops leave in submission order and every item left is newer than all popped ones. */
  lemma PoppedInOrder(sched: Schedule)
    ensures Replay(NEW_DEQUE, Labels(INIT, sched)).Some?
    ensures var left, pops := Replay(NEW_DEQUE, Labels(INIT, sched)).value.items,
            PopOrder(NEW_DEQUE, Labels(INIT, sched));
      && Ascending(pops)
      && forall s, i :: s in pops && 0 <= i < |left| ==> s < left[i].serial
  {
    Linearizable(sched);
    PopsInOrder(NEW_DEQUE, Labels(INIT, sched), -1);
  }

  /** With every thread idle nothing leaks: the nodes are those of the queue. */
  lemma NothingLeaks(sched: Schedule)
    requires forall t: Tid :: PcOf(Run(INIT, sched), t) == Idle
    ensures exists chain: seq<Addr> :: Replay(NEW_DEQUE, Labels(INIT, sched)).Some?
              && IsQueue(Run(INIT, sched), chain, Replay(NEW_DEQUE, Labels(INIT, sched)).value.items)
              && forall p :: p in Run(INIT, sched).heap <==> p in chain
  {
    var x := FromInit(sched);
    var s, a := Run(INIT, sched), Replay(NEW_DEQUE, Labels(INIT, sched)).value;
    forall t: Tid ensures s.headLock != Some(t) && s.tailLock != Some(t) {
      assert ThreadOk(s, x, a, t);
    }
    forall p | p in s.heap ensures p in x.chain {
      assert x.role[p].Own? ==> Has(s, PcOf(s, x.role[p].t), p);
    }
    assert IsQueue(s, x.chain, a.items);
  }

  /** From head to tail the nodes are linked both ways, hold the items, and end in the dummy. */
  ghost predicate IsQueue(s: State, chain: seq<Addr>, items: seq<Item>) {
    && |chain| == |items| + 1 && NoDup(chain)
    && s.head == Some(chain[0]) && s.tail == chain[|items|] && s.tail in s.heap && s.heap[s.tail].next == None
    && (forall i {:trigger ItemAt(s, chain, items, i)} :: 0 <= i < |items| ==> ItemAt(s, chain, items, i))
  }

  // ---------------------------------------------------------------- data races

  datatype Loc = HeadVar | TailVar | DataOf(p: Addr) | NextOf(p: Addr) | PrevOf(p: Addr)

  predicate OfNode(l: Loc, p: Addr) {
    l == DataOf(p) || l == NextOf(p) || l == PrevOf(p)
  }

  /** The next step of t writes the shared variable l. */
  predicate Writes(s: State, t: Tid, l: Loc) {
    match PcOf(s, t)
    case PushData(_, _) => l == DataOf(s.tail)
    case PushPrev(n, _) => l == PrevOf(n)
    case PushLink(_, _) => l == NextOf(s.tail)
    case PushTail(_, _) => l == TailVar
    case PopTake(_) => s.head.Some? && l == DataOf(s.head.value)
    case PopMove(_, _) => l == HeadVar
    case PopAdvance(_, _, was) => l == HeadVar || l == NextOf(was)
    case PopFreeIn(_, was) => OfNode(l, was)
    case PopFree(_, was) => OfNode(l, was)
    case StealTake(p) => l == DataOf(p)
    case StealTail(_, _) => l == TailVar
    case StealCut(_, _) =>
      l == NextOf(s.tail) || (s.tail in s.heap && s.heap[s.tail].next.Some? && OfNode(l, s.heap[s.tail].next.value))
    case _ => false
  }

  /** It reads l, and does not write it. */
  predicate Reads(s: State, t: Tid, l: Loc) {
    match PcOf(s, t)
    case PushData(_, _) => l == TailVar
    case PushPrev(_, _) => l == TailVar
    case PushLink(_, _) => l == TailVar
    case PopTailRead(_) => l == TailVar
    case PopTest(_, _, _) => l == HeadVar
    case PopTake(_) => l == HeadVar
    case StealTest => l == HeadVar || l == TailVar
    case StealPrev => l == TailVar || l == PrevOf(s.tail)
    case StealCut(_, _) => l == TailVar
    case _ => false
  }

  predicate Uses(s: State, t: Tid, l: Loc) {
    Writes(s, t, l) || Reads(s, t, l)
  }

  /** A step that accesses shared variables, and not a lock or the flag. */
  predicate Accesses(pc: Pc) {
    || pc.PushData? || pc.PushPrev? || pc.PushLink? || pc.PushTail?
    || pc.PopTailRead? || pc.PopTest? || pc.PopTake? || pc.PopMove? || pc.PopAdvance? || pc.PopFreeIn? || pc.PopFree?
    || pc.StealTest? || pc.StealPrev? || pc.StealTake? || pc.StealTail? || pc.StealCut?
  }

  /** Who may touch a variable: the holder of its lock, the one who has the node, for the first node of a
      queue that has items the holder of the head lock, for the last the holder of the tail lock, and for
      all of them who holds both. */
  predicate May(s: State, x: Proof, t: Tid, l: Loc)
    requires x.chain != []
  {
    match l
    case HeadVar => s.headLock == Some(t)
    case TailVar => s.tailLock == Some(t)
    case DataOf(p) => MayNode(s, x, t, p)
    case NextOf(p) => MayNode(s, x, t, p)
    case PrevOf(p) => MayNode(s, x, t, p)
  }

  predicate MayNode(s: State, x: Proof, t: Tid, p: Addr)
    requires x.chain != []
  {
    p in x.role &&
    match x.role[p]
    case Own(u) => u == t
    case Linked => if p == Last(x) then s.tailLock == Some(t) else s.headLock == Some(t)
  }

  lemma Footprint(s: State, x: Proof, a: Spec, t: Tid, l: Loc)
    requires Inv(s, x, a) && Uses(s, t, l)
    ensures May(s, x, t, l)
  {
    assert ThreadOk(s, x, a, t);
    assert First(x) in x.chain && Last(x) in x.chain;
    if a.items != [] {
      assert ItemAt(s, x.chain, a.items, |a.items| - 1);
      assert x.chain[|a.items| - 1] in x.chain && x.chain[|a.items| - 1] != Last(x) && First(x) != Last(x);
    }
  }

  // These are indeed the variables that a step changes, and those that it depends on.

  /** What a variable holds; nothing if its node is not allocated. */
  datatype Content = Gone | Points(to: Option<Addr>) | Holding(cell: Cell)

  function ContentOf(s: State, l: Loc): Content {
    match l
    case HeadVar => Points(s.head)
    case TailVar => Points(Some(s.tail))
    case DataOf(p) => if p in s.heap then Holding(s.heap[p].data) else Gone
    case NextOf(p) => if p in s.heap then Points(s.heap[p].next) else Gone
    case PrevOf(p) => if p in s.heap then Points(Some(s.heap[p].prev)) else Gone
  }

  predicate InPush(pc: Pc) {
    pc.PushLock? || pc.PushData? || pc.PushPrev? || pc.PushLink? || pc.PushTail? || pc.PushUnlock? || pc.PushRet?
  }

  predicate InSteal(pc: Pc) {
    pc.StealLock? || pc.StealTest? || pc.StealPrev? || pc.StealTake? || pc.StealTail? || pc.StealCut?
    || pc.StealUnlockHead? || pc.StealUnlockTail? || pc.StealRet?
  }

  /** A step of t by what it does to memory: it frees a node, or it is one of the others. */
  predicate Frees(pc: Pc) {
    pc.PopFreeIn? || pc.PopFree? || pc.StealCut?
  }

  lemma PushChanges(s: State, t: Tid, c: Choice, l: Loc)
    requires InPush(PcOf(s, t)) && !ContentOf(s, l).Gone? && !Writes(s, t, l)
    ensures ContentOf(Step(s, t, c).s, l) == ContentOf(s, l)
  {
  }

  lemma StealChanges(s: State, t: Tid, c: Choice, l: Loc)
    requires InSteal(PcOf(s, t)) && !Frees(PcOf(s, t)) && !ContentOf(s, l).Gone? && !Writes(s, t, l)
    ensures ContentOf(Step(s, t, c).s, l) == ContentOf(s, l)
  {
  }

  lemma FreeChanges(s: State, t: Tid, c: Choice, l: Loc)
    requires Frees(PcOf(s, t)) && !ContentOf(s, l).Gone? && !Writes(s, t, l)
    ensures ContentOf(Step(s, t, c).s, l) == ContentOf(s, l)
  {
  }

  lemma PopChanges(s: State, t: Tid, c: Choice, l: Loc)
    requires !InPush(PcOf(s, t)) && !InSteal(PcOf(s, t)) && !Frees(PcOf(s, t)) && !ContentOf(s, l).Gone?
    requires !Writes(s, t, l)
    ensures ContentOf(Step(s, t, c).s, l) == ContentOf(s, l)
  {
  }

  /** A step changes no variable but those it writes. */
  lemma ChangesWritten(s: State, t: Tid, c: Choice, l: Loc)
    requires !ContentOf(s, l).Gone? && !Writes(s, t, l)
    ensures ContentOf(Step(s, t, c).s, l) == ContentOf(s, l)
  {
    hide Step, Writes, ContentOf;
    if Frees(PcOf(s, t)) {
      FreeChanges(s, t, c, l);
    } else if InPush(PcOf(s, t)) {
      PushChanges(s, t, c, l);
    } else if InSteal(PcOf(s, t)) {
      StealChanges(s, t, c, l);
    } else {
      PopChanges(s, t, c, l);
    }
  }

  /** Two states that agree on all that the next step of t uses. */
  ghost predicate SameTo(s: State, s': State, t: Tid) {
    PcOf(s', t) == PcOf(s, t) && forall l :: Uses(s, t, l) ==> ContentOf(s', l) == ContentOf(s, l)
  }

  /** The step of t comes to the same in both states, and leaves the same in l if it writes there. */
  predicate SameAt(s: State, s': State, t: Tid, c: Choice, l: Loc) {
    && PcOf(Step(s', t, c).s, t) == PcOf(Step(s, t, c).s, t)
    && (Writes(s, t, l) ==> ContentOf(Step(s', t, c).s, l) == ContentOf(Step(s, t, c).s, l))
  }

  lemma Agree(s: State, s': State, t: Tid, l: Loc)
    requires SameTo(s, s', t) && Uses(s, t, l)
    ensures ContentOf(s', l) == ContentOf(s, l)
  {
  }

  lemma SamePc(s: State, s': State, t: Tid)
    requires SameTo(s, s', t)
    ensures PcOf(s', t) == PcOf(s, t)
  {
  }

  lemma PushDataDepends(s: State, s': State, t: Tid, c: Choice, l: Loc)
    requires SameTo(s, s', t) && PcOf(s, t).PushData?
    ensures SameAt(s, s', t, c, l)
  {
    hide SameTo;
    SamePc(s, s', t);
    Agree(s, s', t, TailVar);
    Agree(s, s', t, DataOf(s.tail));
  }

  lemma PushPrevDepends(s: State, s': State, t: Tid, c: Choice, l: Loc)
    requires SameTo(s, s', t) && PcOf(s, t).PushPrev?
    ensures SameAt(s, s', t, c, l)
  {
    hide SameTo;
    SamePc(s, s', t);
    Agree(s, s', t, TailVar);
    Agree(s, s', t, PrevOf(PcOf(s, t).n));
  }

  lemma PushLinkDepends(s: State, s': State, t: Tid, c: Choice, l: Loc)
    requires SameTo(s, s', t) && PcOf(s, t).PushLink?
    ensures SameAt(s, s', t, c, l)
  {
    hide SameTo;
    SamePc(s, s', t);
    Agree(s, s', t, TailVar);
    Agree(s, s', t, NextOf(s.tail));
  }

  lemma SetTailDepends(s: State, s': State, t: Tid, c: Choice, l: Loc)
    requires SameTo(s, s', t) && (PcOf(s, t).PushTail? || PcOf(s, t).StealTail?)
    ensures SameAt(s, s', t, c, l)
  {
    hide SameTo;
    SamePc(s, s', t);
  }

  lemma PopTailDepends(s: State, s': State, t: Tid, c: Choice, l: Loc)
    requires SameTo(s, s', t) && PcOf(s, t).PopTailRead?
    ensures SameAt(s, s', t, c, l)
  {
    hide SameTo;
    SamePc(s, s', t);
    Agree(s, s', t, TailVar);
  }

  lemma TestSame(s: State, s': State, t: Tid, k: Kind, saw: Addr, last: bool)
    requires s'.head == s.head
    ensures PcOf(StepPopTest(s', t, k, saw, last).s, t) == PcOf(StepPopTest(s, t, k, saw, last).s, t)
  {
    TestGoesTo(s, t, k, saw, last);
    TestGoesTo(s', t, k, saw, last);
    hide StepPopTest, PcOf;
  }

  lemma TestGoesTo(s: State, t: Tid, k: Kind, saw: Addr, last: bool)
    ensures PcOf(StepPopTest(s, t, k, saw, last).s, t) ==
      if s.head == Some(saw) then (if last then PopUnlock(None, None) else PopStop(k, false))
      else if k.Try? then PopTake(k)
      else PopStop(k, true)
  {
  }

  lemma PopTestDepends(s: State, s': State, t: Tid, c: Choice, l: Loc)
    requires SameTo(s, s', t) && PcOf(s, t).PopTest?
    ensures SameAt(s, s', t, c, l)
  {
    hide SameTo, ContentOf, StepPopTest;
    SamePc(s, s', t);
    SameEnds(s, s', t);
    var PopTest(k, saw, last) := PcOf(s, t);
    TestSame(s, s', t, k, saw, last);
    assert Step(s, t, c) == StepPopTest(s, t, k, saw, last);
    assert Step(s', t, c) == StepPopTest(s', t, k, saw, last);
  }

  lemma SameEnds(s: State, s': State, t: Tid)
    requires SameTo(s, s', t)
    ensures Uses(s, t, HeadVar) ==> s'.head == s.head
    ensures Uses(s, t, TailVar) ==> s'.tail == s.tail
  {
    assert Uses(s, t, HeadVar) ==> ContentOf(s', HeadVar) == ContentOf(s, HeadVar);
    assert Uses(s, t, TailVar) ==> ContentOf(s', TailVar) == ContentOf(s, TailVar);
  }

  lemma TakeSame(s: State, s': State, t: Tid, k: Kind, l: Loc)
    requires PcOf(s', t) == PcOf(s, t) && s'.head == s.head && ContentOf(s', l) == ContentOf(s, l)
    requires s.head.Some? ==> ContentOf(s', DataOf(s.head.value)) == ContentOf(s, DataOf(s.head.value))
    ensures PcOf(StepPopTake(s', t, k).s, t) == PcOf(StepPopTake(s, t, k).s, t)
    ensures ContentOf(StepPopTake(s', t, k).s, l) == ContentOf(StepPopTake(s, t, k).s, l)
  {
    TakeOne(s, t, k, l);
    TakeOne(s', t, k, l);
    hide StepPopTake;
  }

  /** Taking the value of the first node as it is seen at one variable. */
  lemma TakeOne(s: State, t: Tid, k: Kind, l: Loc)
    ensures var o := StepPopTake(s, t, k).s;
      if s.head.Some? && ContentOf(s, DataOf(s.head.value)).Holding? && ContentOf(s, DataOf(s.head.value)).cell.Full?
      then
        && PcOf(o, t) == PopMove(k, ContentOf(s, DataOf(s.head.value)).cell.v)
        && ContentOf(o, l) == if l == DataOf(s.head.value) then Holding(MovedFrom) else ContentOf(s, l)
      else PcOf(o, t) == PcOf(s, t) && ContentOf(o, l) == ContentOf(s, l)
  {
  }

  lemma PopTakeDepends(s: State, s': State, t: Tid, c: Choice, l: Loc)
    requires SameTo(s, s', t) && PcOf(s, t).PopTake?
    ensures SameAt(s, s', t, c, l)
  {
    hide SameTo, StepPopTake;
    SamePc(s, s', t);
    Agree(s, s', t, HeadVar);
    if s.head.Some? {
      Agree(s, s', t, DataOf(s.head.value));
    }
    var k := if Writes(s, t, l) then l else HeadVar;
    Agree(s, s', t, k);
    TakeSame(s, s', t, PcOf(s, t).k, k);
    assert Step(s, t, c) == StepPopTake(s, t, PcOf(s, t).k);
    assert Step(s', t, c) == StepPopTake(s', t, PcOf(s, t).k);
  }

  lemma MoveSame(s: State, s': State, t: Tid, k: Kind, v: Value)
    requires PcOf(s', t) == PcOf(s, t) && s'.head == s.head
    ensures PcOf(StepPopMove(s', t, k, v).s, t) == PcOf(StepPopMove(s, t, k, v).s, t)
    ensures StepPopMove(s', t, k, v).s.head == StepPopMove(s, t, k, v).s.head
  {
  }

  lemma PopMoveDepends(s: State, s': State, t: Tid, c: Choice, l: Loc)
    requires SameTo(s, s', t) && PcOf(s, t).PopMove?
    ensures SameAt(s, s', t, c, l)
  {
    hide SameTo, StepPopMove;
    SamePc(s, s', t);
    SameEnds(s, s', t);
    var PopMove(k, v) := PcOf(s, t);
    MoveSame(s, s', t, k, v);
    assert Step(s, t, c) == StepPopMove(s, t, k, v);
    assert Step(s', t, c) == StepPopMove(s', t, k, v);
  }

  lemma PopAdvanceDepends(s: State, s': State, t: Tid, c: Choice, l: Loc)
    requires SameTo(s, s', t) && PcOf(s, t).PopAdvance?
    ensures SameAt(s, s', t, c, l)
  {
    hide SameTo;
    SamePc(s, s', t);
    Agree(s, s', t, HeadVar);
    Agree(s, s', t, NextOf(PcOf(s, t).was));
  }

  lemma DeleteSame(s: State, s': State, t: Tid, p: Addr, next: Pc, l: Loc)
    requires PcOf(s', t) == PcOf(s, t)
    requires ContentOf(s', NextOf(p)) == ContentOf(s, NextOf(p)) && ContentOf(s', l) == ContentOf(s, l)
    ensures PcOf(StepDelete(s', t, p, next).s, t) == PcOf(StepDelete(s, t, p, next).s, t)
    ensures ContentOf(StepDelete(s', t, p, next).s, l) == ContentOf(StepDelete(s, t, p, next).s, l)
  {
    DeleteOne(s, t, p, next, l);
    DeleteOne(s', t, p, next, l);
    hide StepDelete;
  }

  /** delete as it is seen at one variable. */
  lemma DeleteOne(s: State, t: Tid, p: Addr, next: Pc, l: Loc)
    ensures var o := StepDelete(s, t, p, next).s;
      if ContentOf(s, NextOf(p)) == Points(None)
      then PcOf(o, t) == next && ContentOf(o, l) == if OfNode(l, p) then Gone else ContentOf(s, l)
      else PcOf(o, t) == PcOf(s, t) && ContentOf(o, l) == ContentOf(s, l)
  {
  }

  lemma FreeDepends(s: State, s': State, t: Tid, c: Choice, l: Loc)
    requires SameTo(s, s', t) && (PcOf(s, t).PopFreeIn? || PcOf(s, t).PopFree?)
    ensures SameAt(s, s', t, c, l)
  {
    hide SameTo, StepDelete, ContentOf;
    SamePc(s, s', t);
    var was := PcOf(s, t).was;
    var next := if PcOf(s, t).PopFreeIn? then PopUnlock(Some(PcOf(s, t).v), None) else PopRet(PcOf(s, t).res);
    var k := if Writes(s, t, l) then l else NextOf(was);
    Agree(s, s', t, k);
    Agree(s, s', t, NextOf(was));
    DeleteSame(s, s', t, was, next, k);
    assert Step(s, t, c) == StepDelete(s, t, was, next);
    assert Step(s', t, c) == StepDelete(s', t, was, next);
  }

  lemma StealTestDepends(s: State, s': State, t: Tid, c: Choice, l: Loc)
    requires SameTo(s, s', t) && PcOf(s, t).StealTest?
    ensures SameAt(s, s', t, c, l)
  {
    hide SameTo, ContentOf;
    SamePc(s, s', t);
    SameEnds(s, s', t);
  }

  lemma StealPrevDepends(s: State, s': State, t: Tid, c: Choice, l: Loc)
    requires SameTo(s, s', t) && PcOf(s, t).StealPrev?
    ensures SameAt(s, s', t, c, l)
  {
    hide SameTo;
    SamePc(s, s', t);
    Agree(s, s', t, TailVar);
    Agree(s, s', t, PrevOf(s.tail));
  }

  lemma StealTakeDepends(s: State, s': State, t: Tid, c: Choice, l: Loc)
    requires SameTo(s, s', t) && PcOf(s, t).StealTake?
    ensures SameAt(s, s', t, c, l)
  {
    hide SameTo;
    SamePc(s, s', t);
    Agree(s, s', t, DataOf(PcOf(s, t).p));
  }

  lemma CutSame(s: State, s': State, t: Tid, v: Value, l: Loc)
    requires PcOf(s', t) == PcOf(s, t) && s'.tail == s.tail
    requires ContentOf(s', NextOf(s.tail)) == ContentOf(s, NextOf(s.tail)) && ContentOf(s', l) == ContentOf(s, l)
    requires s.tail in s.heap && s.heap[s.tail].next.Some? ==>
      var p := s.heap[s.tail].next.value; ContentOf(s', NextOf(p)) == ContentOf(s, NextOf(p))
    ensures PcOf(StepStealCut(s', t, v).s, t) == PcOf(StepStealCut(s, t, v).s, t)
    ensures ContentOf(StepStealCut(s', t, v).s, l) == ContentOf(StepStealCut(s, t, v).s, l)
  {
    hide StepDelete;
    if s.tail in s.heap {
      var cut := SetNode(s, s.tail, s.heap[s.tail].(next := None));
      var cut' := SetNode(s', s.tail, s'.heap[s.tail].(next := None));
      assert ContentOf(cut', l) == ContentOf(cut, l);
      if s.heap[s.tail].next.Some? {
        var p := s.heap[s.tail].next.value;
        assert ContentOf(cut', NextOf(p)) == ContentOf(cut, NextOf(p));
        DeleteSame(cut, cut', t, p, StealUnlockHead(Some(v)), l);
      }
    }
  }

  lemma StealCutDepends(s: State, s': State, t: Tid, c: Choice, l: Loc)
    requires SameTo(s, s', t) && PcOf(s, t).StealCut?
    ensures SameAt(s, s', t, c, l)
  {
    hide SameTo, StepStealCut;
    SamePc(s, s', t);
    Agree(s, s', t, TailVar);
    Agree(s, s', t, NextOf(s.tail));
    if s.tail in s.heap && s.heap[s.tail].next.Some? {
      Agree(s, s', t, NextOf(s.heap[s.tail].next.value));
    }
    var k := if Writes(s, t, l) then l else NextOf(s.tail);
    Agree(s, s', t, k);
    CutSame(s, s', t, PcOf(s, t).v, k);
    assert Step(s, t, c) == StepStealCut(s, t, PcOf(s, t).v);
    assert Step(s', t, c) == StepStealCut(s', t, PcOf(s, t).v);
  }

  lemma DependsAt(s: State, s': State, t: Tid, c: Choice, l: Loc)
    requires SameTo(s, s', t) && Accesses(PcOf(s, t))
    ensures SameAt(s, s', t, c, l)
  {
    hide SameTo, SameAt;
    match PcOf(s, t) {
      case PushData(_, _) => PushDataDepends(s, s', t, c, l);
      case PushPrev(_, _) => PushPrevDepends(s, s', t, c, l);
      case PushLink(_, _) => PushLinkDepends(s, s', t, c, l);
      case PushTail(_, _) => SetTailDepends(s, s', t, c, l);
      case PopTailRead(_) => PopTailDepends(s, s', t, c, l);
      case PopTest(_, _, _) => PopTestDepends(s, s', t, c, l);
      case PopTake(_) => PopTakeDepends(s, s', t, c, l);
      case PopMove(_, _) => PopMoveDepends(s, s', t, c, l);
      case PopAdvance(_, _, _) => PopAdvanceDepends(s, s', t, c, l);
      case PopFreeIn(_, _) => FreeDepends(s, s', t, c, l);
      case PopFree(_, _) => FreeDepends(s, s', t, c, l);
      case StealTest => StealTestDepends(s, s', t, c, l);
      case StealPrev => StealPrevDepends(s, s', t, c, l);
      case StealTake(_) => StealTakeDepends(s, s', t, c, l);
      case StealTail(_, _) => SetTailDepends(s, s', t, c, l);
      case StealCut(_, _) => StealCutDepends(s, s', t, c, l);
    }
  }

  /** An access to shared variables depends on nothing but those it uses: it goes on to the same place and
      leaves the same in what it writes. */
  lemma DependsOnUsed(s: State, s': State, t: Tid, c: Choice)
    requires SameTo(s, s', t) && Accesses(PcOf(s, t))
    ensures forall l :: SameAt(s, s', t, c, l)
  {
    forall l ensures SameAt(s, s', t, c, l) {
      DependsAt(s, s', t, c, l);
    }
  }

  lemma NoConflict(s: State, x: Proof, a: Spec, t: Tid, u: Tid)
    requires Inv(s, x, a) && t != u
    ensures forall l :: Writes(s, t, l) ==> !Uses(s, u, l)
  {
    forall l | Writes(s, t, l) && Uses(s, u, l) ensures false {
      Footprint(s, x, a, t, l);
      Footprint(s, x, a, u, l);
    }
  }

  /** No data race: what the next step of one thread writes, the next step of another neither reads nor
      writes, and it exists. In particular a pop and a push at the same time never touch the same node. */
  lemma RaceFree(sched: Schedule, t: Tid, u: Tid)
    requires t != u
    ensures forall l :: Writes(Run(INIT, sched), t, l) ==> !Uses(Run(INIT, sched), u, l)
    ensures forall l :: Uses(Run(INIT, sched), u, l) ==> !ContentOf(Run(INIT, sched), l).Gone?
  {
    var x := FromInit(sched);
    var s, a := Run(INIT, sched), Replay(NEW_DEQUE, Labels(INIT, sched)).value;
    NoConflict(s, x, a, t, u);
    forall l | Uses(s, u, l) ensures !ContentOf(s, l).Gone? {
      Footprint(s, x, a, u, l);
    }
  }

  /** So an access of u comes to the same whether a step of t comes first or not. */
  lemma StepsDoNotInterfere(sched: Schedule, t: Tid, u: Tid, c: Choice, d: Choice)
    requires t != u && Accesses(PcOf(Run(INIT, sched), u))
    ensures var s := Run(INIT, sched);
      var after := Step(s, t, c).s;
      SameTo(s, after, u) && forall l :: SameAt(s, after, u, d, l)
  {
    var s := Run(INIT, sched);
    var after := Step(s, t, c).s;
    RaceFree(sched, t, u);
    forall l | Uses(s, u, l) ensures ContentOf(after, l) == ContentOf(s, l) {
      ChangesWritten(s, t, c, l);
    }
    OthersWait(s, t, c, u);
    DependsOnUsed(s, after, u, d);
  }

  lemma OthersWait(s: State, t: Tid, c: Choice, u: Tid)
    requires u != t
    ensures PcOf(Step(s, t, c).s, u) == PcOf(s, u)
  {
    if Frees(PcOf(s, t)) {
      FreeWaits(s, t, c, u);
    } else if InPush(PcOf(s, t)) {
      PushWaits(s, t, c, u);
    } else if InSteal(PcOf(s, t)) {
      StealWaits(s, t, c, u);
    } else {
      PopWaits(s, t, c, u);
    }
  }

  lemma PushWaits(s: State, t: Tid, c: Choice, u: Tid)
    requires u != t && InPush(PcOf(s, t))
    ensures PcOf(Step(s, t, c).s, u) == PcOf(s, u)
  {
  }

  lemma StealWaits(s: State, t: Tid, c: Choice, u: Tid)
    requires u != t && InSteal(PcOf(s, t)) && !Frees(PcOf(s, t))
    ensures PcOf(Step(s, t, c).s, u) == PcOf(s, u)
  {
  }

  lemma FreeWaits(s: State, t: Tid, c: Choice, u: Tid)
    requires u != t && Frees(PcOf(s, t))
    ensures PcOf(Step(s, t, c).s, u) == PcOf(s, u)
  {
  }

  lemma PopWaits(s: State, t: Tid, c: Choice, u: Tid)
    requires u != t && !InPush(PcOf(s, t)) && !InSteal(PcOf(s, t)) && !Frees(PcOf(s, t))
    ensures PcOf(Step(s, t, c).s, u) == PcOf(s, u)
  {
  }
}
