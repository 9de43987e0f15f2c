/** `lock_free_queue` of inc/public/ts_queue.h: a lock-free queue whose nodes carry two counted
    links -- the head's and the tail's -- and whose threads help each other move the tail.

    As in `RefCountStack`, one atomic access is one step, `new` may reuse any address that was
    freed, and touching an unallocated address raises `fault`.  The 30-bit count of a node wraps;
    its 2-bit link count too.  The `T*` a push installs is modelled by the pushed value and the
    thread that pushes it. */
module LockFreeQueue {
  import opened Options
  import opened AtomicQueue

  type Addr = nat
  const NULL: Addr := 0
  const WIDTH: nat := 0x4000_0000

  datatype CountedPtr = CountedPtr(ext: int, ptr: Addr)
  datatype Item = Item(v: Value, owner: Tid)
  datatype Count = Count(internal: int, links: int)
  datatype Node = Node(data: Option<Item>, count: Count, next: CountedPtr)

  const EMPTY := CountedPtr(0, NULL)
  const NEW_NODE := Node(None, Count(0, 2), EMPTY)

  /** What a call of set_new_tail is part of. */
  datatype Then = Finish(item: Item) | Again(item: Item, node: Addr)

  /** What a thread does once it has let go of a node. */
  datatype After =
    | PushEnd
    | PushAgain(item: Item, node: Addr, was: CountedPtr)
    | PopNone
    | PopAgain(was: CountedPtr)
    | PopEnd(res: Option<Item>)

  /** Program counters.  `was` is the local `old_tail` or `old_head`, `node` the spare node. */
  datatype Pc =
    | Idle
    | PushLoad(item: Item, node: Addr)
    | PushCount(item: Item, node: Addr, was: CountedPtr)
    | PushData(item: Item, node: Addr, was: CountedPtr)                   // data CAS
    | PushPeek(item: Item, node: Addr, was: CountedPtr)                   // the unused next.load()
    | PushLink(item: Item, node: Addr, was: CountedPtr)                   // next CAS
    | PushTrash(item: Item, node: Addr, was: CountedPtr, next: CountedPtr) // delete the spare node
    | HelpLink(item: Item, node: Addr, was: CountedPtr)                   // next CAS for another push
    | HelpNew(item: Item, was: CountedPtr, next: CountedPtr)              // a new spare node
    | SetTail(cur: Addr, was: CountedPtr, next: CountedPtr, then_: Then)  // weak CAS of the tail
    | FoldLoad(was: CountedPtr, after: After)                             // free_external_counter
    | FoldCas(was: CountedPtr, seen: Count, after: After)
    | RelLoad(p: Addr, after: After)                                      // release_ref
    | RelCas(p: Addr, seen: Count, after: After)
    | Reap(p: Addr, after: After)                                         // delete
    | PopLoad
    | PopCount(was: CountedPtr)
    | PopTail(was: CountedPtr)                                            // tail.load()
    | PopNext(was: CountedPtr)                                            // ptr->next.load()
    | PopCas(was: CountedPtr, next: CountedPtr)
    | PopTake(was: CountedPtr)                                            // data.exchange(nullptr)
    | PushRet
    | PopRet(res: Option<Item>)

  datatype State = State(heap: map<Addr, Node>, head: CountedPtr, tail: CountedPtr, threads: map<Tid, Pc>, fault: bool)

  datatype Choice = Push(v: Value, at: Addr) | Pop | Go(spurious: bool, at: Addr)

  datatype Outcome = Outcome(s: State, l: Label)

  const INIT := State(map[1 := NEW_NODE], CountedPtr(1, 1), CountedPtr(1, 1), map[], false)

  function PcOf(s: State, t: Tid): Pc {
    if t in s.threads then s.threads[t] else Idle
  }

  function Goto(s: State, t: Tid, pc: Pc): State {
    s.(threads := s.threads[t := pc])
  }

  function Fault(s: State): Outcome {
    Outcome(s.(fault := true), Tau)
  }

  function SetNode(s: State, p: Addr, n: Node): State {
    s.(heap := s.heap[p := n])
  }

  function Wrap(i: int): int {
    i % WIDTH
  }

  function Start(s: State, t: Tid, c: Choice): Outcome {
    match c
    case Push(v, at) =>
      if at == NULL || at in s.heap then Outcome(s, Tau)
      else Outcome(Goto(SetNode(s, at, NEW_NODE), t, PushLoad(Item(v, t), at)), CallPush(t, v))
    case Pop => Outcome(Goto(s, t, PopLoad), CallPop(t))
    case Go(_, _) => Outcome(s, Tau)
  }

  function StepPushCount(s: State, t: Tid, item: Item, node: Addr, was: CountedPtr): Outcome {
    if s.tail == was then
      var more := was.(ext := was.ext + 1);
      Outcome(Goto(s.(tail := more), t, PushData(item, node, more)), Tau)
    else Outcome(Goto(s, t, PushCount(item, node, s.tail)), Tau)
  }

  /** A data CAS that succeeds on a node the tail has left is a lost push. */
  function StepPushData(s: State, t: Tid, item: Item, node: Addr, was: CountedPtr): Outcome {
    if was.ptr !in s.heap then Fault(s)
    else if s.heap[was.ptr].data == None then
      Outcome(Goto(SetNode(s, was.ptr, s.heap[was.ptr].(data := Some(item))), t, PushPeek(item, node, was)),
              if s.tail.ptr == was.ptr then Tau else Drop(t))
    else Outcome(Goto(s, t, HelpLink(item, node, was)), Tau)
  }

  function StepPushLink(s: State, t: Tid, item: Item, node: Addr, was: CountedPtr): Outcome {
    if was.ptr !in s.heap then Fault(s)
    else if s.heap[was.ptr].next == EMPTY then
      var link := CountedPtr(1, node);
      Outcome(Goto(SetNode(s, was.ptr, s.heap[was.ptr].(next := link)), t, SetTail(was.ptr, was, link, Finish(item))),
              Tau)
    else Outcome(Goto(s, t, PushTrash(item, node, was, s.heap[was.ptr].next)), Tau)
  }

  function StepDelete(s: State, t: Tid, p: Addr, pc: Pc): Outcome {
    if p !in s.heap then Fault(s) else Outcome(Goto(s.(heap := s.heap - {p}), t, pc), Tau)
  }

  function StepHelpLink(s: State, t: Tid, item: Item, node: Addr, was: CountedPtr): Outcome {
    if was.ptr !in s.heap then Fault(s)
    else if s.heap[was.ptr].next == EMPTY then
      var link := CountedPtr(1, node);
      Outcome(Goto(SetNode(s, was.ptr, s.heap[was.ptr].(next := link)), t, HelpNew(item, was, link)), Tau)
    else Outcome(Goto(s, t, SetTail(was.ptr, was, s.heap[was.ptr].next, Again(item, node))), Tau)
  }

  function StepHelpNew(s: State, t: Tid, item: Item, was: CountedPtr, next: CountedPtr, at: Addr): Outcome {
    if at == NULL || at in s.heap then Outcome(s, Tau)
    else Outcome(Goto(SetNode(s, at, NEW_NODE), t, SetTail(was.ptr, was, next, Again(item, at))), Tau)
  }

  function Leaving(then_: Then, was: CountedPtr): After {
    match then_
    case Finish(_) => PushEnd
    case Again(item, node) => PushAgain(item, node, was)
  }

  /** The push whose value the tail passes over takes effect here, whoever moves the tail. */
  function StepSetTail(s: State, t: Tid, cur: Addr, was: CountedPtr, next: CountedPtr, then_: Then,
                       spurious: bool): Outcome {
    if s.tail == was && !spurious then
      Outcome(Goto(s.(tail := next), t, FoldLoad(was, Leaving(then_, was))),
              if cur in s.heap && s.heap[cur].data.Some?
              then LinPush(s.heap[cur].data.value.owner, s.heap[cur].data.value.v)
              else Tau)
    else if s.tail.ptr == cur then Outcome(Goto(s, t, SetTail(cur, s.tail, next, then_)), Tau)
    else Outcome(Goto(s, t, RelLoad(cur, Leaving(then_, s.tail))), Tau)
  }

  function Resume(after: After): Pc {
    match after
    case PushEnd => PushRet
    case PushAgain(item, node, was) => PushCount(item, node, was)
    case PopNone => PopRet(None)
    case PopAgain(was) => PopCount(was)
    case PopEnd(res) => PopRet(res)
  }

  function StepFoldLoad(s: State, t: Tid, was: CountedPtr, after: After): Outcome {
    if was.ptr !in s.heap then Fault(s) else Outcome(Goto(s, t, FoldCas(was, s.heap[was.ptr].count, after)), Tau)
  }

  function Gone(c: Count): bool {
    c.internal == 0 && c.links == 0
  }

  function StepFoldCas(s: State, t: Tid, was: CountedPtr, seen: Count, after: After): Outcome {
    if was.ptr !in s.heap then Fault(s)
    else if s.heap[was.ptr].count == seen then
      var c := Count(Wrap(seen.internal + was.ext - 2), (seen.links + 3) % 4);
      Outcome(Goto(SetNode(s, was.ptr, s.heap[was.ptr].(count := c)), t,
                   if Gone(c) then Reap(was.ptr, after) else Resume(after)), Tau)
    else Outcome(Goto(s, t, FoldCas(was, s.heap[was.ptr].count, after)), Tau)
  }

  function StepRelLoad(s: State, t: Tid, p: Addr, after: After): Outcome {
    if p !in s.heap then Fault(s) else Outcome(Goto(s, t, RelCas(p, s.heap[p].count, after)), Tau)
  }

  function StepRelCas(s: State, t: Tid, p: Addr, seen: Count, after: After): Outcome {
    if p !in s.heap then Fault(s)
    else if s.heap[p].count == seen then
      var c := Count(Wrap(seen.internal - 1), seen.links);
      Outcome(Goto(SetNode(s, p, s.heap[p].(count := c)), t, if Gone(c) then Reap(p, after) else Resume(after)), Tau)
    else Outcome(Goto(s, t, RelCas(p, s.heap[p].count, after)), Tau)
  }

  function StepPopCount(s: State, t: Tid, was: CountedPtr): Outcome {
    if s.head == was then
      var more := was.(ext := was.ext + 1);
      Outcome(Goto(s.(head := more), t, PopTail(more)), Tau)
    else Outcome(Goto(s, t, PopCount(s.head)), Tau)
  }

  function StepPopTail(s: State, t: Tid, was: CountedPtr): Outcome {
    if was.ptr == s.tail.ptr then Outcome(Goto(s, t, RelLoad(was.ptr, PopNone)), LinPop(t, None))
    else Outcome(Goto(s, t, PopNext(was)), Tau)
  }

  function StepPopNext(s: State, t: Tid, was: CountedPtr): Outcome {
    if was.ptr !in s.heap then Fault(s) else Outcome(Goto(s, t, PopCas(was, s.heap[was.ptr].next)), Tau)
  }

  function ValueOf(o: Option<Item>): Option<Value> {
    match o
    case None => None
    case Some(item) => Some(item.v)
  }

  function StepPopCas(s: State, t: Tid, was: CountedPtr, next: CountedPtr): Outcome {
    if s.head == was then
      Outcome(Goto(s.(head := next), t, PopTake(was)),
              LinPop(t, if was.ptr in s.heap then ValueOf(s.heap[was.ptr].data) else None))
    else Outcome(Goto(s, t, RelLoad(was.ptr, PopAgain(s.head))), Tau)
  }

  function StepPopTake(s: State, t: Tid, was: CountedPtr): Outcome {
    if was.ptr !in s.heap then Fault(s)
    else
      var n := s.heap[was.ptr];
      Outcome(Goto(SetNode(s, was.ptr, n.(data := None)), t, FoldLoad(was, PopEnd(n.data))), Tau)
  }

  function Step(s: State, t: Tid, c: Choice): Outcome {
    var spurious := c.Go? && c.spurious;
    match PcOf(s, t)
    case Idle => Start(s, t, c)
    case PushLoad(item, node) => Outcome(Goto(s, t, PushCount(item, node, s.tail)), Tau)
    case PushCount(item, node, was) => StepPushCount(s, t, item, node, was)
    case PushData(item, node, was) => StepPushData(s, t, item, node, was)
    case PushPeek(item, node, was) =>
      if was.ptr !in s.heap then Fault(s)
      else Outcome(Goto(s, t, PushLink(item, node, was)), Tau)
    case PushLink(item, node, was) => StepPushLink(s, t, item, node, was)
    case PushTrash(item, node, was, next) => StepDelete(s, t, node, SetTail(was.ptr, was, next, Finish(item)))
    case HelpLink(item, node, was) => StepHelpLink(s, t, item, node, was)
    case HelpNew(item, was, next) => StepHelpNew(s, t, item, was, next, if c.Go? then c.at else NULL)
    case SetTail(cur, was, next, then_) => StepSetTail(s, t, cur, was, next, then_, spurious)
    case FoldLoad(was, after) => StepFoldLoad(s, t, was, after)
    case FoldCas(was, seen, after) => StepFoldCas(s, t, was, seen, after)
    case RelLoad(p, after) => StepRelLoad(s, t, p, after)
    case RelCas(p, seen, after) => StepRelCas(s, t, p, seen, after)
    case Reap(p, after) => StepDelete(s, t, p, Resume(after))
    case PopLoad => Outcome(Goto(s, t, PopCount(s.head)), Tau)
    case PopCount(was) => StepPopCount(s, t, was)
    case PopTail(was) => StepPopTail(s, t, was)
    case PopNext(was) => StepPopNext(s, t, was)
    case PopCas(was, next) => StepPopCas(s, t, was, next)
    case PopTake(was) => StepPopTake(s, t, was)
    case PushRet => Outcome(Goto(s, t, Idle), RetPush(t))
    case PopRet(res) => Outcome(Goto(s, t, Idle), RetPop(t, ValueOf(res)))
  }

  type Schedule = seq<(Tid, Choice)>

  function Run(s: State, sched: Schedule): State
    decreases sched
  {
    if sched == [] then s else Run(Step(s, sched[0].0, sched[0].1).s, sched[1..])
  }

  function Labels(s: State, sched: Schedule): seq<Label>
    decreases sched
  {
    if sched == [] then []
    else
      var o := Step(s, sched[0].0, sched[0].1);
      [o.l] + Labels(o.s, sched[1..])
  }

  lemma {:induction false} RunConcat(s: State, p: Schedule, q: Schedule)
    ensures Run(s, p + q) == Run(Run(s, p), q) && Labels(s, p + q) == Labels(s, p) + Labels(Run(s, p), q)
    decreases p
  {
    if p == [] {
      assert p + q == q;
    } else {
      assert (p + q)[0] == p[0] && (p + q)[1..] == p[1..] + q;
      RunConcat(Step(s, p[0].0, p[0].1).s, p[1..], q);
    }
  }
}
