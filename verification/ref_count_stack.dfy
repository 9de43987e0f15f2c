/** `ref_count_stack` of inc/public/ts_stack.h: a lock-free stack that reclaims its nodes with a
    split reference count.  The pointer to a node carries the number of threads that have come
    through it (`ext`), the node itself the number that have left (`internal`).

    Every atomic access is one step of one thread, so a schedule is a sequence of thread choices.
    `new` may hand out any address that is not allocated, including one that `delete` gave back.
    A step that touches an unallocated address raises `fault`; the throw inside `pop` raises
    `threw`. */
module RefCountStack {
  import opened Options
  import opened AtomicStack

  type Addr = nat
  const NULL: Addr := 0

  datatype CountedPtr = CountedPtr(ext: int, ptr: Addr)
  datatype Node = Node(data: Option<Value>, internal: int, next: CountedPtr)

  /** Program counters.  `was` is the local `old_head`. */
  datatype Pc =
    | Idle
    | PushLoad(n: Addr)                              // next = head.load()
    | PushCas(n: Addr)                               // CAS(next -> {1, n})
    | PushDone
    | PopLoad                                        // was = head.load()
    | PopCount(was: CountedPtr)                      // CAS that adds one to head's count
    | PopTest(was: CountedPtr)                       // is was.ptr null, else read ptr->next
    | PopCas(was: CountedPtr, next: CountedPtr)      // CAS(was -> next)
    | PopTake(was: CountedPtr)                       // res.swap(ptr->data)
    | PopFold(was: CountedPtr, res: Option<Value>)   // fetch_add(ext - 2)
    | PopFree(p: Addr, res: Option<Value>)           // delete, then return
    | PopRet(res: Option<Value>)
    | PopDrop(p: Addr, was: CountedPtr)              // fetch_add(-1)
    | PopReload(p: Addr, was: CountedPtr)            // the acquire load before delete
    | PopReap(p: Addr, was: CountedPtr)              // delete, then loop
    | Threw

  datatype State = State(heap: map<Addr, Node>, head: CountedPtr, threads: map<Tid, Pc>, fault: bool, threw: bool)

  /** What the environment decides: the call an idle thread makes, the address `new` returns, and
      whether a weak CAS fails without cause. */
  datatype Choice = Push(v: Value, at: Addr) | Pop | Go(spurious: bool)

  datatype Outcome = Outcome(s: State, l: Label)

  const INIT := State(map[], CountedPtr(0, NULL), map[], false, false)

  function PcOf(s: State, t: Tid): Pc {
    if t in s.threads then s.threads[t] else Idle
  }

  function Goto(s: State, t: Tid, pc: Pc): State {
    s.(threads := s.threads[t := pc])
  }

  function Fault(s: State): Outcome {
    Outcome(s.(fault := true), Tau)
  }

  function SetNode(s: State, p: Addr, n: Node): State {
    s.(heap := s.heap[p := n])
  }

  function Delete(s: State, p: Addr): State {
    s.(heap := s.heap - {p})
  }

  function Start(s: State, t: Tid, c: Choice): Outcome {
    match c
    case Push(v, a) =>
      if a == NULL || a in s.heap then Outcome(s, Tau)
      else Outcome(Goto(SetNode(s, a, Node(Some(v), 0, CountedPtr(0, NULL))), t, PushLoad(a)), CallPush(t, v))
    case Pop => Outcome(Goto(s, t, PopLoad), CallPop(t))
    case Go(_) => Outcome(s, Tau)
  }

  function StepPushLoad(s: State, t: Tid, n: Addr): Outcome {
    if n !in s.heap then Fault(s)
    else Outcome(Goto(SetNode(s, n, s.heap[n].(next := s.head)), t, PushCas(n)), Tau)
  }

  function StepPushCas(s: State, t: Tid, n: Addr, spurious: bool): Outcome {
    if n !in s.heap then Fault(s)
    else if s.heap[n].next == s.head && !spurious then
      Outcome(Goto(s.(head := CountedPtr(1, n)), t, PushDone),
              match s.heap[n].data case Some(v) => LinPush(t, v) case None => Tau)
    else Outcome(SetNode(s, n, s.heap[n].(next := s.head)), Tau)
  }

  /** increase_head_count: a strong CAS, retried with the value it found. */
  function StepPopCount(s: State, t: Tid, was: CountedPtr): Outcome {
    if s.head == was then
      var more := was.(ext := was.ext + 1);
      Outcome(Goto(s.(head := more), t, PopTest(more)), if was.ptr == NULL then LinPop(t, None) else Tau)
    else Outcome(Goto(s, t, PopCount(s.head)), Tau)
  }

  function StepPopTest(s: State, t: Tid, was: CountedPtr): Outcome {
    if was.ptr == NULL then Outcome(Goto(s, t, PopRet(None)), Tau)
    else if was.ptr !in s.heap then Fault(s)
    else Outcome(Goto(s, t, PopCas(was, s.heap[was.ptr].next)), Tau)
  }

  function StepPopCas(s: State, t: Tid, was: CountedPtr, next: CountedPtr): Outcome {
    if s.head == was then
      Outcome(Goto(s.(head := next), t, PopTake(was)),
              LinPop(t, if was.ptr in s.heap then s.heap[was.ptr].data else None))
    else Outcome(Goto(s, t, PopDrop(was.ptr, s.head)), Tau)
  }

  function StepPopTake(s: State, t: Tid, was: CountedPtr): Outcome {
    if was.ptr !in s.heap then Fault(s)
    else
      var res := s.heap[was.ptr].data;
      var s' := SetNode(s, was.ptr, s.heap[was.ptr].(data := None));
      if res == None then Outcome(Goto(s', t, Threw).(threw := true), Tau)
      else Outcome(Goto(s', t, PopFold(was, res)), Tau)
  }

  function StepPopFold(s: State, t: Tid, was: CountedPtr, res: Option<Value>): Outcome {
    if was.ptr !in s.heap then Fault(s)
    else
      var n := s.heap[was.ptr];
      var increase := was.ext - 2;
      var s' := SetNode(s, was.ptr, n.(internal := n.internal + increase));
      Outcome(Goto(s', t, if n.internal == -increase then PopFree(was.ptr, res) else PopRet(res)), Tau)
  }

  function StepPopDrop(s: State, t: Tid, p: Addr, was: CountedPtr): Outcome {
    if p !in s.heap then Fault(s)
    else
      var n := s.heap[p];
      var s' := SetNode(s, p, n.(internal := n.internal - 1));
      Outcome(Goto(s', t, if n.internal == 1 then PopReload(p, was) else PopCount(was)), Tau)
  }

  function StepDelete(s: State, t: Tid, p: Addr, next: Pc): Outcome {
    if p !in s.heap then Fault(s) else Outcome(Goto(Delete(s, p), t, next), Tau)
  }

  function Step(s: State, t: Tid, c: Choice): Outcome {
    match PcOf(s, t)
    case Idle => Start(s, t, c)
    case PushLoad(n) => StepPushLoad(s, t, n)
    case PushCas(n) => StepPushCas(s, t, n, c.Go? && c.spurious)
    case PushDone => Outcome(Goto(s, t, Idle), RetPush(t))
    case PopLoad => Outcome(Goto(s, t, PopCount(s.head)), Tau)
    case PopCount(was) => StepPopCount(s, t, was)
    case PopTest(was) => StepPopTest(s, t, was)
    case PopCas(was, next) => StepPopCas(s, t, was, next)
    case PopTake(was) => StepPopTake(s, t, was)
    case PopFold(was, res) => StepPopFold(s, t, was, res)
    case PopFree(p, res) => StepDelete(s, t, p, PopRet(res))
    case PopRet(res) => Outcome(Goto(s, t, Idle), RetPop(t, res))
    case PopDrop(p, was) => StepPopDrop(s, t, p, was)
    case PopReload(p, was) => if p !in s.heap then Fault(s) else Outcome(Goto(s, t, PopReap(p, was)), Tau)
    case PopReap(p, was) => StepDelete(s, t, p, PopCount(was))
    case Threw => Outcome(s, Tau)
  }

  type Schedule = seq<(Tid, Choice)>

  function Run(s: State, sched: Schedule): State
    decreases sched
  {
    if sched == [] then s else Run(Step(s, sched[0].0, sched[0].1).s, sched[1..])
  }

  function Labels(s: State, sched: Schedule): seq<Label>
    decreases sched
  {
    if sched == [] then []
    else
      var o := Step(s, sched[0].0, sched[0].1);
      [o.l] + Labels(o.s, sched[1..])
  }

  lemma {:induction false} RunConcat(s: State, p: Schedule, q: Schedule)
    ensures Run(s, p + q) == Run(Run(s, p), q) && Labels(s, p + q) == Labels(s, p) + Labels(Run(s, p), q)
    decreases p
  {
    if p == [] {
      assert p + q == q;
    } else {
      assert (p + q)[0] == p[0] && (p + q)[1..] == p[1..] + q;
      RunConcat(Step(s, p[0].0, p[0].1).s, p[1..], q);
    }
  }

  // ---------------------------------------------------------------- the invariant

  /** The node a thread has counted itself on and not yet let go of.  The thread that unlinked a
      node is no longer one of them. */
  predicate Holds(pc: Pc, p: Addr) {
    p != NULL &&
    match pc
    case PopTest(was) => was.ptr == p
    case PopCas(was, _) => was.ptr == p
    case PopDrop(q, _) => q == p
    case _ => false
  }

  function Holders(s: State, p: Addr): set<Tid> {
    set t | t in s.threads && Holds(s.threads[t], p)
  }

  /** Who answers for an allocated node: its pusher, the stack (at a height counted from the
      bottom), the popper that unlinked it, nobody in particular once that popper has folded its
      count in, or the one thread that will delete it. */
  datatype Role = Fresh(t: Tid) | Linked(at: nat) | Detached(t: Tid) | Folded | Doomed(t: Tid)

  datatype Proof = Proof(chain: seq<Addr>, role: map<Addr, Role>)

  /** The counted pointer that leads to height `i`. */
  function LinkTo(s: State, chain: seq<Addr>, i: nat): CountedPtr
    requires i < |chain|
    requires forall j :: 0 <= j < |chain| ==> chain[j] in s.heap
  {
    if i == |chain| - 1 then s.head else s.heap[chain[i + 1]].next
  }

  function Below(chain: seq<Addr>, i: nat): Addr
    requires i <= |chain|
  {
    if i == 0 then NULL else chain[i - 1]
  }

  predicate Leads(s: State, chain: seq<Addr>, i: nat)
    requires i < |chain| && chain[i] in s.heap
  {
    s.heap[chain[i]].next.ptr == Below(chain, i)
  }

  ghost predicate ChainOk(s: State, x: Proof, a: Spec) {
    && |a.items| == |x.chain|
    && (forall i :: 0 <= i < |x.chain| ==>
        x.chain[i] in s.heap && x.chain[i] in x.role && x.role[x.chain[i]] == Linked(i))
    && s.head.ptr == Below(x.chain, |x.chain|)
    && (forall i {:trigger Leads(s, x.chain, i)} :: 0 <= i < |x.chain| ==> Leads(s, x.chain, i))
  }

  ghost predicate NodeOk(s: State, x: Proof, a: Spec, p: Addr)
    requires ChainOk(s, x, a) && p in s.heap && p in x.role
  {
    var n := s.heap[p];
    match x.role[p]
    case Fresh(t) =>
      && (PcOf(s, t) == PushLoad(p) || PcOf(s, t) == PushCas(p)) && n.internal == 0
      && n.data.Some? && OpOf(a, t) == Pushing(n.data.value) && |Holders(s, p)| == 0
    case Linked(i) =>
      && i < |x.chain| && x.chain[i] == p && n.data == Some(a.items[i]) && n.internal <= 0
      && LinkTo(s, x.chain, i).ext - 1 + n.internal == |Holders(s, p)|
    case Detached(t) =>
      && n.internal <= 0
      && (match PcOf(s, t)
          case PopTake(was) => was.ptr == p && n.data.Some? && OpOf(a, t) == Popped(n.data)
                               && was.ext - 2 + n.internal == |Holders(s, p)|
          case PopFold(was, _) => was.ptr == p && was.ext - 2 + n.internal == |Holders(s, p)|
          case _ => false)
    case Folded => n.internal == |Holders(s, p)| > 0
    case Doomed(t) =>
      && |Holders(s, p)| == 0
      && (match PcOf(s, t)
          case PopFree(q, _) => q == p
          case PopReload(q, _) => q == p
          case PopReap(q, _) => q == p
          case _ => false)
  }

  /** A node other threads may be holding. */
  predicate Shared(r: Role) {
    r.Linked? || r.Detached? || r.Folded?
  }

  predicate Held(s: State, x: Proof, p: Addr) {
    p in s.heap && p in x.role && Shared(x.role[p])
  }

  predicate ThreadOk(s: State, x: Proof, a: Spec, t: Tid) {
    match PcOf(s, t)
    case Idle => OpOf(a, t) == Free
    case PushLoad(n) => n in x.role && x.role[n] == Fresh(t)
    case PushCas(n) => n in x.role && x.role[n] == Fresh(t)
    case PushDone => OpOf(a, t) == Pushed
    case PopLoad => OpOf(a, t) == Popping
    case PopCount(_) => OpOf(a, t) == Popping
    case PopTest(was) =>
      if was.ptr == NULL then OpOf(a, t) == Popped(None) else OpOf(a, t) == Popping && Held(s, x, was.ptr)
    case PopCas(was, next) =>
      OpOf(a, t) == Popping && was.ptr != NULL && Held(s, x, was.ptr) && next == s.heap[was.ptr].next
    case PopTake(was) => was.ptr in x.role && x.role[was.ptr] == Detached(t)
    case PopFold(was, res) => was.ptr in x.role && x.role[was.ptr] == Detached(t) && OpOf(a, t) == Popped(res)
    case PopFree(p, res) => p in x.role && x.role[p] == Doomed(t) && OpOf(a, t) == Popped(res)
    case PopRet(res) => OpOf(a, t) == Popped(res)
    case PopDrop(p, _) => OpOf(a, t) == Popping && p != NULL && Held(s, x, p)
    case PopReload(p, _) => OpOf(a, t) == Popping && p in x.role && x.role[p] == Doomed(t)
    case PopReap(p, _) => OpOf(a, t) == Popping && p in x.role && x.role[p] == Doomed(t)
    case Threw => false
  }

  ghost predicate Inv(s: State, x: Proof, a: Spec) {
    && !s.fault && !s.threw
    && NULL !in s.heap && x.role.Keys == s.heap.Keys
    && ChainOk(s, x, a)
    && (forall p {:trigger NodeOk(s, x, a, p)} :: p in s.heap ==> NodeOk(s, x, a, p))
    && (forall t: Tid {:trigger ThreadOk(s, x, a, t)} :: ThreadOk(s, x, a, t))
  }

  // ---------------------------------------------------------------- every step keeps it

  /** The one node a program counter is about. */
  function About(pc: Pc): Addr {
    match pc
    case PushLoad(n) => n
    case PushCas(n) => n
    case PopTest(was) => was.ptr
    case PopCas(was, _) => was.ptr
    case PopTake(was) => was.ptr
    case PopFold(was, _) => was.ptr
    case PopFree(p, _) => p
    case PopDrop(p, _) => p
    case PopReload(p, _) => p
    case PopReap(p, _) => p
    case _ => NULL
  }

  function OwnerOf(r: Role): Option<Tid> {
    match r
    case Fresh(t) => Some(t)
    case Detached(t) => Some(t)
    case Doomed(t) => Some(t)
    case _ => None
  }

  /** A thread that does not move stays in order when the node it is about keeps its role, or
      only changes between roles in which it may be held. */
  lemma ThreadFrame(s: State, x: Proof, a: Spec, s': State, x': Proof, a': Spec, u: Tid)
    requires ThreadOk(s, x, a, u) && PcOf(s', u) == PcOf(s, u) && OpOf(a', u) == OpOf(a, u)
    requires var p := About(PcOf(s, u));
             p in x.role ==> p in x'.role && (x.role[p] == x'.role[p] || (Shared(x'.role[p]) && Holds(PcOf(s, u), p)))
    requires var p := About(PcOf(s, u));
             p in s.heap && Holds(PcOf(s, u), p) ==> p in s'.heap && s.heap[p].next == s'.heap[p].next
    ensures ThreadOk(s', x', a', u)
  {
  }

  /** The chain survives any step that keeps its nodes and their links. */
  lemma ChainFrame(s: State, x: Proof, a: Spec, s': State, x': Proof)
    requires ChainOk(s, x, a) && x'.chain == x.chain && s'.head.ptr == s.head.ptr
    requires forall p :: p in x.role && x.role[p].Linked? ==>
      p in s.heap && p in s'.heap && s'.heap[p].next == s.heap[p].next && p in x'.role && x'.role[p] == x.role[p]
    ensures forall a': Spec | a'.items == a.items :: ChainOk(s', x', a')
  {
    forall i | 0 <= i < |x.chain| ensures x.chain[i] in s'.heap && Leads(s', x.chain, i) {
      assert Leads(s, x.chain, i);
    }
  }

  lemma NodeFrame(s: State, x: Proof, a: Spec, s': State, x': Proof, a': Spec, p: Addr)
    requires ChainOk(s, x, a) && p in s.heap && p in x.role && NodeOk(s, x, a, p)
    requires ChainOk(s', x', a') && p in s'.heap && p in x'.role && s'.heap[p] == s.heap[p] && x'.role[p] == x.role[p]
    requires |Holders(s', p)| == |Holders(s, p)|
    requires var o := OwnerOf(x.role[p]); o.Some? ==>
             PcOf(s', o.value) == PcOf(s, o.value) && OpOf(a', o.value) == OpOf(a, o.value)
    requires var r := x.role[p];
             r.Linked? ==>
               && r.at < |x'.chain| && x'.chain[r.at] == p && a'.items[r.at] == a.items[r.at]
               && LinkTo(s', x'.chain, r.at).ext == LinkTo(s, x.chain, r.at).ext
    ensures NodeOk(s', x', a', p)
  {
  }

  /** Moving one thread changes the holders of a node by that thread alone. */
  lemma Counting(s: State, s': State, t: Tid, pc: Pc, p: Addr)
    requires s'.threads == s.threads[t := pc]
    ensures |Holders(s', p)| == |Holders(s, p)|
            + (if Holds(pc, p) then 1 else 0) - (if Holds(PcOf(s, t), p) then 1 else 0)
  {
    var rest := Holders(s, p) - {t};
    assert Holders(s, p) == if Holds(PcOf(s, t), p) then rest + {t} else rest;
    assert Holders(s', p) == if Holds(pc, p) then rest + {t} else rest;
  }

  ghost predicate Simulates(o: Outcome, x: Proof, a: Spec) {
    Next(a, o.l).Some? && Inv(o.s, x, Next(a, o.l).value)
  }

  /** The frame of a step of `t` that is about node `n` (NULL for none): nothing else moves. */
  ghost predicate Touches(s: State, x: Proof, a: Spec, s': State, x': Proof, a': Spec, t: Tid, n: Addr) {
    && ChainOk(s, x, a) && ChainOk(s', x', a') && x.role.Keys == s.heap.Keys && x'.role.Keys == s'.heap.Keys
    && s'.threads == s.threads[t := PcOf(s', t)]
    && (forall u :: u != t ==> OpOf(a', u) == OpOf(a, u))
    && (forall p :: p in s'.heap && p != n ==> p in s.heap && s'.heap[p] == s.heap[p] && x'.role[p] == x.role[p])
    && (forall p :: p in s.heap && p != n ==> p in s'.heap)
    && (forall i :: 0 <= i < |x.chain| && i < |x'.chain| ==>
          x'.chain[i] == x.chain[i] && a'.items[i] == a.items[i]
          && (x.chain[i] != n ==> LinkTo(s', x'.chain, i).ext == LinkTo(s, x.chain, i).ext))
    && (forall i :: |x'.chain| <= i < |x.chain| ==> x.chain[i] == n)
  }

  /** What happens to `n` itself may not surprise a thread other than `t`: its role stays, or it
      passes from `t` (or from nobody) to a role in which it can be held, or nobody holds it. */
  ghost predicate Discreet(s: State, x: Proof, s': State, x': Proof, t: Tid, n: Addr) {
    n in s.heap && n in x.role ==>
      && (|| |Holders(s', n)| == 0
          || (n in s'.heap && n in x'.role && s'.heap[n].next == s.heap[n].next
              && (x'.role[n] == x.role[n] || Shared(x'.role[n]))))
      && ((n in x'.role && x'.role[n] == x.role[n]) || OwnerOf(x.role[n]) == None || OwnerOf(x.role[n]) == Some(t))
  }

  lemma OthersKeep(s: State, x: Proof, a: Spec, s': State, x': Proof, a': Spec, t: Tid, n: Addr, u: Tid)
    requires Inv(s, x, a) && Touches(s, x, a, s', x', a', t, n) && Discreet(s, x, s', x', t, n) && u != t
    ensures ThreadOk(s', x', a', u)
  {
    assert ThreadOk(s, x, a, u);
    var p := About(PcOf(s, u));
    if p in s.heap && p == n {
      assert NodeOk(s, x, a, p);
      if Holds(PcOf(s, u), p) {
        assert u in Holders(s', p);
      }
    }
    ThreadFrame(s, x, a, s', x', a', u);
  }

  lemma NodesKeep(s: State, x: Proof, a: Spec, s': State, x': Proof, a': Spec, t: Tid, n: Addr, p: Addr)
    requires Inv(s, x, a) && Touches(s, x, a, s', x', a', t, n) && p != n && p in s'.heap
    requires About(PcOf(s, t)) == n || About(PcOf(s, t)) == NULL
    requires About(PcOf(s', t)) == n || About(PcOf(s', t)) == NULL
    ensures NodeOk(s', x', a', p)
  {
    assert NodeOk(s, x, a, p) && ThreadOk(s, x, a, t);
    Counting(s, s', t, PcOf(s', t), p);
    NodeFrame(s, x, a, s', x', a', p);
  }

  /** A step of one thread about one node keeps the invariant as soon as that thread and that
      node come out of it in order. */
  lemma Frame(s: State, x: Proof, a: Spec, s': State, x': Proof, a': Spec, t: Tid, n: Addr)
    requires Inv(s, x, a) && Touches(s, x, a, s', x', a', t, n) && Discreet(s, x, s', x', t, n)
    requires !s'.fault && !s'.threw && NULL !in s'.heap
    requires About(PcOf(s, t)) == n || About(PcOf(s, t)) == NULL
    requires About(PcOf(s', t)) == n || About(PcOf(s', t)) == NULL
    requires ThreadOk(s', x', a', t)
    requires n in s'.heap ==> NodeOk(s', x', a', n)
    ensures Inv(s', x', a')
  {
    forall p | p in s'.heap ensures NodeOk(s', x', a', p) {
      if p != n {
        NodesKeep(s, x, a, s', x', a', t, n, p);
      }
    }
    forall u: Tid ensures ThreadOk(s', x', a', u) {
      if u != t {
        OthersKeep(s, x, a, s', x', a', t, n, u);
      }
    }
  }

  lemma NobodyHolds(s: State, x: Proof, a: Spec, p: Addr)
    requires Inv(s, x, a) && p !in s.heap
    ensures Holders(s, p) == {}
  {
    forall u | u in s.threads ensures !Holds(s.threads[u], p) {
      assert ThreadOk(s, x, a, u);
    }
  }

  lemma ChainPush(s: State, x: Proof, a: Spec, t: Tid, n: Addr)
    requires Inv(s, x, a) && PcOf(s, t) == PushCas(n) && n in s.heap && s.heap[n].next == s.head
    ensures var o := StepPushCas(s, t, n, false);
            Next(a, o.l).Some? && ChainOk(o.s, Proof(x.chain + [n], x.role[n := Linked(|x.chain|)]), Next(a, o.l).value)
  {
    assert ThreadOk(s, x, a, t) && NodeOk(s, x, a, n);
    var o := StepPushCas(s, t, n, false);
    hide ChainOk;
    LongerChain(s, x, a, o.s, Next(a, o.l).value, n);
  }

  lemma LongerChain(s: State, x: Proof, a: Spec, s': State, a': Spec, n: Addr)
    requires ChainOk(s, x, a) && n in s.heap && s.heap[n].next == s.head && n in x.role && x.role[n].Fresh?
    requires s'.heap == s.heap && s'.head.ptr == n && |a'.items| == |a.items| + 1
    ensures ChainOk(s', Proof(x.chain + [n], x.role[n := Linked(|x.chain|)]), a')
  {
    var chain := x.chain + [n];
    forall i | 0 <= i < |chain| ensures chain[i] in s'.heap && Leads(s', chain, i) {
      if i < |x.chain| {
        assert Leads(s, x.chain, i);
      }
    }
  }

  lemma ChainPop(s: State, x: Proof, a: Spec, s': State, x': Proof, a': Spec)
    requires ChainOk(s, x, a) && s.head.ptr != NULL
    requires s'.heap == s.heap && s'.head == s.heap[s.head.ptr].next
    requires x'.chain == x.chain[..|x.chain| - 1] && a'.items == a.items[..|a.items| - 1]
    requires forall p :: p in x.role && p != s.head.ptr ==> p in x'.role && x'.role[p] == x.role[p]
    ensures ChainOk(s', x', a')
  {
    var top := |x.chain| - 1;
    assert Leads(s, x.chain, top) && x.role[x.chain[top]] == Linked(top);
    forall i | 0 <= i < top
      ensures x'.chain[i] in s'.heap && Leads(s', x'.chain, i) && x'.chain[i] in x'.role
      ensures x'.role[x'.chain[i]] == Linked(i)
    {
      assert x'.chain[i] == x.chain[i] && x.role[x.chain[i]] == Linked(i) && Leads(s, x.chain, i);
    }
  }

  lemma KeepsNew(s: State, x: Proof, a: Spec, t: Tid, v: Value, n: Addr) returns (x': Proof)
    requires Inv(s, x, a) && PcOf(s, t) == Idle && n != NULL && n !in s.heap
    ensures Simulates(Start(s, t, Push(v, n)), x', a)
  {
    assert ThreadOk(s, x, a, t);
    var s' := Start(s, t, Push(v, n)).s;
    var a' := Set(a, t, Pushing(v));
    x' := x.(role := x.role[n := Fresh(t)]);
    NobodyHolds(s, x, a, n);
    Counting(s, s', t, PushLoad(n), n);
    ChainFrame(s, x, a, s', x');
    Frame(s, x, a, s', x', a', t, n);
  }

  lemma KeepsStart(s: State, x: Proof, a: Spec, t: Tid, c: Choice) returns (x': Proof)
    requires Inv(s, x, a) && PcOf(s, t) == Idle
    ensures Simulates(Start(s, t, c), x', a)
  {
    hide ChainOk;
    assert ThreadOk(s, x, a, t);
    var o := Start(s, t, c);
    var a' := Next(a, o.l).value;
    x' := x;
    if c.Push? && c.at != NULL && c.at !in s.heap {
      x' := KeepsNew(s, x, a, t, c.v, c.at);
    } else if c.Pop? {
      ChainFrame(s, x, a, o.s, x');
      Frame(s, x, a, o.s, x', a', t, NULL);
    }
  }

  lemma KeepsPushLoad(s: State, x: Proof, a: Spec, t: Tid, n: Addr)
    requires Inv(s, x, a) && PcOf(s, t) == PushLoad(n)
    ensures Simulates(StepPushLoad(s, t, n), x, a)
  {
    assert ThreadOk(s, x, a, t) && NodeOk(s, x, a, n);
    var o := StepPushLoad(s, t, n);
    Counting(s, o.s, t, PushCas(n), n);
    ChainFrame(s, x, a, o.s, x);
    Frame(s, x, a, o.s, x, a, t, n);
  }

  lemma KeepsPushCas(s: State, x: Proof, a: Spec, t: Tid, n: Addr, spurious: bool) returns (x': Proof)
    requires Inv(s, x, a) && PcOf(s, t) == PushCas(n)
    ensures Simulates(StepPushCas(s, t, n, spurious), x', a)
  {
    assert ThreadOk(s, x, a, t) && NodeOk(s, x, a, n);
    var o := StepPushCas(s, t, n, spurious);
    Counting(s, o.s, t, PcOf(o.s, t), n);
    if s.heap[n].next == s.head && !spurious {
      x' := Proof(x.chain + [n], x.role[n := Linked(|x.chain|)]);
      ChainPush(s, x, a, t, n);
      Frame(s, x, a, o.s, x', Next(a, o.l).value, t, n);
    } else {
      x' := x;
      ChainFrame(s, x, a, o.s, x');
      Frame(s, x, a, o.s, x, a, t, n);
    }
  }

  lemma KeepsPopCount(s: State, x: Proof, a: Spec, t: Tid, was: CountedPtr)
    requires Inv(s, x, a) && PcOf(s, t) == PopCount(was)
    ensures Simulates(StepPopCount(s, t, was), x, a)
  {
    assert ThreadOk(s, x, a, t);
    var o := StepPopCount(s, t, was);
    var a' := Next(a, o.l).value;
    if was.ptr in s.heap {
      assert NodeOk(s, x, a, was.ptr);
    }
    Counting(s, o.s, t, PcOf(o.s, t), was.ptr);
    ChainFrame(s, x, a, o.s, x);
    Frame(s, x, a, o.s, x, a', t, if s.head == was then was.ptr else NULL);
  }

  lemma KeepsPopTest(s: State, x: Proof, a: Spec, t: Tid, was: CountedPtr)
    requires Inv(s, x, a) && PcOf(s, t) == PopTest(was)
    ensures Simulates(StepPopTest(s, t, was), x, a)
  {
    hide ChainOk;
    assert ThreadOk(s, x, a, t);
    var o := StepPopTest(s, t, was);
    if was.ptr != NULL {
      assert NodeOk(s, x, a, was.ptr);
    }
    Counting(s, o.s, t, PcOf(o.s, t), was.ptr);
    ChainFrame(s, x, a, o.s, x);
    Frame(s, x, a, o.s, x, a, t, was.ptr);
  }

  lemma UnlinkTouches(s: State, x: Proof, a: Spec, s': State, x': Proof, a': Spec, t: Tid)
    requires ChainOk(s, x, a) && x.role.Keys == s.heap.Keys && s.head.ptr != NULL
    requires s' == s.(head := s'.head, threads := s.threads[t := PcOf(s', t)]) && s.head.ptr in s.heap
    requires s'.head == s.heap[s.head.ptr].next && a'.items == a.items[..|a.items| - 1]
    requires x.chain != [] && x' == Proof(x.chain[..|x.chain| - 1], x.role[s.head.ptr := Detached(t)])
    requires ChainOk(s', x', a') && forall u :: u != t ==> OpOf(a', u) == OpOf(a, u)
    ensures Touches(s, x, a, s', x', a', t, s.head.ptr)
  {
  }

  lemma AtTop(s: State, x: Proof, a: Spec)
    requires ChainOk(s, x, a) && s.head.ptr != NULL
    ensures x.chain != [] && s.head.ptr in x.role && x.role[s.head.ptr] == Linked(|x.chain| - 1)
    ensures |a.items| == |x.chain|
  {
    assert x.role[x.chain[|x.chain| - 1]] == Linked(|x.chain| - 1);
  }

  lemma KeepsUnlink(s: State, x: Proof, a: Spec, t: Tid, was: CountedPtr, next: CountedPtr) returns (x': Proof)
    requires Inv(s, x, a) && PcOf(s, t) == PopCas(was, next) && s.head == was
    ensures Simulates(StepPopCas(s, t, was, next), x', a)
  {
    hide Touches, ChainOk;
    assert ThreadOk(s, x, a, t) && NodeOk(s, x, a, was.ptr);
    var o := StepPopCas(s, t, was, next);
    AtTop(s, x, a);
    assert o.l == LinPop(t, Top(a.items));
    var a' := Next(a, o.l).value;
    x' := Proof(x.chain[..|x.chain| - 1], x.role[was.ptr := Detached(t)]);
    Counting(s, o.s, t, PopTake(was), was.ptr);
    ChainPop(s, x, a, o.s, x', a');
    UnlinkTouches(s, x, a, o.s, x', a', t);
    Frame(s, x, a, o.s, x', a', t, was.ptr);
  }

  lemma KeepsPopCas(s: State, x: Proof, a: Spec, t: Tid, was: CountedPtr, next: CountedPtr) returns (x': Proof)
    requires Inv(s, x, a) && PcOf(s, t) == PopCas(was, next)
    ensures Simulates(StepPopCas(s, t, was, next), x', a)
  {
    assert ThreadOk(s, x, a, t) && NodeOk(s, x, a, was.ptr);
    var o := StepPopCas(s, t, was, next);
    Counting(s, o.s, t, PcOf(o.s, t), was.ptr);
    if s.head == was {
      x' := KeepsUnlink(s, x, a, t, was, next);
    } else {
      x' := x;
      ChainFrame(s, x, a, o.s, x);
      Frame(s, x, a, o.s, x, a, t, was.ptr);
    }
  }

  lemma KeepsPopTake(s: State, x: Proof, a: Spec, t: Tid, was: CountedPtr)
    requires Inv(s, x, a) && PcOf(s, t) == PopTake(was)
    ensures Simulates(StepPopTake(s, t, was), x, a)
  {
    hide ChainOk;
    assert ThreadOk(s, x, a, t) && NodeOk(s, x, a, was.ptr);
    var o := StepPopTake(s, t, was);
    Counting(s, o.s, t, PcOf(o.s, t), was.ptr);
    ChainFrame(s, x, a, o.s, x);
    Frame(s, x, a, o.s, x, a, t, was.ptr);
  }

  lemma KeepsPopFold(s: State, x: Proof, a: Spec, t: Tid, was: CountedPtr, res: Option<Value>) returns (x': Proof)
    requires Inv(s, x, a) && PcOf(s, t) == PopFold(was, res)
    ensures Simulates(StepPopFold(s, t, was, res), x', a)
  {
    hide ChainOk;
    assert ThreadOk(s, x, a, t) && NodeOk(s, x, a, was.ptr);
    assert x.role[was.ptr] == Detached(t);
    var o := StepPopFold(s, t, was, res);
    x' := x.(role := x.role[was.ptr := if PcOf(o.s, t).PopFree? then Doomed(t) else Folded]);
    Counting(s, o.s, t, PcOf(o.s, t), was.ptr);
    ChainFrame(s, x, a, o.s, x');
    Frame(s, x, a, o.s, x', a, t, was.ptr);
  }

  lemma KeepsPopDrop(s: State, x: Proof, a: Spec, t: Tid, p: Addr, was: CountedPtr) returns (x': Proof)
    requires Inv(s, x, a) && PcOf(s, t) == PopDrop(p, was)
    ensures Simulates(StepPopDrop(s, t, p, was), x', a)
  {
    hide ChainOk;
    assert ThreadOk(s, x, a, t) && NodeOk(s, x, a, p);
    var o := StepPopDrop(s, t, p, was);
    if s.heap[p].internal == 1 {
      x' := KeepsLastDrop(s, x, a, t, p, was);
    } else {
      x' := x;
      Counting(s, o.s, t, PopCount(was), p);
      ChainFrame(s, x, a, o.s, x');
      Frame(s, x, a, o.s, x', a, t, p);
    }
  }

  /** The fetch_add that brings a folded count to zero makes its thread the one that deletes. */
  lemma KeepsLastDrop(s: State, x: Proof, a: Spec, t: Tid, p: Addr, was: CountedPtr) returns (x': Proof)
    requires Inv(s, x, a) && PcOf(s, t) == PopDrop(p, was) && p in s.heap && s.heap[p].internal == 1
    ensures Simulates(StepPopDrop(s, t, p, was), x', a)
  {
    hide ChainOk;
    assert ThreadOk(s, x, a, t) && NodeOk(s, x, a, p);
    assert x.role[p] == Folded;
    var o := StepPopDrop(s, t, p, was);
    x' := x.(role := x.role[p := Doomed(t)]);
    Counting(s, o.s, t, PopReload(p, was), p);
    ChainFrame(s, x, a, o.s, x');
    Frame(s, x, a, o.s, x', a, t, p);
  }

  lemma KeepsPopReload(s: State, x: Proof, a: Spec, t: Tid, p: Addr, was: CountedPtr)
    requires Inv(s, x, a) && PcOf(s, t) == PopReload(p, was)
    ensures p in s.heap && Simulates(Outcome(Goto(s, t, PopReap(p, was)), Tau), x, a)
  {
    assert ThreadOk(s, x, a, t) && NodeOk(s, x, a, p);
    var s' := Goto(s, t, PopReap(p, was));
    Counting(s, s', t, PopReap(p, was), p);
    ChainFrame(s, x, a, s', x);
    Frame(s, x, a, s', x, a, t, p);
  }

  lemma DeleteTouches(s: State, x: Proof, a: Spec, s': State, x': Proof, t: Tid, p: Addr)
    requires ChainOk(s, x, a) && x.role.Keys == s.heap.Keys && p in x.role && !x.role[p].Linked?
    requires s' == s.(heap := s.heap - {p}, threads := s.threads[t := PcOf(s', t)])
    requires x' == x.(role := x.role - {p}) && ChainOk(s', x', a)
    ensures Touches(s, x, a, s', x', a, t, p)
  {
  }

  lemma KeepsDelete(s: State, x: Proof, a: Spec, t: Tid, p: Addr, next: Pc) returns (x': Proof)
    requires Inv(s, x, a)
    requires match PcOf(s, t)
             case PopFree(q, res) => q == p && next == PopRet(res)
             case PopReap(q, was) => q == p && next == PopCount(was)
             case _ => false
    ensures Simulates(StepDelete(s, t, p, next), x', a)
  {
    hide Touches, ChainOk;
    assert ThreadOk(s, x, a, t) && NodeOk(s, x, a, p);
    var o := StepDelete(s, t, p, next);
    x' := x.(role := x.role - {p});
    Counting(s, o.s, t, next, p);
    ChainFrame(s, x, a, o.s, x');
    DeleteTouches(s, x, a, o.s, x', t, p);
    Frame(s, x, a, o.s, x', a, t, p);
  }

  lemma KeepsLocal(s: State, x: Proof, a: Spec, t: Tid, c: Choice)
    requires Inv(s, x, a) && (PcOf(s, t).PushDone? || PcOf(s, t).PopLoad? || PcOf(s, t).PopRet?)
    ensures Simulates(Step(s, t, c), x, a)
  {
    assert ThreadOk(s, x, a, t);
    var o := Step(s, t, c);
    ChainFrame(s, x, a, o.s, x);
    Frame(s, x, a, o.s, x, Next(a, o.l).value, t, NULL);
  }

  lemma Keeps(s: State, x: Proof, a: Spec, t: Tid, c: Choice) returns (x': Proof)
    requires Inv(s, x, a)
    ensures Simulates(Step(s, t, c), x', a)
  {
    assert ThreadOk(s, x, a, t);
    x' := x;
    match PcOf(s, t) {
      case Idle => x' := KeepsStart(s, x, a, t, c);
      case PushLoad(n) => KeepsPushLoad(s, x, a, t, n);
      case PushCas(n) => x' := KeepsPushCas(s, x, a, t, n, c.Go? && c.spurious);
      case PushDone => KeepsLocal(s, x, a, t, c);
      case PopLoad => KeepsLocal(s, x, a, t, c);
      case PopCount(was) => KeepsPopCount(s, x, a, t, was);
      case PopTest(was) => KeepsPopTest(s, x, a, t, was);
      case PopCas(was, next) => x' := KeepsPopCas(s, x, a, t, was, next);
      case PopTake(was) => KeepsPopTake(s, x, a, t, was);
      case PopFold(was, res) => x' := KeepsPopFold(s, x, a, t, was, res);
      case PopFree(p, res) => x' := KeepsDelete(s, x, a, t, p, PopRet(res));
      case PopRet(_) => KeepsLocal(s, x, a, t, c);
      case PopDrop(p, was) => x' := KeepsPopDrop(s, x, a, t, p, was);
      case PopReload(p, was) => KeepsPopReload(s, x, a, t, p, was);
      case PopReap(p, was) => x' := KeepsDelete(s, x, a, t, p, PopCount(was));
      case Threw =>
    }
  }

  // ---------------------------------------------------------------- every run

  lemma {:induction false} Runs(s: State, x: Proof, a: Spec, sched: Schedule) returns (x': Proof)
    requires Inv(s, x, a)
    ensures Replay(a, Labels(s, sched)).Some? && Inv(Run(s, sched), x', Replay(a, Labels(s, sched)).value)
    decreases sched
  {
    x' := x;
    if sched != [] {
      var o := Step(s, sched[0].0, sched[0].1);
      var y := Keeps(s, x, a, sched[0].0, sched[0].1);
      x' := Runs(o.s, y, Next(a, o.l).value, sched[1..]);
      var ls := Labels(s, sched);
      assert ls == [o.l] + Labels(o.s, sched[1..]) && ls[1..] == Labels(o.s, sched[1..]);
    }
  }

  lemma FromInit(sched: Schedule) returns (x: Proof)
    ensures Replay(NEW_STACK, Labels(INIT, sched)).Some?
    ensures Inv(Run(INIT, sched), x, Replay(NEW_STACK, Labels(INIT, sched)).value)
  {
    x := Runs(INIT, Proof([], map[]), NEW_STACK, sched);
  }

  /** Every interleaving of any number of threads is linearizable: its calls, returns and
      linearization points are a run of the atomic stack. */
  lemma Linearizable(sched: Schedule)
    ensures Replay(NEW_STACK, Labels(INIT, sched)).Some?
  {
    var x := FromInit(sched);
  }

  /** No step of any run reads, writes or frees an address that is not allocated, and the
      `empty_stack` throw inside `pop` is unreachable. */
  lemma MemorySafe(sched: Schedule)
    ensures !Run(INIT, sched).fault && !Run(INIT, sched).threw
  {
    var x := FromInit(sched);
  }

  /** Each value popped was pushed, and no push is popped twice. */
  lemma AtMostOnce(sched: Schedule)
    ensures PoppedIn(Labels(INIT, sched)) <= PushedIn(Labels(INIT, sched))
  {
    Linearizable(sched);
    PoppedWasPushed(Labels(INIT, sched));
  }

  /** `chain` is the list that starts at `head`, bottom first, and `items` are its data. */
  ghost predicate IsStack(s: State, chain: seq<Addr>, items: seq<Value>) {
    && |chain| == |items|
    && s.head.ptr == Below(chain, |chain|)
    && (forall i, j :: 0 <= i < j < |chain| ==> chain[i] != chain[j])
    && (forall i :: 0 <= i < |chain| ==> chain[i] in s.heap && s.heap[chain[i]].data == Some(items[i]))
    && (forall i {:trigger Leads(s, chain, i)} :: 0 <= i < |chain| ==> Leads(s, chain, i))
  }

  lemma Shape(s: State, x: Proof, a: Spec)
    requires Inv(s, x, a)
    ensures IsStack(s, x.chain, a.items)
  {
    forall i | 0 <= i < |x.chain| ensures s.heap[x.chain[i]].data == Some(a.items[i]) && Leads(s, x.chain, i) {
      assert NodeOk(s, x, a, x.chain[i]);
    }
    forall i, j | 0 <= i < j < |x.chain| ensures x.chain[i] != x.chain[j] {
      assert x.role[x.chain[i]] == Linked(i) && x.role[x.chain[j]] == Linked(j);
    }
  }

  /** At every moment the linked list is the contents of the atomic stack. */
  lemma ContentsAgree(sched: Schedule)
    ensures exists chain: seq<Addr> :: Replay(NEW_STACK, Labels(INIT, sched)).Some?
              && IsStack(Run(INIT, sched), chain, Replay(NEW_STACK, Labels(INIT, sched)).value.items)
  {
    var x := FromInit(sched);
    Shape(Run(INIT, sched), x, Replay(NEW_STACK, Labels(INIT, sched)).value);
  }

  predicate InPop(pc: Pc) {
    !pc.Idle? && !pc.PushLoad? && !pc.PushCas? && !pc.PushDone?
  }

  /** Nothing leaks: with no pop in progress every allocated node is on the stack or still belongs
      to a push that has not linked it. */
  lemma NothingLeaks(sched: Schedule)
    requires forall t: Tid :: !InPop(PcOf(Run(INIT, sched), t))
    ensures exists chain: seq<Addr>, items: seq<Value> :: IsStack(Run(INIT, sched), chain, items)
              && forall p :: p in Run(INIT, sched).heap ==>
                 p in chain || exists t: Tid :: About(PcOf(Run(INIT, sched), t)) == p
  {
    var x := FromInit(sched);
    var s, a := Run(INIT, sched), Replay(NEW_STACK, Labels(INIT, sched)).value;
    Shape(s, x, a);
    forall p | p in s.heap ensures p in x.chain || exists t: Tid :: About(PcOf(s, t)) == p {
      assert NodeOk(s, x, a, p);
      forall t: Tid ensures t !in Holders(s, p) {
        assert !InPop(PcOf(s, t));
      }
      assert Holders(s, p) == {};
      match x.role[p] {
        case Fresh(t) => assert About(PcOf(s, t)) == p;
        case Linked(i) => assert x.chain[i] == p;
        case _ =>
      }
    }
  }

  predicate Deleting(pc: Pc, p: Addr) {
    match pc
    case PopFree(q, _) => q == p
    case PopReload(q, _) => q == p
    case PopReap(q, _) => q == p
    case _ => false
  }

  /** Exactly one thread deletes a popped node, and by then the node is off the stack and no other
      thread will look at it again. */
  lemma DeletedByOne(sched: Schedule, t: Tid, p: Addr)
    requires Deleting(PcOf(Run(INIT, sched), t), p)
    ensures p in Run(INIT, sched).heap
    ensures forall u: Tid :: u != t ==> About(PcOf(Run(INIT, sched), u)) != p
    ensures forall chain: seq<Addr>, items: seq<Value> :: IsStack(Run(INIT, sched), chain, items) ==> p !in chain
  {
    var x := FromInit(sched);
    var s, a := Run(INIT, sched), Replay(NEW_STACK, Labels(INIT, sched)).value;
    assert ThreadOk(s, x, a, t) && NodeOk(s, x, a, p);
    assert Holders(s, p) == {};
    forall u: Tid | u != t ensures About(PcOf(s, u)) != p {
      assert ThreadOk(s, x, a, u);
      assert u !in Holders(s, p);
    }
    Shape(s, x, a);
    forall i | 0 <= i < |x.chain| ensures x.chain[i] != p {
      assert x.role[x.chain[i]] == Linked(i);
    }
    forall chain: seq<Addr>, items: seq<Value> | IsStack(s, chain, items) ensures p !in chain {
      StackIsUnique(s, chain, items, x.chain, a.items);
    }
  }

  predicate WithPusher(pc: Pc, p: Addr) {
    pc == PushLoad(p) || pc == PushCas(p)
  }

  /** The counted pointer that a popper has unlinked and whose count it has not folded into the node yet. */
  function Unlinked(pc: Pc): Option<CountedPtr> {
    match pc
    case PopTake(was) => Some(was)
    case PopFold(was, _) => Some(was)
    case _ => None
  }

  predicate Unlinks(pc: Pc, p: Addr) {
    Unlinked(pc).Some? && Unlinked(pc).value.ptr == p
  }

  /** A thread answers for a node that is not on the stack. */
  predicate Answers(pc: Pc, p: Addr) {
    WithPusher(pc, p) || Unlinks(pc, p) || Deleting(pc, p)
  }

  /** The account of p. On the stack: what the link to it has counted besides itself, with the internal count,
      is the number of holders. Unlinked: the same with the count the popper took, which has left as well. With its
      pusher or its deleter: nobody holds it. Otherwise the count has been folded, and the internal count is the
      number of holders, of which there is one. */
  ghost predicate Balanced(s: State, chain: seq<Addr>, p: Addr)
    requires p in s.heap && forall i :: 0 <= i < |chain| ==> chain[i] in s.heap
  {
    var internal, held := s.heap[p].internal, |Holders(s, p)|;
    if p in chain then
      internal <= 0 && forall i :: 0 <= i < |chain| && chain[i] == p ==> LinkTo(s, chain, i).ext - 1 + internal == held
    else if exists t: Tid :: Unlinks(PcOf(s, t), p) then
      internal <= 0 && forall t: Tid :: Unlinks(PcOf(s, t), p) ==> Unlinked(PcOf(s, t)).value.ext - 2 + internal == held
    else if exists t: Tid :: Answers(PcOf(s, t), p) then held == 0
    else internal == held > 0
  }

  lemma AnswersAlone(s: State, x: Proof, a: Spec, t: Tid, p: Addr)
    requires Inv(s, x, a) && p in s.heap && Answers(PcOf(s, t), p)
    ensures p !in x.chain && OwnerOf(x.role[p]) == Some(t)
    ensures Unlinks(PcOf(s, t), p) <==> x.role[p].Detached?
  {
    assert ThreadOk(s, x, a, t) && NodeOk(s, x, a, p);
  }

  lemma Balance(s: State, x: Proof, a: Spec, p: Addr)
    requires Inv(s, x, a) && p in s.heap
    ensures Balanced(s, x.chain, p)
  {
    assert NodeOk(s, x, a, p);
    forall t: Tid | Answers(PcOf(s, t), p) ensures p !in x.chain && OwnerOf(x.role[p]) == Some(t) {
      AnswersAlone(s, x, a, t, p);
    }
    forall t: Tid | Unlinks(PcOf(s, t), p) ensures x.role[p] == Detached(t) {
      assert Answers(PcOf(s, t), p);
      AnswersAlone(s, x, a, t, p);
    }
    match x.role[p] {
      case Detached(t) => assert Unlinks(PcOf(s, t), p);
      case Fresh(t) => assert Answers(PcOf(s, t), p);
      case Doomed(t) => assert Answers(PcOf(s, t), p);
      case _ =>
    }
  }

  /** At most one thread answers for a node, and none for one on the stack. */
  ghost predicate Alone(s: State, chain: seq<Addr>, p: Addr) {
    forall t: Tid :: Answers(PcOf(s, t), p) ==> p !in chain && forall u: Tid :: Answers(PcOf(s, u), p) ==> u == t
  }

  lemma NodeAlone(s: State, x: Proof, a: Spec, p: Addr)
    requires Inv(s, x, a) && p in s.heap
    ensures Alone(s, x.chain, p)
  {
    forall t: Tid | Answers(PcOf(s, t), p) ensures p !in x.chain && OwnerOf(x.role[p]) == Some(t) {
      AnswersAlone(s, x, a, t, p);
    }
  }

  /** The reference counts account for the holders of every allocated node exactly, at every moment. */
  lemma CountsBalance(sched: Schedule)
    ensures exists chain: seq<Addr>, items: seq<Value> :: IsStack(Run(INIT, sched), chain, items)
              && forall p :: p in Run(INIT, sched).heap ==>
                 Balanced(Run(INIT, sched), chain, p) && Alone(Run(INIT, sched), chain, p)
  {
    var x := FromInit(sched);
    var s, a := Run(INIT, sched), Replay(NEW_STACK, Labels(INIT, sched)).value;
    hide Inv, Balanced, Alone, Replay, Run, Labels;
    Shape(s, x, a);
    forall p | p in s.heap ensures Balanced(s, x.chain, p) && Alone(s, x.chain, p) {
      Balance(s, x, a, p);
      NodeAlone(s, x, a, p);
    }
  }

  function FromTop(c: seq<Addr>, q: nat): Addr
    requires q < |c|
  {
    c[|c| - 1 - q]
  }

  lemma StackIsUnique(s: State, c: seq<Addr>, i: seq<Value>, d: seq<Addr>, j: seq<Value>)
    requires IsStack(s, c, i) && IsStack(s, d, j) && NULL !in s.heap
    ensures c == d
  {
    var k := if |c| < |d| then |c| else |d|;
    SameTop(s, c, d, k);
    assert forall m :: 0 < m <= |c| ==> Below(c, m) != NULL;
    assert forall m :: 0 < m <= |d| ==> Below(d, m) != NULL;
    forall q | 0 <= q < |c| ensures c[q] == d[q] {
      assert FromTop(c, |c| - 1 - q) == FromTop(d, |c| - 1 - q);
    }
  }

  /** Two lists from the same head agree on their top `k` nodes. */
  lemma {:induction false} SameTop(s: State, c: seq<Addr>, d: seq<Addr>, k: nat)
    requires k <= |c| && k <= |d| && s.head.ptr == Below(c, |c|) == Below(d, |d|)
    requires (forall i :: 0 <= i < |c| ==> c[i] in s.heap) && forall i :: 0 <= i < |d| ==> d[i] in s.heap
    requires forall i {:trigger Leads(s, c, i)} :: 0 <= i < |c| ==> Leads(s, c, i)
    requires forall i {:trigger Leads(s, d, i)} :: 0 <= i < |d| ==> Leads(s, d, i)
    ensures forall q :: 0 <= q < k ==> FromTop(c, q) == FromTop(d, q)
    ensures Below(c, |c| - k) == Below(d, |d| - k)
  {
    if k > 0 {
      SameTop(s, c, d, k - 1);
      assert Leads(s, c, |c| - k) && Leads(s, d, |d| - k);
    }
  }
}
