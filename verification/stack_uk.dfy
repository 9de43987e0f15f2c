/** `threadsafe_stack_uk` of inc/public/ts_stack.h: a lock-free stack that puts off deleting popped
    nodes until no other thread is inside `pop`.

    As in `RefCountStack`, one atomic access is one step, `new` may reuse any address that was
    freed, and touching an unallocated address raises `fault`. */
module StackUk {
  import opened Options
  import opened AtomicStack

  type Addr = nat
  const NULL: Addr := 0

  datatype Node = Node(data: Option<Value>, next: Addr)

  /** What a thread does once it has put nodes on the pending list. */
  datatype After = Leave(res: Option<Value>) | Drop(hand: Addr, res: Option<Value>)

  /** Program counters.  `hand` is the node this thread popped. */
  datatype Pc =
    | Idle
    | PushLoad(n: Addr)
    | PushCas(n: Addr)
    | PushDone
    | PopEnter                                                     // ++threads_in_pop
    | PopLoad                                                      // head_.load()
    | PopRead(seen: Addr)                                          // old->next_
    | PopCas(seen: Addr, next: Addr)                               // CAS(old -> old->next_)
    | PopTake(hand: Addr)                                          // res.swap(old->data_)
    | PopCheck(hand: Addr, res: Option<Value>)                     // threads_in_pop == 1
    | PopClaim(hand: Addr, res: Option<Value>)                     // to_be_deleted.exchange(nullptr)
    | PopLeave(hand: Addr, first: Addr, res: Option<Value>)        // --threads_in_pop
    | Purge(n: Addr, hand: Addr, res: Option<Value>)               // delete_nodes: n->next_
    | PurgeFree(n: Addr, next: Addr, hand: Addr, res: Option<Value>)
    | Walk(first: Addr, last: Addr, hand: Addr, res: Option<Value>) // last->next_
    | SpliceLoad(first: Addr, last: Addr, then_: After)             // last->next_ = to_be_deleted
    | SpliceCas(first: Addr, last: Addr, then_: After)              // CAS(last->next_ -> first)
    | PopFree(hand: Addr, res: Option<Value>)                      // delete old
    | PopExit(res: Option<Value>)                                  // --threads_in_pop
    | PopRet(res: Option<Value>)

  datatype State = State(heap: map<Addr, Node>, head: Addr, pending: Addr, inPop: int, threads: map<Tid, Pc>,
                         fault: bool)

  datatype Choice = Push(v: Value, at: Addr) | Pop | Go(spurious: bool)

  datatype Outcome = Outcome(s: State, l: Label)

  const INIT := State(map[], NULL, NULL, 0, map[], false)

  function PcOf(s: State, t: Tid): Pc {
    if t in s.threads then s.threads[t] else Idle
  }

  function Goto(s: State, t: Tid, pc: Pc): State {
    s.(threads := s.threads[t := pc])
  }

  function Fault(s: State): Outcome {
    Outcome(s.(fault := true), Tau)
  }

  function SetNode(s: State, p: Addr, n: Node): State {
    s.(heap := s.heap[p := n])
  }

  function Start(s: State, t: Tid, c: Choice): Outcome {
    match c
    case Push(v, a) =>
      if a == NULL || a in s.heap then Outcome(s, Tau)
      else Outcome(Goto(SetNode(s, a, Node(Some(v), NULL)), t, PushLoad(a)), CallPush(t, v))
    case Pop => Outcome(Goto(s, t, PopEnter), CallPop(t))
    case Go(_) => Outcome(s, Tau)
  }

  function StepPushLoad(s: State, t: Tid, n: Addr): Outcome {
    if n !in s.heap then Fault(s)
    else Outcome(Goto(SetNode(s, n, s.heap[n].(next := s.head)), t, PushCas(n)), Tau)
  }

  function StepPushCas(s: State, t: Tid, n: Addr, spurious: bool): Outcome {
    if n !in s.heap then Fault(s)
    else if s.heap[n].next == s.head && !spurious then
      Outcome(Goto(s.(head := n), t, PushDone),
              match s.heap[n].data case Some(v) => LinPush(t, v) case None => Tau)
    else Outcome(SetNode(s, n, s.heap[n].(next := s.head)), Tau)
  }

  function StepPopLoad(s: State, t: Tid): Outcome {
    if s.head == NULL then Outcome(Goto(s, t, PopExit(None)), LinPop(t, None))
    else Outcome(Goto(s, t, PopRead(s.head)), Tau)
  }

  function StepPopRead(s: State, t: Tid, p: Addr): Outcome {
    if p !in s.heap then Fault(s) else Outcome(Goto(s, t, PopCas(p, s.heap[p].next)), Tau)
  }

  /** The CAS is weak and its loop reloads the head. */
  function StepPopCas(s: State, t: Tid, p: Addr, next: Addr, spurious: bool): Outcome {
    if s.head == p && !spurious then
      Outcome(Goto(s.(head := next), t, PopTake(p)), LinPop(t, if p in s.heap then s.heap[p].data else None))
    else Outcome(Goto(s, t, PopLoad), Tau)
  }

  function StepPopTake(s: State, t: Tid, p: Addr): Outcome {
    if p !in s.heap then Fault(s)
    else Outcome(Goto(SetNode(s, p, s.heap[p].(data := None)), t, PopCheck(p, s.heap[p].data)), Tau)
  }

  function StepPopCheck(s: State, t: Tid, p: Addr, res: Option<Value>): Outcome {
    Outcome(Goto(s, t, if s.inPop == 1 then PopClaim(p, res) else SpliceLoad(p, p, Leave(res))), Tau)
  }

  function StepPopLeave(s: State, t: Tid, hand: Addr, first: Addr, res: Option<Value>): Outcome {
    var left := s.inPop - 1;
    Outcome(Goto(s.(inPop := left), t,
                 if left == 0 then Purge(first, hand, res)
                 else if first != NULL then Walk(first, first, hand, res)
                 else PopFree(hand, res)), Tau)
  }

  function StepPurge(s: State, t: Tid, n: Addr, hand: Addr, res: Option<Value>): Outcome {
    if n == NULL then Outcome(Goto(s, t, PopFree(hand, res)), Tau)
    else if n !in s.heap then Fault(s)
    else Outcome(Goto(s, t, PurgeFree(n, s.heap[n].next, hand, res)), Tau)
  }

  function StepDelete(s: State, t: Tid, p: Addr, pc: Pc): Outcome {
    if p !in s.heap then Fault(s) else Outcome(Goto(s.(heap := s.heap - {p}), t, pc), Tau)
  }

  function StepWalk(s: State, t: Tid, first: Addr, last: Addr, hand: Addr, res: Option<Value>): Outcome {
    if last !in s.heap then Fault(s)
    else if s.heap[last].next != NULL then Outcome(Goto(s, t, Walk(first, s.heap[last].next, hand, res)), Tau)
    else Outcome(Goto(s, t, SpliceLoad(first, last, Drop(hand, res))), Tau)
  }

  function StepSpliceLoad(s: State, t: Tid, first: Addr, last: Addr, then_: After): Outcome {
    if last !in s.heap then Fault(s)
    else Outcome(Goto(SetNode(s, last, s.heap[last].(next := s.pending)), t, SpliceCas(first, last, then_)), Tau)
  }

  function Resume(then_: After): Pc {
    match then_
    case Leave(res) => PopExit(res)
    case Drop(hand, res) => PopFree(hand, res)
  }

  function StepSpliceCas(s: State, t: Tid, first: Addr, last: Addr, then_: After, spurious: bool): Outcome {
    if last !in s.heap then Fault(s)
    else if s.heap[last].next == s.pending && !spurious then Outcome(Goto(s.(pending := first), t, Resume(then_)), Tau)
    else Outcome(SetNode(s, last, s.heap[last].(next := s.pending)), Tau)
  }

  function Step(s: State, t: Tid, c: Choice): Outcome {
    var spurious := c.Go? && c.spurious;
    match PcOf(s, t)
    case Idle => Start(s, t, c)
    case PushLoad(n) => StepPushLoad(s, t, n)
    case PushCas(n) => StepPushCas(s, t, n, spurious)
    case PushDone => Outcome(Goto(s, t, Idle), RetPush(t))
    case PopEnter => Outcome(Goto(s.(inPop := s.inPop + 1), t, PopLoad), Tau)
    case PopLoad => StepPopLoad(s, t)
    case PopRead(p) => StepPopRead(s, t, p)
    case PopCas(p, next) => StepPopCas(s, t, p, next, spurious)
    case PopTake(p) => StepPopTake(s, t, p)
    case PopCheck(p, res) => StepPopCheck(s, t, p, res)
    case PopClaim(p, res) => Outcome(Goto(s.(pending := NULL), t, PopLeave(p, s.pending, res)), Tau)
    case PopLeave(p, first, res) => StepPopLeave(s, t, p, first, res)
    case Purge(n, p, res) => StepPurge(s, t, n, p, res)
    case PurgeFree(n, next, p, res) => StepDelete(s, t, n, Purge(next, p, res))
    case Walk(first, last, p, res) => StepWalk(s, t, first, last, p, res)
    case SpliceLoad(first, last, then_) => StepSpliceLoad(s, t, first, last, then_)
    case SpliceCas(first, last, then_) => StepSpliceCas(s, t, first, last, then_, spurious)
    case PopFree(p, res) => StepDelete(s, t, p, PopRet(res))
    case PopExit(res) => Outcome(Goto(s.(inPop := s.inPop - 1), t, PopRet(res)), Tau)
    case PopRet(res) => Outcome(Goto(s, t, Idle), RetPop(t, res))
  }

  type Schedule = seq<(Tid, Choice)>

  function Run(s: State, sched: Schedule): State
    decreases sched
  {
    if sched == [] then s else Run(Step(s, sched[0].0, sched[0].1).s, sched[1..])
  }

  function Labels(s: State, sched: Schedule): seq<Label>
    decreases sched
  {
    if sched == [] then []
    else
      var o := Step(s, sched[0].0, sched[0].1);
      [o.l] + Labels(o.s, sched[1..])
  }

  lemma {:induction false} RunConcat(s: State, p: Schedule, q: Schedule)
    ensures Run(s, p + q) == Run(Run(s, p), q) && Labels(s, p + q) == Labels(s, p) + Labels(Run(s, p), q)
    decreases p
  {
    if p == [] {
      assert p + q == q;
    } else {
      assert (p + q)[0] == p[0] && (p + q)[1..] == p[1..] + q;
      RunConcat(Step(s, p[0].0, p[0].1).s, p[1..], q);
    }
  }

  // ---------------------------------------------------------------- the invariant

  /** Where an allocated node is: with its pusher, on the stack, in the hand of the thread that
      popped it, in the hand of a thread that has seen itself alone in `pop`, on the pending list,
      or on the list some thread has claimed from it -- to be given back, or doomed once that
      thread has left `pop` last.  Heights count from the bottom of each list. */
  datatype Role =
    | Fresh(t: Tid)
    | Linked(at: nat)
    | Hand(t: Tid)
    | Sole(t: Tid)
    | Pending(at: nat)
    | Claimed(t: Tid, at: nat)
    | Doomed(t: Tid, at: nat)

  datatype Proof = Proof(chain: seq<Addr>, pend: seq<Addr>, claims: map<Tid, seq<Addr>>, role: map<Addr, Role>)

  function ClaimOf(x: Proof, t: Tid): seq<Addr> {
    if t in x.claims then x.claims[t] else []
  }

  /** The threads that `threads_in_pop` counts. */
  predicate Counted(pc: Pc) {
    match pc
    case PopLoad => true
    case PopRead(_) => true
    case PopCas(_, _) => true
    case PopTake(_) => true
    case PopCheck(_, _) => true
    case PopClaim(_, _) => true
    case PopLeave(_, _, _) => true
    case PopExit(_) => true
    case SpliceLoad(_, _, then_) => then_.Leave?
    case SpliceCas(_, _, then_) => then_.Leave?
    case _ => false
  }

  function Inside(s: State): set<Tid> {
    set t | t in s.threads && Counted(s.threads[t])
  }

  /** A thread that has loaded a node it does not own. */
  predicate Loaded(pc: Pc, p: Addr) {
    match pc
    case PopRead(q) => q == p
    case PopCas(q, _) => q == p
    case _ => false
  }

  predicate Loadable(r: Role) {
    r.Linked? || r.Hand? || r.Pending? || r.Claimed?
  }

  predicate OwnedBy(r: Role, u: Tid) {
    match r
    case Fresh(t) => t == u
    case Hand(t) => t == u
    case Sole(t) => t == u
    case Claimed(t, _) => t == u
    case Doomed(t, _) => t == u
    case _ => false
  }

  function HandOf(pc: Pc): Addr {
    match pc
    case PopTake(p) => p
    case PopCheck(p, _) => p
    case SpliceLoad(first, _, then_) => if then_.Leave? then first else NULL
    case SpliceCas(first, _, then_) => if then_.Leave? then first else NULL
    case _ => NULL
  }

  function SoleOf(pc: Pc): Addr {
    match pc
    case PopClaim(p, _) => p
    case PopLeave(p, _, _) => p
    case Purge(_, p, _) => p
    case PurgeFree(_, _, p, _) => p
    case Walk(_, _, p, _) => p
    case SpliceLoad(_, _, then_) => if then_.Drop? then then_.hand else NULL
    case SpliceCas(_, _, then_) => if then_.Drop? then then_.hand else NULL
    case PopFree(p, _) => p
    case _ => NULL
  }

  function Below(list: seq<Addr>, i: nat): Addr
    requires i <= |list|
  {
    if i == 0 then NULL else list[i - 1]
  }

  predicate Leads(s: State, list: seq<Addr>, i: nat)
    requires i < |list| && list[i] in s.heap
  {
    s.heap[list[i]].next == Below(list, i)
  }

  predicate RoleIs(s: State, x: Proof, p: Addr, r: Role) {
    p in s.heap && p in x.role && x.role[p] == r
  }

  /** A thread's claimed list; the link of its bottom node is left out when `from` is one. */
  ghost predicate ClaimOk(s: State, x: Proof, t: Tid, doomed: bool, from: nat) {
    var list := ClaimOf(x, t);
    && (forall i :: 0 <= i < |list| ==> RoleIs(s, x, list[i], if doomed then Doomed(t, i) else Claimed(t, i)))
    && (forall i {:trigger Leads(s, list, i)} :: from <= i < |list| ==> Leads(s, list, i))
  }

  ghost predicate ListsOk(s: State, x: Proof, a: Spec) {
    && |a.items| == |x.chain|
    && s.head == Below(x.chain, |x.chain|)
    && s.pending == Below(x.pend, |x.pend|)
    && (forall i :: 0 <= i < |x.chain| ==> RoleIs(s, x, x.chain[i], Linked(i)))
    && (forall i {:trigger Leads(s, x.chain, i)} :: 0 <= i < |x.chain| ==> Leads(s, x.chain, i))
    && (forall i :: 0 <= i < |x.pend| ==> RoleIs(s, x, x.pend[i], Pending(i)))
    && (forall i {:trigger Leads(s, x.pend, i)} :: 0 <= i < |x.pend| ==> Leads(s, x.pend, i))
  }

  predicate At(list: seq<Addr>, i: nat, p: Addr) {
    i < |list| && list[i] == p
  }

  predicate NodeOk(s: State, x: Proof, a: Spec, p: Addr) {
    p in s.heap && p in x.role &&
    match x.role[p]
    case Fresh(t) =>
      && (PcOf(s, t) == PushLoad(p) || PcOf(s, t) == PushCas(p))
      && s.heap[p].data.Some? && OpOf(a, t) == Pushing(s.heap[p].data.value)
    case Linked(i) => At(x.chain, i, p) && i < |a.items| && s.heap[p].data == Some(a.items[i])
    case Hand(t) => HandOf(PcOf(s, t)) == p
    case Sole(t) => SoleOf(PcOf(s, t)) == p
    case Pending(i) => At(x.pend, i, p)
    case Claimed(t, i) => At(ClaimOf(x, t), i, p)
    case Doomed(t, i) => At(ClaimOf(x, t), i, p)
  }

  predicate HasLoaded(s: State, x: Proof, p: Addr) {
    p != NULL && p in s.heap && p in x.role && Loadable(x.role[p])
  }

  ghost predicate ThreadOk(s: State, x: Proof, a: Spec, t: Tid) {
    var claim := ClaimOf(x, t);
    var op := OpOf(a, t);
    match PcOf(s, t)
    case Idle => op == Free && claim == []
    case PushLoad(n) => RoleIs(s, x, n, Fresh(t)) && claim == []
    case PushCas(n) => RoleIs(s, x, n, Fresh(t)) && claim == []
    case PushDone => op == Pushed && claim == []
    case PopEnter => op == Popping && claim == []
    case PopLoad => op == Popping && claim == []
    case PopRead(p) => op == Popping && claim == [] && HasLoaded(s, x, p)
    case PopCas(p, next) =>
      op == Popping && claim == [] && HasLoaded(s, x, p) && (x.role[p].Linked? ==> next == s.heap[p].next)
    case PopTake(p) => claim == [] && RoleIs(s, x, p, Hand(t)) && s.heap[p].data.Some? && op == Popped(s.heap[p].data)
    case PopCheck(p, res) => claim == [] && RoleIs(s, x, p, Hand(t)) && op == Popped(res)
    case PopClaim(p, res) => claim == [] && RoleIs(s, x, p, Sole(t)) && op == Popped(res)
    case PopLeave(p, first, res) =>
      RoleIs(s, x, p, Sole(t)) && op == Popped(res) && ClaimOk(s, x, t, false, 0) && first == Below(claim, |claim|)
    case Purge(n, p, res) =>
      RoleIs(s, x, p, Sole(t)) && op == Popped(res) && ClaimOk(s, x, t, true, 0) && n == Below(claim, |claim|)
    case PurgeFree(n, next, p, res) =>
      && RoleIs(s, x, p, Sole(t)) && op == Popped(res) && ClaimOk(s, x, t, true, 0)
      && claim != [] && n == Below(claim, |claim|) && next == Below(claim, |claim| - 1)
    case Walk(first, last, p, res) =>
      && RoleIs(s, x, p, Sole(t)) && op == Popped(res) && ClaimOk(s, x, t, false, 0)
      && first == Below(claim, |claim|) && last in claim
    case SpliceLoad(first, last, then_) => SpliceOk(s, x, t, op, first, last, then_)
    case SpliceCas(first, last, then_) => SpliceOk(s, x, t, op, first, last, then_)
    case PopFree(p, res) => claim == [] && RoleIs(s, x, p, Sole(t)) && op == Popped(res)
    case PopExit(res) => op == Popped(res) && claim == []
    case PopRet(res) => op == Popped(res) && claim == []
  }

  ghost predicate SpliceOk(s: State, x: Proof, t: Tid, op: Op, first: Addr, last: Addr, then_: After) {
    var claim := ClaimOf(x, t);
    op == Popped(then_.res) &&
    match then_
    case Leave(res) => claim == [] && first == last && RoleIs(s, x, first, Hand(t))
    case Drop(p, res) =>
      && RoleIs(s, x, p, Sole(t)) && ClaimOk(s, x, t, false, 1)
      && claim != [] && first == Below(claim, |claim|) && last == claim[0]
  }

  ghost predicate Inv(s: State, x: Proof, a: Spec) {
    && !s.fault && NULL !in s.heap && x.role.Keys == s.heap.Keys
    && s.inPop == |Inside(s)|
    && ListsOk(s, x, a)
    && (forall p {:trigger NodeOk(s, x, a, p)} :: p in s.heap ==> NodeOk(s, x, a, p))
    && (forall t: Tid {:trigger ThreadOk(s, x, a, t)} :: ThreadOk(s, x, a, t))
  }

  ghost predicate Simulates(o: Outcome, x: Proof, a: Spec) {
    Next(a, o.l).Some? && Inv(o.s, x, Next(a, o.l).value)
  }

  // ---------------------------------------------------------------- frames

  predicate Still(s: State, x: Proof, s': State, x': Proof, p: Addr) {
    p in s.heap && p in x.role && p in s'.heap && p in x'.role && s'.heap[p] == s.heap[p] && x'.role[p] == x.role[p]
  }

  /** A node another thread may have loaded stays loadable, and if it is on the stack it was there
      before with the same link. */
  predicate SafeToHold(s: State, x: Proof, s': State, x': Proof, p: Addr) {
    HasLoaded(s, x, p) ==>
        HasLoaded(s', x', p) && (x'.role[p].Linked? ==> x.role[p].Linked? && s'.heap[p].next == s.heap[p].next)
  }

  predicate OthersOwn(x: Proof, t: Tid, p: Addr) {
    p in x.role && !x.role[p].Linked? && !x.role[p].Pending? && !OwnedBy(x.role[p], t)
  }

  /** A step of `t`: the other threads' counters, operations, claims and nodes stay, and no other
      thread loses a node it has loaded. */
  ghost predicate Quiet(s: State, x: Proof, a: Spec, s': State, x': Proof, a': Spec, t: Tid) {
    && (forall u :: u != t ==>
        PcOf(s', u) == PcOf(s, u) && OpOf(a', u) == OpOf(a, u) && ClaimOf(x', u) == ClaimOf(x, u))
    && (forall p {:trigger Still(s, x, s', x', p)} :: OthersOwn(x, t, p) || OthersOwn(x', t, p) ==>
        Still(s, x, s', x', p))
    && (forall u, p {:trigger Loaded(PcOf(s, u), p)} :: u != t && Loaded(PcOf(s, u), p) ==> SafeToHold(s, x, s', x', p))
  }

  lemma OthersKeep(s: State, x: Proof, a: Spec, s': State, x': Proof, a': Spec, t: Tid, u: Tid)
    requires Quiet(s, x, a, s', x', a', t) && u != t && ThreadOk(s, x, a, u)
    ensures ThreadOk(s', x', a', u)
  {
    hide ListsOk;
    var pc := PcOf(s, u);
    assert Loaded(pc, HeldBy(pc)) ==> SafeToHold(s, x, s', x', HeldBy(pc));
    assert OthersOwn(x, t, HeldBy(pc)) ==> Still(s, x, s', x', HeldBy(pc));
    if OthersOwn(x, t, SoleOf(pc)) {
      assert Still(s, x, s', x', SoleOf(pc));
    }
    ClaimsKeep(s, x, a, s', x', a', t, u, true, 0);
    ClaimsKeep(s, x, a, s', x', a', t, u, false, 0);
    ClaimsKeep(s, x, a, s', x', a', t, u, false, 1);
  }

  function HeldBy(pc: Pc): Addr {
    match pc
    case PushLoad(n) => n
    case PushCas(n) => n
    case PopRead(p) => p
    case PopCas(p, _) => p
    case _ => HandOf(pc)
  }

  lemma ClaimsKeep(s: State, x: Proof, a: Spec, s': State, x': Proof, a': Spec, t: Tid, u: Tid, doomed: bool, from: nat)
    requires Quiet(s, x, a, s', x', a', t) && u != t
    ensures ClaimOk(s, x, u, doomed, from) ==> ClaimOk(s', x', u, doomed, from)
  {
    if ClaimOk(s, x, u, doomed, from) {
      var list := ClaimOf(x, u);
      forall i | 0 <= i < |list|
        ensures RoleIs(s', x', list[i], if doomed then Doomed(u, i) else Claimed(u, i))
        ensures from <= i ==> Leads(s', list, i)
      {
        assert RoleIs(s, x, list[i], if doomed then Doomed(u, i) else Claimed(u, i));
        assert Still(s, x, s', x', list[i]);
        if from <= i {
          assert Leads(s, list, i);
        }
      }
    }
  }

  lemma Frame(s: State, x: Proof, a: Spec, s': State, x': Proof, a': Spec, t: Tid)
    requires Inv(s, x, a) && Quiet(s, x, a, s', x', a', t)
    requires !s'.fault && NULL !in s'.heap && x'.role.Keys == s'.heap.Keys
    requires s'.inPop == |Inside(s')|
    requires ListsOk(s', x', a') && ThreadOk(s', x', a', t)
    requires forall p {:trigger NodeOk(s', x', a', p)} :: p in s'.heap && !OthersOwn(x', t, p) ==> NodeOk(s', x', a', p)
    ensures Inv(s', x', a')
  {
    hide ListsOk;
    forall p | p in s'.heap ensures NodeOk(s', x', a', p) {
      if OthersOwn(x', t, p) {
        assert Still(s, x, s', x', p);
        assert NodeOk(s, x, a, p);
      }
    }
    forall u: Tid ensures ThreadOk(s', x', a', u) {
      if u != t {
        assert ThreadOk(s, x, a, u);
        OthersKeep(s, x, a, s', x', a', t, u);
      }
    }
  }

  lemma Counting(s: State, s': State, t: Tid)
    requires s'.threads == s.threads[t := PcOf(s', t)]
    ensures |Inside(s')| == |Inside(s)|
            + (if Counted(PcOf(s', t)) then 1 else 0) - (if Counted(PcOf(s, t)) then 1 else 0)
  {
    var rest := Inside(s) - {t};
    assert Inside(s) == if Counted(PcOf(s, t)) then rest + {t} else rest;
    assert Inside(s') == if Counted(PcOf(s', t)) then rest + {t} else rest;
  }

  // ---------------------------------------------------------------- every step keeps it

  /** A step that changes no node and no list. */
  lemma LocalStep(s: State, x: Proof, a: Spec, s': State, a': Spec, t: Tid)
    requires Inv(s, x, a) && s' == s.(threads := s.threads[t := PcOf(s', t)], inPop := s'.inPop)
    requires s'.inPop == s.inPop + (if Counted(PcOf(s', t)) then 1 else 0) - (if Counted(PcOf(s, t)) then 1 else 0)
    requires a'.items == a.items && forall u :: u != t ==> OpOf(a', u) == OpOf(a, u)
    requires HandOf(PcOf(s', t)) == HandOf(PcOf(s, t)) && SoleOf(PcOf(s', t)) == SoleOf(PcOf(s, t))
    requires !PcOf(s, t).PushLoad? && !PcOf(s, t).PushCas?
    requires ThreadOk(s', x, a', t)
    ensures Inv(s', x, a')
  {
    hide ListsOk;
    Counting(s, s', t);
    SameLists(s, x, a, s', x, a');
    forall p | p in s'.heap && !OthersOwn(x, t, p) ensures NodeOk(s', x, a', p) {
      assert NodeOk(s, x, a, p);
    }
    forall u, p | u != t && Loaded(PcOf(s, u), p) ensures SafeToHold(s, x, s', x, p) {
    }
    Frame(s, x, a, s', x, a', t);
  }

  lemma SameLists(s: State, x: Proof, a: Spec, s': State, x': Proof, a': Spec)
    requires ListsOk(s, x, a) && a'.items == a.items && s'.head == s.head && s'.pending == s.pending
    requires x'.chain == x.chain && x'.pend == x.pend
    requires forall p :: p in x.role && (x.role[p].Linked? || x.role[p].Pending?) ==> Still(s, x, s', x', p)
    ensures ListsOk(s', x', a')
  {
    forall i | 0 <= i < |x.chain| ensures RoleIs(s', x', x.chain[i], Linked(i)) && Leads(s', x.chain, i) {
      assert RoleIs(s, x, x.chain[i], Linked(i)) && Still(s, x, s', x', x.chain[i]) && Leads(s, x.chain, i);
    }
    forall i | 0 <= i < |x.pend| ensures RoleIs(s', x', x.pend[i], Pending(i)) && Leads(s', x.pend, i) {
      assert RoleIs(s, x, x.pend[i], Pending(i)) && Still(s, x, s', x', x.pend[i]) && Leads(s, x.pend, i);
    }
  }

  /** A claim that the step leaves alone. */
  lemma SameClaim(s: State, x: Proof, s': State, x': Proof, t: Tid, doomed: bool, from: nat)
    requires ClaimOk(s, x, t, doomed, from) && ClaimOf(x', t) == ClaimOf(x, t)
    requires forall i :: 0 <= i < |ClaimOf(x, t)| ==> Still(s, x, s', x', ClaimOf(x, t)[i])
    ensures ClaimOk(s', x', t, doomed, from)
  {
    var list := ClaimOf(x, t);
    forall i | 0 <= i < |list|
      ensures RoleIs(s', x', list[i], if doomed then Doomed(t, i) else Claimed(t, i))
      ensures from <= i ==> Leads(s', list, i)
    {
      assert RoleIs(s, x, list[i], if doomed then Doomed(t, i) else Claimed(t, i)) && Still(s, x, s', x', list[i]);
      if from <= i {
        assert Leads(s, list, i);
      }
    }
  }

  lemma KeepsNew(s: State, x: Proof, a: Spec, t: Tid, v: Value, n: Addr) returns (x': Proof)
    requires Inv(s, x, a) && PcOf(s, t) == Idle && n != NULL && n !in s.heap
    ensures Simulates(Start(s, t, Push(v, n)), x', a)
  {
    hide ListsOk;
    assert ThreadOk(s, x, a, t);
    var s' := Start(s, t, Push(v, n)).s;
    var a' := Set(a, t, Pushing(v));
    x' := x.(role := x.role[n := Fresh(t)]);
    Counting(s, s', t);
    SameLists(s, x, a, s', x', a');
    forall p | p in s'.heap && !OthersOwn(x', t, p) ensures NodeOk(s', x', a', p) {
      if p != n {
        assert NodeOk(s, x, a, p);
      }
    }
    Frame(s, x, a, s', x', a', t);
  }

  lemma KeepsStart(s: State, x: Proof, a: Spec, t: Tid, c: Choice) returns (x': Proof)
    requires Inv(s, x, a) && PcOf(s, t) == Idle
    ensures Simulates(Start(s, t, c), x', a)
  {
    assert ThreadOk(s, x, a, t);
    x' := x;
    if c.Push? && c.at != NULL && c.at !in s.heap {
      x' := KeepsNew(s, x, a, t, c.v, c.at);
    } else if c.Pop? {
      LocalStep(s, x, a, Start(s, t, c).s, Set(a, t, Popping), t);
    }
  }

  /** Rewriting the link of a node that only `t` answers for. */
  lemma KeepsRelink(s: State, x: Proof, a: Spec, s': State, t: Tid, n: Addr)
    requires Inv(s, x, a) && n in x.role && n in s.heap && n in s'.heap && OwnedBy(x.role[n], t)
    requires s' == s.(heap := s.heap[n := s.heap[n].(next := s'.heap[n].next)], threads := s.threads[t := PcOf(s', t)])
    requires Counted(PcOf(s', t)) == Counted(PcOf(s, t))
    requires HandOf(PcOf(s', t)) == HandOf(PcOf(s, t)) && SoleOf(PcOf(s', t)) == SoleOf(PcOf(s, t))
    requires x.role[n] == Fresh(t) ==> PcOf(s', t) == PushLoad(n) || PcOf(s', t) == PushCas(n)
    requires !x.role[n].Fresh? ==> !PcOf(s, t).PushLoad? && !PcOf(s, t).PushCas?
    requires ThreadOk(s', x, a, t)
    ensures Inv(s', x, a)
  {
    hide ListsOk;
    Counting(s, s', t);
    SameLists(s, x, a, s', x, a);
    assert NodeOk(s, x, a, n);
    forall p | p in s'.heap && !OthersOwn(x, t, p) ensures NodeOk(s', x, a, p) {
      assert NodeOk(s, x, a, p);
    }
    Frame(s, x, a, s', x, a, t);
  }

  lemma KeepsPushLoad(s: State, x: Proof, a: Spec, t: Tid, n: Addr)
    requires Inv(s, x, a) && PcOf(s, t) == PushLoad(n)
    ensures Simulates(StepPushLoad(s, t, n), x, a)
  {
    assert ThreadOk(s, x, a, t) && NodeOk(s, x, a, n);
    KeepsRelink(s, x, a, StepPushLoad(s, t, n).s, t, n);
  }

  lemma KeepsPushCas(s: State, x: Proof, a: Spec, t: Tid, n: Addr, spurious: bool) returns (x': Proof)
    requires Inv(s, x, a) && PcOf(s, t) == PushCas(n)
    ensures Simulates(StepPushCas(s, t, n, spurious), x', a)
  {
    assert ThreadOk(s, x, a, t) && NodeOk(s, x, a, n);
    var o := StepPushCas(s, t, n, spurious);
    if s.heap[n].next == s.head && !spurious {
      x' := KeepsLink(s, x, a, t, n);
    } else {
      x' := x;
      KeepsRelink(s, x, a, o.s, t, n);
    }
  }

  lemma KeepsLink(s: State, x: Proof, a: Spec, t: Tid, n: Addr) returns (x': Proof)
    requires Inv(s, x, a) && PcOf(s, t) == PushCas(n) && n in s.heap && s.heap[n].next == s.head
    ensures Simulates(StepPushCas(s, t, n, false), x', a)
  {
    hide ListsOk;
    assert ThreadOk(s, x, a, t) && NodeOk(s, x, a, n);
    var o := StepPushCas(s, t, n, false);
    var s', a' := o.s, Next(a, o.l).value;
    x' := x.(chain := x.chain + [n], role := x.role[n := Linked(|x.chain|)]);
    ListsPush(s, x, a, s', x', a', n);
    forall p | p in s'.heap && !OthersOwn(x', t, p) ensures NodeOk(s', x', a', p) {
      assert NodeOk(s, x, a, p);
    }
    RoleStep(s, x, a, s', x', a', t);
  }

  lemma ListsPush(s: State, x: Proof, a: Spec, s': State, x': Proof, a': Spec, n: Addr)
    requires ListsOk(s, x, a) && n in s.heap && s.heap[n].next == s.head && n in x.role && x.role[n].Fresh?
    requires s'.heap == s.heap && s'.head == n && s'.pending == s.pending
    requires x'.chain == x.chain + [n] && x'.pend == x.pend && x'.role == x.role[n := Linked(|x.chain|)]
    requires |a'.items| == |a.items| + 1
    ensures ListsOk(s', x', a') && |a.items| == |x.chain|
  {
    forall i | 0 <= i < |x'.chain| ensures RoleIs(s', x', x'.chain[i], Linked(i)) && Leads(s', x'.chain, i) {
      if i < |x.chain| {
        assert RoleIs(s, x, x.chain[i], Linked(i)) && Leads(s, x.chain, i);
      }
    }
    forall i | 0 <= i < |x.pend| ensures RoleIs(s', x', x.pend[i], Pending(i)) && Leads(s', x.pend, i) {
      assert RoleIs(s, x, x.pend[i], Pending(i)) && Leads(s, x.pend, i);
    }
  }

  lemma KeepsPopLoad(s: State, x: Proof, a: Spec, t: Tid)
    requires Inv(s, x, a) && PcOf(s, t) == PopLoad
    ensures Simulates(StepPopLoad(s, t), x, a)
  {
    assert ThreadOk(s, x, a, t);
    var o := StepPopLoad(s, t);
    assert forall i :: 0 < i <= |x.chain| ==> RoleIs(s, x, Below(x.chain, i), Linked(i - 1));
    LocalStep(s, x, a, o.s, Next(a, o.l).value, t);
  }

  lemma KeepsPopRead(s: State, x: Proof, a: Spec, t: Tid, p: Addr)
    requires Inv(s, x, a) && PcOf(s, t) == PopRead(p)
    ensures Simulates(StepPopRead(s, t, p), x, a)
  {
    assert ThreadOk(s, x, a, t);
    LocalStep(s, x, a, StepPopRead(s, t, p).s, a, t);
  }

  lemma KeepsPopCas(s: State, x: Proof, a: Spec, t: Tid, p: Addr, next: Addr, spurious: bool) returns (x': Proof)
    requires Inv(s, x, a) && PcOf(s, t) == PopCas(p, next)
    ensures Simulates(StepPopCas(s, t, p, next, spurious), x', a)
  {
    assert ThreadOk(s, x, a, t);
    if s.head == p && !spurious {
      x' := KeepsUnlink(s, x, a, t, p, next);
    } else {
      x' := x;
      LocalStep(s, x, a, StepPopCas(s, t, p, next, spurious).s, a, t);
    }
  }

  lemma AtTop(s: State, x: Proof, a: Spec)
    requires Inv(s, x, a) && s.head != NULL
    ensures x.chain != [] && |a.items| == |x.chain| && RoleIs(s, x, s.head, Linked(|x.chain| - 1))
  {
    assert RoleIs(s, x, x.chain[|x.chain| - 1], Linked(|x.chain| - 1));
  }

  lemma KeepsUnlink(s: State, x: Proof, a: Spec, t: Tid, p: Addr, next: Addr) returns (x': Proof)
    requires Inv(s, x, a) && PcOf(s, t) == PopCas(p, next) && s.head == p
    ensures Simulates(StepPopCas(s, t, p, next, false), x', a)
  {
    hide ListsOk;
    assert ThreadOk(s, x, a, t) && NodeOk(s, x, a, p);
    var o := StepPopCas(s, t, p, next, false);
    var top := |x.chain| - 1;
    AtTop(s, x, a);
    assert o.l == LinPop(t, Top(a.items));
    var s', a' := o.s, Next(a, o.l).value;
    x' := x.(chain := x.chain[..top], role := x.role[p := Hand(t)]);
    ListsPop(s, x, a, s', x', a', t);
    forall q | q in s'.heap && !OthersOwn(x', t, q) ensures NodeOk(s', x', a', q) {
      assert NodeOk(s, x, a, q);
    }
    RoleStep(s, x, a, s', x', a', t);
  }

  lemma ListsPop(s: State, x: Proof, a: Spec, s': State, x': Proof, a': Spec, t: Tid)
    requires ListsOk(s, x, a) && x.chain != []
    requires s'.heap == s.heap && s'.pending == s.pending
    requires s.head in s.heap && s'.head == s.heap[s.head].next
    requires x'.chain == x.chain[..|x.chain| - 1] && x'.pend == x.pend && x'.role == x.role[s.head := Hand(t)]
    requires |a'.items| == |a.items| - 1
    ensures ListsOk(s', x', a')
  {
    var top := |x.chain| - 1;
    assert RoleIs(s, x, x.chain[top], Linked(top)) && Leads(s, x.chain, top);
    forall i | 0 <= i < top ensures RoleIs(s', x', x'.chain[i], Linked(i)) && Leads(s', x'.chain, i) {
      assert RoleIs(s, x, x.chain[i], Linked(i)) && Leads(s, x.chain, i);
    }
    forall i | 0 <= i < |x.pend| ensures RoleIs(s', x', x.pend[i], Pending(i)) && Leads(s', x.pend, i) {
      assert RoleIs(s, x, x.pend[i], Pending(i)) && Leads(s, x.pend, i);
    }
  }

  lemma KeepsPopTake(s: State, x: Proof, a: Spec, t: Tid, n: Addr)
    requires Inv(s, x, a) && PcOf(s, t) == PopTake(n)
    ensures Simulates(StepPopTake(s, t, n), x, a)
  {
    hide ListsOk;
    assert ThreadOk(s, x, a, t) && NodeOk(s, x, a, n);
    var s' := StepPopTake(s, t, n).s;
    Counting(s, s', t);
    SameLists(s, x, a, s', x, a);
    forall p | p in s'.heap && !OthersOwn(x, t, p) ensures NodeOk(s', x, a, p) {
      assert NodeOk(s, x, a, p);
    }
    Frame(s, x, a, s', x, a, t);
  }

  /** Alone in `pop`, a thread knows that nobody else has loaded anything. */
  lemma AloneInside(s: State, x: Proof, a: Spec, t: Tid)
    requires Inv(s, x, a) && Counted(PcOf(s, t)) && s.inPop == 1
    ensures forall u, p :: u != t ==> !Loaded(PcOf(s, u), p)
  {
    assert t in Inside(s) && |Inside(s) - {t}| == 0;
    forall u, p | u != t ensures !Loaded(PcOf(s, u), p) {
      assert u !in Inside(s) - {t};
    }
  }

  lemma KeepsPopCheck(s: State, x: Proof, a: Spec, t: Tid, n: Addr, res: Option<Value>) returns (x': Proof)
    requires Inv(s, x, a) && PcOf(s, t) == PopCheck(n, res)
    ensures Simulates(StepPopCheck(s, t, n, res), x', a)
  {
    hide ListsOk;
    assert ThreadOk(s, x, a, t) && NodeOk(s, x, a, n);
    var s' := StepPopCheck(s, t, n, res).s;
    x' := x;
    if s.inPop == 1 {
      x' := x.(role := x.role[n := Sole(t)]);
      AloneInside(s, x, a, t);
      SameLists(s, x, a, s', x', a);
      forall p | p in s'.heap && !OthersOwn(x', t, p) ensures NodeOk(s', x', a, p) {
        assert NodeOk(s, x, a, p);
      }
      RoleStep(s, x, a, s', x', a, t);
    } else {
      LocalStep(s, x, a, s', a, t);
    }
  }

  /** `to_be_deleted.exchange(nullptr)`: the whole pending list changes hands. */
  function Claim(x: Proof, t: Tid): Proof {
    x.(pend := [], claims := x.claims[t := x.pend],
       role := map p | p in x.role :: match x.role[p] case Pending(i) => Claimed(t, i) case r => r)
  }

  lemma ListsClaim(s: State, x: Proof, a: Spec, s': State, t: Tid)
    requires ListsOk(s, x, a) && s'.heap == s.heap && s'.head == s.head && s'.pending == NULL
    ensures ListsOk(s', Claim(x, t), a) && ClaimOk(s', Claim(x, t), t, false, 0)
  {
    var x' := Claim(x, t);
    forall i | 0 <= i < |x.chain| ensures RoleIs(s', x', x.chain[i], Linked(i)) && Leads(s', x.chain, i) {
      assert RoleIs(s, x, x.chain[i], Linked(i)) && Leads(s, x.chain, i);
    }
    forall i | 0 <= i < |x.pend| ensures RoleIs(s', x', x.pend[i], Claimed(t, i)) && Leads(s', x.pend, i) {
      assert RoleIs(s, x, x.pend[i], Pending(i)) && Leads(s, x.pend, i);
    }
  }

  lemma NodeClaimed(s: State, x: Proof, a: Spec, s': State, t: Tid, p: Addr)
    requires Inv(s, x, a) && s'.heap == s.heap && p in s.heap && ClaimOf(x, t) == [] && !OthersOwn(Claim(x, t), t, p)
    requires PcOf(s, t).PopClaim? && SoleOf(PcOf(s', t)) == SoleOf(PcOf(s, t))
    ensures NodeOk(s', Claim(x, t), a, p)
  {
    assert NodeOk(s, x, a, p);
  }

  /** A step that only moves roles among the lists and `t` is quiet. */
  lemma QuietRoles(s: State, x: Proof, a: Spec, s': State, x': Proof, a': Spec, t: Tid)
    requires s'.heap == s.heap && s'.threads == s.threads[t := PcOf(s', t)]
    requires x'.role.Keys == x.role.Keys == s.heap.Keys
    requires forall u :: u != t ==> OpOf(a', u) == OpOf(a, u) && ClaimOf(x', u) == ClaimOf(x, u)
    requires forall p :: p in x.role ==> x'.role[p] == x.role[p] || (!OthersOwn(x, t, p) && !OthersOwn(x', t, p))
    requires (forall u, p :: u != t ==> !Loaded(PcOf(s, u), p))
             || forall p :: p in x.role && Loadable(x.role[p]) ==>
                Loadable(x'.role[p]) && (x'.role[p].Linked? ==> x.role[p].Linked?)
    ensures Quiet(s, x, a, s', x', a', t)
  {
  }

  /** A step that leaves the heap alone and moves nodes only among the lists and `t`. */
  lemma RoleStep(s: State, x: Proof, a: Spec, s': State, x': Proof, a': Spec, t: Tid)
    requires Inv(s, x, a) && s'.heap == s.heap && s'.threads == s.threads[t := PcOf(s', t)] && !s'.fault
    requires s'.inPop == s.inPop + (if Counted(PcOf(s', t)) then 1 else 0) - (if Counted(PcOf(s, t)) then 1 else 0)
    requires x'.role.Keys == x.role.Keys
    requires forall u :: u != t ==> OpOf(a', u) == OpOf(a, u) && ClaimOf(x', u) == ClaimOf(x, u)
    requires forall p :: p in x.role ==> x'.role[p] == x.role[p] || (!OthersOwn(x, t, p) && !OthersOwn(x', t, p))
    requires (forall u, p :: u != t ==> !Loaded(PcOf(s, u), p))
             || forall p :: p in x.role && Loadable(x.role[p]) ==>
                Loadable(x'.role[p]) && (x'.role[p].Linked? ==> x.role[p].Linked?)
    requires ListsOk(s', x', a') && ThreadOk(s', x', a', t)
    requires forall p {:trigger NodeOk(s', x', a', p)} :: p in s'.heap && !OthersOwn(x', t, p) ==> NodeOk(s', x', a', p)
    ensures Inv(s', x', a')
  {
    hide ListsOk;
    Counting(s, s', t);
    QuietRoles(s, x, a, s', x', a', t);
    Frame(s, x, a, s', x', a', t);
  }

  lemma QuietClaim(x: Proof, t: Tid)
    ensures var x' := Claim(x, t);
            && x'.role.Keys == x.role.Keys && (forall u :: u != t ==> ClaimOf(x', u) == ClaimOf(x, u))
            && (forall p :: p in x.role ==> x'.role[p] == x.role[p] || (!OthersOwn(x, t, p) && !OthersOwn(x', t, p)))
            && (forall p :: p in x.role && Loadable(x.role[p]) ==>
                Loadable(x'.role[p]) && (x'.role[p].Linked? ==> x.role[p].Linked?))
  {
  }

  lemma KeepsPopClaim(s: State, x: Proof, a: Spec, t: Tid, n: Addr, res: Option<Value>)
    requires Inv(s, x, a) && PcOf(s, t) == PopClaim(n, res)
    ensures Simulates(Outcome(Goto(s.(pending := NULL), t, PopLeave(n, s.pending, res)), Tau), Claim(x, t), a)
  {
    assert ThreadOk(s, x, a, t);
    var s', x' := Goto(s.(pending := NULL), t, PopLeave(n, s.pending, res)), Claim(x, t);
    ListsClaim(s, x, a, s', t);
    QuietClaim(x, t);
    forall p | p in s'.heap && !OthersOwn(x', t, p) ensures NodeOk(s', x', a, p) {
      NodeClaimed(s, x, a, s', t, p);
    }
    RoleStep(s, x, a, s', x', a, t);
  }

  /** The last thread to leave `pop` dooms the list it claimed. */
  function Doom(x: Proof, t: Tid): Proof {
    x.(role := map p | p in x.role ::
         match x.role[p] case Claimed(u, i) => if u == t then Doomed(t, i) else x.role[p] case r => r)
  }

  lemma ClaimDoomed(s: State, x: Proof, s': State, t: Tid)
    requires ClaimOk(s, x, t, false, 0) && s'.heap == s.heap
    ensures ClaimOk(s', Doom(x, t), t, true, 0)
  {
    var list := ClaimOf(x, t);
    forall i | 0 <= i < |list| ensures RoleIs(s', Doom(x, t), list[i], Doomed(t, i)) && Leads(s', list, i) {
      assert RoleIs(s, x, list[i], Claimed(t, i)) && Leads(s, list, i);
    }
  }

  lemma KeepsLastOut(s: State, x: Proof, a: Spec, t: Tid, n: Addr, first: Addr, res: Option<Value>)
    requires Inv(s, x, a) && PcOf(s, t) == PopLeave(n, first, res) && s.inPop == 1
    ensures Inv(StepPopLeave(s, t, n, first, res).s, Doom(x, t), a)
  {
    hide ListsOk, ClaimOk;
    assert ThreadOk(s, x, a, t) && NodeOk(s, x, a, n);
    var s', x' := StepPopLeave(s, t, n, first, res).s, Doom(x, t);
    AloneInside(s, x, a, t);
    SameLists(s, x, a, s', x', a);
    ClaimDoomed(s, x, s', t);
    forall p | p in s'.heap && !OthersOwn(x', t, p) ensures NodeOk(s', x', a, p) {
      assert NodeOk(s, x, a, p);
    }
    RoleStep(s, x, a, s', x', a, t);
  }

  lemma KeepsPopLeave(s: State, x: Proof, a: Spec, t: Tid, n: Addr, first: Addr, res: Option<Value>) returns (x': Proof)
    requires Inv(s, x, a) && PcOf(s, t) == PopLeave(n, first, res)
    ensures Simulates(StepPopLeave(s, t, n, first, res), x', a)
  {
    assert ThreadOk(s, x, a, t);
    x' := x;
    if s.inPop == 1 {
      KeepsLastOut(s, x, a, t, n, first, res);
      x' := Doom(x, t);
    } else {
      var s' := StepPopLeave(s, t, n, first, res).s;
      var list := ClaimOf(x, t);
      assert forall i :: 0 < i <= |list| ==> RoleIs(s, x, Below(list, i), Claimed(t, i - 1));
      SameClaim(s, x, s', x, t, false, 0);
      LocalStep(s, x, a, s', a, t);
    }
  }

  lemma KeepsPurge(s: State, x: Proof, a: Spec, t: Tid, n: Addr, hand: Addr, res: Option<Value>)
    requires Inv(s, x, a) && PcOf(s, t) == Purge(n, hand, res)
    ensures Simulates(StepPurge(s, t, n, hand, res), x, a)
  {
    hide ListsOk;
    assert ThreadOk(s, x, a, t);
    var s' := StepPurge(s, t, n, hand, res).s;
    var list := ClaimOf(x, t);
    assert forall i :: 0 < i <= |list| ==> RoleIs(s, x, Below(list, i), Doomed(t, i - 1));
    assert list != [] ==> Leads(s, list, |list| - 1);
    SameClaim(s, x, s', x, t, true, 0);
    LocalStep(s, x, a, s', a, t);
  }

  lemma KeepsWalk(s: State, x: Proof, a: Spec, t: Tid, first: Addr, last: Addr, hand: Addr, res: Option<Value>)
    requires Inv(s, x, a) && PcOf(s, t) == Walk(first, last, hand, res)
    ensures Simulates(StepWalk(s, t, first, last, hand, res), x, a)
  {
    hide ListsOk;
    assert ThreadOk(s, x, a, t);
    var s' := StepWalk(s, t, first, last, hand, res).s;
    var list := ClaimOf(x, t);
    var i :| 0 <= i < |list| && list[i] == last;
    assert RoleIs(s, x, list[i], Claimed(t, i)) && Leads(s, list, i);
    if i > 0 {
      assert RoleIs(s, x, list[i - 1], Claimed(t, i - 1));
      SameClaim(s, x, s', x, t, false, 0);
    } else {
      SameClaim(s, x, s', x, t, false, 0);
    }
    LocalStep(s, x, a, s', a, t);
  }

  lemma QuietDelete(s: State, x: Proof, a: Spec, s': State, x': Proof, t: Tid, n: Addr)
    requires x.role.Keys == s.heap.Keys && n in x.role && OwnedBy(x.role[n], t) && !Loadable(x.role[n])
    requires s' == s.(heap := s.heap - {n}, threads := s.threads[t := PcOf(s', t)])
    requires x'.role == x.role - {n} && forall u :: u != t ==> ClaimOf(x', u) == ClaimOf(x, u)
    ensures Quiet(s, x, a, s', x', a, t)
  {
  }

  /** Deleting a node that only `t` can reach. */
  lemma DeleteStep(s: State, x: Proof, a: Spec, s': State, x': Proof, t: Tid, n: Addr)
    requires Inv(s, x, a) && n in x.role && OwnedBy(x.role[n], t) && (x.role[n].Sole? || x.role[n].Doomed?)
    requires s' == s.(heap := s.heap - {n}, threads := s.threads[t := PcOf(s', t)])
    requires Counted(PcOf(s', t)) == Counted(PcOf(s, t))
    requires x' == x.(role := x.role - {n}, claims := x'.claims)
    requires forall u :: u != t ==> ClaimOf(x', u) == ClaimOf(x, u)
    requires ThreadOk(s', x', a, t)
    requires forall p :: p in s'.heap && OwnedBy(x.role[p], t) ==> NodeOk(s', x', a, p)
    ensures Inv(s', x', a)
  {
    hide ListsOk, Quiet, ThreadOk;
    Counting(s, s', t);
    SameLists(s, x, a, s', x', a);
    forall p | p in s'.heap && !OthersOwn(x', t, p) ensures NodeOk(s', x', a, p) {
      assert NodeOk(s, x, a, p);
    }
    QuietDelete(s, x, a, s', x', t, n);
    Frame(s, x, a, s', x', a, t);
  }

  lemma KeepsPopFree(s: State, x: Proof, a: Spec, t: Tid, n: Addr, res: Option<Value>) returns (x': Proof)
    requires Inv(s, x, a) && PcOf(s, t) == PopFree(n, res)
    ensures Simulates(StepDelete(s, t, n, PopRet(res)), x', a)
  {
    assert ThreadOk(s, x, a, t);
    var s' := StepDelete(s, t, n, PopRet(res)).s;
    x' := x.(role := x.role - {n});
    forall p | p in s'.heap && OwnedBy(x.role[p], t) ensures NodeOk(s', x', a, p) {
      assert NodeOk(s, x, a, p);
    }
    DeleteStep(s, x, a, s', x', t, n);
  }

  lemma PurgedClaim(s: State, x: Proof, s': State, x': Proof, t: Tid)
    requires ClaimOk(s, x, t, true, 0) && ClaimOf(x, t) != []
    requires var n := ClaimOf(x, t)[|ClaimOf(x, t)| - 1]; s'.heap == s.heap - {n} && x'.role == x.role - {n}
    requires ClaimOf(x', t) == ClaimOf(x, t)[..|ClaimOf(x, t)| - 1]
    ensures ClaimOk(s', x', t, true, 0)
  {
    var list, less := ClaimOf(x, t), ClaimOf(x', t);
    var top := |list| - 1;
    assert RoleIs(s, x, list[top], Doomed(t, top));
    forall i | 0 <= i < top ensures RoleIs(s', x', less[i], Doomed(t, i)) && Leads(s', less, i) {
      assert less[i] == list[i] && RoleIs(s, x, list[i], Doomed(t, i)) && Leads(s, list, i);
    }
  }

  lemma PurgedNode(s: State, x: Proof, a: Spec, s': State, x': Proof, t: Tid, p: Addr)
    requires NodeOk(s, x, a, p) && ClaimOf(x, t) != [] && PcOf(s, t).PurgeFree? && PcOf(s', t).Purge?
    requires SoleOf(PcOf(s', t)) == SoleOf(PcOf(s, t))
    requires var n := ClaimOf(x, t)[|ClaimOf(x, t)| - 1]; p != n && s'.heap == s.heap - {n} && x'.role == x.role - {n}
    requires ClaimOf(x', t) == ClaimOf(x, t)[..|ClaimOf(x, t)| - 1] && OwnedBy(x.role[p], t)
    ensures NodeOk(s', x', a, p)
  {
  }

  lemma PurgedNodes(s: State, x: Proof, a: Spec, s': State, x': Proof, t: Tid)
    requires forall p {:trigger NodeOk(s, x, a, p)} :: p in s.heap ==> p in x.role && NodeOk(s, x, a, p)
    requires ClaimOf(x, t) != [] && PcOf(s, t).PurgeFree? && PcOf(s', t).Purge?
    requires SoleOf(PcOf(s', t)) == SoleOf(PcOf(s, t))
    requires var n := ClaimOf(x, t)[|ClaimOf(x, t)| - 1]; s'.heap == s.heap - {n} && x'.role == x.role - {n}
    requires ClaimOf(x', t) == ClaimOf(x, t)[..|ClaimOf(x, t)| - 1]
    ensures forall p {:trigger NodeOk(s', x', a, p)} :: p in s'.heap && p in x.role && OwnedBy(x.role[p], t) ==>
            p in x'.role && NodeOk(s', x', a, p)
  {
    forall p | p in s'.heap && p in x.role && OwnedBy(x.role[p], t) ensures p in x'.role && NodeOk(s', x', a, p) {
      assert NodeOk(s, x, a, p);
      PurgedNode(s, x, a, s', x', t, p);
    }
  }

  /** One round of `delete_nodes`: the top of the doomed list goes. */
  lemma KeepsPurgeFree(s: State, x: Proof, a: Spec, t: Tid, n: Addr, next: Addr, hand: Addr, res: Option<Value>)
    returns (x': Proof)
    requires Inv(s, x, a) && PcOf(s, t) == PurgeFree(n, next, hand, res)
    ensures Simulates(StepDelete(s, t, n, Purge(next, hand, res)), x', a)
  {
    assert ThreadOk(s, x, a, t);
    var s' := StepDelete(s, t, n, Purge(next, hand, res)).s;
    var list := ClaimOf(x, t);
    var top := |list| - 1;
    x' := x.(role := x.role - {n}, claims := x.claims[t := list[..top]]);
    assert RoleIs(s, x, list[top], Doomed(t, top));
    PurgedClaim(s, x, s', x', t);
    PurgedNodes(s, x, a, s', x', t);
    DeleteStep(s, x, a, s', x', t, n);
  }

  lemma KeepsSpliceLoad(s: State, x: Proof, a: Spec, t: Tid, first: Addr, last: Addr, then_: After)
    requires Inv(s, x, a) && PcOf(s, t) == SpliceLoad(first, last, then_)
    ensures Simulates(StepSpliceLoad(s, t, first, last, then_), x, a)
  {
    assert ThreadOk(s, x, a, t);
    SpliceNode(s, x, a, t, first, last, then_);
    var s' := StepSpliceLoad(s, t, first, last, then_).s;
    SpliceClaim(s, x, s', t, last);
    KeepsRelink(s, x, a, s', t, last);
  }

  lemma SpliceNode(s: State, x: Proof, a: Spec, t: Tid, first: Addr, last: Addr, then_: After)
    requires Inv(s, x, a) && SpliceOk(s, x, t, OpOf(a, t), first, last, then_)
    ensures last in s.heap && last in x.role && OwnedBy(x.role[last], t) && !x.role[last].Fresh?
  {
    if then_.Drop? {
      assert RoleIs(s, x, ClaimOf(x, t)[0], Claimed(t, 0));
    }
  }

  lemma SpliceClaim(s: State, x: Proof, s': State, t: Tid, last: Addr)
    requires ClaimOf(x, t) == [] || last == ClaimOf(x, t)[0]
    requires last in s.heap && last in s'.heap && s'.heap == s.heap[last := s.heap[last].(next := s'.heap[last].next)]
    requires ClaimOk(s, x, t, false, 1)
    ensures ClaimOk(s', x, t, false, 1)
  {
    var list := ClaimOf(x, t);
    forall i | 0 <= i < |list| ensures RoleIs(s', x, list[i], Claimed(t, i)) && (1 <= i ==> Leads(s', list, i)) {
      assert RoleIs(s, x, list[i], Claimed(t, i)) && RoleIs(s, x, list[0], Claimed(t, 0));
      if 1 <= i {
        assert Leads(s, list, i);
      }
    }
  }

  function GiveBackAll(x: Proof, t: Tid): map<Addr, Role> {
    map p | p in x.role ::
      match x.role[p] case Claimed(u, i) => if u == t then Pending(|x.pend| + i) else x.role[p] case r => r
  }

  /** The CAS of `chain_pending_nodes`: what `t` had in its hand, or the list it had claimed, goes
      on top of the pending list. */
  function GiveBack(x: Proof, t: Tid, first: Addr, then_: After): Proof {
    if then_.Leave? then
      x.(pend := x.pend + [first], role := x.role[first := Pending(|x.pend|)])
    else
      x.(pend := x.pend + ClaimOf(x, t), claims := x.claims[t := []], role := GiveBackAll(x, t))
  }

  lemma KeepsStash(s: State, x: Proof, a: Spec, t: Tid, n: Addr, res: Option<Value>)
    requires Inv(s, x, a) && PcOf(s, t) == SpliceCas(n, n, Leave(res)) && n in s.heap && s.heap[n].next == s.pending
    ensures Inv(StepSpliceCas(s, t, n, n, Leave(res), false).s, GiveBack(x, t, n, Leave(res)), a)
  {
    hide ListsOk, ClaimOk;
    assert ThreadOk(s, x, a, t);
    var s', x' := StepSpliceCas(s, t, n, n, Leave(res), false).s, GiveBack(x, t, n, Leave(res));
    ListsStash(s, x, a, s', x', n);
    forall p | p in s'.heap && !OthersOwn(x', t, p) ensures NodeOk(s', x', a, p) {
      assert NodeOk(s, x, a, p);
    }
    RoleStep(s, x, a, s', x', a, t);
  }

  lemma NodeGivenBack(s: State, x: Proof, a: Spec, s': State, x': Proof, t: Tid, p: Addr)
    requires Inv(s, x, a) && s'.heap == s.heap && p in s.heap
    requires x'.chain == x.chain && x'.pend == x.pend + ClaimOf(x, t) && ClaimOf(x', t) == []
    requires x'.role == GiveBackAll(x, t) && !OthersOwn(x', t, p)
    requires PcOf(s, t).SpliceCas? && PcOf(s, t).then_.Drop? && PcOf(s', t) == Resume(PcOf(s, t).then_)
    requires ClaimOk(s, x, t, false, 1)
    ensures NodeOk(s', x', a, p)
  {
    assert NodeOk(s, x, a, p);
  }

  lemma QuietGiveBack(s: State, x: Proof, s': State, x': Proof, t: Tid)
    requires x'.role == GiveBackAll(x, t)
    ensures forall p :: p in x.role ==> x'.role[p] == x.role[p] || (!OthersOwn(x, t, p) && !OthersOwn(x', t, p))
    ensures forall p :: p in x.role && Loadable(x.role[p]) ==>
            Loadable(x'.role[p]) && (x'.role[p].Linked? ==> x.role[p].Linked?)
  {
  }

  lemma GivenBack(s: State, x: Proof, a: Spec, s': State, x': Proof, t: Tid, then_: After)
    requires Inv(s, x, a) && PcOf(s, t).SpliceCas? && PcOf(s, t).then_ == then_ && then_.Drop?
    requires PcOf(s, t).last in s.heap && s.heap[PcOf(s, t).last].next == s.pending
    requires s'.heap == s.heap && s'.head == s.head && s'.pending == PcOf(s, t).first && PcOf(s', t) == Resume(then_)
    requires x' == GiveBack(x, t, s'.pending, then_)
    ensures ListsOk(s', x', a) && ThreadOk(s', x', a, t)
    ensures forall p {:trigger NodeOk(s', x', a, p)} :: p in s'.heap && !OthersOwn(x', t, p) ==> NodeOk(s', x', a, p)
  {
    assert ThreadOk(s, x, a, t);
    ListsSplice(s, x, a, s', t, then_);
    forall p | p in s'.heap && !OthersOwn(x', t, p) ensures NodeOk(s', x', a, p) {
      NodeGivenBack(s, x, a, s', x', t, p);
    }
  }

  lemma KeepsGiveBack(s: State, x: Proof, a: Spec, t: Tid, first: Addr, last: Addr, then_: After)
    requires Inv(s, x, a) && PcOf(s, t) == SpliceCas(first, last, then_) && last in s.heap
    requires s.heap[last].next == s.pending
    requires then_.Drop?
    ensures Inv(StepSpliceCas(s, t, first, last, then_, false).s, GiveBack(x, t, first, then_), a)
  {
    hide ListsOk;
    var s', x' := StepSpliceCas(s, t, first, last, then_, false).s, GiveBack(x, t, first, then_);
    GivenBack(s, x, a, s', x', t, then_);
    QuietGiveBack(s, x, s', x', t);
    RoleStep(s, x, a, s', x', a, t);
  }

  lemma ListsStash(s: State, x: Proof, a: Spec, s': State, x': Proof, n: Addr)
    requires ListsOk(s, x, a) && n in s.heap && n in x.role && x.role[n].Hand? && s.heap[n].next == s.pending
    requires s'.heap == s.heap && s'.head == s.head && s'.pending == n
    requires x'.chain == x.chain && x'.pend == x.pend + [n] && x'.role == x.role[n := Pending(|x.pend|)]
    ensures ListsOk(s', x', a)
  {
    forall i | 0 <= i < |x.chain| ensures RoleIs(s', x', x.chain[i], Linked(i)) && Leads(s', x.chain, i) {
      assert RoleIs(s, x, x.chain[i], Linked(i)) && Leads(s, x.chain, i);
    }
    forall i | 0 <= i < |x'.pend| ensures RoleIs(s', x', x'.pend[i], Pending(i)) && Leads(s', x'.pend, i) {
      if i < |x.pend| {
        assert RoleIs(s, x, x.pend[i], Pending(i)) && Leads(s, x.pend, i);
      }
    }
  }

  lemma SplicedNode(s: State, x: Proof, a: Spec, x': Proof, t: Tid, i: nat)
    requires ListsOk(s, x, a) && ClaimOk(s, x, t, false, 1) && i < |x.pend| + |ClaimOf(x, t)|
    requires ClaimOf(x, t) != [] && ClaimOf(x, t)[0] in s.heap && s.heap[ClaimOf(x, t)[0]].next == s.pending
    requires x'.pend == x.pend + ClaimOf(x, t) && x'.role == GiveBackAll(x, t)
    ensures RoleIs(s, x', x'.pend[i], Pending(i)) && Leads(s, x'.pend, i)
  {
    var back := ClaimOf(x, t);
    if i < |x.pend| {
      assert RoleIs(s, x, x.pend[i], Pending(i)) && Leads(s, x.pend, i);
    } else {
      var j := i - |x.pend|;
      assert RoleIs(s, x, back[j], Claimed(t, j));
      assert j > 0 ==> Leads(s, back, j);
    }
  }

  lemma ListsSplice(s: State, x: Proof, a: Spec, s': State, t: Tid, then_: After)
    requires ListsOk(s, x, a) && ClaimOk(s, x, t, false, 1) && ClaimOf(x, t) != [] && then_.Drop?
    requires s'.heap == s.heap && s'.head == s.head && s'.pending == Below(ClaimOf(x, t), |ClaimOf(x, t)|)
    requires ClaimOf(x, t)[0] in s.heap && s.heap[ClaimOf(x, t)[0]].next == s.pending
    ensures ListsOk(s', GiveBack(x, t, s'.pending, then_), a)
  {
    var x' := GiveBack(x, t, s'.pending, then_);
    forall i | 0 <= i < |x.chain| ensures RoleIs(s', x', x.chain[i], Linked(i)) && Leads(s', x.chain, i) {
      assert RoleIs(s, x, x.chain[i], Linked(i)) && Leads(s, x.chain, i);
    }
    forall i | 0 <= i < |x'.pend| ensures RoleIs(s', x', x'.pend[i], Pending(i)) && Leads(s', x'.pend, i) {
      SplicedNode(s, x, a, x', t, i);
      assert RoleIs(s, x', x'.pend[i], Pending(i)) && Leads(s, x'.pend, i);
    }
  }

  lemma KeepsSpliceCas(s: State, x: Proof, a: Spec, t: Tid, first: Addr, last: Addr, then_: After, spurious: bool)
    returns (x': Proof)
    requires Inv(s, x, a) && PcOf(s, t) == SpliceCas(first, last, then_)
    ensures Simulates(StepSpliceCas(s, t, first, last, then_, spurious), x', a)
  {
    assert ThreadOk(s, x, a, t);
    SpliceNode(s, x, a, t, first, last, then_);
    var s' := StepSpliceCas(s, t, first, last, then_, spurious).s;
    if s.heap[last].next == s.pending && !spurious {
      if then_.Leave? {
        KeepsStash(s, x, a, t, first, then_.res);
      } else {
        KeepsGiveBack(s, x, a, t, first, last, then_);
      }
      x' := GiveBack(x, t, first, then_);
    } else {
      x' := x;
      SpliceClaim(s, x, s', t, last);
      KeepsRelink(s, x, a, s', t, last);
    }
  }

  lemma KeepsReturn(s: State, x: Proof, a: Spec, t: Tid, c: Choice)
    requires Inv(s, x, a) && (PcOf(s, t).PushDone? || PcOf(s, t).PopEnter? || PcOf(s, t).PopExit? || PcOf(s, t).PopRet?)
    ensures Simulates(Step(s, t, c), x, a)
  {
    assert ThreadOk(s, x, a, t);
    var o := Step(s, t, c);
    LocalStep(s, x, a, o.s, Next(a, o.l).value, t);
  }

  lemma Keeps(s: State, x: Proof, a: Spec, t: Tid, c: Choice) returns (x': Proof)
    requires Inv(s, x, a)
    ensures Simulates(Step(s, t, c), x', a)
  {
    var spurious := c.Go? && c.spurious;
    x' := x;
    match PcOf(s, t) {
      case Idle => x' := KeepsStart(s, x, a, t, c);
      case PushLoad(n) => KeepsPushLoad(s, x, a, t, n);
      case PushCas(n) => x' := KeepsPushCas(s, x, a, t, n, spurious);
      case PushDone => KeepsReturn(s, x, a, t, c);
      case PopEnter => KeepsReturn(s, x, a, t, c);
      case PopLoad => KeepsPopLoad(s, x, a, t);
      case PopRead(p) => KeepsPopRead(s, x, a, t, p);
      case PopCas(p, next) => x' := KeepsPopCas(s, x, a, t, p, next, spurious);
      case PopTake(p) => KeepsPopTake(s, x, a, t, p);
      case PopExit(res) => KeepsReturn(s, x, a, t, c);
      case PopRet(res) => KeepsReturn(s, x, a, t, c);
      case _ => x' := KeepsReclaim(s, x, a, t, c);
    }
  }

  /** The steps of `try_reclaim`. */
  lemma KeepsReclaim(s: State, x: Proof, a: Spec, t: Tid, c: Choice) returns (x': Proof)
    requires Inv(s, x, a)
    requires var pc := PcOf(s, t);
             pc.PopCheck? || pc.PopClaim? || pc.PopLeave? || pc.Purge? || pc.PurgeFree? || pc.Walk? || pc.SpliceLoad?
                 || pc.SpliceCas? || pc.PopFree?
    ensures Simulates(Step(s, t, c), x', a)
  {
    var spurious := c.Go? && c.spurious;
    x' := x;
    match PcOf(s, t) {
      case PopCheck(p, res) =>
        assert Step(s, t, c) == StepPopCheck(s, t, p, res);
        x' := KeepsPopCheck(s, x, a, t, p, res);
      case PopClaim(p, res) =>
        assert Step(s, t, c) == Outcome(Goto(s.(pending := NULL), t, PopLeave(p, s.pending, res)), Tau);
        KeepsPopClaim(s, x, a, t, p, res);
        x' := Claim(x, t);
      case PopLeave(p, first, res) =>
        assert Step(s, t, c) == StepPopLeave(s, t, p, first, res);
        x' := KeepsPopLeave(s, x, a, t, p, first, res);
      case Purge(n, p, res) =>
        assert Step(s, t, c) == StepPurge(s, t, n, p, res);
        KeepsPurge(s, x, a, t, n, p, res);
      case PurgeFree(n, next, p, res) =>
        assert Step(s, t, c) == StepDelete(s, t, n, Purge(next, p, res));
        x' := KeepsPurgeFree(s, x, a, t, n, next, p, res);
      case Walk(first, last, p, res) =>
        assert Step(s, t, c) == StepWalk(s, t, first, last, p, res);
        KeepsWalk(s, x, a, t, first, last, p, res);
      case SpliceLoad(first, last, then_) =>
        assert Step(s, t, c) == StepSpliceLoad(s, t, first, last, then_);
        KeepsSpliceLoad(s, x, a, t, first, last, then_);
      case SpliceCas(first, last, then_) =>
        assert Step(s, t, c) == StepSpliceCas(s, t, first, last, then_, spurious);
        x' := KeepsSpliceCas(s, x, a, t, first, last, then_, spurious);
      case PopFree(p, res) =>
        assert Step(s, t, c) == StepDelete(s, t, p, PopRet(res));
        x' := KeepsPopFree(s, x, a, t, p, res);
    }
  }

  // ---------------------------------------------------------------- every run

  lemma {:induction false} Runs(s: State, x: Proof, a: Spec, sched: Schedule) returns (x': Proof)
    requires Inv(s, x, a)
    ensures Replay(a, Labels(s, sched)).Some? && Inv(Run(s, sched), x', Replay(a, Labels(s, sched)).value)
    decreases sched
  {
    x' := x;
    if sched != [] {
      var o := Step(s, sched[0].0, sched[0].1);
      var y := Keeps(s, x, a, sched[0].0, sched[0].1);
      x' := Runs(o.s, y, Next(a, o.l).value, sched[1..]);
      var ls := Labels(s, sched);
      assert ls == [o.l] + Labels(o.s, sched[1..]) && ls[1..] == Labels(o.s, sched[1..]);
    }
  }

  lemma FromInit(sched: Schedule) returns (x: Proof)
    ensures Replay(NEW_STACK, Labels(INIT, sched)).Some?
    ensures Inv(Run(INIT, sched), x, Replay(NEW_STACK, Labels(INIT, sched)).value)
  {
    assert Inside(INIT) == {};
    x := Runs(INIT, Proof([], [], map[], map[]), NEW_STACK, sched);
  }

  /** Every interleaving of any number of threads is a run of the atomic stack. */
  lemma Linearizable(sched: Schedule)
    ensures Replay(NEW_STACK, Labels(INIT, sched)).Some?
  {
    var x := FromInit(sched);
  }

  /** No step reads, writes or frees an address that is not allocated. */
  lemma MemorySafe(sched: Schedule)
    ensures !Run(INIT, sched).fault
  {
    var x := FromInit(sched);
  }

  lemma AtMostOnce(sched: Schedule)
    ensures PoppedIn(Labels(INIT, sched)) <= PushedIn(Labels(INIT, sched))
  {
    Linearizable(sched);
    PoppedWasPushed(Labels(INIT, sched));
  }

  /** `threads_in_pop` counts exactly the threads between its increment and its decrement. */
  lemma CounterCounts(sched: Schedule)
    ensures Run(INIT, sched).inPop == |Inside(Run(INIT, sched))|
  {
    var x := FromInit(sched);
  }

  predicate Deleting(pc: Pc, p: Addr) {
    match pc
    case PurgeFree(n, _, _, _) => n == p
    case PopFree(n, _) => n == p
    case _ => false
  }

  /** Neither `delete old` nor `delete_nodes` ever frees a node that a thread inside `pop` has
      loaded. */
  lemma NeverFreesLoaded(sched: Schedule, t: Tid, u: Tid, p: Addr)
    requires Deleting(PcOf(Run(INIT, sched), t), p)
    ensures !Loaded(PcOf(Run(INIT, sched), u), p)
  {
    var x := FromInit(sched);
    var s, a := Run(INIT, sched), Replay(NEW_STACK, Labels(INIT, sched)).value;
    assert ThreadOk(s, x, a, t) && ThreadOk(s, x, a, u);
    var list := ClaimOf(x, t);
    assert PcOf(s, t).PurgeFree? ==> RoleIs(s, x, list[|list| - 1], Doomed(t, |list| - 1));
  }

  /** The places an allocated node can be in. */
  datatype Place = AtPusher(t: Tid) | OnStack(at: nat) | InHand(t: Tid) | OnPending(at: nat) | InClaim(t: Tid, at: nat)

  datatype Lists = Lists(stack: seq<Addr>, pending: seq<Addr>, claims: map<Tid, seq<Addr>>)

  predicate WithPusher(pc: Pc, p: Addr) {
    pc == PushLoad(p) || pc == PushCas(p)
  }

  predicate Located(s: State, l: Lists, p: Addr, place: Place) {
    p != NULL &&
    match place
    case AtPusher(t) => WithPusher(PcOf(s, t), p)
    case OnStack(i) => At(l.stack, i, p)
    case InHand(t) => HandOf(PcOf(s, t)) == p || SoleOf(PcOf(s, t)) == p
    case OnPending(i) => At(l.pending, i, p)
    case InClaim(t, i) => t in l.claims && At(l.claims[t], i, p)
  }

  /** `list` hangs from `first`, bottom node first; the links below index `from` are not looked at. */
  ghost predicate HangsAbove(s: State, first: Addr, list: seq<Addr>, from: nat) {
    && first == Below(list, |list|)
    && (forall i :: 0 <= i < |list| ==> list[i] in s.heap)
    && (forall i {:trigger Leads(s, list, i)} :: from <= i < |list| ==> Leads(s, list, i))
  }

  ghost predicate Hangs(s: State, first: Addr, list: seq<Addr>) {
    HangsAbove(s, first, list, 0)
  }

  /** The variable of `try_reclaim`, `delete_nodes` or `chain_pending_nodes` that a thread's claimed list hangs
      from. */
  function ClaimedFrom(pc: Pc): Addr {
    match pc
    case PopLeave(_, first, _) => first
    case Purge(n, _, _) => n
    case PurgeFree(n, _, _, _) => n
    case Walk(first, _, _, _) => first
    case SpliceLoad(first, _, then_) => if then_.Drop? then first else NULL
    case SpliceCas(first, _, then_) => if then_.Drop? then first else NULL
    case _ => NULL
  }

  /** A thread that is putting its claimed list back, whose bottom node it is linking to the pending list. */
  predicate Splicing(pc: Pc) {
    (pc.SpliceLoad? || pc.SpliceCas?) && pc.then_.Drop?
  }

  function ClaimIn(l: Lists, t: Tid): seq<Addr> {
    if t in l.claims then l.claims[t] else []
  }

  /** The claimed list of `t` is what hangs from its variable, and nothing if it has none. */
  ghost predicate ClaimHangs(s: State, l: Lists, t: Tid) {
    var pc, list := PcOf(s, t), ClaimIn(l, t);
    && HangsAbove(s, ClaimedFrom(pc), list, if Splicing(pc) then 1 else 0)
    && (list != [] ==> list[|list| - 1] != NULL)
    && (Splicing(pc) ==> list != [] && pc.last == list[0])
  }

  function PlaceOf(r: Role): Place {
    match r
    case Fresh(t) => AtPusher(t)
    case Linked(i) => OnStack(i)
    case Hand(t) => InHand(t)
    case Sole(t) => InHand(t)
    case Pending(i) => OnPending(i)
    case Claimed(t, i) => InClaim(t, i)
    case Doomed(t, i) => InClaim(t, i)
  }

  lemma ClaimRoles(s: State, x: Proof, a: Spec, t: Tid, i: nat)
    requires ThreadOk(s, x, a, t) && i < |ClaimOf(x, t)|
    ensures var p := ClaimOf(x, t)[i]; RoleIs(s, x, p, Claimed(t, i)) || RoleIs(s, x, p, Doomed(t, i))
  {
  }

  lemma PlaceIsRole(s: State, x: Proof, a: Spec, p: Addr, place: Place)
    requires Inv(s, x, a) && Located(s, Lists(x.chain, x.pend, x.claims), p, place)
    ensures p in s.heap && p in x.role && PlaceOf(x.role[p]) == place
  {
    match place {
      case AtPusher(t) => assert ThreadOk(s, x, a, t);
      case OnStack(i) => assert RoleIs(s, x, x.chain[i], Linked(i));
      case InHand(t) =>
        assert ThreadOk(s, x, a, t);
      case OnPending(i) => assert RoleIs(s, x, x.pend[i], Pending(i));
      case InClaim(t, i) =>
        assert ThreadOk(s, x, a, t);
        ClaimRoles(s, x, a, t, i);
    }
  }

  lemma ClaimsHang(s: State, x: Proof, a: Spec, t: Tid)
    requires Inv(s, x, a)
    ensures ClaimHangs(s, Lists(x.chain, x.pend, x.claims), t)
  {
    assert ThreadOk(s, x, a, t);
    var list := ClaimOf(x, t);
    forall i | 0 <= i < |list| ensures list[i] in s.heap {
      ClaimRoles(s, x, a, t, i);
    }
  }

  lemma ListsHang(s: State, x: Proof, a: Spec)
    requires ListsOk(s, x, a)
    ensures Hangs(s, s.head, x.chain) && Hangs(s, s.pending, x.pend)
  {
    forall i | 0 <= i < |x.chain| ensures x.chain[i] in s.heap {
      assert RoleIs(s, x, x.chain[i], Linked(i));
    }
    forall i | 0 <= i < |x.pend| ensures x.pend[i] in s.heap {
      assert RoleIs(s, x, x.pend[i], Pending(i));
    }
  }

  lemma AllPlaced(s: State, x: Proof, a: Spec, p: Addr)
    requires Inv(s, x, a)
    ensures p in s.heap <==> exists place :: Located(s, Lists(x.chain, x.pend, x.claims), p, place)
  {
    var l := Lists(x.chain, x.pend, x.claims);
    if p in s.heap {
      assert NodeOk(s, x, a, p);
      assert Located(s, l, p, PlaceOf(x.role[p]));
    }
    forall place | Located(s, l, p, place) ensures p in s.heap {
      PlaceIsRole(s, x, a, p, place);
    }
  }

  /** At every moment each allocated node is in exactly one place, and nothing else is anywhere. The stack and
      the pending list hang from their heads and each claimed list from the variable of its thread, so
      chaining lists back and forth neither loses nor duplicates a node. */
  lemma OnePlaceEach(sched: Schedule)
    ensures exists l: Lists ::
      && Hangs(Run(INIT, sched), Run(INIT, sched).head, l.stack)
      && Hangs(Run(INIT, sched), Run(INIT, sched).pending, l.pending)
      && (forall t: Tid :: ClaimHangs(Run(INIT, sched), l, t))
      && (forall p :: p in Run(INIT, sched).heap <==> exists place :: Located(Run(INIT, sched), l, p, place))
      && (forall p, one, two ::
            Located(Run(INIT, sched), l, p, one) && Located(Run(INIT, sched), l, p, two) ==> one == two)
  {
    hide ListsOk, Hangs, ClaimHangs, Located;
    var x := FromInit(sched);
    var s, a := Run(INIT, sched), Replay(NEW_STACK, Labels(INIT, sched)).value;
    var l := Lists(x.chain, x.pend, x.claims);
    ListsHang(s, x, a);
    forall t: Tid ensures ClaimHangs(s, l, t) {
      ClaimsHang(s, x, a, t);
    }
    forall p ensures p in s.heap <==> exists place :: Located(s, l, p, place) {
      AllPlaced(s, x, a, p);
    }
    forall p, one, two | Located(s, l, p, one) && Located(s, l, p, two) ensures one == two {
      PlaceIsRole(s, x, a, p, one);
      PlaceIsRole(s, x, a, p, two);
    }
  }

  predicate InPop(pc: Pc) {
    !pc.Idle? && !pc.PushLoad? && !pc.PushCas? && !pc.PushDone?
  }

  /** Nothing leaks: with no pop in progress every allocated node is on the stack, on the pending list, or
      belongs to a push that has not linked it. */
  lemma NothingLeaks(sched: Schedule)
    requires forall t: Tid :: !InPop(PcOf(Run(INIT, sched), t))
    ensures exists stack, pending: seq<Addr> ::
      && Hangs(Run(INIT, sched), Run(INIT, sched).head, stack)
      && Hangs(Run(INIT, sched), Run(INIT, sched).pending, pending)
      && (forall p :: p in Run(INIT, sched).heap <==>
            p in stack || p in pending || exists t: Tid :: p != NULL && WithPusher(PcOf(Run(INIT, sched), t), p))
  {
    OnePlaceEach(sched);
    var s := Run(INIT, sched);
    var l: Lists :|
      && Hangs(s, s.head, l.stack)
      && Hangs(s, s.pending, l.pending)
      && (forall t: Tid :: ClaimHangs(s, l, t))
      && (forall p :: p in s.heap <==> exists place :: Located(s, l, p, place))
      && (forall p, one, two :: Located(s, l, p, one) && Located(s, l, p, two) ==> one == two);
    forall p ensures p in s.heap <==>
                     p in l.stack || p in l.pending || exists t: Tid :: p != NULL && WithPusher(PcOf(s, t), p)
    {
      QuietPlaces(s, l, p);
    }
  }

  lemma QuietPlaces(s: State, l: Lists, p: Addr)
    requires Hangs(s, s.head, l.stack) && Hangs(s, s.pending, l.pending)
    requires forall t: Tid :: ClaimHangs(s, l, t) && !InPop(PcOf(s, t))
    requires p in s.heap <==> exists place :: Located(s, l, p, place)
    ensures p in s.heap <==>
            p in l.stack || p in l.pending || exists t: Tid :: p != NULL && WithPusher(PcOf(s, t), p)
  {
    if p in s.heap {
      var place :| Located(s, l, p, place);
      if !place.OnStack? && !place.OnPending? {
        assert ClaimHangs(s, l, place.t) && !InPop(PcOf(s, place.t));
        assert WithPusher(PcOf(s, place.t), p);
      }
    } else {
      forall t: Tid ensures !(p != NULL && WithPusher(PcOf(s, t), p)) {
        assert !Located(s, l, p, AtPusher(t));
      }
    }
  }

  /** The list from `head_` is the contents of the atomic stack. */
  lemma ContentsAgree(sched: Schedule)
    ensures exists list: seq<Addr> ::
      && Hangs(Run(INIT, sched), Run(INIT, sched).head, list)
      && Replay(NEW_STACK, Labels(INIT, sched)).Some?
      && |list| == |Replay(NEW_STACK, Labels(INIT, sched)).value.items|
      && forall i :: 0 <= i < |list| ==>
           Run(INIT, sched).heap[list[i]].data == Some(Replay(NEW_STACK, Labels(INIT, sched)).value.items[i])
  {
    var x := FromInit(sched);
    var s, a := Run(INIT, sched), Replay(NEW_STACK, Labels(INIT, sched)).value;
    forall i | 0 <= i < |x.chain| ensures x.chain[i] in s.heap && s.heap[x.chain[i]].data == Some(a.items[i]) {
      assert RoleIs(s, x, x.chain[i], Linked(i)) && NodeOk(s, x, a, x.chain[i]);
    }
    assert Hangs(s, s.head, x.chain);
  }
}
