/** What a thread of `threadsafe_queue_s` achieves when the others stand still and none of them holds a lock: every
    operation returns within a fixed number of steps, a push puts its value at the back, a pop takes the front and a
    steal the back. Only a waiting pop needs a value to be there, or the queue to be stopped. The calls in the labels
    of a run are those that its schedule asks for. */
module StealingAlone {
  import opened Options
  import opened AtomicDeque
  import opened StealingQueue

  // ---------------------------------------------------------------- calls

  lemma {:induction false} LabelAt(s: State, sched: Schedule, i: nat)
    requires i < |sched|
    ensures |Labels(s, sched)| == |sched|
    ensures Labels(s, sched)[i] == Step(Run(s, sched[..i]), sched[i].0, sched[i].1).l
    decreases sched
  {
    var o := Step(s, sched[0].0, sched[0].1);
    if i > 0 {
      LabelAt(o.s, sched[1..], i - 1);
      assert sched[..i][1..] == sched[1..][..i - 1];
    } else if |sched| > 1 {
      LabelAt(o.s, sched[1..], 0);
    }
  }

  /** The thread is idle and is told to push v, with an address for the new node that `new` may return. */
  predicate AsksPush(s: State, t: Tid, c: Choice, v: Value) {
    PcOf(s, t) == Idle && c.Push? && c.v == v && c.at !in s.heap
  }

  /** What the label of an idle thread says is called. */
  predicate Asks(s: State, t: Tid, c: Choice, l: Label) {
    match l
    case CallPush(u, v) => u == t && AsksPush(s, t, c, v)
    case CallPop(u) => u == t && PcOf(s, t) == Idle && c.Pop?
    case CallSteal(u) => u == t && PcOf(s, t) == Idle && c.Steal?
    case Stop => PcOf(s, t) == Idle && c.Exit?
    case _ => false
  }

  predicate IsCall(l: Label) {
    l.CallPush? || l.CallPop? || l.CallSteal? || l.Stop?
  }

  lemma IdleCalls(s: State, u: Tid, c: Choice, l: Label)
    requires IsCall(l) && PcOf(s, u).Idle?
    ensures Step(s, u, c).l == l <==> Asks(s, u, c, l)
  {
  }

  lemma PushCalls(s: State, u: Tid, c: Choice)
    requires InPush(PcOf(s, u))
    ensures !IsCall(Step(s, u, c).l)
  {
  }

  lemma StealCalls(s: State, u: Tid, c: Choice)
    requires InSteal(PcOf(s, u))
    ensures !IsCall(Step(s, u, c).l)
  {
  }

  lemma PopCalls(s: State, u: Tid, c: Choice)
    requires !PcOf(s, u).Idle? && !InPush(PcOf(s, u)) && !InSteal(PcOf(s, u))
    ensures !IsCall(Step(s, u, c).l)
  {
  }

  /** A run calls exactly the operations, with the values, that its schedule asks idle threads for. */
  lemma CallsAreAsked(sched: Schedule, i: nat, l: Label)
    requires i < |sched| && IsCall(l)
    ensures |Labels(INIT, sched)| == |sched|
    ensures Labels(INIT, sched)[i] == l <==> Asks(Run(INIT, sched[..i]), sched[i].0, sched[i].1, l)
  {
    LabelAt(INIT, sched, i);
    var s, t, c := Run(INIT, sched[..i]), sched[i].0, sched[i].1;
    if PcOf(s, t).Idle? {
      IdleCalls(s, t, c, l);
    } else if InPush(PcOf(s, t)) {
      PushCalls(s, t, c);
    } else if InSteal(PcOf(s, t)) {
      StealCalls(s, t, c);
    } else {
      PopCalls(s, t, c);
    }
  }

  // ---------------------------------------------------------------- alone

  /** n steps of t, in which no wait runs out of time. */
  function Alone(t: Tid, n: nat): Schedule {
    if n == 0 then [] else [(t, Go(false))] + Alone(t, n - 1)
  }

  const LONGEST: nat := 12

  /** How many steps t needs at most to return, if it runs alone and finds what it waits for. */
  function Rank(s: State, t: Tid): nat {
    match PcOf(s, t)
    case Idle => 0
    case PushLock(_, _) => 7
    case PushData(_, _) => 6
    case PushPrev(_, _) => 5
    case PushLink(_, _) => 4
    case PushTail(_, _) => 3
    case PushUnlock => 2
    case PushRet => 1
    case PopLock(_) => 12
    case PopTailLock(_) => 11
    case PopTailRead(_) => 10
    case PopTailUnlock(_, _, _) => 9
    case PopTest(_, _, _) => 8
    case PopStop(_, _) => 7
    case PopTake(_) => 6
    case PopMove(_, _) => 5
    case PopAdvance(_, _, _) => 4
    case PopFreeIn(_, _) => 3
    case PopUnlock(_, left) => if left.Some? then 3 else 2
    case PopAgain(_) => 12
    case PopFree(_, _) => 2
    case PopRet(_) => 1
    case StealLock => 9
    case StealTest => 8
    case StealPrev => 7
    case StealTake(_) => 6
    case StealTail(_, _) => 5
    case StealCut(_, _) => 4
    case StealUnlockHead(_) => 3
    case StealUnlockTail(_) => 2
    case StealRet(_) => 1
  }

  /** No other thread holds a lock. */
  predicate LocksFree(s: State, t: Tid) {
    (s.headLock == None || s.headLock == Some(t)) && (s.tailLock == None || s.tailLock == Some(t))
  }

  /** A pop of t, if it is one, finds what it waits for: what it has seen of the tail is true, and it is try_pop, or
      the queue has a value and is not stopped. */
  predicate Served(s: State, t: Tid) {
    match PcOf(s, t)
    case PopLock(k) => k.Try? || (s.head != Some(s.tail) && !s.stopped)
    case PopTailLock(k) => k.Try? || (s.head != Some(s.tail) && !s.stopped)
    case PopTailRead(k) => k.Try? || (s.head != Some(s.tail) && !s.stopped)
    case PopTailUnlock(k, saw, last) =>
      saw == s.tail && (if k.Try? then last else s.head != Some(s.tail) && !s.stopped)
    case PopTest(k, saw, last) =>
      saw == s.tail && (if k.Try? then last else s.head != Some(s.tail) && !s.stopped)
    case PopStop(_, some) => some && !s.stopped
    case PopAgain(_) => false
    case _ => true
  }

  /** The next step of t finds the locks that it takes free and the nodes that it touches allocated. */
  predicate Ready(s: State, t: Tid) {
    && LocksFree(s, t) && !Step(s, t, Go(false)).s.fault
    && (PcOf(s, t).PushLock? || PcOf(s, t).PopTailLock? || PcOf(s, t).StealLock? ==> s.tailLock == None)
    && (PcOf(s, t).PopLock? || PcOf(s, t).StealLock? ==> s.headLock == None)
  }

  lemma IsReady(s: State, x: Proof, a: Spec, t: Tid)
    requires Inv(s, x, a) && LocksFree(s, t)
    ensures Ready(s, t)
  {
    assert ThreadOk(s, x, a, t);
    var y := Keeps(s, x, a, t, Go(false));
    hide Step;
  }

  lemma PushFalls(s: State, t: Tid)
    requires Ready(s, t) && InPush(PcOf(s, t))
    ensures var o := Step(s, t, Go(false));
            Rank(o.s, t) < Rank(s, t) && LocksFree(o.s, t) && Served(o.s, t) && GoesOn(o.l, t)
  {
  }

  lemma StealFalls(s: State, t: Tid)
    requires Ready(s, t) && InSteal(PcOf(s, t)) && !PcOf(s, t).StealCut?
    ensures var o := Step(s, t, Go(false));
            Rank(o.s, t) < Rank(s, t) && LocksFree(o.s, t) && Served(o.s, t) && GoesOn(o.l, t)
  {
  }

  lemma CutFalls(s: State, t: Tid)
    requires Ready(s, t) && PcOf(s, t).StealCut?
    ensures var o := Step(s, t, Go(false));
            Rank(o.s, t) < Rank(s, t) && LocksFree(o.s, t) && Served(o.s, t) && GoesOn(o.l, t)
  {
  }

  predicate Looking(pc: Pc) {
    pc.PopLock? || pc.PopTailLock? || pc.PopTailRead? || pc.PopTailUnlock? || pc.PopTest? || pc.PopStop?
  }

  lemma LookFalls(s: State, t: Tid)
    requires Ready(s, t) && Looking(PcOf(s, t)) && Served(s, t)
    ensures var o := Step(s, t, Go(false));
            Rank(o.s, t) < Rank(s, t) && LocksFree(o.s, t) && Served(o.s, t) && GoesOn(o.l, t)
  {
  }

  lemma PopFalls(s: State, t: Tid)
    requires Ready(s, t) && !PcOf(s, t).Idle? && Served(s, t)
    requires !InPush(PcOf(s, t)) && !InSteal(PcOf(s, t)) && !Looking(PcOf(s, t))
    ensures var o := Step(s, t, Go(false));
            Rank(o.s, t) < Rank(s, t) && LocksFree(o.s, t) && Served(o.s, t) && GoesOn(o.l, t)
  {
  }

  lemma RankFalls(s: State, x: Proof, a: Spec, t: Tid)
    requires Inv(s, x, a) && LocksFree(s, t) && PcOf(s, t) != Idle && Served(s, t)
    ensures var o := Step(s, t, Go(false));
            Rank(o.s, t) < Rank(s, t) && LocksFree(o.s, t) && Served(o.s, t) && GoesOn(o.l, t)
  {
    hide Inv, Step, Rank, Served, Ready;
    IsReady(s, x, a, t);
    if InPush(PcOf(s, t)) {
      PushFalls(s, t);
    } else if PcOf(s, t).StealCut? {
      CutFalls(s, t);
    } else if InSteal(PcOf(s, t)) {
      StealFalls(s, t);
    } else if Looking(PcOf(s, t)) {
      LookFalls(s, t);
    } else {
      PopFalls(s, t);
    }
  }

  lemma StaysIdle(s: State, t: Tid)
    requires PcOf(s, t) == Idle
    ensures Step(s, t, Go(false)) == Outcome(s, Tau) && Rank(s, t) == 0
  {
  }

  lemma {:induction false} ReturnsFrom(s: State, x: Proof, a: Spec, t: Tid, n: nat) returns (x': Proof)
    requires Inv(s, x, a) && LocksFree(s, t) && Served(s, t) && Rank(s, t) <= n
    ensures var s', ls := Run(s, Alone(t, n)), Labels(s, Alone(t, n));
            && PcOf(s', t) == Idle && LocksFree(s', t) && (forall l :: l in ls ==> GoesOn(l, t))
            && Replay(a, ls).Some? && Inv(s', x', Replay(a, ls).value)
    decreases n
  {
    hide Inv, Rank, Step, Served, LocksFree;
    x' := x;
    if n == 0 {
      if PcOf(s, t) != Idle {
        RankFalls(s, x, a, t);
      }
    } else {
      var o := Step(s, t, Go(false));
      if PcOf(s, t) == Idle {
        StaysIdle(s, t);
      } else {
        RankFalls(s, x, a, t);
      }
      var y := Keeps(s, x, a, t, Go(false));
      x' := ReturnsFrom(o.s, y, Next(a, o.l).value, t, n - 1);
      var sched := Alone(t, n);
      assert sched[0] == (t, Go(false)) && sched[1..] == Alone(t, n - 1);
      var ls := Labels(s, sched);
      assert ls == [o.l] + Labels(o.s, sched[1..]) && ls[1..] == Labels(o.s, sched[1..]);
    }
  }

  /** A call by an idle thread, and then that thread alone. */
  function Whole(t: Tid, c: Choice): Schedule {
    [(t, c)] + Alone(t, LONGEST)
  }

  lemma WholeIs(s: State, a: Spec, t: Tid, c: Choice)
    requires Next(a, Step(s, t, c).l).Some?
    ensures var o := Step(s, t, c);
            && Run(s, Whole(t, c)) == Run(o.s, Alone(t, LONGEST))
            && Labels(s, Whole(t, c)) == [o.l] + Labels(o.s, Alone(t, LONGEST))
            && Replay(a, Labels(s, Whole(t, c))) == Replay(Next(a, o.l).value, Labels(o.s, Alone(t, LONGEST)))
  {
    hide Step, Next, Alone;
    var sched := Whole(t, c);
    assert sched[0] == (t, c) && sched[1..] == Alone(t, LONGEST);
    var ls := Labels(s, sched);
    assert ls[0] == Step(s, t, c).l && ls[1..] == Labels(Step(s, t, c).s, Alone(t, LONGEST));
  }

  lemma IdleIsFree(s: State, x: Proof, a: Spec, t: Tid)
    requires Inv(s, x, a) && PcOf(s, t) == Idle
    ensures OpOf(a, t) == Free && s.stopped == a.stopped
    ensures s.headLock == None && s.tailLock == None ==> (a.items != [] <==> s.head != Some(s.tail))
  {
    assert ThreadOk(s, x, a, t);
    assert a.items != [] ==> x.chain[0] != x.chain[|a.items|];
  }

  /** An idle thread can be told to do c, and c will not have to wait. */
  predicate CanDo(s: State, a: Spec, t: Tid, c: Choice) {
    PcOf(s, t) == Idle &&
    match c
    case Push(_, at) => at !in s.heap
    case Pop(k) => k.Try? || (a.items != [] && !a.stopped)
    case Steal => true
    case _ => false
  }

  function OpFor(c: Choice): Op
    requires c.Push? || c.Pop? || c.Steal?
  {
    match c
    case Push(v, _) => Pushing(v)
    case Pop(_) => Popping
    case Steal => Stealing
  }

  lemma Starts(s: State, x: Proof, a: Spec, t: Tid, c: Choice)
    requires Inv(s, x, a) && CanDo(s, a, t, c) && s.headLock == None && s.tailLock == None
    ensures var o := Step(s, t, c);
            && LocksFree(o.s, t) && Served(o.s, t) && Rank(o.s, t) <= LONGEST && Next(a, o.l).Some?
            && var b := Next(a, o.l).value;
               b.items == a.items && b.pushes == a.pushes && OpOf(b, t) == OpFor(c)
  {
    IdleIsFree(s, x, a, t);
  }

  /** What one whole operation of t comes to. */
  ghost predicate Does(s: State, a: Spec, t: Tid, c: Choice, items: seq<Item>, answer: Label) {
    var s', ls := Run(s, Whole(t, c)), Labels(s, Whole(t, c));
    && PcOf(s', t) == Idle && answer in ls
    && Replay(a, ls).Some? && Replay(a, ls).value.items == items
  }

  lemma Operates(s: State, x: Proof, a: Spec, t: Tid, c: Choice)
    requires Inv(s, x, a) && CanDo(s, a, t, c) && s.headLock == None && s.tailLock == None
    ensures Does(s, a, t, c, ItemsAfter(a, OpFor(c)), ReturnOf(a, OpFor(c), t))
  {
    hide Inv, Step, Rank, Served, LocksFree, CanDo, Alone, Whole;
    Starts(s, x, a, t, c);
    var o := Step(s, t, c);
    var y := Keeps(s, x, a, t, c);
    var b := Next(a, o.l).value;
    var z := ReturnsFrom(o.s, y, b, t, LONGEST);
    IdleIsFree(Run(o.s, Alone(t, LONGEST)), z, Replay(b, Labels(o.s, Alone(t, LONGEST))).value, t);
    OneOperation(b, Labels(o.s, Alone(t, LONGEST)), t);
    WholeIs(s, a, t, c);
  }

  /** From every reachable state in which no lock is held, each operation of an idle thread that runs alone returns
      within 13 steps: a push puts its value at the back, a pop takes the front (or finds the queue empty, in
      try_pop), a steal takes the back (or finds the queue empty). */
  lemma OperatesAlone(sched: Schedule, t: Tid, c: Choice)
    requires var s := Run(INIT, sched); s.headLock == None && s.tailLock == None
    requires Replay(NEW_DEQUE, Labels(INIT, sched)).Some? ==>
             CanDo(Run(INIT, sched), Replay(NEW_DEQUE, Labels(INIT, sched)).value, t, c)
    ensures Replay(NEW_DEQUE, Labels(INIT, sched)).Some?
    ensures var s, a := Run(INIT, sched), Replay(NEW_DEQUE, Labels(INIT, sched)).value;
            Does(s, a, t, c, ItemsAfter(a, OpFor(c)), ReturnOf(a, OpFor(c), t))
  {
    var x := FromInit(sched);
    Operates(Run(INIT, sched), x, Replay(NEW_DEQUE, Labels(INIT, sched)).value, t, c);
  }

  // ---------------------------------------------------------------- a stopped queue

  /** A waiting pop of t on a stopped queue, on its way out. */
  predicate Quits(s: State, t: Tid) {
    match PcOf(s, t)
    case PopLock(k) => !k.Try? && s.stopped
    case PopTailLock(k) => !k.Try? && s.stopped
    case PopTailRead(k) => !k.Try? && s.stopped
    case PopTailUnlock(k, _, last) => !k.Try? && s.stopped && !last
    case PopTest(k, _, last) => !k.Try? && s.stopped && !last
    case PopStop(_, _) => s.stopped
    case PopUnlock(res, left) => res == None && left == None
    case PopRet(res) => res == None
    case Idle => true
    case _ => false
  }

  lemma QuitStep(s: State, t: Tid)
    requires Quits(s, t) && Ready(s, t)
    ensures var o := Step(s, t, Go(false));
            && Quits(o.s, t) && LocksFree(o.s, t) && GivesUp(o.l, t)
            && (if PcOf(s, t) == Idle then o.s == s else Rank(o.s, t) < Rank(s, t))
  {
  }

  lemma {:induction false} QuitsFrom(s: State, x: Proof, a: Spec, t: Tid, n: nat) returns (x': Proof)
    requires Inv(s, x, a) && LocksFree(s, t) && Quits(s, t) && Rank(s, t) <= n
    ensures var s', ls := Run(s, Alone(t, n)), Labels(s, Alone(t, n));
            && PcOf(s', t) == Idle && (forall l :: l in ls ==> GivesUp(l, t))
            && Replay(a, ls).Some? && Inv(s', x', Replay(a, ls).value)
    decreases n
  {
    hide Inv, Rank, Step, Quits, LocksFree, Ready, GivesUp;
    x' := x;
    IsReady(s, x, a, t);
    QuitStep(s, t);
    if PcOf(s, t) == Idle {
      StaysIdle(s, t);
    }
    if n > 0 {
      var o := Step(s, t, Go(false));
      var y := Keeps(s, x, a, t, Go(false));
      x' := QuitsFrom(o.s, y, Next(a, o.l).value, t, n - 1);
      var sched := Alone(t, n);
      assert sched[0] == (t, Go(false)) && sched[1..] == Alone(t, n - 1);
      var ls := Labels(s, sched);
      assert ls == [o.l] + Labels(o.s, sched[1..]) && ls[1..] == Labels(o.s, sched[1..]);
    }
  }

  lemma StartsWaiting(s: State, t: Tid, k: Kind)
    requires PcOf(s, t) == Idle && !k.Try? && s.stopped && s.headLock == None && s.tailLock == None
    ensures var o := Step(s, t, Pop(k));
      LocksFree(o.s, t) && Quits(o.s, t) && Rank(o.s, t) <= LONGEST && o.l == CallPop(t)
  {
  }

  /** On a stopped queue a waiting pop of a thread that runs alone returns without a value, whether there is one or
      not, and takes nothing. */
  lemma StoppedPopReturns(sched: Schedule, t: Tid, k: Kind)
    requires var s := Run(INIT, sched);
             PcOf(s, t) == Idle && !k.Try? && s.stopped && s.headLock == None && s.tailLock == None
    ensures Replay(NEW_DEQUE, Labels(INIT, sched)).Some?
    ensures var s, a := Run(INIT, sched), Replay(NEW_DEQUE, Labels(INIT, sched)).value;
            Does(s, a, t, Pop(k), a.items, RetPop(t, None))
  {
    var x := FromInit(sched);
    var s, a := Run(INIT, sched), Replay(NEW_DEQUE, Labels(INIT, sched)).value;
    hide Inv, Step, Run, Labels, Replay, Quits, LocksFree, Alone, Whole;
    StopFinishes(s, x, a, t, k);
  }

  lemma StopFinishes(s: State, x: Proof, a: Spec, t: Tid, k: Kind)
    requires Inv(s, x, a) && PcOf(s, t) == Idle && !k.Try? && s.stopped && s.headLock == None && s.tailLock == None
    ensures Does(s, a, t, Pop(k), a.items, RetPop(t, None))
  {
    hide Inv, Step, Rank, Quits, LocksFree, Alone, Whole, GivesUp;
    IdleIsFree(s, x, a, t);
    StartsWaiting(s, t, k);
    var o := Step(s, t, Pop(k));
    var y := Keeps(s, x, a, t, Pop(k));
    var b := Next(a, o.l).value;
    var z := QuitsFrom(o.s, y, b, t, LONGEST);
    IdleIsFree(Run(o.s, Alone(t, LONGEST)), z, Replay(b, Labels(o.s, Alone(t, LONGEST))).value, t);
    OneGivingUp(b, Labels(o.s, Alone(t, LONGEST)), t);
    WholeIs(s, a, t, Pop(k));
  }
}
