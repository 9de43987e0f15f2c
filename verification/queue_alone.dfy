/** What a thread of `lock_free_queue` achieves when the others stand still, wherever they stand: every operation
    returns within a fixed number of steps, a push puts its value behind all others, helping at most the one push that
    waits in the tail node, and a pop takes the front. The calls in the labels of a run are those that its schedule
    asks for. */
module QueueAlone {
  import opened Options
  import opened AtomicQueue
  import opened LockFreeQueue
  import opened QueueInvariant
  import opened QueueSteps
  import opened QueueRuns

  // ---------------------------------------------------------------- calls

  lemma {:induction false} LabelAt(s: State, sched: Schedule, i: nat)
    requires i < |sched|
    ensures |Labels(s, sched)| == |sched|
    ensures Labels(s, sched)[i] == Step(Run(s, sched[..i]), sched[i].0, sched[i].1).l
    decreases sched
  {
    var o := Step(s, sched[0].0, sched[0].1);
    if i > 0 {
      LabelAt(o.s, sched[1..], i - 1);
      assert sched[..i][1..] == sched[1..][..i - 1];
    } else if |sched| > 1 {
      LabelAt(o.s, sched[1..], 0);
    }
  }

  /** The thread is idle and is told to push v, with an address for the new node that `new` may return. */
  predicate AsksPush(s: State, t: Tid, c: Choice, v: Value) {
    PcOf(s, t) == Idle && c.Push? && c.v == v && c.at != NULL && c.at !in s.heap
  }

  lemma PusherCalls(s: State, u: Tid, c: Choice, t: Tid, v: Value)
    requires Pushes(PcOf(s, u))
    ensures Step(s, u, c).l != CallPush(t, v) && Step(s, u, c).l != CallPop(t)
  {
  }

  lemma StepCalls(s: State, u: Tid, c: Choice, t: Tid, v: Value)
    ensures Step(s, u, c).l == CallPush(t, v) <==> u == t && AsksPush(s, t, c, v)
    ensures Step(s, u, c).l == CallPop(t) <==> u == t && PcOf(s, t) == Idle && c.Pop?
  {
    if Pushes(PcOf(s, u)) {
      PusherCalls(s, u, c, t, v);
    }
  }

  /** A run calls exactly the operations, with the values, that its schedule asks idle threads for. */
  lemma CallsAreAsked(sched: Schedule, i: nat, t: Tid, v: Value)
    requires i < |sched|
    ensures var s, ls := Run(INIT, sched[..i]), Labels(INIT, sched);
            && |ls| == |sched|
            && (ls[i] == CallPush(t, v) <==> sched[i].0 == t && AsksPush(s, t, sched[i].1, v))
            && (ls[i] == CallPop(t) <==> sched[i].0 == t && PcOf(s, t) == Idle && sched[i].1.Pop?)
  {
    LabelAt(INIT, sched, i);
    StepCalls(Run(INIT, sched[..i]), sched[i].0, sched[i].1, t, v);
  }

  // ---------------------------------------------------------------- alone

  /** A step that fails no weak CAS without cause, with an address that `new` may return. */
  predicate Smooth(s: State, c: Choice) {
    c.Go? && !c.spurious && c.at != NULL && c.at !in s.heap
  }

  /** Only t moves, and smoothly. */
  predicate Alone(s: State, t: Tid, sched: Schedule)
    decreases sched
  {
    sched != [] ==> sched[0].0 == t && Smooth(s, sched[0].1) && Alone(Step(s, t, sched[0].1).s, t, sched[1..])
  }

  /** There are such schedules of every length. */
  lemma {:induction false} CanRunAlone(s: State, t: Tid, n: nat) returns (sched: Schedule)
    ensures Alone(s, t, sched) && |sched| == n
    decreases n
  {
    if n == 0 {
      sched := [];
    } else {
      var at := Unused(s.heap.Keys);
      var c := Go(false, at);
      var rest := CanRunAlone(Step(s, t, c).s, t, n - 1);
      sched := [(t, c)] + rest;
      assert sched[1..] == rest;
    }
  }

  lemma {:induction false} Unused(all: set<Addr>) returns (at: Addr)
    ensures at != NULL && at !in all && forall p :: p in all ==> p < at
    decreases all
  {
    if all == {} {
      at := 1;
    } else {
      var p :| p in all;
      at := Unused(all - {p});
      assert all == all - {p} + {p};
      if at <= p {
        at := p + 1;
      }
    }
  }

  /** No push has installed its value in the tail node. */
  predicate Bare(s: State) {
    s.tail.ptr in s.heap && s.heap[s.tail.ptr].data == None
  }

  function CountRank(s: State, was: CountedPtr): nat {
    (if Bare(s) then 11 else 21) + (if s.tail == was then 0 else 1)
  }

  function AfterRank(s: State, after: After): nat {
    match after
    case PushAgain(_, _, was) => CountRank(s, was)
    case PopAgain(was) => if s.head == was then 9 else 10
    case _ => 1
  }

  function CasRank(s: State, p: Addr, seen: Count, after: After): nat {
    (if p in s.heap && s.heap[p].count == seen then 2 else 3) + AfterRank(s, after)
  }

  function TailRank(s: State, cur: Addr, was: CountedPtr, then_: Then): nat {
    match then_
    case Finish(_) => if s.tail != was && s.tail.ptr == cur then 6 else 5
    case Again(_, _) => if s.tail == was then 16 else if s.tail.ptr == cur then 17 else 25
  }

  /** How many steps t needs at most to return, if it runs alone. */
  function Rank(s: State, t: Tid): nat {
    match PcOf(s, t)
    case Idle => 0
    case PushLoad(_, _) => if Bare(s) then 12 else 22
    case PushCount(_, _, was) => CountRank(s, was)
    case PushData(_, _, was) =>
      if was.ptr in s.heap && s.heap[was.ptr].data == None then 10 else if was.ptr == s.tail.ptr then 20 else 28
    case PushPeek(_, _, _) => 9
    case PushLink(_, _, _) => 8
    case PushTrash(_, _, _, _) => 7
    case HelpLink(_, _, was) => if was.ptr == s.tail.ptr then 19 else 27
    case HelpNew(_, was, _) => if was.ptr == s.tail.ptr then 18 else 26
    case SetTail(cur, was, _, then_) => TailRank(s, cur, was, then_)
    case FoldLoad(_, after) => 3 + AfterRank(s, after)
    case FoldCas(was, seen, after) => CasRank(s, was.ptr, seen, after)
    case RelLoad(_, after) => 3 + AfterRank(s, after)
    case RelCas(p, seen, after) => CasRank(s, p, seen, after)
    case Reap(_, after) => 1 + AfterRank(s, after)
    case PopLoad => 10
    case PopCount(was) => if s.head == was then 9 else 10
    case PopTail(was) => if was.ptr == s.tail.ptr then 5 else if s.head == was then 8 else 15
    case PopNext(was) => if s.head == was then 7 else 14
    case PopCas(was, _) => if s.head == was then 6 else 13
    case PopTake(_) => 5
    case PushRet => 1
    case PopRet(_) => 1
  }

  const LONGEST: nat := 28

  lemma RankBound(s: State, t: Tid)
    ensures Rank(s, t) <= LONGEST
  {
  }

  /** The node that the next step of t looks at. */
  function LooksAt(pc: Pc): Option<Addr> {
    match pc
    case PushData(_, _, was) => Some(was.ptr)
    case PushPeek(_, _, was) => Some(was.ptr)
    case PushLink(_, _, was) => Some(was.ptr)
    case PushTrash(_, node, _, _) => Some(node)
    case HelpLink(_, _, was) => Some(was.ptr)
    case FoldLoad(was, _) => Some(was.ptr)
    case FoldCas(was, _, _) => Some(was.ptr)
    case RelLoad(p, _) => Some(p)
    case RelCas(p, _, _) => Some(p)
    case Reap(p, _) => Some(p)
    case PopNext(was) => Some(was.ptr)
    case PopTake(was) => Some(was.ptr)
    case _ => None
  }

  lemma NodeIsThere(s: State, x: Proof, a: Spec, t: Tid)
    requires Inv(s, x, a)
    ensures var p := LooksAt(PcOf(s, t)); p.Some? ==> p.value in s.heap
  {
    assert ThreadOk(s, x, a, t);
  }

  lemma ReapsNoTail(s: State, x: Proof, a: Spec, t: Tid)
    requires Inv(s, x, a) && PcOf(s, t).Reap?
    ensures PcOf(s, t).p != s.tail.ptr
  {
    assert ThreadOk(s, x, a, t);
    assert RoleAt(s, x, x.chain[x.tailAt - x.base], x.base + (x.tailAt - x.base));
  }

  lemma PushFalls(s: State, t: Tid, c: Choice)
    requires Smooth(s, c)
    requires PcOf(s, t).PushLoad? || PcOf(s, t).PushCount? || PcOf(s, t).PushData? || PcOf(s, t).PushPeek?
             || PcOf(s, t).PushLink? || PcOf(s, t).PushTrash? || PcOf(s, t).PushRet?
    requires var p := LooksAt(PcOf(s, t)); p.Some? ==> p.value in s.heap
    ensures Rank(Step(s, t, c).s, t) < Rank(s, t)
  {
  }

  lemma HelpFalls(s: State, t: Tid, c: Choice)
    requires Smooth(s, c) && (PcOf(s, t).HelpLink? || PcOf(s, t).HelpNew?)
    requires var p := LooksAt(PcOf(s, t)); p.Some? ==> p.value in s.heap
    ensures Rank(Step(s, t, c).s, t) < Rank(s, t)
  {
  }

  /** When the tail moves, the node it moves to is bare. */
  lemma NextIsBare(s: State, x: Proof, a: Spec, t: Tid)
    requires Inv(s, x, a) && PcOf(s, t).SetTail? && s.tail == PcOf(s, t).was
    ensures var n := PcOf(s, t).next.ptr; n in s.heap && s.heap[n].data == None
    ensures var cur := PcOf(s, t).cur; cur == s.tail.ptr && cur in s.heap && s.heap[cur].data.Some?
  {
    assert ThreadOk(s, x, a, t);
    TailPair(s, x, a, s.tail.ptr);
  }

  lemma TailFalls(s: State, t: Tid, c: Choice)
    requires Smooth(s, c) && PcOf(s, t).SetTail?
    requires s.tail == PcOf(s, t).was ==> var n := PcOf(s, t).next.ptr; n in s.heap && s.heap[n].data == None
    ensures Rank(Step(s, t, c).s, t) < Rank(s, t)
  {
  }

  lemma FoldFalls(s: State, t: Tid, c: Choice)
    requires Smooth(s, c) && (PcOf(s, t).FoldLoad? || PcOf(s, t).FoldCas?)
    requires LooksAt(PcOf(s, t)).value in s.heap
    ensures Rank(Step(s, t, c).s, t) < Rank(s, t)
  {
  }

  lemma ReapFalls(s: State, t: Tid, c: Choice)
    requires PcOf(s, t).Reap? && PcOf(s, t).p in s.heap && PcOf(s, t).p != s.tail.ptr
    ensures Rank(Step(s, t, c).s, t) < Rank(s, t)
  {
    assert Bare(Step(s, t, c).s) == Bare(s);
  }

  lemma ReleaseFalls(s: State, t: Tid, c: Choice)
    requires PcOf(s, t).RelLoad? || PcOf(s, t).RelCas?
    requires LooksAt(PcOf(s, t)).value in s.heap
    ensures Rank(Step(s, t, c).s, t) < Rank(s, t)
  {
    assert Bare(Step(s, t, c).s) == Bare(s);
  }

  lemma PopFalls(s: State, t: Tid, c: Choice)
    requires Smooth(s, c)
    requires PcOf(s, t).PopLoad? || PcOf(s, t).PopCount? || PcOf(s, t).PopTail? || PcOf(s, t).PopNext?
             || PcOf(s, t).PopCas? || PcOf(s, t).PopTake? || PcOf(s, t).PopRet?
    requires var p := LooksAt(PcOf(s, t)); p.Some? ==> p.value in s.heap
    ensures Rank(Step(s, t, c).s, t) < Rank(s, t)
  {
  }

  /** Each step of a thread that runs alone brings it closer to its return. */
  lemma RankFalls(s: State, x: Proof, a: Spec, t: Tid, c: Choice)
    requires Inv(s, x, a) && PcOf(s, t) != Idle && Smooth(s, c)
    ensures Rank(Step(s, t, c).s, t) < Rank(s, t)
  {
    hide Inv, Step, Rank;
    NodeIsThere(s, x, a, t);
    var pc := PcOf(s, t);
    if pc.SetTail? {
      if s.tail == pc.was {
        NextIsBare(s, x, a, t);
      }
      TailFalls(s, t, c);
    } else if pc.HelpLink? || pc.HelpNew? {
      HelpFalls(s, t, c);
    } else if pc.FoldLoad? || pc.FoldCas? {
      FoldFalls(s, t, c);
    } else if pc.Reap? {
      ReapsNoTail(s, x, a, t);
      ReapFalls(s, t, c);
    } else if pc.RelLoad? || pc.RelCas? {
      ReleaseFalls(s, t, c);
    } else if Pushes(pc) {
      PushFalls(s, t, c);
    } else {
      PopFalls(s, t, c);
    }
  }

  lemma StaysIdle(s: State, t: Tid, c: Choice)
    requires PcOf(s, t) == Idle && Smooth(s, c)
    ensures Step(s, t, c) == Outcome(s, Tau) && Rank(s, t) == 0
  {
  }

  lemma {:induction false} ReturnsFrom(s: State, x: Proof, a: Spec, t: Tid, sched: Schedule)
    requires Inv(s, x, a) && Alone(s, t, sched) && Rank(s, t) <= |sched|
    ensures PcOf(Run(s, sched), t) == Idle
    decreases sched
  {
    hide Inv, Rank, Step;
    if sched == [] {
      if PcOf(s, t) != Idle {
        var c := Go(false, NULL);
        var at := Unused(s.heap.Keys);
        RankFalls(s, x, a, t, Go(false, at));
      }
    } else {
      var c := sched[0].1;
      var o := Step(s, t, c);
      if PcOf(s, t) == Idle {
        StaysIdle(s, t, c);
      } else {
        RankFalls(s, x, a, t, c);
      }
      var y := Keeps(s, x, a, t, c);
      ReturnsFrom(o.s, y, Next(a, o.l).value, t, sched[1..]);
    }
  }

  /** From every reachable state a thread that runs alone returns within 28 steps. */
  lemma ReturnsAlone(sched: Schedule, t: Tid, alone: Schedule)
    requires Alone(Run(INIT, sched), t, alone) && LONGEST <= |alone|
    ensures PcOf(Run(Run(INIT, sched), alone), t) == Idle
  {
    var x := FromInit(sched);
    RankBound(Run(INIT, sched), t);
    ReturnsFrom(Run(INIT, sched), x, Replay(NEW_QUEUE, Labels(INIT, sched)).value, t, alone);
  }

  // ---------------------------------------------------------------- pop

  lemma {:induction false} PopLabels(s: State, t: Tid, sched: Schedule)
    requires !Pushes(PcOf(s, t)) && Alone(s, t, sched)
    ensures forall l :: l in Labels(s, sched) ==> PopGoesOn(l, t)
    decreases sched
  {
    if sched != [] {
      var c := sched[0].1;
      PopLabel(s, t, c);
      PopperStaysOut(s, t, c);
      PopLabels(Step(s, t, c).s, t, sched[1..]);
    }
  }

  lemma PopLabel(s: State, t: Tid, c: Choice)
    requires !Pushes(PcOf(s, t)) && c.Go?
    ensures PopGoesOn(Step(s, t, c).l, t)
  {
  }

  /** A call by an idle thread, and then that thread alone. */
  function Whole(t: Tid, c: Choice, alone: Schedule): Schedule {
    [(t, c)] + alone
  }

  lemma IdleIsFree(s: State, x: Proof, a: Spec, t: Tid)
    requires Inv(s, x, a) && PcOf(s, t) == Idle
    ensures OpOf(a, t) == Free
  {
    assert ThreadOk(s, x, a, t);
  }

  lemma StartPop(s: State, t: Tid)
    requires PcOf(s, t) == Idle
    ensures Step(s, t, Pop).l == CallPop(t) && !Pushes(PcOf(Step(s, t, Pop).s, t))
  {
  }

  lemma PopFinishes(s: State, x: Proof, a: Spec, t: Tid, alone: Schedule)
    requires Inv(s, x, a) && OpOf(a, t) == Popping && !Pushes(PcOf(s, t)) && Alone(s, t, alone) && LONGEST <= |alone|
    ensures var s', ls := Run(s, alone), Labels(s, alone);
            && PcOf(s', t) == Idle && RetPop(t, Front(a.items)) in ls
            && Replay(a, ls).Some? && Replay(a, ls).value.items == WithoutFront(a.items)
  {
    hide Inv, Rank, Pushes, Alone;
    RankBound(s, t);
    ReturnsFrom(s, x, a, t, alone);
    var z := Runs(s, x, a, alone);
    IdleIsFree(Run(s, alone), z, Replay(a, Labels(s, alone)).value, t);
    PopLabels(s, t, alone);
    OnePop(a, Labels(s, alone), t);
  }

  /** A call and what follows it. */
  lemma WholeIs(s: State, a: Spec, t: Tid, c: Choice, alone: Schedule)
    requires Next(a, Step(s, t, c).l).Some?
    ensures var o := Step(s, t, c);
            && Run(s, Whole(t, c, alone)) == Run(o.s, alone)
            && Labels(s, Whole(t, c, alone)) == [o.l] + Labels(o.s, alone)
            && Replay(a, Labels(s, Whole(t, c, alone))) == Replay(Next(a, o.l).value, Labels(o.s, alone))
  {
    hide Step, Next;
    var sched := Whole(t, c, alone);
    assert sched[0] == (t, c) && sched[1..] == alone;
    var ls := Labels(s, sched);
    assert ls[0] == Step(s, t, c).l && ls[1..] == Labels(Step(s, t, c).s, alone);
  }

  lemma PopOperates(s: State, x: Proof, a: Spec, t: Tid, alone: Schedule)
    requires Inv(s, x, a) && PcOf(s, t) == Idle && Alone(Step(s, t, Pop).s, t, alone) && LONGEST <= |alone|
    ensures var s', ls := Run(s, Whole(t, Pop, alone)), Labels(s, Whole(t, Pop, alone));
            && PcOf(s', t) == Idle && RetPop(t, Front(a.items)) in ls
            && Replay(a, ls).Some? && Replay(a, ls).value.items == WithoutFront(a.items)
  {
    StartPop(s, t);
    hide Inv, Step, Run, Labels, Replay, Alone, Pushes, Whole;
    IdleIsFree(s, x, a, t);
    var y := Keeps(s, x, a, t, Pop);
    PopFinishes(Step(s, t, Pop).s, y, Next(a, Step(s, t, Pop).l).value, t, alone);
    WholeIs(s, a, t, Pop, alone);
  }

  /** A pop that runs alone, from every reachable state, takes the front of the queue and returns it. */
  lemma PopAlone(sched: Schedule, t: Tid, alone: Schedule)
    requires var s := Run(INIT, sched);
             PcOf(s, t) == Idle && Alone(Step(s, t, Pop).s, t, alone) && LONGEST <= |alone|
    ensures var s, a := Run(INIT, sched), Replay(NEW_QUEUE, Labels(INIT, sched));
            var s', ls := Run(s, Whole(t, Pop, alone)), Labels(s, Whole(t, Pop, alone));
            && a.Some? && PcOf(s', t) == Idle && RetPop(t, Front(a.value.items)) in ls
            && Replay(a.value, ls).Some? && Replay(a.value, ls).value.items == WithoutFront(a.value.items)
  {
    var x := FromInit(sched);
    PopOperates(Run(INIT, sched), x, Replay(NEW_QUEUE, Labels(INIT, sched)).value, t, alone);
  }

  // ---------------------------------------------------------------- push

  /** The value of a push that waits in the tail node for the tail to move on. */
  function Waiting(s: State): seq<Value> {
    if s.tail.ptr in s.heap && s.heap[s.tail.ptr].data.Some? then [s.heap[s.tail.ptr].data.value.v] else []
  }

  function Contents(s: State, a: Spec): seq<Value> {
    a.items + Waiting(s)
  }

  function AgainOf(after: After): Option<Item> {
    if after.PushAgain? then Some(after.item) else None
  }

  /** The item of a push that has still to be installed. */
  function Carries(pc: Pc): Option<Item> {
    match pc
    case PushLoad(item, _) => Some(item)
    case PushCount(item, _, _) => Some(item)
    case PushData(item, _, _) => Some(item)
    case HelpLink(item, _, _) => Some(item)
    case HelpNew(item, _, _) => Some(item)
    case SetTail(_, _, _, then_) => if then_.Again? then Some(then_.item) else None
    case FoldLoad(_, after) => AgainOf(after)
    case FoldCas(_, _, after) => AgainOf(after)
    case RelLoad(_, after) => AgainOf(after)
    case RelCas(_, _, after) => AgainOf(after)
    case Reap(_, after) => AgainOf(after)
    case _ => None
  }

  /** The node in which a push has installed its item and which it has still to pass. */
  function InstalledIn(pc: Pc): Option<Addr> {
    match pc
    case PushPeek(_, _, was) => Some(was.ptr)
    case PushLink(_, _, was) => Some(was.ptr)
    case PushTrash(_, _, was, _) => Some(was.ptr)
    case SetTail(cur, _, _, then_) => if then_.Finish? then Some(cur) else None
    case _ => None
  }

  predicate Ending(pc: Pc) {
    match pc
    case Idle => true
    case PushRet => true
    case FoldLoad(_, after) => after.PushEnd?
    case FoldCas(_, _, after) => after.PushEnd?
    case RelLoad(_, after) => after.PushEnd?
    case RelCas(_, _, after) => after.PushEnd?
    case Reap(_, after) => after.PushEnd?
    case _ => false
  }

  /** A push of v that runs alone, from contents `was`: before, while, and after its value waits in the tail. */
  predicate Progress(s: State, a: Spec, t: Tid, v: Value, was: seq<Value>) {
    var pc := PcOf(s, t);
    if Carries(pc).Some? then
      && Carries(pc).value.v == v && Contents(s, a) == was
      && (pc.PushData? ==> pc.was.ptr == s.tail.ptr)
    else if InstalledIn(pc).Some? then InstalledIn(pc).value == s.tail.ptr && Contents(s, a) == was + [v]
    else Ending(pc) && Bare(s) && Contents(s, a) == was + [v]
  }

  /** The effect of a step of a push that runs alone: nothing, or the tail takes the waiting value in. */
  lemma ProgressPush(s: State, a: Spec, t: Tid, c: Choice, v: Value, was: seq<Value>)
    requires Progress(s, a, t, v, was) && Smooth(s, c) && Next(a, Step(s, t, c).l).Some?
    requires PcOf(s, t).PushLoad? || PcOf(s, t).PushCount? || PcOf(s, t).PushData? || PcOf(s, t).HelpLink?
             || PcOf(s, t).HelpNew?
    requires var p := LooksAt(PcOf(s, t)); p.Some? ==> p.value in s.heap
    requires s.tail.ptr in s.heap
    ensures var o := Step(s, t, c); !o.l.Drop? && Progress(o.s, Next(a, o.l).value, t, v, was)
  {
  }

  lemma ProgressLink(s: State, a: Spec, t: Tid, c: Choice, v: Value, was: seq<Value>)
    requires Progress(s, a, t, v, was) && Smooth(s, c) && Next(a, Step(s, t, c).l).Some?
    requires PcOf(s, t).PushPeek? || PcOf(s, t).PushLink? || PcOf(s, t).PushTrash?
    requires var p := LooksAt(PcOf(s, t)); p.Some? ==> p.value in s.heap
    requires s.tail.ptr in s.heap && (PcOf(s, t).PushTrash? ==> PcOf(s, t).node != s.tail.ptr)
    ensures var o := Step(s, t, c); !o.l.Drop? && Progress(o.s, Next(a, o.l).value, t, v, was)
  {
  }

  lemma ProgressTail(s: State, a: Spec, t: Tid, c: Choice, v: Value, was: seq<Value>)
    requires Progress(s, a, t, v, was) && Smooth(s, c) && Next(a, Step(s, t, c).l).Some? && PcOf(s, t).SetTail?
    requires s.tail == PcOf(s, t).was ==>
      && (var n := PcOf(s, t).next.ptr; n in s.heap && s.heap[n].data == None)
      && (var cur := PcOf(s, t).cur; cur == s.tail.ptr && cur in s.heap && s.heap[cur].data.Some?)
    ensures var o := Step(s, t, c); !o.l.Drop? && Progress(o.s, Next(a, o.l).value, t, v, was)
  {
  }

  lemma ProgressFold(s: State, a: Spec, t: Tid, c: Choice, v: Value, was: seq<Value>)
    requires Progress(s, a, t, v, was) && Smooth(s, c) && Next(a, Step(s, t, c).l).Some?
    requires PcOf(s, t).FoldLoad? || PcOf(s, t).FoldCas?
    requires LooksAt(PcOf(s, t)).value in s.heap
    ensures var o := Step(s, t, c); !o.l.Drop? && Progress(o.s, Next(a, o.l).value, t, v, was)
  {
  }

  lemma ProgressRelease(s: State, a: Spec, t: Tid, c: Choice, v: Value, was: seq<Value>)
    requires Progress(s, a, t, v, was) && Smooth(s, c) && Next(a, Step(s, t, c).l).Some?
    requires PcOf(s, t).RelLoad? || PcOf(s, t).RelCas? || PcOf(s, t).PushRet? || PcOf(s, t).Idle?
    requires var p := LooksAt(PcOf(s, t)); p.Some? ==> p.value in s.heap
    ensures var o := Step(s, t, c); !o.l.Drop? && Progress(o.s, Next(a, o.l).value, t, v, was)
  {
  }

  lemma ProgressReap(s: State, a: Spec, t: Tid, c: Choice, v: Value, was: seq<Value>)
    requires Progress(s, a, t, v, was) && Smooth(s, c) && Next(a, Step(s, t, c).l).Some?
    requires PcOf(s, t).Reap? && PcOf(s, t).p in s.heap && PcOf(s, t).p != s.tail.ptr
    ensures var o := Step(s, t, c); !o.l.Drop? && Progress(o.s, Next(a, o.l).value, t, v, was)
  {
  }

  lemma TailIsThere(s: State, x: Proof, a: Spec, t: Tid)
    requires Inv(s, x, a)
    ensures s.tail.ptr in s.heap && (PcOf(s, t).PushTrash? ==> PcOf(s, t).node != s.tail.ptr)
  {
    assert ThreadOk(s, x, a, t);
    assert RoleAt(s, x, x.chain[x.tailAt - x.base], x.base + (x.tailAt - x.base));
  }

  lemma ProgressStep(s: State, x: Proof, a: Spec, t: Tid, c: Choice, v: Value, was: seq<Value>)
    requires Inv(s, x, a) && Progress(s, a, t, v, was) && Smooth(s, c) && Next(a, Step(s, t, c).l).Some?
    ensures var o := Step(s, t, c); !o.l.Drop? && Progress(o.s, Next(a, o.l).value, t, v, was)
  {
    var pc := PcOf(s, t);
    assert pc.SetTail? || pc.FoldLoad? || pc.FoldCas? || pc.RelLoad? || pc.RelCas? || pc.Reap? || pc.PushRet?
           || pc.Idle?
           || pc.PushLoad? || pc.PushCount? || pc.PushData? || pc.HelpLink? || pc.HelpNew?
           || pc.PushPeek? || pc.PushLink? || pc.PushTrash?;
    hide Inv, Step, Progress;
    NodeIsThere(s, x, a, t);
    TailIsThere(s, x, a, t);
    if pc.SetTail? {
      if s.tail == pc.was {
        NextIsBare(s, x, a, t);
      }
      ProgressTail(s, a, t, c, v, was);
    } else if pc.FoldLoad? || pc.FoldCas? {
      ProgressFold(s, a, t, c, v, was);
    } else if pc.Reap? {
      ReapsNoTail(s, x, a, t);
      ProgressReap(s, a, t, c, v, was);
    } else if pc.RelLoad? || pc.RelCas? || pc.PushRet? || pc.Idle? {
      ProgressRelease(s, a, t, c, v, was);
    } else if pc.PushPeek? || pc.PushLink? || pc.PushTrash? {
      ProgressLink(s, a, t, c, v, was);
    } else {
      ProgressPush(s, a, t, c, v, was);
    }
  }

  lemma {:induction false} ProgressRun(s: State, x: Proof, a: Spec, t: Tid, sched: Schedule, v: Value, was: seq<Value>)
    requires Inv(s, x, a) && Progress(s, a, t, v, was) && Alone(s, t, sched)
    ensures Replay(a, Labels(s, sched)).Some?
    ensures Progress(Run(s, sched), Replay(a, Labels(s, sched)).value, t, v, was)
    decreases sched
  {
    if sched != [] {
      hide Inv, Step, Progress;
      var c := sched[0].1;
      var o := Step(s, t, c);
      var y := Keeps(s, x, a, t, c);
      ProgressStep(s, x, a, t, c, v, was);
      ProgressRun(o.s, y, Next(a, o.l).value, t, sched[1..], v, was);
      assert Labels(s, sched)[1..] == Labels(o.s, sched[1..]);
    }
  }

  /** A thread that has been pushing and is idle has returned from its push in between. */
  lemma {:induction false} HasReturned(a: Spec, ls: seq<Label>, t: Tid)
    requires Replay(a, ls).Some? && OpOf(Replay(a, ls).value, t) == Free
    requires OpOf(a, t).Pushing? || OpOf(a, t) == Pushed || OpOf(a, t) == Dropped
    ensures RetPush(t) in ls
    decreases ls
  {
    var b := Next(a, ls[0]).value;
    assert ls == [ls[0]] + ls[1..];
    if ls[0] != RetPush(t) {
      HasReturned(b, ls[1..], t);
    }
  }

  lemma PushOperates(s: State, x: Proof, a: Spec, t: Tid, v: Value, at: Addr, alone: Schedule) returns (x': Proof)
    requires Inv(s, x, a) && AsksPush(s, t, Push(v, at), v)
    requires Alone(Step(s, t, Push(v, at)).s, t, alone) && LONGEST <= |alone|
    ensures var s', ls := Run(s, Whole(t, Push(v, at), alone)), Labels(s, Whole(t, Push(v, at), alone));
            && PcOf(s', t) == Idle && RetPush(t) in ls
            && Replay(a, ls).Some? && Replay(a, ls).value.items == a.items + Waiting(s) + [v]
            && Inv(s', x', Replay(a, ls).value)
  {
    hide Inv;
    IdleIsFree(s, x, a, t);
    TailIsThere(s, x, a, t);
    var c := Push(v, at);
    var o := Step(s, t, c);
    var y := Keeps(s, x, a, t, c);
    var b := Next(a, o.l).value;
    assert Progress(o.s, b, t, v, a.items + Waiting(s));
    RankBound(o.s, t);
    ReturnsFrom(o.s, y, b, t, alone);
    ProgressRun(o.s, y, b, t, alone, v, a.items + Waiting(s));
    x' := Runs(o.s, y, b, alone);
    var ls := Labels(o.s, alone);
    var s' := Run(o.s, alone);
    IdleIsFree(s', x', Replay(b, ls).value, t);
    assert Waiting(s') == [];
    HasReturned(b, ls, t);
    WholeIs(s, a, t, c, alone);
  }

  /** From every reachable state, a push(v) of an idle thread that runs alone returns with v behind all that was in
      the queue, and behind the one value that may have been waiting in the tail node; and a pop that the thread then
      makes alone returns the front of that. */
  lemma PushThenPop(sched: Schedule, t: Tid, v: Value, at: Addr, alone: Schedule, again: Schedule)
    requires var s := Run(INIT, sched); var s1 := Run(s, Whole(t, Push(v, at), alone));
             && AsksPush(s, t, Push(v, at), v)
             && Alone(Step(s, t, Push(v, at)).s, t, alone) && LONGEST <= |alone|
             && Alone(Step(s1, t, Pop).s, t, again) && LONGEST <= |again|
    ensures var s, a := Run(INIT, sched), Replay(NEW_QUEUE, Labels(INIT, sched));
            var s1, ls1 := Run(s, Whole(t, Push(v, at), alone)), Labels(s, Whole(t, Push(v, at), alone));
            var s2, ls2 := Run(s1, Whole(t, Pop, again)), Labels(s1, Whole(t, Pop, again));
            && a.Some? && PcOf(s1, t) == Idle && PcOf(s2, t) == Idle
            && Replay(a.value, ls1 + ls2).Some?
            && var now := a.value.items + Waiting(s) + [v];
               RetPush(t) in ls1 && RetPop(t, Some(now[0])) in ls2 && Replay(a.value, ls1 + ls2).value.items == now[1..]
  {
    var x := FromInit(sched);
    var s, a := Run(INIT, sched), Replay(NEW_QUEUE, Labels(INIT, sched)).value;
    var y := PushOperates(s, x, a, t, v, at, alone);
    var s1, ls1 := Run(s, Whole(t, Push(v, at), alone)), Labels(s, Whole(t, Push(v, at), alone));
    PopOperates(s1, y, Replay(a, ls1).value, t, again);
    ReplayConcat(a, ls1, Labels(s1, Whole(t, Pop, again)));
  }
}
