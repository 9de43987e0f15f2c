/** What a thread of `ref_count_stack` achieves when the others stand still, wherever they stand: every operation
    returns within a fixed number of steps, and a push followed by a pop gives the pushed value back. The calls in
    the labels of a run are those that its schedule asks for. */
module RefCountAlone {
  import opened Options
  import opened AtomicStack
  import opened RefCountStack

  /** n steps of t, in which no weak CAS fails without cause. */
  function Alone(t: Tid, n: nat): Schedule {
    if n == 0 then [] else [(t, Go(false))] + Alone(t, n - 1)
  }

  // ---------------------------------------------------------------- calls

  lemma {:induction false} LabelAt(s: State, sched: Schedule, i: nat)
    requires i < |sched|
    ensures |Labels(s, sched)| == |sched|
    ensures Labels(s, sched)[i] == Step(Run(s, sched[..i]), sched[i].0, sched[i].1).l
    decreases sched
  {
    var o := Step(s, sched[0].0, sched[0].1);
    if i > 0 {
      LabelAt(o.s, sched[1..], i - 1);
      assert sched[..i][1..] == sched[1..][..i - 1];
    } else if |sched| > 1 {
      LabelAt(o.s, sched[1..], 0);
    }
  }

  /** The thread is idle and is told to push v, with an address for the new node that `new` may return. */
  predicate AsksPush(s: State, t: Tid, c: Choice, v: Value) {
    PcOf(s, t) == Idle && c.Push? && c.v == v && c.at != NULL && c.at !in s.heap
  }

  lemma StepCalls(s: State, u: Tid, c: Choice, t: Tid, v: Value)
    ensures Step(s, u, c).l == CallPush(t, v) <==> u == t && AsksPush(s, t, c, v)
    ensures Step(s, u, c).l == CallPop(t) <==> u == t && PcOf(s, t) == Idle && c.Pop?
  {
  }

  /** A run calls exactly the operations, with the values, that its schedule asks idle threads for. */
  lemma CallsAreAsked(sched: Schedule, i: nat, t: Tid, v: Value)
    requires i < |sched|
    ensures var s, ls := Run(INIT, sched[..i]), Labels(INIT, sched);
            && |ls| == |sched|
            && (ls[i] == CallPush(t, v) <==> sched[i].0 == t && AsksPush(s, t, sched[i].1, v))
            && (ls[i] == CallPop(t) <==> sched[i].0 == t && PcOf(s, t) == Idle && sched[i].1.Pop?)
  {
    LabelAt(INIT, sched, i);
    StepCalls(Run(INIT, sched[..i]), sched[i].0, sched[i].1, t, v);
  }

  // ---------------------------------------------------------------- alone

  /** How many steps t needs at most to return, if it runs alone. */
  function Rank(s: State, t: Tid): nat {
    match PcOf(s, t)
    case Idle => 0
    case PushLoad(_) => 3
    case PushCas(n) => if n in s.heap && s.heap[n].next == s.head then 2 else 3
    case PushDone => 1
    case PopLoad => 8
    case PopCount(was) => if s.head == was then 7 else 8
    case PopTest(was) => if s.head == was then 6 else 13
    case PopCas(was, _) => if s.head == was then 5 else 12
    case PopTake(_) => 4
    case PopFold(_, _) => 3
    case PopFree(_, _) => 2
    case PopRet(_) => 1
    case PopDrop(_, _) => 11
    case PopReload(_, _) => 10
    case PopReap(_, _) => 9
    case Threw => 0
  }

  const LONGEST: nat := 13

  predicate InPush(pc: Pc) {
    pc.PushLoad? || pc.PushCas? || pc.PushDone?
  }

  /** The node that the next step of t looks at is allocated. */
  lemma NodeIsThere(s: State, x: Proof, a: Spec, t: Tid)
    requires Inv(s, x, a)
    ensures !PcOf(s, t).Threw?
    ensures var p := About(PcOf(s, t)); p != NULL ==> p in s.heap
    ensures PcOf(s, t).PopTake? ==> About(PcOf(s, t)) in s.heap && s.heap[About(PcOf(s, t))].data.Some?
  {
    assert ThreadOk(s, x, a, t);
    var p := About(PcOf(s, t));
    if p in s.heap {
      assert NodeOk(s, x, a, p);
    }
  }

  lemma PushStep(s: State, t: Tid)
    requires InPush(PcOf(s, t)) && (About(PcOf(s, t)) != NULL ==> About(PcOf(s, t)) in s.heap)
    requires !PcOf(s, t).PushDone? ==> About(PcOf(s, t)) != NULL
    ensures Rank(Step(s, t, Go(false)).s, t) < Rank(s, t)
  {
  }

  predicate AtNode(pc: Pc) {
    pc.PopCas? || pc.PopTake? || pc.PopFold? || pc.PopFree? || pc.PopDrop? || pc.PopReload? || pc.PopReap?
  }

  lemma PopStep(s: State, t: Tid)
    requires !InPush(PcOf(s, t)) && !PcOf(s, t).Idle? && !PcOf(s, t).Threw?
    requires var p := About(PcOf(s, t)); if p == NULL then !AtNode(PcOf(s, t)) else p in s.heap
    requires PcOf(s, t).PopTake? ==> About(PcOf(s, t)) in s.heap && s.heap[About(PcOf(s, t))].data.Some?
    ensures Rank(Step(s, t, Go(false)).s, t) < Rank(s, t)
  {
  }

  lemma RankFalls(s: State, x: Proof, a: Spec, t: Tid)
    requires Inv(s, x, a) && PcOf(s, t) != Idle
    ensures Rank(Step(s, t, Go(false)).s, t) < Rank(s, t)
  {
    assert ThreadOk(s, x, a, t) && NULL !in s.heap;
    NodeIsThere(s, x, a, t);
    hide Step, Rank, NodeOk;
    if InPush(PcOf(s, t)) {
      PushStep(s, t);
    } else {
      PopStep(s, t);
    }
  }

  lemma StaysIdle(s: State, t: Tid)
    requires PcOf(s, t) == Idle
    ensures Step(s, t, Go(false)) == Outcome(s, Tau) && Rank(s, t) == 0
  {
  }

  lemma StepGoesOn(s: State, t: Tid)
    ensures GoesOn(Step(s, t, Go(false)).l, t)
  {
  }

  /** A thread that runs alone has returned after so many steps, and has done nothing but finish its operation. */
  lemma {:induction false} ReturnsFrom(s: State, x: Proof, a: Spec, t: Tid, n: nat) returns (x': Proof)
    requires Inv(s, x, a) && Rank(s, t) <= n
    ensures var s', ls := Run(s, Alone(t, n)), Labels(s, Alone(t, n));
            && PcOf(s', t) == Idle && (forall l :: l in ls ==> GoesOn(l, t))
            && Replay(a, ls).Some? && Inv(s', x', Replay(a, ls).value)
    decreases n
  {
    hide Inv, Rank, Step;
    x' := x;
    if n == 0 {
      if PcOf(s, t) != Idle {
        RankFalls(s, x, a, t);
      }
    } else {
      var o := Step(s, t, Go(false));
      if PcOf(s, t) == Idle {
        StaysIdle(s, t);
      } else {
        RankFalls(s, x, a, t);
      }
      StepGoesOn(s, t);
      var y := Keeps(s, x, a, t, Go(false));
      x' := ReturnsFrom(o.s, y, Next(a, o.l).value, t, n - 1);
      var sched := Alone(t, n);
      assert sched[0] == (t, Go(false)) && sched[1..] == Alone(t, n - 1);
      var ls := Labels(s, sched);
      assert ls == [o.l] + Labels(o.s, sched[1..]) && ls[1..] == Labels(o.s, sched[1..]);
    }
  }

  lemma RankBound(s: State, t: Tid)
    ensures Rank(s, t) <= LONGEST
  {
  }

  /** From every reachable state a thread that runs alone returns within 13 steps, with the effect and the answer
      that its operation has on the contents as they are. */
  lemma ReturnsAlone(sched: Schedule, t: Tid)
    ensures var s, a := Run(INIT, sched), Replay(NEW_STACK, Labels(INIT, sched));
            var alone := Alone(t, LONGEST);
            && a.Some? && PcOf(Run(s, alone), t) == Idle
            && Replay(a.value, Labels(s, alone)).Some?
            && Replay(a.value, Labels(s, alone)).value.items == ItemsAfter(a.value.items, OpOf(a.value, t))
            && (OpOf(a.value, t) != Free ==> ReturnOf(a.value.items, OpOf(a.value, t), t) in Labels(s, alone))
  {
    var x := FromInit(sched);
    var s, a := Run(INIT, sched), Replay(NEW_STACK, Labels(INIT, sched)).value;
    RankBound(s, t);
    var y := ReturnsFrom(s, x, a, t, LONGEST);
    var ls := Labels(s, Alone(t, LONGEST));
    assert ThreadOk(Run(s, Alone(t, LONGEST)), y, Replay(a, ls).value, t);
    OneOperation(a, ls, t);
  }

  /** A call by an idle thread, and then that thread alone. */
  function Whole(t: Tid, c: Choice): Schedule {
    [(t, c)] + Alone(t, LONGEST)
  }

  /** What one whole operation of t comes to. */
  ghost predicate Does(s: State, a: Spec, t: Tid, c: Choice, items: seq<Value>, answer: Label) {
    var s', ls := Run(s, Whole(t, c)), Labels(s, Whole(t, c));
    && PcOf(s', t) == Idle && answer in ls
    && Replay(a, ls).Some? && Replay(a, ls).value.items == items
  }

  lemma IdleIsFree(s: State, x: Proof, a: Spec, t: Tid)
    requires Inv(s, x, a) && PcOf(s, t) == Idle
    ensures OpOf(a, t) == Free
  {
    assert ThreadOk(s, x, a, t);
  }

  lemma Operates(s: State, x: Proof, a: Spec, t: Tid, c: Choice) returns (x': Proof)
    requires Inv(s, x, a) && ((c.Pop? && PcOf(s, t) == Idle) || (c.Push? && AsksPush(s, t, c, c.v)))
    ensures var op := if c.Pop? then Popping else Pushing(c.v);
            Does(s, a, t, c, ItemsAfter(a.items, op), ReturnOf(a.items, op, t))
    ensures Inv(Run(s, Whole(t, c)), x', Replay(a, Labels(s, Whole(t, c))).value)
  {
    hide Inv;
    IdleIsFree(s, x, a, t);
    var o := Step(s, t, c);
    var y := Keeps(s, x, a, t, c);
    var b := Next(a, o.l).value;
    RankBound(o.s, t);
    x' := ReturnsFrom(o.s, y, b, t, LONGEST);
    var alone := Alone(t, LONGEST);
    var ls := Labels(o.s, alone);
    IdleIsFree(Run(o.s, alone), x', Replay(b, ls).value, t);
    OneOperation(b, ls, t);
    var sched := Whole(t, c);
    assert sched[0] == (t, c) && sched[1..] == alone;
    assert Labels(s, sched) == [o.l] + ls && ([o.l] + ls)[1..] == ls;
  }

  /** From every reachable state, an idle thread that runs alone through push(v) and then through pop gets v back,
      and the contents are as before; after the push alone they are those with v on top. */
  lemma PushThenPop(sched: Schedule, t: Tid, v: Value, at: Addr)
    requires PcOf(Run(INIT, sched), t) == Idle && at != NULL && at !in Run(INIT, sched).heap
    ensures var s, a := Run(INIT, sched), Replay(NEW_STACK, Labels(INIT, sched));
            var push := Whole(t, Push(v, at));
            && a.Some? && Does(s, a.value, t, Push(v, at), a.value.items + [v], RetPush(t))
            && Does(Run(s, push), Replay(a.value, Labels(s, push)).value, t, Pop, a.value.items, RetPop(t, Some(v)))
  {
    hide Inv, Run, Labels, Whole;
    var x := FromInit(sched);
    var s, a := Run(INIT, sched), Replay(NEW_STACK, Labels(INIT, sched)).value;
    var y := Operates(s, x, a, t, Push(v, at));
    var b := Replay(a, Labels(s, Whole(t, Push(v, at)))).value;
    var z := Operates(Run(s, Whole(t, Push(v, at))), y, b, t, Pop);
    assert WithoutTop(a.items + [v]) == a.items;
  }
}
