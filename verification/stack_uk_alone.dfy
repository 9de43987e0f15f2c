/** What a thread of `threadsafe_stack_uk` achieves when the others stand still, wherever they stand: every operation
    returns, in a number of steps bounded by the number of allocated nodes, and a push followed by a pop gives the
    pushed value back. A pop with no other pop in progress deletes its node and all that were pending. The calls in
    the labels of a run are those that its schedule asks for. */
module StackUkAlone {
  import opened Options
  import opened AtomicStack
  import opened StackUk

  /** n steps of t, in which no weak CAS fails without cause. */
  function Alone(t: Tid, n: nat): Schedule {
    if n == 0 then [] else [(t, Go(false))] + Alone(t, n - 1)
  }

  // ---------------------------------------------------------------- calls

  lemma {:induction false} LabelAt(s: State, sched: Schedule, i: nat)
    requires i < |sched|
    ensures |Labels(s, sched)| == |sched|
    ensures Labels(s, sched)[i] == Step(Run(s, sched[..i]), sched[i].0, sched[i].1).l
    decreases sched
  {
    var o := Step(s, sched[0].0, sched[0].1);
    if i > 0 {
      LabelAt(o.s, sched[1..], i - 1);
      assert sched[..i][1..] == sched[1..][..i - 1];
    } else if |sched| > 1 {
      LabelAt(o.s, sched[1..], 0);
    }
  }

  /** The thread is idle and is told to push v, with an address for the new node that `new` may return. */
  predicate AsksPush(s: State, t: Tid, c: Choice, v: Value) {
    PcOf(s, t) == Idle && c.Push? && c.v == v && c.at != NULL && c.at !in s.heap
  }

  lemma StepCalls(s: State, u: Tid, c: Choice, t: Tid, v: Value)
    ensures Step(s, u, c).l == CallPush(t, v) <==> u == t && AsksPush(s, t, c, v)
    ensures Step(s, u, c).l == CallPop(t) <==> u == t && PcOf(s, t) == Idle && c.Pop?
  {
  }

  /** A run calls exactly the operations, with the values, that its schedule asks idle threads for. */
  lemma CallsAreAsked(sched: Schedule, i: nat, t: Tid, v: Value)
    requires i < |sched|
    ensures var s, ls := Run(INIT, sched[..i]), Labels(INIT, sched);
            && |ls| == |sched|
            && (ls[i] == CallPush(t, v) <==> sched[i].0 == t && AsksPush(s, t, sched[i].1, v))
            && (ls[i] == CallPop(t) <==> sched[i].0 == t && PcOf(s, t) == Idle && sched[i].1.Pop?)
  {
    LabelAt(INIT, sched, i);
    StepCalls(Run(INIT, sched[..i]), sched[i].0, sched[i].1, t, v);
  }

  // ---------------------------------------------------------------- alone

  lemma {:induction false} ListFits(list: seq<Addr>, all: set<Addr>)
    requires forall i :: 0 <= i < |list| ==> list[i] in all
    requires forall i, j :: 0 <= i < j < |list| ==> list[i] != list[j]
    ensures |list| <= |all|
  {
    if list != [] {
      var n := |list| - 1;
      ListFits(list[..n], all - {list[n]});
    }
  }

  lemma ClaimFits(s: State, x: Proof, a: Spec, t: Tid)
    requires Inv(s, x, a)
    ensures |ClaimOf(x, t)| <= |s.heap|
  {
    var list := ClaimOf(x, t);
    assert ThreadOk(s, x, a, t);
    forall i | 0 <= i < |list| ensures list[i] in s.heap && list[i] in x.role && x.role[list[i]].at == i
      ensures x.role[list[i]].Claimed? || x.role[list[i]].Doomed?
    {
      ClaimRoles(s, x, a, t, i);
    }
    ListFits(list, s.heap.Keys);
  }

  /** How far a walk along a list still has to go. */
  function Index(list: seq<Addr>, p: Addr): (i: nat)
    ensures p in list ==> i < |list| && list[i] == p
  {
    if list == [] || list[0] == p then 0 else 1 + Index(list[1..], p)
  }

  /** How many steps t needs at most to return, if it runs alone. */
  function Rank(s: State, x: Proof, t: Tid): nat {
    var h := 2 * |s.heap|;
    match PcOf(s, t)
    case Idle => 0
    case PushLoad(_) => 3
    case PushCas(n) => if n in s.heap && s.heap[n].next == s.head then 2 else 3
    case PushDone => 1
    case PopEnter => h + 12
    case PopLoad => h + 11
    case PopRead(p) => if p == s.head then h + 10 else h + 13
    case PopCas(p, _) => if p == s.head then h + 9 else h + 12
    case PopTake(_) => h + 8
    case PopCheck(_, _) => h + 7
    case PopClaim(_, _) => h + 6
    case PopLeave(_, _, _) => h + 5
    case Purge(_, _, _) => h + 3
    case PurgeFree(_, _, _, _) => h + 2
    case Walk(_, last, _, _) => 5 + Index(ClaimOf(x, t), last)
    case SpliceLoad(_, _, _) => 4
    case SpliceCas(_, last, _) => if last in s.heap && s.heap[last].next == s.pending then 3 else 4
    case PopFree(_, _) => 2
    case PopExit(_) => 2
    case PopRet(_) => 1
  }

  function Longest(s: State): nat {
    2 * |s.heap| + 13
  }

  /** The node that the next step of t looks at. */
  function LooksAt(pc: Pc): Addr {
    match pc
    case PushLoad(n) => n
    case PushCas(n) => n
    case PopRead(p) => p
    case PopTake(p) => p
    case Purge(n, _, _) => n
    case PurgeFree(n, _, _, _) => n
    case Walk(_, last, _, _) => last
    case SpliceLoad(_, last, _) => last
    case SpliceCas(_, last, _) => last
    case PopFree(p, _) => p
    case _ => NULL
  }

  predicate Looks(pc: Pc) {
    pc.PushLoad? || pc.PushCas? || pc.PopRead? || pc.PopTake? || pc.PurgeFree? || pc.Walk? || pc.SpliceLoad?
    || pc.SpliceCas? || pc.PopFree?
  }

  lemma NodeIsThere(s: State, x: Proof, a: Spec, t: Tid)
    requires Inv(s, x, a)
    ensures Looks(PcOf(s, t)) ==> LooksAt(PcOf(s, t)) in s.heap
    ensures PcOf(s, t).Purge? && LooksAt(PcOf(s, t)) != NULL ==> LooksAt(PcOf(s, t)) in s.heap
  {
    assert ThreadOk(s, x, a, t);
    var list := ClaimOf(x, t);
    var pc := PcOf(s, t);
    if pc.Purge? || pc.PurgeFree? || pc.Walk? || pc.SpliceLoad? || pc.SpliceCas? {
      forall i | 0 <= i < |list| ensures list[i] in s.heap {
        ClaimRoles(s, x, a, t, i);
      }
    }
  }

  lemma FreeFalls(s: State, x: Proof, t: Tid)
    requires PcOf(s, t).PurgeFree? || PcOf(s, t).PopFree?
    requires LooksAt(PcOf(s, t)) in s.heap
    ensures forall y :: Rank(Step(s, t, Go(false)).s, y, t) < Rank(s, x, t)
  {
    var s', p := Step(s, t, Go(false)).s, LooksAt(PcOf(s, t));
    assert s'.heap.Keys == s.heap.Keys - {p} && |s'.heap.Keys| == |s.heap.Keys| - 1;
  }

  lemma TouchFalls(s: State, x: Proof, t: Tid)
    requires Looks(PcOf(s, t)) && !PcOf(s, t).PurgeFree? && !PcOf(s, t).PopFree? && !PcOf(s, t).Walk?
    requires LooksAt(PcOf(s, t)) in s.heap
    ensures forall y :: Rank(Step(s, t, Go(false)).s, y, t) < Rank(s, x, t)
  {
    assert Step(s, t, Go(false)).s.heap.Keys == s.heap.Keys;
  }

  lemma OtherFalls(s: State, x: Proof, t: Tid)
    requires !PcOf(s, t).Idle? && !PcOf(s, t).PopLeave? && !Looks(PcOf(s, t))
    requires PcOf(s, t).Purge? && LooksAt(PcOf(s, t)) != NULL ==> LooksAt(PcOf(s, t)) in s.heap
    ensures forall y :: Rank(Step(s, t, Go(false)).s, y, t) < Rank(s, x, t)
  {
  }

  lemma StepFalls(s: State, x: Proof, t: Tid)
    requires !PcOf(s, t).Idle? && !PcOf(s, t).PopLeave? && !PcOf(s, t).Walk?
    requires Looks(PcOf(s, t)) ==> LooksAt(PcOf(s, t)) in s.heap
    requires PcOf(s, t).Purge? && LooksAt(PcOf(s, t)) != NULL ==> LooksAt(PcOf(s, t)) in s.heap
    ensures forall y :: Rank(Step(s, t, Go(false)).s, y, t) < Rank(s, x, t)
  {
    hide Rank, Step;
    if PcOf(s, t).PurgeFree? || PcOf(s, t).PopFree? {
      FreeFalls(s, x, t);
    } else if Looks(PcOf(s, t)) {
      TouchFalls(s, x, t);
    } else {
      OtherFalls(s, x, t);
    }
  }

  lemma LeaveFalls(s: State, x: Proof, a: Spec, t: Tid, y: Proof, b: Spec)
    requires Inv(s, x, a) && PcOf(s, t).PopLeave? && Inv(Step(s, t, Go(false)).s, y, b)
    ensures Rank(Step(s, t, Go(false)).s, y, t) < Rank(s, x, t)
  {
    var s' := Step(s, t, Go(false)).s;
    ClaimFits(s', y, b, t);
    assert ThreadOk(s', y, b, t);
  }

  lemma WalkFalls(s: State, x: Proof, a: Spec, t: Tid)
    requires Inv(s, x, a) && PcOf(s, t).Walk?
    ensures Simulates(Step(s, t, Go(false)), x, a)
    ensures Rank(Step(s, t, Go(false)).s, x, t) < Rank(s, x, t)
  {
    var Walk(first, last, hand, res) := PcOf(s, t);
    assert Step(s, t, Go(false)) == StepWalk(s, t, first, last, hand, res);
    KeepsWalk(s, x, a, t, first, last, hand, res);
    assert ThreadOk(s, x, a, t);
    var list := ClaimOf(x, t);
    var i := Index(list, last);
    assert RoleIs(s, x, list[i], Claimed(t, i)) && Leads(s, list, i);
    if i > 0 {
      assert RoleIs(s, x, list[i - 1], Claimed(t, i - 1));
      var j := Index(list, list[i - 1]);
      assert RoleIs(s, x, list[j], Claimed(t, j));
    }
  }

  /** Each step of a thread that runs alone brings it closer to its return. */
  lemma RankFalls(s: State, x: Proof, a: Spec, t: Tid) returns (y: Proof)
    requires Inv(s, x, a) && PcOf(s, t) != Idle
    ensures Simulates(Step(s, t, Go(false)), y, a) && Rank(Step(s, t, Go(false)).s, y, t) < Rank(s, x, t)
  {
    hide Inv, Step, Rank;
    if PcOf(s, t).Walk? {
      WalkFalls(s, x, a, t);
      y := x;
    } else {
      y := Keeps(s, x, a, t, Go(false));
      if PcOf(s, t).PopLeave? {
        LeaveFalls(s, x, a, t, y, Next(a, Step(s, t, Go(false)).l).value);
      } else {
        NodeIsThere(s, x, a, t);
        StepFalls(s, x, t);
      }
    }
  }

  lemma StaysIdle(s: State, x: Proof, t: Tid)
    requires PcOf(s, t) == Idle
    ensures Step(s, t, Go(false)) == Outcome(s, Tau) && Rank(s, x, t) == 0
  {
  }

  lemma StepGoesOn(s: State, t: Tid)
    ensures GoesOn(Step(s, t, Go(false)).l, t)
  {
  }

  lemma {:induction false} ReturnsFrom(s: State, x: Proof, a: Spec, t: Tid, n: nat) returns (x': Proof)
    requires Inv(s, x, a) && Rank(s, x, t) <= n
    ensures var s', ls := Run(s, Alone(t, n)), Labels(s, Alone(t, n));
            && PcOf(s', t) == Idle && (forall l :: l in ls ==> GoesOn(l, t))
            && Replay(a, ls).Some? && Inv(s', x', Replay(a, ls).value)
    decreases n
  {
    hide Inv, Rank, Step;
    x' := x;
    if n == 0 {
      if PcOf(s, t) != Idle {
        var y := RankFalls(s, x, a, t);
      }
    } else {
      var o := Step(s, t, Go(false));
      var y := x;
      if PcOf(s, t) == Idle {
        StaysIdle(s, x, t);
      } else {
        y := RankFalls(s, x, a, t);
      }
      StepGoesOn(s, t);
      x' := ReturnsFrom(o.s, y, Next(a, o.l).value, t, n - 1);
      var sched := Alone(t, n);
      assert sched[0] == (t, Go(false)) && sched[1..] == Alone(t, n - 1);
      var ls := Labels(s, sched);
      assert ls == [o.l] + Labels(o.s, sched[1..]) && ls[1..] == Labels(o.s, sched[1..]);
    }
  }

  lemma RankBound(s: State, x: Proof, a: Spec, t: Tid)
    requires Inv(s, x, a)
    ensures Rank(s, x, t) <= Longest(s)
  {
    ClaimFits(s, x, a, t);
    assert ThreadOk(s, x, a, t);
  }

  /** From every reachable state a thread that runs alone returns within twice as many steps as there are nodes and
      13 more, with the effect and the answer that its operation has on the contents as they are. */
  lemma ReturnsAlone(sched: Schedule, t: Tid)
    ensures var s, a := Run(INIT, sched), Replay(NEW_STACK, Labels(INIT, sched));
            var alone := Alone(t, Longest(s));
            && a.Some? && PcOf(Run(s, alone), t) == Idle
            && Replay(a.value, Labels(s, alone)).Some?
            && Replay(a.value, Labels(s, alone)).value.items == ItemsAfter(a.value.items, OpOf(a.value, t))
            && (OpOf(a.value, t) != Free ==> ReturnOf(a.value.items, OpOf(a.value, t), t) in Labels(s, alone))
  {
    var x := FromInit(sched);
    var s, a := Run(INIT, sched), Replay(NEW_STACK, Labels(INIT, sched)).value;
    RankBound(s, x, a, t);
    var y := ReturnsFrom(s, x, a, t, Longest(s));
    var ls := Labels(s, Alone(t, Longest(s)));
    assert ThreadOk(Run(s, Alone(t, Longest(s))), y, Replay(a, ls).value, t);
    OneOperation(a, ls, t);
  }

  /** A call by an idle thread, and then that thread alone until it has returned. */
  function Whole(s: State, t: Tid, c: Choice): Schedule {
    [(t, c)] + Alone(t, Longest(Step(s, t, c).s))
  }

  /** What one whole operation of t comes to. */
  ghost predicate Does(s: State, a: Spec, t: Tid, c: Choice, items: seq<Value>, answer: Label) {
    var s', ls := Run(s, Whole(s, t, c)), Labels(s, Whole(s, t, c));
    && PcOf(s', t) == Idle && answer in ls
    && Replay(a, ls).Some? && Replay(a, ls).value.items == items
  }

  lemma IdleIsFree(s: State, x: Proof, a: Spec, t: Tid)
    requires Inv(s, x, a) && PcOf(s, t) == Idle
    ensures OpOf(a, t) == Free
  {
    assert ThreadOk(s, x, a, t);
  }

  lemma Operates(s: State, x: Proof, a: Spec, t: Tid, c: Choice) returns (x': Proof)
    requires Inv(s, x, a) && ((c.Pop? && PcOf(s, t) == Idle) || (c.Push? && AsksPush(s, t, c, c.v)))
    ensures var op := if c.Pop? then Popping else Pushing(c.v);
            Does(s, a, t, c, ItemsAfter(a.items, op), ReturnOf(a.items, op, t))
    ensures Inv(Run(s, Whole(s, t, c)), x', Replay(a, Labels(s, Whole(s, t, c))).value)
  {
    hide Inv;
    IdleIsFree(s, x, a, t);
    var o := Step(s, t, c);
    var y := Keeps(s, x, a, t, c);
    var b := Next(a, o.l).value;
    RankBound(o.s, y, b, t);
    var alone := Alone(t, Longest(o.s));
    x' := ReturnsFrom(o.s, y, b, t, Longest(o.s));
    var ls := Labels(o.s, alone);
    IdleIsFree(Run(o.s, alone), x', Replay(b, ls).value, t);
    OneOperation(b, ls, t);
    var sched := Whole(s, t, c);
    assert sched[0] == (t, c) && sched[1..] == alone;
    assert Labels(s, sched) == [o.l] + ls && ([o.l] + ls)[1..] == ls;
  }

  /** From every reachable state, an idle thread that runs alone through push(v) and then through pop gets v back,
      and the contents are as before; after the push alone they are those with v on top. */
  lemma PushThenPop(sched: Schedule, t: Tid, v: Value, at: Addr)
    requires PcOf(Run(INIT, sched), t) == Idle && at != NULL && at !in Run(INIT, sched).heap
    ensures var s, a := Run(INIT, sched), Replay(NEW_STACK, Labels(INIT, sched));
            var push := Whole(s, t, Push(v, at));
            && a.Some? && Does(s, a.value, t, Push(v, at), a.value.items + [v], RetPush(t))
            && Does(Run(s, push), Replay(a.value, Labels(s, push)).value, t, Pop, a.value.items, RetPop(t, Some(v)))
  {
    hide Inv, Run, Labels, Whole;
    var x := FromInit(sched);
    var s, a := Run(INIT, sched), Replay(NEW_STACK, Labels(INIT, sched)).value;
    var push := Whole(s, t, Push(v, at));
    var y := Operates(s, x, a, t, Push(v, at));
    var b := Replay(a, Labels(s, push)).value;
    var z := Operates(Run(s, push), y, b, t, Pop);
    assert WithoutTop(a.items + [v]) == a.items;
  }

  // ---------------------------------------------------------------- reclamation

  /** A pop of t, with no other pop in progress, on its way to delete what is pending. */
  predicate Sweeps(s: State, t: Tid) {
    match PcOf(s, t)
    case PopEnter => s.inPop == 0 && s.head != NULL
    case PopLoad => s.inPop == 1 && s.head != NULL
    case PopRead(p) => s.inPop == 1 && s.head == p
    case PopCas(p, _) => s.inPop == 1 && s.head == p
    case PopTake(_) => s.inPop == 1
    case PopCheck(_, _) => s.inPop == 1
    case PopClaim(_, _) => s.inPop == 1
    case PopLeave(_, _, _) => s.inPop == 1 && s.pending == NULL
    case Purge(_, _, _) => s.pending == NULL
    case PurgeFree(_, _, _, _) => s.pending == NULL
    case PopFree(_, _) => s.pending == NULL
    case PopRet(_) => s.pending == NULL
    case Idle => s.pending == NULL
    case _ => false
  }

  lemma SweepStep(s: State, t: Tid)
    requires Sweeps(s, t)
    ensures Sweeps(Step(s, t, Go(false)).s, t)
  {
  }

  lemma {:induction false} SweepRun(s: State, t: Tid, n: nat)
    requires Sweeps(s, t)
    ensures Sweeps(Run(s, Alone(t, n)), t)
    ensures forall u: Tid :: u != t ==> PcOf(Run(s, Alone(t, n)), u) == PcOf(s, u)
    decreases n
  {
    if n > 0 {
      SweepStep(s, t);
      OthersWait(s, t, Go(false));
      SweepRun(Step(s, t, Go(false)).s, t, n - 1);
      assert Alone(t, n)[0] == (t, Go(false)) && Alone(t, n)[1..] == Alone(t, n - 1);
    }
  }

  lemma PushMoves(s: State, t: Tid, c: Choice)
    requires !InPop(PcOf(s, t))
    ensures var s' := Step(s, t, c).s; s'.threads == s.threads || s'.threads == s.threads[t := PcOf(s', t)]
  {
  }

  lemma PopMoves(s: State, t: Tid, c: Choice)
    requires InPop(PcOf(s, t)) && !Looks(PcOf(s, t)) && !PcOf(s, t).Purge?
    ensures var s' := Step(s, t, c).s; s'.threads == s.threads[t := PcOf(s', t)]
  {
  }

  lemma PurgeMoves(s: State, t: Tid, c: Choice)
    requires PcOf(s, t).Purge?
    ensures var s' := Step(s, t, c).s; s'.threads == s.threads || s'.threads == s.threads[t := PcOf(s', t)]
  {
  }

  lemma LookMoves(s: State, t: Tid, c: Choice)
    requires InPop(PcOf(s, t)) && Looks(PcOf(s, t))
    ensures var s' := Step(s, t, c).s; s'.threads == s.threads || s'.threads == s.threads[t := PcOf(s', t)]
  {
  }

  lemma OthersWait(s: State, t: Tid, c: Choice)
    ensures forall u: Tid :: u != t ==> PcOf(Step(s, t, c).s, u) == PcOf(s, u)
  {
    hide Step;
    if InPop(PcOf(s, t)) {
      if Looks(PcOf(s, t)) {
        LookMoves(s, t, c);
      } else if PcOf(s, t).Purge? {
        PurgeMoves(s, t, c);
      } else {
        PopMoves(s, t, c);
      }
    } else {
      PushMoves(s, t, c);
    }
  }

  /** The allocated nodes are those on the stack and those with a pusher that has not linked its node. */
  ghost predicate OnlyStack(s: State) {
    exists stack: seq<Addr> :: Hangs(s, s.head, stack)
      && forall p :: p in s.heap <==> p in stack || exists u: Tid :: p != NULL && WithPusher(PcOf(s, u), p)
  }

  /** A pop of t on an empty stack, on its way out without a look at the pending list. */
  predicate Bounces(s: State, t: Tid, pending: Addr) {
    && s.pending == pending
    && (PcOf(s, t).PopEnter? || PcOf(s, t).PopLoad? ==> s.head == NULL)
    && (PcOf(s, t).PopEnter? || PcOf(s, t).PopLoad? || PcOf(s, t).PopExit? || PcOf(s, t).PopRet? || PcOf(s, t).Idle?)
  }

  lemma {:induction false} BounceRun(s: State, t: Tid, n: nat)
    requires Bounces(s, t, s.pending)
    ensures Run(s, Alone(t, n)).pending == s.pending
    decreases n
  {
    if n > 0 {
      var s' := Step(s, t, Go(false)).s;
      assert Bounces(s', t, s.pending);
      BounceRun(s', t, n - 1);
      assert Alone(t, n)[0] == (t, Go(false)) && Alone(t, n)[1..] == Alone(t, n - 1);
    }
  }

  /** A pop that runs alone, with no other pop in progress, leaves nothing pending if and only if the stack is not
      empty or nothing was pending before: from an empty stack it returns without a look at the pending list.
      When the stack is not empty, its node and all that were pending have been deleted. */
  lemma PopReclaims(sched: Schedule, t: Tid)
    requires forall u: Tid :: !InPop(PcOf(Run(INIT, sched), u))
    requires PcOf(Run(INIT, sched), t) == Idle
    ensures var s := Run(INIT, sched); var s' := Run(s, Whole(s, t, Pop));
            && PcOf(s', t) == Idle
            && (s'.pending == NULL <==> s.head != NULL || s.pending == NULL)
            && (s.head != NULL ==> OnlyStack(s'))
  {
    var x := FromInit(sched);
    var s, a := Run(INIT, sched), Replay(NEW_STACK, Labels(INIT, sched)).value;
    var y := Operates(s, x, a, t, Pop);
    var s1 := Step(s, t, Pop).s;
    assert Whole(s, t, Pop)[0] == (t, Pop) && Whole(s, t, Pop)[1..] == Alone(t, Longest(s1));
    if s.head == NULL {
      BounceRun(s1, t, Longest(s1));
    } else {
      NobodyInside(s);
      SweepRun(s1, t, Longest(s1));
      OthersWait(s, t, Pop);
      var s' := Run(s, Whole(s, t, Pop));
      forall u: Tid ensures !InPop(PcOf(s', u)) {
        assert !InPop(PcOf(s, u));
      }
      NoOtherPop(sched, s, t, y, Replay(a, Labels(s, Whole(s, t, Pop))).value);
    }
  }

  lemma NoOtherPop(sched: Schedule, s: State, t: Tid, y: Proof, b: Spec)
    requires s == Run(INIT, sched) && (forall u: Tid :: !InPop(PcOf(Run(s, Whole(s, t, Pop)), u)))
    requires Inv(Run(s, Whole(s, t, Pop)), y, b) && Run(s, Whole(s, t, Pop)).pending == NULL
    ensures OnlyStack(Run(s, Whole(s, t, Pop)))
  {
    hide Inv, OnlyStack, Hangs, InPop, Whole;
    RunConcat(INIT, sched, Whole(s, t, Pop));
    NothingLeaks(sched + Whole(s, t, Pop));
    NothingPending(Run(s, Whole(s, t, Pop)), y, b);
  }

  lemma NobodyInside(s: State)
    requires forall u: Tid :: !InPop(PcOf(s, u))
    ensures Inside(s) == {}
  {
    forall u | u in s.threads ensures !Counted(s.threads[u]) {
      assert !InPop(PcOf(s, u));
    }
  }

  lemma NothingPending(s: State, x: Proof, a: Spec)
    requires Inv(s, x, a) && s.pending == NULL
    requires exists stack, pending: seq<Addr> ::
      && Hangs(s, s.head, stack) && Hangs(s, s.pending, pending)
      && (forall p :: p in s.heap <==>
            p in stack || p in pending || exists t: Tid :: p != NULL && WithPusher(PcOf(s, t), p))
    ensures OnlyStack(s)
  {
    var stack, pending: seq<Addr> :|
      && Hangs(s, s.head, stack) && Hangs(s, s.pending, pending)
      && (forall p :: p in s.heap <==>
            p in stack || p in pending || exists t: Tid :: p != NULL && WithPusher(PcOf(s, t), p));
    HangsFromNull(s, pending);
  }

  lemma HangsFromNull(s: State, list: seq<Addr>)
    requires Hangs(s, NULL, list) && NULL !in s.heap
    ensures list == []
  {
  }
}
