/** A run of `lock_free_queue` that loses a push.  Thread 0 stalls before its data CAS; thread 1
    pushes 20 and thread 2 pops it, which empties the node; then thread 0 installs 10 into that
    node and returns. */
module LostPush {
  import opened Options
  import opened AtomicQueue
  import opened LockFreeQueue
  import opened QueueRuns

  const GO := Go(false, NULL)

  /** `n` steps of thread `t`. */
  function Drive(t: Tid, n: nat): Schedule {
    if n == 0 then [] else [(t, GO)] + Drive(t, n - 1)
  }

  const SLOW := Item(10, 0)
  const QUICK := Item(20, 1)
  const SEEN := CountedPtr(2, 1)
  const NEXT := CountedPtr(1, 3)
  const BUSY := CountedPtr(3, 1)
  const ONE := CountedPtr(1, 1)

  function Nodes(data: Option<Item>, count: Count, next: CountedPtr): map<Addr, Node> {
    map[1 := Node(data, count, next), 2 := NEW_NODE, 3 := NEW_NODE]
  }

  const STALL := PushData(SLOW, 2, SEEN)

  const STALLED := State(map[1 := NEW_NODE, 2 := NEW_NODE], ONE, SEEN, map[0 := STALL], false)
  const PUSHED_20 := State(Nodes(Some(QUICK), Count(1, 1), NEXT), ONE, NEXT, map[0 := STALL, 1 := Idle], false)
  const POPPED_20 := State(Nodes(None, Count(1, 0), NEXT), NEXT, NEXT, map[0 := STALL, 1 := Idle, 2 := Idle], false)
  const LOST_10 := State(map[3 := NEW_NODE], NEXT, NEXT, map[0 := Idle, 1 := Idle, 2 := Idle], false)

  const LINKING :=
      State(Nodes(Some(QUICK), Count(0, 2), EMPTY), ONE, BUSY, map[0 := STALL, 1 := PushLink(QUICK, 3, BUSY)], false)
  const TAKING :=
      State(Nodes(Some(QUICK), Count(1, 1), NEXT), NEXT, NEXT, map[0 := STALL, 1 := Idle, 2 := PopTake(SEEN)], false)
  const LETTING_GO :=
      State(map[1 := Node(Some(SLOW), Count(1, 0), NEXT), 3 := NEW_NODE], NEXT, NEXT,
            map[0 := SetTail(1, SEEN, NEXT, Finish(SLOW)), 1 := Idle, 2 := Idle], false)
  const FOLDING :=
      State(Nodes(Some(QUICK), Count(0, 2), NEXT), ONE, NEXT, map[0 := STALL, 1 := FoldCas(BUSY, Count(0, 2), PushEnd)],
            false)
  const READING :=
      State(Nodes(Some(QUICK), Count(1, 1), NEXT), SEEN, NEXT, map[0 := STALL, 1 := Idle, 2 := PopTail(SEEN)], false)
  const REAPING :=
      State(map[1 := Node(Some(SLOW), Count(0, 0), NEXT), 3 := NEW_NODE], NEXT, NEXT,
            map[0 := Reap(1, PushEnd), 1 := Idle, 2 := Idle], false)

  /** One step at the front of a schedule. */
  lemma FirstStep(s: State, t: Tid, c: Choice, s': State, l: Label, more: Schedule)
    requires Step(s, t, c) == Outcome(s', l)
    ensures Run(s, [(t, c)] + more) == Run(s', more) && Labels(s, [(t, c)] + more) == [l] + Labels(s', more)
  {
    Unfold(s, t, c, more);
    assert ([(t, c)] + more)[1..] == more;
  }

  lemma SlowStart()
    ensures Run(INIT, [(0, Push(10, 2))] + Drive(0, 2)) == STALLED
    ensures Labels(INIT, [(0, Push(10, 2))] + Drive(0, 2)) == [CallPush(0, 10), Tau, Tau]
  {
    var s0 := State(STALLED.heap, ONE, ONE, map[0 := PushLoad(SLOW, 2)], false);
    var s1 := s0.(threads := map[0 := PushCount(SLOW, 2, ONE)]);
    FirstStep(INIT, 0, Push(10, 2), s0, CallPush(0, 10), Drive(0, 2));
    FirstStep(s0, 0, GO, s1, Tau, Drive(0, 1));
    FirstStep(s1, 0, GO, STALLED, Tau, Drive(0, 0));
  }

  lemma QuickInstall()
    ensures Run(STALLED, [(1, Push(20, 3))] + Drive(1, 4)) == LINKING
    ensures Labels(STALLED, [(1, Push(20, 3))] + Drive(1, 4)) == [CallPush(1, 20), Tau, Tau, Tau, Tau]
  {
    var s0 := State(Nodes(None, Count(0, 2), EMPTY), ONE, SEEN, map[0 := STALL, 1 := PushLoad(QUICK, 3)], false);
    var s1 := State(Nodes(None, Count(0, 2), EMPTY), ONE, SEEN, map[0 := STALL, 1 := PushCount(QUICK, 3, SEEN)], false);
    var s2 := State(Nodes(None, Count(0, 2), EMPTY), ONE, BUSY, map[0 := STALL, 1 := PushData(QUICK, 3, BUSY)], false);
    var s3 := State(Nodes(Some(QUICK), Count(0, 2), EMPTY), ONE, BUSY, map[0 := STALL, 1 := PushPeek(QUICK, 3, BUSY)],
                    false);
    FirstStep(STALLED, 1, Push(20, 3), s0, CallPush(1, 20), Drive(1, 4));
    FirstStep(s0, 1, GO, s1, Tau, Drive(1, 3));
    FirstStep(s1, 1, GO, s2, Tau, Drive(1, 2));
    FirstStep(s2, 1, GO, s3, Tau, Drive(1, 1));
    FirstStep(s3, 1, GO, LINKING, Tau, Drive(1, 0));
  }

  lemma QuickAdvances()
    ensures Run(LINKING, Drive(1, 3)) == FOLDING
    ensures Labels(LINKING, Drive(1, 3)) == [Tau, LinPush(1, 20), Tau]
  {
    var s0 := State(Nodes(Some(QUICK), Count(0, 2), NEXT), ONE, BUSY,
                    map[0 := STALL, 1 := SetTail(1, BUSY, NEXT, Finish(QUICK))], false);
    var s1 := State(Nodes(Some(QUICK), Count(0, 2), NEXT), ONE, NEXT, map[0 := STALL, 1 := FoldLoad(BUSY, PushEnd)],
                    false);
    FirstStep(LINKING, 1, GO, s0, Tau, Drive(1, 2));
    FirstStep(s0, 1, GO, s1, LinPush(1, 20), Drive(1, 1));
    FirstStep(s1, 1, GO, FOLDING, Tau, Drive(1, 0));
  }

  lemma QuickReturns()
    ensures Run(FOLDING, Drive(1, 2)) == PUSHED_20
    ensures Labels(FOLDING, Drive(1, 2)) == [Tau, RetPush(1)]
  {
    var s3 := State(Nodes(Some(QUICK), Count(1, 1), NEXT), ONE, NEXT, map[0 := STALL, 1 := PushRet], false);
    FirstStep(FOLDING, 1, GO, s3, Tau, Drive(1, 1));
    FirstStep(s3, 1, GO, PUSHED_20, RetPush(1), Drive(1, 0));
  }

  lemma PopCounts()
    ensures Run(PUSHED_20, [(2, Pop)] + Drive(2, 2)) == READING
    ensures Labels(PUSHED_20, [(2, Pop)] + Drive(2, 2)) == [CallPop(2), Tau, Tau]
  {
    var s0 := State(Nodes(Some(QUICK), Count(1, 1), NEXT), ONE, NEXT, map[0 := STALL, 1 := Idle, 2 := PopLoad], false);
    var s1 := State(Nodes(Some(QUICK), Count(1, 1), NEXT), ONE, NEXT, map[0 := STALL, 1 := Idle, 2 := PopCount(ONE)],
                    false);
    FirstStep(PUSHED_20, 2, Pop, s0, CallPop(2), Drive(2, 2));
    FirstStep(s0, 2, GO, s1, Tau, Drive(2, 1));
    FirstStep(s1, 2, GO, READING, Tau, Drive(2, 0));
  }

  lemma PopUnlinks()
    ensures Run(READING, Drive(2, 3)) == TAKING
    ensures Labels(READING, Drive(2, 3)) == [Tau, Tau, LinPop(2, Some(20))]
  {
    var s3 := State(Nodes(Some(QUICK), Count(1, 1), NEXT), SEEN, NEXT, map[0 := STALL, 1 := Idle, 2 := PopNext(SEEN)],
                    false);
    var s4 := State(Nodes(Some(QUICK), Count(1, 1), NEXT), SEEN, NEXT,
                    map[0 := STALL, 1 := Idle, 2 := PopCas(SEEN, NEXT)], false);
    FirstStep(READING, 2, GO, s3, Tau, Drive(2, 2));
    FirstStep(s3, 2, GO, s4, Tau, Drive(2, 1));
    FirstStep(s4, 2, GO, TAKING, LinPop(2, Some(20)), Drive(2, 0));
  }

  lemma PopFinishes()
    ensures Run(TAKING, Drive(2, 4)) == POPPED_20
    ensures Labels(TAKING, Drive(2, 4)) == [Tau, Tau, Tau, RetPop(2, Some(20))]
  {
    var s0 := State(Nodes(None, Count(1, 1), NEXT), NEXT, NEXT,
                    map[0 := STALL, 1 := Idle, 2 := FoldLoad(SEEN, PopEnd(Some(QUICK)))], false);
    FirstStep(TAKING, 2, GO, s0, Tau, Drive(2, 3));
    FirstStep(s0, 2, GO, FOLDING_POP, Tau, Drive(2, 2));
    FoldEnds();
  }

  /** The pop of thread 2 in front of the CAS with which it folds its count. */
  const FOLDING_POP := State(Nodes(None, Count(1, 1), NEXT), NEXT, NEXT,
                         map[0 := STALL, 1 := Idle, 2 := FoldCas(SEEN, Count(1, 1), PopEnd(Some(QUICK)))], false)

  lemma FoldEnds()
    ensures Run(FOLDING_POP, Drive(2, 2)) == POPPED_20
    ensures Labels(FOLDING_POP, Drive(2, 2)) == [Tau, RetPop(2, Some(20))]
  {
    var s := State(Nodes(None, Count(1, 0), NEXT), NEXT, NEXT, map[0 := STALL, 1 := Idle, 2 := PopRet(Some(QUICK))],
                   false);
    FirstStep(FOLDING_POP, 2, GO, s, Tau, Drive(2, 1));
    FirstStep(s, 2, GO, POPPED_20, RetPop(2, Some(20)), Drive(2, 0));
  }

  lemma SlowInstalls()
    ensures Run(POPPED_20, Drive(0, 4)) == LETTING_GO
    ensures Labels(POPPED_20, Drive(0, 4)) == [Drop(0), Tau, Tau, Tau]
  {
    var s0 := State(Nodes(Some(SLOW), Count(1, 0), NEXT), NEXT, NEXT,
                    map[0 := PushPeek(SLOW, 2, SEEN), 1 := Idle, 2 := Idle], false);
    var s1 := State(Nodes(Some(SLOW), Count(1, 0), NEXT), NEXT, NEXT,
                    map[0 := PushLink(SLOW, 2, SEEN), 1 := Idle, 2 := Idle], false);
    var s2 := State(Nodes(Some(SLOW), Count(1, 0), NEXT), NEXT, NEXT,
                    map[0 := PushTrash(SLOW, 2, SEEN, NEXT), 1 := Idle, 2 := Idle], false);
    FirstStep(POPPED_20, 0, GO, s0, Drop(0), Drive(0, 3));
    FirstStep(s0, 0, GO, s1, Tau, Drive(0, 2));
    FirstStep(s1, 0, GO, s2, Tau, Drive(0, 1));
    FirstStep(s2, 0, GO, LETTING_GO, Tau, Drive(0, 0));
  }

  lemma SlowLetsGo()
    ensures Run(LETTING_GO, Drive(0, 3)) == REAPING
    ensures Labels(LETTING_GO, Drive(0, 3)) == [Tau, Tau, Tau]
  {
    var s0 := State(map[1 := Node(Some(SLOW), Count(1, 0), NEXT), 3 := NEW_NODE], NEXT, NEXT,
                    map[0 := RelLoad(1, PushEnd), 1 := Idle, 2 := Idle], false);
    var s1 := State(map[1 := Node(Some(SLOW), Count(1, 0), NEXT), 3 := NEW_NODE], NEXT, NEXT,
                    map[0 := RelCas(1, Count(1, 0), PushEnd), 1 := Idle, 2 := Idle], false);
    FirstStep(LETTING_GO, 0, GO, s0, Tau, Drive(0, 2));
    FirstStep(s0, 0, GO, s1, Tau, Drive(0, 1));
    FirstStep(s1, 0, GO, REAPING, Tau, Drive(0, 0));
  }

  lemma SlowReturns()
    ensures Run(REAPING, Drive(0, 2)) == LOST_10
    ensures Labels(REAPING, Drive(0, 2)) == [Tau, RetPush(0)]
  {
    var s3 := State(map[3 := NEW_NODE], NEXT, NEXT, map[0 := PushRet, 1 := Idle, 2 := Idle], false);
    FirstStep(REAPING, 0, GO, s3, Tau, Drive(0, 1));
    FirstStep(s3, 0, GO, LOST_10, RetPush(0), Drive(0, 0));
  }

  lemma LosingRun() returns (sched: Schedule)
    ensures Run(INIT, sched) == LOST_10
    ensures Labels(INIT, sched) ==
            [CallPush(0, 10), Tau, Tau]
                + ([CallPush(1, 20), Tau, Tau, Tau, Tau]
                   + ([Tau, LinPush(1, 20), Tau]
                      + ([Tau, RetPush(1)]
                         + ([CallPop(2), Tau, Tau]
                            + ([Tau, Tau, LinPop(2, Some(20))]
                               + ([Tau, Tau, Tau, RetPop(2, Some(20))]
                                  + ([Drop(0), Tau, Tau, Tau] + ([Tau, Tau, Tau] + ([Tau, RetPush(0)])))))))))
  {
    SlowStart(); QuickInstall(); QuickAdvances(); QuickReturns(); PopCounts(); PopUnlinks(); PopFinishes();
    SlowInstalls(); SlowLetsGo(); SlowReturns();
    sched := Drive(0, 2);
    RunConcat(LETTING_GO, Drive(0, 3), sched);
    sched := (Drive(0, 3)) + sched;
    RunConcat(POPPED_20, Drive(0, 4), sched);
    sched := (Drive(0, 4)) + sched;
    RunConcat(TAKING, Drive(2, 4), sched);
    sched := (Drive(2, 4)) + sched;
    RunConcat(READING, Drive(2, 3), sched);
    sched := (Drive(2, 3)) + sched;
    RunConcat(PUSHED_20, [(2, Pop)] + Drive(2, 2), sched);
    sched := ([(2, Pop)] + Drive(2, 2)) + sched;
    RunConcat(FOLDING, Drive(1, 2), sched);
    sched := (Drive(1, 2)) + sched;
    RunConcat(LINKING, Drive(1, 3), sched);
    sched := (Drive(1, 3)) + sched;
    RunConcat(STALLED, [(1, Push(20, 3))] + Drive(1, 4), sched);
    sched := ([(1, Push(20, 3))] + Drive(1, 4)) + sched;
    RunConcat(INIT, [(0, Push(10, 2))] + Drive(0, 2), sched);
    sched := ([(0, Push(10, 2))] + Drive(0, 2)) + sched;
  }

  /** A run in which every call has returned, the queue is empty, and a value that was pushed never
      entered it. */
  lemma PushCanBeLost()
    ensures exists sched: Schedule ::
      && CallPush(0, 10) in Labels(INIT, sched) && RetPush(0) in Labels(INIT, sched)
      && (forall v :: LinPush(0, v) !in Labels(INIT, sched))
      && (forall t: Tid :: PcOf(Run(INIT, sched), t) == Idle)
      && Run(INIT, sched).head == Run(INIT, sched).tail
  {
    hide Step, Run, Labels;
    var sched := LosingRun();
    var ls := Labels(INIT, sched);
    assert ls[0] == CallPush(0, 10) && ls[|ls| - 1] == RetPush(0);
  }
}
