/** What one client or one worker of the stealing pool achieves while the others stand still: where the tasks of a
    client go, and in which order a worker runs all tasks that there are. */
module StealPoolAlone {
  import opened Options
  import opened StealPool

  /** n steps of t. */
  function Alone(t: Tid, n: nat): Schedule {
    if n == 0 then [] else [(t, Go)] + Alone(t, n - 1)
  }

  lemma {:induction false} RunConcat(s: State, a: Schedule, b: Schedule)
    ensures Run(s, a + b) == Run(Run(s, a), b)
    decreases a
  {
    if a == [] {
      assert a + b == b;
    } else {
      RunConcat(Step(s, a[0].0, a[0].1), a[1..], b);
      assert (a + b)[1..] == a[1..] + b;
    }
  }

  lemma {:induction false} AloneAdds(t: Tid, m: nat, n: nat)
    ensures Alone(t, m + n) == Alone(t, m) + Alone(t, n)
  {
    if m > 0 {
      AloneAdds(t, m - 1, n);
    }
  }

  lemma Later(s: State, t: Tid, m: nat, n: nat)
    ensures Run(s, Alone(t, m + n)) == Run(Run(s, Alone(t, m)), Alone(t, n))
  {
    AloneAdds(t, m, n);
    RunConcat(s, Alone(t, m), Alone(t, n));
  }

  lemma One(s: State, t: Tid, c: Choice)
    ensures Run(s, [(t, c)]) == Step(s, t, c)
  {
    assert [(t, c)][1..] == [];
    assert Run(Step(s, t, c), []) == Step(s, t, c);
  }

  lemma OneAlone(s: State, t: Tid)
    ensures Run(s, Alone(t, 1)) == Step(s, t, Go)
  {
    One(s, t, Go);
    assert Alone(t, 1) == [(t, Go)];
  }

  // ---------------------------------------------------------------- a worker

  function Reversed(q: seq<Task>): seq<Task> {
    if q == [] then [] else [q[|q| - 1]] + Reversed(q[..|q| - 1])
  }

  /** The tasks in the queues from i on other than queue me, queue by queue, each from its newest on. */
  function Others(queues: seq<seq<Task>>, me: nat, i: nat): seq<Task>
    requires i <= |queues|
    decreases |queues| - i
  {
    if i == |queues| then [] else (if i == me then [] else Reversed(queues[i])) + Others(queues, me, i + 1)
  }

  /** All tasks in the order of worker me: its own from the oldest on, then those of the others. */
  function Order(queues: seq<seq<Task>>, me: nat): seq<Task>
    requires me < |queues|
  {
    queues[me] + Others(queues, me, 0)
  }

  lemma {:induction false} SameOthers(queues: seq<seq<Task>>, k: nat, q: seq<Task>, me: nat, i: nat)
    requires k < |queues| && i <= |queues| && (k == me || k < i)
    ensures Others(queues[k := q], me, i) == Others(queues, me, i)
    decreases |queues| - i
  {
    hide Reversed;
    if i < |queues| {
      SameOthers(queues, k, q, me, i + 1);
      assert i != me ==> queues[k := q][i] == queues[i];
    }
  }

  /** Queue i is the first other one that has a task. */
  ghost predicate FirstOther(queues: seq<seq<Task>>, me: nat, i: nat) {
    && me < |queues| && i < |queues| && i != me && queues[i] != []
    && forall j :: 0 <= j < i && j != me ==> queues[j] == []
  }

  lemma {:induction false} NewestFirst(queues: seq<seq<Task>>, me: nat, i: nat, j: nat)
    requires FirstOther(queues, me, i) && j <= i
    ensures var n := |queues[i]| - 1;
      Others(queues, me, j) == [queues[i][n]] + Others(queues[i := queues[i][..n]], me, j)
    decreases i - j
  {
    if j == i {
      NewestHere(queues, me, i);
    } else {
      NewestFirst(queues, me, i, j + 1);
      PassOne(queues, me, j);
      PassOne(queues[i := queues[i][..|queues[i]| - 1]], me, j);
    }
  }

  lemma PassOne(queues: seq<seq<Task>>, me: nat, j: nat)
    requires j < |queues| && (j == me || queues[j] == [])
    ensures Others(queues, me, j) == Others(queues, me, j + 1)
  {
  }

  lemma NewestHere(queues: seq<seq<Task>>, me: nat, i: nat)
    requires i < |queues| && i != me && queues[i] != []
    ensures var n := |queues[i]| - 1;
      Others(queues, me, i) == [queues[i][n]] + Others(queues[i := queues[i][..n]], me, i)
  {
    var q, n := queues[i], |queues[i]| - 1;
    SameOthers(queues, i, q[..n], me, i + 1);
    assert Reversed(q) == [q[n]] + Reversed(q[..n]);
    var rest := Others(queues, me, i + 1);
    assert Others(queues, me, i) == Reversed(q) + rest;
    assert Others(queues[i := q[..n]], me, i) == Reversed(q[..n]) + rest;
    hide Reversed, Others;
    JoinThree([q[n]], Reversed(q[..n]), rest);
  }

  lemma JoinThree(a: seq<Task>, b: seq<Task>, c: seq<Task>)
    ensures (a + b) + c == a + (b + c)
  {
  }

  lemma {:induction false} FindOther(queues: seq<seq<Task>>, me: nat, j: nat) returns (i: nat)
    requires me < |queues| && j <= |queues| && Others(queues, me, j) != []
    requires forall x :: 0 <= x < j && x != me ==> queues[x] == []
    ensures FirstOther(queues, me, i)
    decreases |queues| - j
  {
    if j != me && queues[j] != [] {
      i := j;
    } else {
      i := FindOther(queues, me, j + 1);
    }
  }

  lemma {:induction false} NothingElsewhere(queues: seq<seq<Task>>, me: nat, j: nat)
    requires j <= |queues| && Others(queues, me, j) == []
    ensures forall i :: j <= i < |queues| && i != me ==> queues[i] == []
    decreases |queues| - j
  {
    if j < |queues| {
      NothingElsewhere(queues, me, j + 1);
      if j != me {
        assert Reversed(queues[j]) == [];
      }
    }
  }

  /** The worker has run task k and begins again; the queues are these. */
  function AfterTurn(s: State, t: Tid, me: nat, queues: seq<seq<Task>>, k: Task): State {
    Goto(s, t, Check(me)).(queues := queues, ran := s.ran + [k])
  }

  lemma OwnTurn(s: State, t: Tid, me: nat)
    requires PcOf(s, t) == Check(me) && !s.done && me < |s.queues| && s.queues[me] != []
    ensures Run(s, Alone(t, 3)) == AfterTurn(s, t, me, s.queues[me := s.queues[me][1..]], s.queues[me][0])
  {
    var s1 := Step(s, t, Go);
    var s2 := Step(s1, t, Go);
    Later(s, t, 1, 2);
    Later(s1, t, 1, 1);
    OneAlone(s, t);
    OneAlone(s1, t);
    OneAlone(s2, t);
  }

  /** On its way over queues that are empty or its own the thief changes nothing. */
  lemma {:induction false} PassEmpty(s: State, t: Tid, me: nat, i: nat)
    requires PcOf(s, t) == Check(me) && !s.done && me < |s.queues| && s.queues[me] == [] && i <= |s.queues|
    requires forall j :: 0 <= j < i && j != me ==> s.queues[j] == []
    ensures Run(s, Alone(t, 2 + i)) == Goto(s, t, TrySteal(me, i))
  {
    if i == 0 {
      Later(s, t, 1, 1);
      OneAlone(s, t);
      OneAlone(Step(s, t, Go), t);
    } else {
      PassEmpty(s, t, me, i - 1);
      Later(s, t, 2 + (i - 1), 1);
      OneAlone(Goto(s, t, TrySteal(me, i - 1)), t);
    }
  }

  lemma StealTurn(s: State, t: Tid, me: nat, i: nat)
    requires PcOf(s, t) == Check(me) && !s.done && me < |s.queues| && s.queues[me] == []
    requires FirstOther(s.queues, me, i)
    ensures var n := |s.queues[i]| - 1;
      Run(s, Alone(t, 4 + i)) == AfterTurn(s, t, me, s.queues[i := s.queues[i][..n]], s.queues[i][n])
  {
    PassEmpty(s, t, me, i);
    StealHere(s, t, me, i);
    hide Run, Step, Alone;
    Later(s, t, 2 + i, 2);
  }

  lemma StealHere(s: State, t: Tid, me: nat, i: nat)
    requires i < |s.queues| && i != me && s.queues[i] != []
    ensures var n := |s.queues[i]| - 1;
      Run(Goto(s, t, TrySteal(me, i)), Alone(t, 2))
        == AfterTurn(s, t, me, s.queues[i := s.queues[i][..n]], s.queues[i][n])
  {
    var s1 := Goto(s, t, TrySteal(me, i));
    Later(s1, t, 1, 1);
    OneAlone(s1, t);
    OneAlone(Step(s1, t, Go), t);
  }

  /** With all queues empty it comes back to where it was. */
  lemma IdleTurn(s: State, t: Tid, me: nat)
    requires PcOf(s, t) == Check(me) && !s.done && me < |s.queues|
    requires forall i :: 0 <= i < |s.queues| ==> s.queues[i] == []
    ensures Run(s, Alone(t, 3 + |s.queues|)) == s
  {
    PassEmpty(s, t, me, |s.queues|);
    Later(s, t, 2 + |s.queues|, 1);
    OneAlone(Goto(s, t, TrySteal(me, |s.queues|)), t);
    assert s.threads[t := Check(me)] == s.threads;
  }

  lemma {:induction false} RunAll(s: State, t: Tid, me: nat) returns (steps: nat)
    requires PcOf(s, t) == Check(me) && !s.done && me < |s.queues|
    ensures steps <= (3 + |s.queues|) * |Order(s.queues, me)|
    ensures var s' := Run(s, Alone(t, steps));
      && s' == s.(queues := s'.queues, ran := s.ran + Order(s.queues, me))
      && |s'.queues| == |s.queues| && forall i :: 0 <= i < |s'.queues| ==> s'.queues[i] == []
    decreases |Order(s.queues, me)|
  {
    var order := Order(s.queues, me);
    if order == [] {
      steps := 0;
      NothingElsewhere(s.queues, me, 0);
      assert Run(s, Alone(t, 0)) == s;
    } else {
      hide Run, Step, Alone, Order;
      var turn, queues := OneTurn(s, t, me);
      assert s.threads[t := Check(me)] == s.threads;
      var more := RunAll(AfterTurn(s, t, me, queues, order[0]), t, me);
      steps := turn + more;
      Later(s, t, turn, more);
      JoinThree(s.ran, [order[0]], order[1..]);
      assert [order[0]] + order[1..] == order;
      OneLess(3 + |queues|, |order|);
    }
  }

  lemma OneLess(a: nat, b: nat)
    ensures a * b == a * (b - 1) + a
  {
  }

  lemma OneTurn(s: State, t: Tid, me: nat) returns (steps: nat, queues: seq<seq<Task>>)
    requires PcOf(s, t) == Check(me) && !s.done && me < |s.queues| && Order(s.queues, me) != []
    ensures steps <= 3 + |s.queues| && |queues| == |s.queues|
    ensures Run(s, Alone(t, steps)) == AfterTurn(s, t, me, queues, Order(s.queues, me)[0])
    ensures Order(queues, me) == Order(s.queues, me)[1..]
  {
    hide Run, Step, Alone;
    if s.queues[me] != [] {
      steps, queues := 3, s.queues[me := s.queues[me][1..]];
      OwnTurn(s, t, me);
      SameOthers(s.queues, me, s.queues[me][1..], me, 0);
    } else {
      var i := FindOther(s.queues, me, 0);
      var n := |s.queues[i]| - 1;
      steps, queues := 4 + i, s.queues[i := s.queues[i][..n]];
      StealTurn(s, t, me, i);
      NewestFirst(s.queues, me, i, 0);
    }
  }

  /** From any state of any run, a worker that is about to look for work and runs alone in a pool that is not being
      destroyed runs every task in the queues: its own from the oldest on, then those it steals, queue by queue
      and each from the newest on. */
  lemma WorkerRunsAll(n: nat, sched: Schedule, t: Tid, me: nat)
    requires PcOf(Run(Init(n), sched), t) == Check(me) && !Run(Init(n), sched).done && me < n
    ensures var s := Run(Init(n), sched); |s.queues| == n && exists steps: nat :: RunsAll(n, sched, t, me, steps)
  {
    var s := Run(Init(n), sched);
    SameQueues(Init(n), sched);
    var steps := RunAll(s, t, me);
    RunConcat(Init(n), sched, Alone(t, steps));
    assert RunsAll(n, sched, t, me, steps);
  }

  /** In that many more steps of t, at most n + 3 for each task, all tasks of the queues have been run in order. */
  ghost predicate RunsAll(n: nat, sched: Schedule, t: Tid, me: nat, steps: nat)
    requires me < |Run(Init(n), sched).queues|
  {
    var s, s' := Run(Init(n), sched), Run(Init(n), sched + Alone(t, steps));
    && steps <= (3 + n) * |Order(s.queues, me)|
    && s'.ran == s.ran + Order(s.queues, me) && PcOf(s', t) == Check(me)
    && |s'.queues| == n && forall i :: 0 <= i < n ==> s'.queues[i] == []
  }

  lemma {:induction false} SameQueues(s: State, sched: Schedule)
    ensures |Run(s, sched).queues| == |s.queues|
    decreases sched
  {
    if sched != [] {
      SameQueues(Step(s, sched[0].0, sched[0].1), sched[1..]);
    }
  }

  // ---------------------------------------------------------------- a client

  /** m tasks submitted by t, one after the other. */
  function Submits(t: Tid, m: nat): Schedule {
    if m == 0 then [] else Submits(t, m - 1) + [(t, Submit), (t, Go), (t, Go), (t, Go)]
  }

  /** Of m tasks from the first on, those whose turn it is for queue i of n, when the last one served was index. */
  function Share(i: nat, n: nat, index: nat, first: Task, m: nat): seq<Task>
    requires 0 < n
  {
    if m == 0 then [] else Share(i, n, index, first, m - 1) + (if (index + m) % n == i then [first + m - 1] else [])
  }

  /** The state after t has submitted a task. */
  function AfterSubmit(s: State, t: Tid): State
    requires s.queues != []
  {
    var i := (s.atmIndex + 1) % |s.queues|;
    Goto(s, t, Idle).(queues := s.queues[i := s.queues[i] + [s.submitted]], atmIndex := i, submitted := s.submitted + 1)
  }

  lemma OneSubmit(s: State, t: Tid)
    requires PcOf(s, t) == Idle && s.queues != []
    ensures Run(s, [(t, Submit), (t, Go), (t, Go), (t, Go)]) == AfterSubmit(s, t)
  {
    SubmitEnds(s, t);
    One(s, t, Submit);
    AloneThree(t);
    hide Run, Step, Alone, AfterSubmit;
    assert [(t, Submit), (t, Go), (t, Go), (t, Go)] == [(t, Submit)] + [(t, Go), (t, Go), (t, Go)];
    RunConcat(s, [(t, Submit)], Alone(t, 3));
  }

  lemma SubmitEnds(s: State, t: Tid)
    requires PcOf(s, t) == Idle && s.queues != []
    ensures Run(Step(s, t, Submit), Alone(t, 3)) == AfterSubmit(s, t)
  {
    var s1 := Step(s, t, Submit);
    assert s1 == Goto(s, t, SubmitLoad(s.submitted)).(submitted := s.submitted + 1);
    hide Run, Step, Alone;
    SubmitGoesOn(s1, t);
    assert s1.threads[t := Idle] == s.threads[t := Idle];
  }

  lemma AloneThree(t: Tid)
    ensures Alone(t, 3) == [(t, Go), (t, Go), (t, Go)]
  {
    assert Alone(t, 1) == [(t, Go)];
    assert Alone(t, 2) == [(t, Go)] + Alone(t, 1);
  }

  lemma SubmitGoesOn(s: State, t: Tid)
    requires PcOf(s, t).SubmitLoad? && s.queues != []
    ensures var i, k := (s.atmIndex + 1) % |s.queues|, PcOf(s, t).k;
      Run(s, Alone(t, 3)) == Goto(s, t, Idle).(queues := s.queues[i := s.queues[i] + [k]], atmIndex := i)
  {
    var i, k := (s.atmIndex + 1) % |s.queues|, PcOf(s, t).k;
    var s1 := Step(s, t, Go);
    var s2 := Step(s1, t, Go);
    assert s2.threads[t := Idle] == s.threads[t := Idle];
    assert Step(s2, t, Go) == Goto(s, t, Idle).(queues := s.queues[i := s.queues[i] + [k]], atmIndex := i);
    hide Run, Step;
    Later(s, t, 1, 2);
    Later(s1, t, 1, 1);
    OneAlone(s, t);
    OneAlone(s1, t);
    OneAlone(s2, t);
  }

  lemma NextIndex(a: nat, m: nat, n: nat)
    requires 0 < n
    ensures ((a + m) % n + 1) % n == (a + m + 1) % n
  {
    var q, r := (a + m) / n, (a + m) % n;
    assert a + m + 1 == q * n + (r + 1);
    if r + 1 == n {
      Remainder(a + m + 1, n, q + 1, 0);
    } else {
      Remainder(a + m + 1, n, q, r + 1);
    }
  }

  lemma Remainder(x: nat, n: nat, q: nat, r: nat)
    requires r < n && x == q * n + r
    ensures x % n == r
  {
    var e := x / n;
    if e < q {
      Times(e + 1, q, n);
    } else if q < e {
      Times(q + 1, e, n);
    }
  }

  lemma Times(a: nat, b: nat, n: nat)
    requires a <= b
    ensures a * n <= b * n
  {
  }

  /** m tasks of a client have gone to the queues in turn, each behind what was in its queue. */
  ghost predicate Dealt(s: State, s': State, t: Tid, m: nat)
    requires s.queues != []
  {
    var n := |s.queues|;
    && PcOf(s', t) == Idle && s'.submitted == s.submitted + m && s'.ran == s.ran && |s'.queues| == n
    && s'.atmIndex == (if m == 0 then s.atmIndex else (s.atmIndex + m) % n)
    && forall i :: 0 <= i < n ==> s'.queues[i] == s.queues[i] + Share(i, n, s.atmIndex, s.submitted, m)
  }

  lemma DealtOneMore(s: State, s1: State, t: Tid, m: nat)
    requires s.queues != [] && 0 < m && Dealt(s, s1, t, m - 1)
    ensures s1.queues != [] && Dealt(s, AfterSubmit(s1, t), t, m)
  {
    var n := |s.queues|;
    NextIndex(s.atmIndex, m - 1, n);
    forall i | 0 <= i < n
      ensures AfterSubmit(s1, t).queues[i] == s.queues[i] + Share(i, n, s.atmIndex, s.submitted, m)
    {
      assert s1.queues[i] == s.queues[i] + Share(i, n, s.atmIndex, s.submitted, m - 1);
    }
  }

  /** The tasks of a client that submits alone go to the queues in turn, each behind what is in its queue. */
  lemma {:induction false} TakesTurns(s: State, t: Tid, m: nat)
    requires PcOf(s, t) == Idle && s.queues != []
    ensures Dealt(s, Run(s, Submits(t, m)), t, m)
  {
    if m == 0 {
      assert Run(s, []) == s;
    } else {
      TakesTurns(s, t, m - 1);
      var s1 := Run(s, Submits(t, m - 1));
      RunConcat(s, Submits(t, m - 1), [(t, Submit), (t, Go), (t, Go), (t, Go)]);
      OneSubmit(s1, t);
      DealtOneMore(s, s1, t, m);
    }
  }
}
