/** The stealing pool of inc/concurrent/steal_threadpool.h: one queue for each worker, round-robin
    submission by any number of clients, workers that pop their own queue and else steal from the others.
    Each queue operation is one step, as StealingQueue shows it may be taken to be; tasks are named by
    the order in which they are submitted. */
module StealPool {
  import opened Options

  type Task = nat
  type Tid = nat

  datatype Pc =
    | Idle                                  // a client, or a worker's thread that has not begun
    | SubmitLoad(k: Task)                   // atm_index.load()
    | SubmitStore(k: Task, index: nat)      // atm_index.store(index)
    | SubmitPush(k: Task, index: nat)       // thread_work_ques[index].push
    | Check(me: nat)                        // while (!done)
    | TryPop(me: nat)
    | Holding(me: nat, k: Task)             // wrapper()
    | TrySteal(me: nat, i: nat)             // thread_work_ques[i].try_steal, i moving over the others
    | Exited

  datatype State = State(
    queues: seq<seq<Task>>, atmIndex: nat, done: bool, threads: map<Tid, Pc>, submitted: nat, ran: seq<Task>)

  /** What the environment decides: an idle thread submits or is started as the worker of a queue; the
      destructor sets done. */
  datatype Choice = Submit | Work(me: nat) | Shut | Go

  function Init(n: nat): State {
    State(seq(n, _ => []), 0, false, map[], 0, [])
  }

  function PcOf(s: State, t: Tid): Pc {
    if t in s.threads then s.threads[t] else Idle
  }

  function Goto(s: State, t: Tid, pc: Pc): State {
    s.(threads := s.threads[t := pc])
  }

  /** The task that a thread has between queue and execution, or between submit and queue. */
  function InHand(pc: Pc): Option<Task> {
    match pc
    case SubmitLoad(k) => Some(k)
    case SubmitStore(k, _) => Some(k)
    case SubmitPush(k, _) => Some(k)
    case Holding(_, k) => Some(k)
    case _ => None
  }

  function Step(s: State, t: Tid, c: Choice): State {
    match PcOf(s, t)
    case Idle =>
      (match c
       case Submit => Goto(s, t, SubmitLoad(s.submitted)).(submitted := s.submitted + 1)
       case Work(me) => if me < |s.queues| then Goto(s, t, Check(me)) else s
       case Shut => s.(done := true)
       case Go => s)
    case SubmitLoad(k) => if s.queues == [] then s else Goto(s, t, SubmitStore(k, (s.atmIndex + 1) % |s.queues|))
    case SubmitStore(k, index) => Goto(s, t, SubmitPush(k, index)).(atmIndex := index)
    case SubmitPush(k, index) =>
      if index < |s.queues| then Goto(s, t, Idle).(queues := s.queues[index := s.queues[index] + [k]]) else s
    case Check(me) => Goto(s, t, if s.done then Exited else TryPop(me))
    case TryPop(me) =>
      if me < |s.queues| && s.queues[me] != [] then
        Goto(s, t, Holding(me, s.queues[me][0])).(queues := s.queues[me := s.queues[me][1..]])
      else Goto(s, t, TrySteal(me, 0))
    case Holding(me, k) => Goto(s, t, Check(me)).(ran := s.ran + [k])
    case TrySteal(me, i) =>
      if |s.queues| <= i then Goto(s, t, Check(me))
      else if i != me && s.queues[i] != [] then
        var q := s.queues[i];
        Goto(s, t, Holding(me, q[|q| - 1])).(queues := s.queues[i := q[..|q| - 1]])
      else Goto(s, t, TrySteal(me, i + 1))
    case Exited => s
  }

  type Schedule = seq<(Tid, Choice)>

  function Run(s: State, sched: Schedule): State
    decreases sched
  {
    if sched == [] then s else Run(Step(s, sched[0].0, sched[0].1), sched[1..])
  }

  // ---------------------------------------------------------------- each task in one place

  datatype Place = Queued(i: nat) | Held(t: Tid) | Ran

  ghost predicate NoDup(s: seq<Task>) {
    forall i, j :: 0 <= i < j < |s| ==> s[i] != s[j]
  }

  predicate HandOk(s: State, at: map<Task, Place>, t: Tid) {
    match InHand(PcOf(s, t))
    case None => true
    case Some(k) => k in at && at[k] == Held(t)
  }

  /** `at` says of every task submitted so far where it is: in one queue, once; in one thread's hand; or
      executed, once. */
  ghost predicate Placed(s: State, at: map<Task, Place>) {
    && (forall k: Task :: k in at <==> k < s.submitted)
    && (forall i, k :: 0 <= i < |s.queues| && k in s.queues[i] ==> k in at && at[k] == Queued(i))
    && (forall k: Task :: k in at && at[k].Queued? ==> at[k].i < |s.queues| && k in s.queues[at[k].i])
    && (forall i :: 0 <= i < |s.queues| ==> NoDup(s.queues[i]))
    && (forall t: Tid {:trigger HandOk(s, at, t)} :: HandOk(s, at, t))
    && (forall k: Task :: k in at && at[k].Held? ==> InHand(PcOf(s, at[k].t)) == Some(k))
    && (forall k: Task :: k in s.ran ==> k in at && at[k] == Ran)
    && (forall k: Task :: k in at && at[k] == Ran ==> k in s.ran)
    && NoDup(s.ran)
  }

  ghost predicate IndicesOk(s: State) {
    && s.queues != []
    && forall t: Tid :: match PcOf(s, t)
                        case SubmitStore(_, index) => index < |s.queues|
                        case SubmitPush(_, index) => index < |s.queues|
                        case _ => true
  }

  lemma KeepsSubmit(s: State, at: map<Task, Place>, t: Tid) returns (at': map<Task, Place>)
    requires Placed(s, at) && PcOf(s, t) == Idle
    ensures Placed(Step(s, t, Submit), at')
  {
    at' := at[s.submitted := Held(t)];
    OthersHold(s, at, Step(s, t, Submit), at', t, s.submitted);
  }

  /** The hands of the other threads, when only the place of task k changes. */
  lemma OthersHold(s: State, at: map<Task, Place>, s': State, at': map<Task, Place>, t: Tid, k: Task)
    requires Placed(s, at) && s'.threads == s.threads[t := PcOf(s', t)] && HandOk(s', at', t)
    requires k in at ==> !at[k].Held? || at[k].t == t
    requires forall x :: x in at && x != k ==> x in at' && at'[x] == at[x]
    ensures forall u: Tid {:trigger HandOk(s', at', u)} :: HandOk(s', at', u)
  {
    forall u: Tid ensures HandOk(s', at', u) {
      assert HandOk(s, at, u);
    }
  }

  lemma KeepsPush(s: State, at: map<Task, Place>, t: Tid, c: Choice) returns (at': map<Task, Place>)
    requires Placed(s, at) && IndicesOk(s) && PcOf(s, t).SubmitPush?
    ensures Placed(Step(s, t, c), at')
  {
    hide NoDup;
    var k, i := PcOf(s, t).k, PcOf(s, t).index;
    at' := at[k := Queued(i)];
    assert HandOk(s, at, t);
    assert k !in s.queues[i];
    OthersHold(s, at, Step(s, t, c), at', t, k);
    PutBehind(s.queues[i], k);
  }

  lemma PutBehind(q: seq<Task>, k: Task)
    requires NoDup(q) && k !in q
    ensures NoDup(q + [k]) && forall x :: x in q + [k] <==> x in q || x == k
  {
  }

  lemma KeepsRun(s: State, at: map<Task, Place>, t: Tid, c: Choice) returns (at': map<Task, Place>)
    requires Placed(s, at) && PcOf(s, t).Holding?
    ensures Placed(Step(s, t, c), at')
  {
    var k := PcOf(s, t).k;
    at' := at[k := Ran];
    assert HandOk(s, at, t);
    assert k !in s.ran;
    OthersHold(s, at, Step(s, t, c), at', t, k);
  }

  /** A task leaves queue i, from whichever end, for the hand of t. */
  lemma KeepsTake(s: State, at: map<Task, Place>, t: Tid, i: nat, k: Task, rest: seq<Task>, pc: Pc)
    returns (at': map<Task, Place>)
    requires Placed(s, at) && InHand(PcOf(s, t)) == None && InHand(pc) == Some(k) && i < |s.queues|
    requires s.queues[i] == [k] + rest || s.queues[i] == rest + [k]
    ensures Placed(Goto(s, t, pc).(queues := s.queues[i := rest]), at')
  {
    at' := at[k := Held(t)];
    TakeApart(s.queues[i], k, rest);
    OthersHold(s, at, Goto(s, t, pc).(queues := s.queues[i := rest]), at', t, k);
  }

  lemma TakeApart(q: seq<Task>, k: Task, rest: seq<Task>)
    requires NoDup(q) && (q == [k] + rest || q == rest + [k])
    ensures NoDup(rest) && k !in rest && forall x :: x in q <==> x in rest || x == k
  {
    var d := if q == [k] + rest then 1 else 0;
    var at := if q == [k] + rest then 0 else |rest|;
    assert forall j :: 0 <= j < |rest| ==> q[j + d] == rest[j];
    assert q[at] == k;
  }

  lemma KeepsElse(s: State, at: map<Task, Place>, t: Tid, s': State)
    requires Placed(s, at) && s'.queues == s.queues && s'.ran == s.ran && s'.submitted == s.submitted
    requires s'.threads == s.threads
             || (s'.threads == s.threads[t := PcOf(s', t)] && InHand(PcOf(s', t)) == InHand(PcOf(s, t)))
    ensures Placed(s', at)
  {
    forall u: Tid ensures HandOk(s', at, u) && InHand(PcOf(s', u)) == InHand(PcOf(s, u)) {
      assert HandOk(s, at, u);
    }
  }

  lemma Keeps(s: State, at: map<Task, Place>, t: Tid, c: Choice) returns (at': map<Task, Place>)
    requires Placed(s, at) && IndicesOk(s)
    ensures Placed(Step(s, t, c), at')
  {
    hide Placed;
    match PcOf(s, t)
    case TryPop(me) =>
      if me < |s.queues| && s.queues[me] != [] {
        var q := s.queues[me];
        at' := KeepsTake(s, at, t, me, q[0], q[1..], Holding(me, q[0]));
      } else {
        at' := at;
        KeepsElse(s, at, t, Step(s, t, c));
      }
    case TrySteal(me, i) =>
      if i < |s.queues| && i != me && s.queues[i] != [] {
        var q := s.queues[i];
        var n := |q| - 1;
        at' := KeepsTake(s, at, t, i, q[n], q[..n], Holding(me, q[n]));
      } else {
        at' := at;
        KeepsElse(s, at, t, Step(s, t, c));
      }
    case SubmitPush(_, _) => at' := KeepsPush(s, at, t, c);
    case Holding(_, _) => at' := KeepsRun(s, at, t, c);
    case Idle =>
      if c.Submit? {
        at' := KeepsSubmit(s, at, t);
      } else {
        at' := at;
        KeepsElse(s, at, t, Step(s, t, c));
      }
    case _ =>
      at' := at;
      KeepsElse(s, at, t, Step(s, t, c));
  }

  const NOWHERE: map<Task, Place> := map[]

  lemma InitPlaced(n: nat)
    requires 0 < n
    ensures Placed(Init(n), NOWHERE) && IndicesOk(Init(n))
  {
    var s := Init(n);
    assert forall i :: 0 <= i < |s.queues| ==> s.queues[i] == [];
    forall t: Tid ensures HandOk(s, NOWHERE, t) {
      assert PcOf(s, t) == Idle;
    }
  }

  lemma KeepsIndices(s: State, t: Tid, c: Choice)
    requires IndicesOk(s)
    ensures IndicesOk(Step(s, t, c)) && |Step(s, t, c).queues| == |s.queues|
  {
    var s' := Step(s, t, c);
    assert forall u: Tid :: u != t ==> PcOf(s', u) == PcOf(s, u);
    assert PcOf(s, t) == PcOf(s, t);
  }

  lemma {:induction false} Runs(s: State, at: map<Task, Place>, sched: Schedule) returns (at': map<Task, Place>)
    requires Placed(s, at) && IndicesOk(s)
    ensures Placed(Run(s, sched), at') && IndicesOk(Run(s, sched))
    decreases sched
  {
    at' := at;
    if sched != [] {
      var (t, c) := sched[0];
      KeepsIndices(s, t, c);
      var at1 := Keeps(s, at, t, c);
      at' := Runs(Step(s, t, c), at1, sched[1..]);
    }
  }

  /** In every run with any number of queues, workers and clients each submitted task is in exactly one
      place: one queue, one thread's hand, or executed once. */
  lemma EachTaskOnce(n: nat, sched: Schedule)
    requires 0 < n
    ensures exists at: map<Task, Place> :: Placed(Run(Init(n), sched), at)
  {
    InitPlaced(n);
    var at := Runs(Init(n), NOWHERE, sched);
  }

  /** Nothing is executed twice or without having been submitted. */
  lemma RanAtMostOnce(n: nat, sched: Schedule)
    requires 0 < n
    ensures var s := Run(Init(n), sched); NoDup(s.ran) && forall k: Task :: k in s.ran ==> k < s.submitted
  {
    InitPlaced(n);
    var at := Runs(Init(n), NOWHERE, sched);
  }

  /** When no submit is under way and every worker has left, what has not run is still in a queue. */
  lemma NothingLeftInHand(n: nat, sched: Schedule, k: Task)
    requires 0 < n && k < Run(Init(n), sched).submitted
    requires forall t: Tid :: PcOf(Run(Init(n), sched), t).Idle? || PcOf(Run(Init(n), sched), t).Exited?
    ensures var s := Run(Init(n), sched);
      (k in s.ran) != (exists i :: 0 <= i < |s.queues| && k in s.queues[i])
  {
    InitPlaced(n);
    var at := Runs(Init(n), NOWHERE, sched);
    var s := Run(Init(n), sched);
    assert k in at;
    assert at[k].Held? ==> InHand(PcOf(s, at[k].t)) == Some(k);
  }
}
