/** The elastic thread pool of inc/threadpool/thrdp.h, from the moment it is started: clients commit tasks, in
    cached mode a commit may add a thread, threads take tasks, leave after a long idle time and, once the
    destructor has begun, when they find the queue empty. What happens with the mutex held is one step; the
    count of idle threads is also changed without it. Tasks are named by the order in which they are
    accepted. */
module ThreadPool {
  type Task = nat
  type Id = nat

  const SIZE_MODULUS: nat := 0x1_0000_0000_0000_0000

  datatype Pc =
    | Begin                 // about to lock the mutex
    | Waiting               // on not_empty_, for at most a second in cached mode
    | Busy(k: Task)         // about to run a task
    | Finished              // about to count itself idle again

  datatype State = State(
    cached: bool, initSize: nat, threadMax: int, taskMax: int,
    running: bool, queue: seq<Task>, taskSize: int, cur: int, idle: int, threads: map<Id, Pc>, nextId: nat,
    accepted: nat, ran: seq<Task>)

  /** late: a waiting thread of a cached pool has been woken by the clock and has been idle for a minute. */
  datatype Choice = Commit | Work(t: Id, late: bool) | Shut

  /** The state after start. */
  function Started(cached: bool, initSize: nat, threadMax: int, taskMax: int): State {
    State(cached, initSize, threadMax, taskMax, true, [], 0, initSize, initSize,
          NewThreads(initSize), initSize, 0, [])
  }

  function NewThreads(n: nat): map<Id, Pc> {
    if n == 0 then map[] else NewThreads(n - 1)[n - 1 := Begin]
  }

  /** (size_t) of an int. */
  function AsSize(x: int): nat {
    x % SIZE_MODULUS
  }

  /** commit; a client that finds the queue full waits, and gives up after a second. */
  function StepCommit(s: State): State {
    if AsSize(s.taskMax) <= |s.queue| then s
    else
      var s1 := s.(queue := s.queue + [s.accepted], accepted := s.accepted + 1, taskSize := s.taskSize + 1);
      if s.cached && s1.idle < s1.taskSize && s.cur < s.threadMax then
        s1.(threads := s.threads[s.nextId := Begin], nextId := s.nextId + 1, cur := s.cur + 1, idle := s.idle + 1)
      else s1
  }

  function Leave(s: State, t: Id): State {
    s.(threads := s.threads - {t})
  }

  /** The loop over an empty queue, and the task that is taken when it is not. */
  function StepTake(s: State, t: Id): State {
    if s.queue == [] then
      if !s.running then Leave(s, t) else s.(threads := s.threads[t := Waiting])
    else
      s.(idle := s.idle - 1, queue := s.queue[1..], taskSize := s.taskSize - 1,
         threads := s.threads[t := Busy(s.queue[0])])
  }

  /** A thread that has waited too long leaves without another look at the queue. */
  function StepWake(s: State, t: Id, late: bool): State {
    if s.cached && late && s.initSize < s.cur then Leave(s, t).(cur := s.cur - 1, idle := s.idle - 1)
    else StepTake(s, t)
  }

  function Step(s: State, c: Choice): State {
    match c
    case Commit => StepCommit(s)
    case Shut => s.(running := false)
    case Work(t, late) =>
      if t !in s.threads then s
      else
        match s.threads[t]
        case Begin => StepTake(s, t)
        case Waiting => StepWake(s, t, late)
        case Busy(k) => s.(ran := s.ran + [k], threads := s.threads[t := Finished])
        case Finished => s.(idle := s.idle + 1, threads := s.threads[t := Begin])
  }

  function Run(s: State, cs: seq<Choice>): State {
    if cs == [] then s else Step(Run(s, cs[..|cs| - 1]), cs[|cs| - 1])
  }

  // ---------------------------------------------------------------- the counters

  predicate AtWork(pc: Pc) {
    pc.Busy? || pc.Finished?
  }

  function Workers(threads: map<Id, Pc>): set<Id> {
    set t | t in threads && AtWork(threads[t])
  }

  function Max(a: int, b: int): int {
    if a < b then b else a
  }

  /** The counters at every release of the mutex. Threads that left because of the destructor stay counted. */
  ghost predicate Counted(s: State) {
    && s.taskSize == |s.queue| <= AsSize(s.taskMax)
    && |s.threads| <= s.cur && (s.running ==> s.cur == |s.threads|)
    && s.idle == s.cur - |Workers(s.threads)|
    && s.initSize <= s.cur <= Max(s.initSize, s.threadMax)
    && (forall t :: t in s.threads ==> t < s.nextId)
  }

  lemma MoveThread(threads: map<Id, Pc>, t: Id, pc: Pc)
    requires t in threads
    ensures |threads[t := pc]| == |threads|
    ensures |Workers(threads[t := pc])| == |Workers(threads)|
            + (if AtWork(pc) then 1 else 0) - (if AtWork(threads[t]) then 1 else 0)
  {
    var rest := Workers(threads) - {t};
    assert Workers(threads) == if AtWork(threads[t]) then rest + {t} else rest;
    assert Workers(threads[t := pc]) == if AtWork(pc) then rest + {t} else rest;
    assert threads[t := pc].Keys == threads.Keys;
  }

  lemma DropThread(threads: map<Id, Pc>, t: Id)
    requires t in threads && !AtWork(threads[t])
    ensures |threads - {t}| == |threads| - 1 && Workers(threads - {t}) == Workers(threads)
  {
    assert (threads - {t}).Keys == threads.Keys - {t};
  }

  lemma AddThread(threads: map<Id, Pc>, t: Id)
    requires t !in threads
    ensures |threads[t := Begin]| == |threads| + 1 && Workers(threads[t := Begin]) == Workers(threads)
  {
    assert threads[t := Begin].Keys == threads.Keys + {t};
  }

  lemma CommitCounts(s: State)
    requires Counted(s)
    ensures Counted(StepCommit(s)) && s.nextId !in s.threads
  {
    assert s.nextId in s.threads ==> s.nextId < s.nextId;
    AddThread(s.threads, s.nextId);
  }

  lemma TakeCounts(s: State, t: Id)
    requires Counted(s) && t in s.threads && !AtWork(s.threads[t])
    ensures Counted(StepTake(s, t))
  {
    if s.queue != [] {
      MoveThread(s.threads, t, Busy(s.queue[0]));
    } else if s.running {
      MoveThread(s.threads, t, Waiting);
    } else {
      DropThread(s.threads, t);
    }
  }

  lemma WakeCounts(s: State, t: Id, late: bool)
    requires Counted(s) && t in s.threads && s.threads[t] == Waiting
    ensures Counted(StepWake(s, t, late))
  {
    if s.cached && late && s.initSize < s.cur {
      DropThread(s.threads, t);
    } else {
      TakeCounts(s, t);
    }
  }

  lemma WorkCounts(s: State, t: Id)
    requires Counted(s) && t in s.threads && AtWork(s.threads[t])
    ensures Counted(Step(s, Work(t, false)))
  {
    MoveThread(s.threads, t, Finished);
    MoveThread(s.threads, t, Begin);
  }

  lemma KeepsCounts(s: State, c: Choice)
    requires Counted(s)
    ensures Counted(Step(s, c))
  {
    match c
    case Commit => CommitCounts(s);
    case Shut =>
    case Work(t, late) =>
      if t in s.threads {
        match s.threads[t]
        case Begin => TakeCounts(s, t);
        case Waiting => WakeCounts(s, t, late);
        case _ => WorkCounts(s, t);
      }
  }

  lemma {:induction false} NewThreadsAre(n: nat)
    ensures |NewThreads(n)| == n && Workers(NewThreads(n)) == {}
    ensures forall t: Id :: t in NewThreads(n) ==> t < n && NewThreads(n)[t] == Begin
  {
    if n > 0 {
      NewThreadsAre(n - 1);
      assert n - 1 in NewThreads(n - 1) ==> n - 1 < n - 1;
      AddThread(NewThreads(n - 1), n - 1);
    }
  }

  lemma StartedCounts(cached: bool, initSize: nat, threadMax: int, taskMax: int)
    ensures Counted(Started(cached, initSize, threadMax, taskMax))
  {
    NewThreadsAre(initSize);
  }

  lemma {:induction false} RunCounts(start: State, cs: seq<Choice>)
    requires Counted(start)
    ensures Counted(Run(start, cs))
  {
    if cs != [] {
      RunCounts(start, cs[..|cs| - 1]);
      KeepsCounts(Run(start, cs[..|cs| - 1]), cs[|cs| - 1]);
    }
  }

  /** While the pool runs the count of threads is that of the threads there are, within its limits; the idle
      ones are those not at work; and the count of tasks is the length of the queue, within its limit. */
  lemma CountersAreRight(cached: bool, initSize: nat, threadMax: int, taskMax: int, cs: seq<Choice>)
    ensures var s := Run(Started(cached, initSize, threadMax, taskMax), cs);
      && s.taskSize == |s.queue| <= AsSize(taskMax)
      && (s.running ==>
        && s.cur == |s.threads| && s.initSize <= s.cur <= Max(initSize, threadMax)
        && s.idle == |s.threads| - |Workers(s.threads)|)
  {
    StartedCounts(cached, initSize, threadMax, taskMax);
    RunCounts(Started(cached, initSize, threadMax, taskMax), cs);
    RunKeepsSettings(Started(cached, initSize, threadMax, taskMax), cs);
  }

  lemma {:induction false} RunKeepsSettings(s: State, cs: seq<Choice>)
    ensures var s' := Run(s, cs); s'.initSize == s.initSize && s'.threadMax == s.threadMax && s'.taskMax == s.taskMax
  {
    if cs != [] {
      RunKeepsSettings(s, cs[..|cs| - 1]);
    }
  }

  // ---------------------------------------------------------------- the tasks

  datatype Place = Queued | Held(t: Id) | Ran

  ghost predicate NoDup(s: seq<Task>) {
    forall i, j :: 0 <= i < j < |s| ==> s[i] != s[j]
  }

  predicate Holds(threads: map<Id, Pc>, t: Id, k: Task) {
    t in threads && threads[t] == Busy(k)
  }

  /** Every accepted task is in the queue, with one thread, or executed, once. */
  ghost predicate Placed(s: State, at: map<Task, Place>) {
    && (forall k: Task :: k in at <==> k < s.accepted)
    && (forall k: Task :: k in s.queue ==> k in at && at[k] == Queued)
    && (forall k: Task :: k in at && at[k] == Queued ==> k in s.queue)
    && (forall t: Id, k: Task :: Holds(s.threads, t, k) ==> k in at && at[k] == Held(t))
    && (forall k: Task :: k in at && at[k].Held? ==> Holds(s.threads, at[k].t, k))
    && (forall k: Task :: k in s.ran ==> k in at && at[k] == Ran)
    && (forall k: Task :: k in at && at[k] == Ran ==> k in s.ran)
    && NoDup(s.queue) && NoDup(s.ran)
  }

  /** Thread t alone moves, and the places of the tasks that others hold stay. */
  lemma OthersHold(s: State, at: map<Task, Place>, threads: map<Id, Pc>, at': map<Task, Place>, t: Id)
    requires Placed(s, at)
    requires forall u: Id :: u != t && u in threads && threads[u].Busy? ==> u in s.threads && s.threads[u] == threads[u]
    requires forall k: Task :: k in at && at[k].Held? && at[k].t != t ==> k in at' && at'[k] == at[k]
    requires forall k: Task :: Holds(threads, t, k) ==> k in at' && at'[k] == Held(t)
    ensures forall u: Id, k: Task :: Holds(threads, u, k) ==> k in at' && at'[k] == Held(u)
  {
    forall u: Id, k: Task | Holds(threads, u, k) ensures k in at' && at'[k] == Held(u) {
      if u != t {
        assert Holds(s.threads, u, k);
      }
    }
  }

  lemma HeadOnce(q: seq<Task>)
    requires NoDup(q) && q != []
    ensures q[0] in q && NoDup(q[1..]) && q[0] !in q[1..] && forall k :: k in q <==> k == q[0] || k in q[1..]
  {
    assert q == [q[0]] + q[1..];
  }

  lemma PlacesTake(s: State, at: map<Task, Place>, t: Id) returns (at': map<Task, Place>)
    requires Placed(s, at) && t in s.threads && !s.threads[t].Busy?
    ensures Placed(StepTake(s, t), at')
  {
    hide NoDup;
    at' := at;
    if s.queue != [] {
      var k := s.queue[0];
      at' := at[k := Held(t)];
      HeadOnce(s.queue);
    }
    OthersHold(s, at, StepTake(s, t).threads, at', t);
  }

  lemma PlacesCommit(s: State, at: map<Task, Place>) returns (at': map<Task, Place>)
    requires Placed(s, at) && s.nextId !in s.threads
    ensures Placed(StepCommit(s), at')
  {
    at' := if AsSize(s.taskMax) <= |s.queue| then at else at[s.accepted := Queued];
    assert s.accepted !in at;
    OthersHold(s, at, StepCommit(s).threads, at', s.nextId);
  }

  lemma PlacesRan(s: State, at: map<Task, Place>, t: Id, k: Task) returns (at': map<Task, Place>)
    requires Placed(s, at) && t in s.threads && s.threads[t] == Busy(k)
    ensures Placed(s.(ran := s.ran + [k], threads := s.threads[t := Finished]), at')
  {
    at' := at[k := Ran];
    assert Holds(s.threads, t, k);
    OthersHold(s, at, s.threads[t := Finished], at', t);
  }

  lemma KeepsPlaces(s: State, at: map<Task, Place>, c: Choice) returns (at': map<Task, Place>)
    requires Placed(s, at) && Counted(s)
    ensures Placed(Step(s, c), at')
  {
    at' := at;
    match c
    case Commit =>
      CommitCounts(s);
      at' := PlacesCommit(s, at);
    case Shut =>
    case Work(t, late) =>
      if t in s.threads {
        match s.threads[t]
        case Begin => at' := PlacesTake(s, at, t);
        case Waiting =>
          if s.cached && late && s.initSize < s.cur {
            OthersHold(s, at, s.threads - {t}, at, t);
          } else {
            at' := PlacesTake(s, at, t);
          }
        case Busy(k) => at' := PlacesRan(s, at, t, k);
        case Finished => OthersHold(s, at, s.threads[t := Begin], at, t);
      }
  }

  const NOWHERE: map<Task, Place> := map[]

  lemma {:induction false} RunPlaces(start: State, at: map<Task, Place>, cs: seq<Choice>)
    returns (at': map<Task, Place>)
    requires Counted(start) && Placed(start, at)
    ensures Placed(Run(start, cs), at')
  {
    at' := at;
    if cs != [] {
      var was := cs[..|cs| - 1];
      at' := RunPlaces(start, at, was);
      RunCounts(start, was);
      at' := KeepsPlaces(Run(start, was), at', cs[|cs| - 1]);
    }
  }

  lemma StartedPlaces(cached: bool, initSize: nat, threadMax: int, taskMax: int)
    ensures Placed(Started(cached, initSize, threadMax, taskMax), NOWHERE)
  {
    NewThreadsAre(initSize);
  }

  /** In every run each accepted task is in the queue, with one thread, or executed once. */
  lemma EachTaskOnce(cached: bool, initSize: nat, threadMax: int, taskMax: int, cs: seq<Choice>)
    ensures exists at: map<Task, Place> :: Placed(Run(Started(cached, initSize, threadMax, taskMax), cs), at)
  {
    StartedCounts(cached, initSize, threadMax, taskMax);
    StartedPlaces(cached, initSize, threadMax, taskMax);
    var at := RunPlaces(Started(cached, initSize, threadMax, taskMax), NOWHERE, cs);
  }

  /** The queue has the tasks accepted last, the oldest in front. */
  ghost predicate Latest(s: State) {
    |s.queue| <= s.accepted && forall i :: 0 <= i < |s.queue| ==> s.queue[i] == s.accepted - |s.queue| + i
  }

  lemma KeepsLatest(s: State, c: Choice)
    requires Latest(s)
    ensures Latest(Step(s, c))
  {
    var s' := Step(s, c);
    assert s'.queue == s.queue || s'.queue == s.queue + [s.accepted] || (s.queue != [] && s'.queue == s.queue[1..]);
  }

  lemma {:induction false} RunLatest(start: State, cs: seq<Choice>)
    requires Latest(start)
    ensures Latest(Run(start, cs))
  {
    if cs != [] {
      RunLatest(start, cs[..|cs| - 1]);
      KeepsLatest(Run(start, cs[..|cs| - 1]), cs[|cs| - 1]);
    }
  }

  /** Threads take the tasks in the order in which they were accepted: whichever thread takes one next takes the
      task whose number is the count of tasks taken so far, and the tasks with threads or executed are exactly
      those with smaller numbers. */
  lemma TakenInOrder(cached: bool, initSize: nat, threadMax: int, taskMax: int, cs: seq<Choice>, t: Id, k: Task)
    ensures var s := Run(Started(cached, initSize, threadMax, taskMax), cs);
      var taken := s.accepted - |s.queue|;
      && 0 <= taken && (k < taken <==> k in s.ran || exists u: Id :: Holds(s.threads, u, k))
      && (!Holds(s.threads, t, k) && Holds(Step(s, Work(t, false)).threads, t, k) ==> k == taken)
      && (s.queue != [] && t in s.threads && !AtWork(s.threads[t]) ==> Holds(Step(s, Work(t, false)).threads, t, taken))
  {
    var start := Started(cached, initSize, threadMax, taskMax);
    var s := Run(start, cs);
    StartedCounts(cached, initSize, threadMax, taskMax);
    StartedPlaces(cached, initSize, threadMax, taskMax);
    var at := RunPlaces(start, NOWHERE, cs);
    RunLatest(start, cs);
    assert k in s.queue <==> s.accepted - |s.queue| <= k < s.accepted by {
      InLatest(s, k);
    }
    assert k in at && at[k].Held? ==> Holds(s.threads, at[k].t, k);
  }

  lemma InLatest(s: State, k: Task)
    requires Latest(s)
    ensures k in s.queue <==> s.accepted - |s.queue| <= k < s.accepted
  {
    var n := s.accepted - |s.queue|;
    if n <= k < s.accepted {
      assert s.queue[k - n] == k;
    }
  }

  // ---------------------------------------------------------------- shutdown

  /** Nothing is committed once the destructor has begun. */
  ghost predicate NoLateCommit(cs: seq<Choice>) {
    forall i, j :: 0 <= i < j < |cs| && cs[i] == Shut ==> cs[j] != Commit
  }

  /** A thread that the destructor let go found the queue empty, and it stays so. */
  ghost predicate DrainedFirst(s: State) {
    |s.threads| < s.cur ==> s.queue == [] && !s.running
  }

  lemma TakeDrained(s: State, t: Id)
    requires Counted(s) && DrainedFirst(s) && t in s.threads && !AtWork(s.threads[t])
    ensures DrainedFirst(StepTake(s, t))
  {
    if s.queue != [] {
      MoveThread(s.threads, t, Busy(s.queue[0]));
    } else if s.running {
      MoveThread(s.threads, t, Waiting);
    }
  }

  lemma KeepsDrained(s: State, c: Choice)
    requires Counted(s) && DrainedFirst(s) && (!s.running ==> c != Commit)
    ensures DrainedFirst(Step(s, c))
  {
    match c
    case Commit =>
      CommitCounts(s);
      AddThread(s.threads, s.nextId);
    case Shut =>
    case Work(t, late) =>
      if t in s.threads {
        match s.threads[t]
        case Begin => TakeDrained(s, t);
        case Waiting =>
          if s.cached && late && s.initSize < s.cur {
            DropThread(s.threads, t);
          } else {
            TakeDrained(s, t);
          }
        case Busy(_) => MoveThread(s.threads, t, Finished);
        case Finished => MoveThread(s.threads, t, Begin);
      }
  }

  lemma LateFree(cs: seq<Choice>)
    requires NoLateCommit(cs) && cs != []
    ensures var n := |cs| - 1;
      NoLateCommit(cs[..n]) && (Shut in cs[..n] ==> cs[n] != Commit)
          && (Shut in cs <==> Shut in cs[..n] || cs[n] == Shut)
  {
    var n := |cs| - 1;
    var was := cs[..n];
    assert cs == was + [cs[n]];
    if Shut in was {
      var i :| 0 <= i < n && was[i] == Shut;
      assert cs[i] == Shut;
    }
  }

  lemma {:induction false} RunDrained(start: State, cs: seq<Choice>)
    requires NoLateCommit(cs) && Counted(start) && start.running
    ensures DrainedFirst(Run(start, cs)) && (Run(start, cs).running <==> Shut !in cs)
  {
    if cs != [] {
      var n := |cs| - 1;
      LateFree(cs);
      RunDrained(start, cs[..n]);
      RunCounts(start, cs[..n]);
      KeepsDrained(Run(start, cs[..n]), cs[n]);
      OnlyShutStops(Run(start, cs[..n]), cs[n]);
    }
  }

  lemma OnlyShutStops(s: State, c: Choice)
    ensures Step(s, c).running == (s.running && c != Shut)
  {
  }

  /** Every accepted task has been executed exactly once. */
  ghost predicate AllRan(s: State) {
    NoDup(s.ran) && forall k: Task :: k in s.ran <==> k < s.accepted
  }

  /** The destructor returns when no thread is left. With at least one initial thread and no commit after the
      destructor has begun, every accepted task has then been executed exactly once. */
  lemma AllTasksRun(cached: bool, initSize: nat, threadMax: int, taskMax: int, cs: seq<Choice>)
    requires 1 <= initSize && NoLateCommit(cs)
    requires Run(Started(cached, initSize, threadMax, taskMax), cs).threads == map[]
    ensures AllRan(Run(Started(cached, initSize, threadMax, taskMax), cs))
  {
    var start := Started(cached, initSize, threadMax, taskMax);
    var s := Run(start, cs);
    StartedCounts(cached, initSize, threadMax, taskMax);
    StartedPlaces(cached, initSize, threadMax, taskMax);
    var at := RunPlaces(start, NOWHERE, cs);
    RunCounts(start, cs);
    RunDrained(start, cs);
    RunKeepsSettings(start, cs);
    assert |s.threads| == 0 < s.cur;
    forall k: Task ensures k in s.ran <==> k < s.accepted {
      assert k in at ==> at[k] == Ran;
    }
  }

  /** Whatever the schedule: when the destructor has begun, nothing is committed after that, and no thread is
      left, every accepted task has been executed. */
  ghost predicate Drains(cached: bool, initSize: nat, threadMax: int, taskMax: int) {
    forall cs: seq<Choice> ::
      var s := Run(Started(cached, initSize, threadMax, taskMax), cs);
      Shut in cs && NoLateCommit(cs) && s.threads == map[] ==> AllRan(s)
  }

  /** The destructor waits for all accepted tasks if and only if there is an initial thread, or no task can be
      accepted at all. */
  lemma DrainsExactly(cached: bool, initSize: nat, threadMax: int, taskMax: int)
    ensures Drains(cached, initSize, threadMax, taskMax) <==> 1 <= initSize || AsSize(taskMax) == 0
  {
    if AsSize(taskMax) == 0 {
      NewThreadsAre(initSize);
      forall cs: seq<Choice> ensures AllRan(Run(Started(cached, initSize, threadMax, taskMax), cs)) {
        NothingAccepted(Started(cached, initSize, threadMax, taskMax), cs);
      }
    } else if 1 <= initSize {
      forall cs: seq<Choice> |
        NoLateCommit(cs) && Run(Started(cached, initSize, threadMax, taskMax), cs).threads == map[]
        ensures AllRan(Run(Started(cached, initSize, threadMax, taskMax), cs))
      {
        AllTasksRun(cached, initSize, threadMax, taskMax, cs);
      }
    } else if cached && 1 <= threadMax {
      LastThreadLeavesTask(threadMax, taskMax);
      assert Shut in LEAVING;
    } else {
      NoThreadNoTask(cached, threadMax, taskMax);
      assert Shut in [Commit, Shut];
    }
  }

  /** A pool with no room for a task. */
  ghost predicate Barren(s: State) {
    && AsSize(s.taskMax) == 0 && s.accepted == 0 && s.queue == [] && s.ran == []
    && forall t :: t in s.threads ==> !s.threads[t].Busy?
  }

  lemma StaysBarren(s: State, c: Choice)
    requires Barren(s)
    ensures Barren(Step(s, c))
  {
  }

  lemma {:induction false} NothingAccepted(start: State, cs: seq<Choice>)
    requires Barren(start)
    ensures Barren(Run(start, cs))
  {
    if cs != [] {
      NothingAccepted(start, cs[..|cs| - 1]);
      StaysBarren(Run(start, cs[..|cs| - 1]), cs[|cs| - 1]);
    }
  }

  lemma Runs(s: State, cs: seq<Choice>, c: Choice)
    ensures Run(s, cs + [c]) == Step(Run(s, cs), c)
  {
    assert (cs + [c])[..|cs|] == cs;
  }

  /** Without an initial thread, in fixed mode or with no thread to spare, nobody takes an accepted task. */
  lemma NoThreadNoTask(cached: bool, threadMax: int, taskMax: int)
    requires 0 < AsSize(taskMax) && (!cached || threadMax <= 0)
    ensures var s := Run(Started(cached, 0, threadMax, taskMax), [Commit, Shut]);
      NoLateCommit([Commit, Shut]) && s.threads == map[] && !AllRan(s)
  {
    var start := Started(cached, 0, threadMax, taskMax);
    Runs(start, [], Commit);
    Runs(start, [Commit], Shut);
    assert [Commit, Shut] == [Commit] + [Shut];
    var s := Run(start, [Commit, Shut]);
    assert s.accepted == 1 && 0 !in s.ran;
  }

  const FIRST_TASK: seq<Choice> := [Commit, Work(0, false), Work(0, false), Work(0, false), Work(0, false)]

  /** In cached mode the only thread, made for the first task, times out just as the second is committed. */
  const STRANDING: seq<Choice> := FIRST_TASK + [Commit, Work(0, true)]

  const LEAVING: seq<Choice> := STRANDING + [Shut]

  /** The second task is left behind while the pool is still running, and when the destructor returns. */
  lemma LastThreadLeavesTask(threadMax: int, taskMax: int)
    requires 0 < AsSize(taskMax) && 1 <= threadMax
    ensures var s := Run(Started(true, 0, threadMax, taskMax), STRANDING);
      s.running && s.threads == map[] && s.accepted == 2 && s.queue == [1] && s.ran == [0]
    ensures var s := Run(Started(true, 0, threadMax, taskMax), LEAVING);
      NoLateCommit(LEAVING) && s.threads == map[] && !AllRan(s)
  {
    var start := Started(true, 0, threadMax, taskMax);
    FirstTaskRuns(start);
    var s := Run(start, FIRST_TASK);
    Runs(start, FIRST_TASK, Commit);
    Runs(start, FIRST_TASK + [Commit], Work(0, true));
    assert STRANDING == FIRST_TASK + [Commit] + [Work(0, true)];
    assert Step(Step(s, Commit), Work(0, true)).threads == map[];
    Runs(start, STRANDING, Shut);
    assert 1 !in Run(start, LEAVING).ran;
    assert NoLateCommit(LEAVING) by {
      assert forall i :: 0 <= i < 7 ==> LEAVING[i] != Shut;
    }
  }

  lemma FirstTaskRuns(start: State)
    requires 0 < AsSize(start.taskMax) && 1 <= start.threadMax
    requires start == Started(true, 0, start.threadMax, start.taskMax)
    ensures Run(start, FIRST_TASK)
            == start.(cur := 1, idle := 1, nextId := 1, accepted := 1, threads := map[0 := Waiting], ran := [0])
  {
    var w := Work(0, false);
    var s1 := FirstThread(start);
    hide Step, Run;
    RunsFive(start, Commit, w, w, w, w);
    OneRound(s1, 0);
  }

  lemma FirstThread(start: State) returns (s: State)
    requires 0 < AsSize(start.taskMax) && 1 <= start.threadMax
    requires start == Started(true, 0, start.threadMax, start.taskMax)
    ensures s == Step(start, Commit)
    ensures s
            == start.(queue := [0], taskSize := 1, cur := 1, idle := 1, nextId := 1, accepted := 1,
                      threads := map[0 := Begin])
  {
    s := Step(start, Commit);
    assert start.queue + [0] == [0];
  }

  /** A thread takes the only task, runs it, and finds the queue empty. */
  lemma OneRound(s: State, k: Task)
    requires s.threads == map[0 := Begin] && s.queue == [k] && s.running
    ensures var w := Work(0, false);
            Step(Step(Step(Step(s, w), w), w), w)
            == s.(queue := [], taskSize := s.taskSize - 1, threads := map[0 := Waiting], ran := s.ran + [k])
  {
    var w := Work(0, false);
    var s2 := s.(queue := [], taskSize := s.taskSize - 1, idle := s.idle - 1, threads := map[0 := Busy(k)]);
    assert Step(s, w) == s2;
    var s3 := s2.(threads := map[0 := Finished], ran := s.ran + [k]);
    assert Step(s2, w) == s3;
    var s4 := s3.(idle := s.idle, threads := map[0 := Begin]);
    assert Step(s3, w) == s4;
    assert Step(s4, w) == s4.(threads := map[0 := Waiting]);
  }

  lemma RunsFive(s: State, a: Choice, b: Choice, c: Choice, d: Choice, e: Choice)
    ensures Run(s, [a, b, c, d, e]) == Step(Step(Step(Step(Step(s, a), b), c), d), e)
  {
    hide Step;
    var p2 := [a] + [b];
    var p3 := p2 + [c];
    var p4 := p3 + [d];
    Runs(s, [], a);
    Runs(s, [a], b);
    Runs(s, p2, c);
    Runs(s, p3, d);
    Runs(s, p4, e);
    assert [] + [a] == [a] && p4 + [e] == [a, b, c, d, e];
  }

  // ---------------------------------------------------------------- a commit that comes too late

  /** The initial threads find the queue empty and leave. */
  function AllLeave(n: nat): seq<Choice> {
    if n == 0 then [Shut] else AllLeave(n - 1) + [Work(n - 1, false)]
  }

  /** The pool after all threads have left and one more task has been accepted. */
  function TooLate(cached: bool, initSize: nat, threadMax: int, taskMax: int): State {
    Started(cached, initSize, threadMax, taskMax)
      .(running := false, threads := map[], queue := [0], taskSize := 1, accepted := 1)
  }

  ghost predicate FirstLeft(start: State, n: nat, threads: map<Id, Pc>) {
    && (forall t: Id :: t in threads <==> n <= t < start.initSize)
    && (forall t: Id :: t in threads ==> threads[t] == Begin)
  }

  lemma OneLeaves(start: State, threads: map<Id, Pc>, n: nat)
    requires start.queue == [] && n < start.initSize && FirstLeft(start, n, threads)
    ensures FirstLeft(start, n + 1, threads - {n})
    ensures Step(start.(running := false, threads := threads), Work(n, false))
            == start.(running := false, threads := threads - {n})
  {
  }

  lemma {:induction false} ThreadsLeave(start: State, n: nat) returns (threads: map<Id, Pc>)
    requires start.queue == [] && n <= start.initSize && FirstLeft(start, 0, start.threads)
    ensures Run(start, AllLeave(n)) == start.(running := false, threads := threads) && FirstLeft(start, n, threads)
  {
    if n == 0 {
      threads := start.threads;
      Runs(start, [], Shut);
    } else {
      hide Run, Step, FirstLeft;
      var was := ThreadsLeave(start, n - 1);
      threads := was - {n - 1};
      Runs(start, AllLeave(n - 1), Work(n - 1, false));
      OneLeaves(start, was, n - 1);
    }
  }

  lemma {:induction false} NewThreadsAll(n: nat)
    ensures forall t: Id :: t in NewThreads(n) <==> t < n
  {
    if n > 0 {
      NewThreadsAll(n - 1);
    }
  }

  /** A task that is committed after the last thread has left is accepted, and no thread is there to take it. */
  lemma LateCommitIsStranded(cached: bool, initSize: nat, threadMax: int, taskMax: int)
    requires 1 <= initSize && 0 < AsSize(taskMax)
    ensures Run(Started(cached, initSize, threadMax, taskMax), AllLeave(initSize) + [Commit])
            == TooLate(cached, initSize, threadMax, taskMax)
  {
    var start := Started(cached, initSize, threadMax, taskMax);
    NewThreadsAre(initSize);
    NewThreadsAll(initSize);
    var threads := ThreadsLeave(start, initSize);
    assert threads == map[];
    Runs(start, AllLeave(initSize), Commit);
  }

  /** That task is never executed, whatever follows, if and only if later commits can make no thread: the pool
      is not cached, or has all its threads, or its queue is full before one is made. */
  lemma LateCommitIsLost(cached: bool, initSize: nat, threadMax: int, taskMax: int)
    requires 1 <= initSize && 0 < AsSize(taskMax)
    ensures (forall more: seq<Choice> :: 0 !in Run(TooLate(cached, initSize, threadMax, taskMax), more).ran)
            <==> !cached || threadMax <= initSize || AsSize(taskMax) <= initSize
  {
    var s := TooLate(cached, initSize, threadMax, taskMax);
    if !cached || threadMax <= initSize || AsSize(taskMax) <= initSize {
      forall more: seq<Choice> ensures 0 !in Run(s, more).ran {
        StaysStranded(s, more);
      }
    } else {
      var more := Commits(initSize) + [Work(initSize, false), Work(initSize, false)];
      NewThreadRuns(s);
      assert 0 in Run(s, more).ran;
    }
  }

  ghost predicate Stranded(s: State) {
    && s.threads == map[] && !s.running && s.ran == [] && s.cur == s.idle == s.initSize
    && s.taskSize == |s.queue| <= AsSize(s.taskMax)
    && (!s.cached || s.threadMax <= s.initSize || AsSize(s.taskMax) <= s.initSize)
  }

  lemma {:induction false} StaysStranded(s: State, more: seq<Choice>)
    requires Stranded(s)
    ensures Stranded(Run(s, more))
  {
    if more != [] {
      StaysStranded(s, more[..|more| - 1]);
    }
  }

  function Commits(n: nat): seq<Choice> {
    if n == 0 then [] else Commits(n - 1) + [Commit]
  }

  /** While there are no more tasks than threads are believed idle, commits only lengthen the queue. */
  lemma {:induction false} CommitsQueue(s: State, n: nat)
    requires s.queue == [0] && s.taskSize == 1 && s.accepted == 1 && 1 + n <= s.idle && 1 + n <= AsSize(s.taskMax)
    ensures var s' := Run(s, Commits(n));
      |s'.queue| == s'.taskSize == s'.accepted == 1 + n && s'.queue[0] == 0
      && s' == s.(queue := s'.queue, taskSize := s'.taskSize, accepted := s'.accepted)
  {
    if n > 0 {
      CommitsQueue(s, n - 1);
      Runs(s, Commits(n - 1), Commit);
    }
  }

  lemma NewThreadRuns(s: State)
    requires s.cached && 1 <= s.initSize < s.threadMax && s.initSize < AsSize(s.taskMax)
    requires s == TooLate(s.cached, s.initSize, s.threadMax, s.taskMax)
    ensures 0 in Run(s, Commits(s.initSize) + [Work(s.initSize, false), Work(s.initSize, false)]).ran
  {
    hide Run, Step;
    var n, w := s.initSize, Work(s.initSize, false);
    CommitsQueue(s, n - 1);
    var s1 := Run(s, Commits(n - 1));
    Runs(s, Commits(n - 1), Commit);
    LastCommit(s1);
    Runs(s, Commits(n), w);
    Runs(s, Commits(n) + [w], w);
    assert Commits(n) + [w, w] == Commits(n) + [w] + [w];
    TakesAndRuns(Step(s1, Commit), n);
  }

  /** With more tasks than threads believed idle, a commit makes a thread. */
  lemma LastCommit(s: State)
    requires s.cached && s.threads == map[] && s.queue != [] && |s.queue| < AsSize(s.taskMax)
    requires s.idle <= s.taskSize && s.cur < s.threadMax
    ensures Step(s, Commit).threads == map[s.nextId := Begin]
    ensures var q := Step(s, Commit).queue; q != [] && q[0] == s.queue[0]
  {
  }

  lemma TakesAndRuns(s: State, t: Id)
    requires t in s.threads && s.threads[t] == Begin && s.queue != []
    ensures Step(Step(s, Work(t, false)), Work(t, false)).ran == s.ran + [s.queue[0]]
  {
  }
}
