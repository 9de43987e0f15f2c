/** Which pushes of `lock_free_queue` are lost: exactly those that install their value late, in a node that the tail has
    left; and that only happens to a node that a pop has emptied. */
module QueueDrops {
  import opened Options
  import opened AtomicQueue
  import opened LockFreeQueue
  import opened QueueInvariant
  import opened QueueSteps
  import opened QueueRuns
  import opened QueueAlone

  /** The next step of t turns the data of a node that is not the tail from null into its own item. */
  predicate InstallsLate(s: State, t: Tid, c: Choice, item: Item) {
    PcOf(s, t).PushData? && PcOf(s, t).item == item &&
    var p, s' := PcOf(s, t).was.ptr, Step(s, t, c).s;
    && p != s.tail.ptr
    && p in s.heap && s.heap[p].data == None
    && p in s'.heap && s'.heap[p].data == Some(item)
  }

  /** A step drops a push if and only if it installs late. */
  lemma DropIsLate(s: State, u: Tid, c: Choice, t: Tid)
    ensures Step(s, u, c).l == Drop(t) <==> u == t && PcOf(s, t).PushData? && InstallsLate(s, t, c, PcOf(s, t).item)
  {
    if Step(s, u, c).l == Drop(t) {
      DropsOwn(s, u, c, t);
    }
  }

  /** A push is over in one of two ways. */
  lemma {:induction false} EntersOrDrops(a: Spec, ls: seq<Label>, t: Tid, v: Value, j: nat)
    requires Replay(a, ls).Some? && OpOf(a, t) == Pushing(v) && FirstReturn(ls, t, j)
    ensures (exists i :: 0 <= i < j && ls[i] == LinPush(t, v)) <==> !(exists i :: 0 <= i < j && ls[i] == Drop(t))
    decreases ls
  {
    assert ls[0] != RetPush(t);
    var b, rest := Next(a, ls[0]).value, ls[1..];
    assert FirstReturn(rest, t, j - 1);
    if ls[0] == Drop(t) {
      DroppedStays(b, rest, t, j - 1);
      forall i | 0 <= i < j ensures ls[i] != LinPush(t, v) {
        assert i > 0 ==> ls[i] == rest[i - 1];
      }
    } else if ls[0] == LinPush(t, v) {
      PushedStays(b, rest, t, j - 1);
      forall i | 0 <= i < j ensures ls[i] != Drop(t) {
        assert i > 0 ==> ls[i] == rest[i - 1];
      }
    } else {
      EntersOrDrops(b, rest, t, v, j - 1);
      Shifted(ls, j, LinPush(t, v));
      Shifted(ls, j, Drop(t));
    }
  }

  lemma Shifted(ls: seq<Label>, j: nat, l: Label)
    requires 0 < j <= |ls| && ls[0] != l
    ensures (exists i :: 0 <= i < j && ls[i] == l) <==> (exists i :: 0 <= i < j - 1 && ls[1..][i] == l)
  {
    if i :| 0 <= i < j && ls[i] == l {
      assert ls[1..][i - 1] == l;
    }
    if i :| 0 <= i < j - 1 && ls[1..][i] == l {
      assert ls[i + 1] == l;
    }
  }

  lemma {:induction false} PushedStays(a: Spec, ls: seq<Label>, t: Tid, j: nat)
    requires Replay(a, ls).Some? && OpOf(a, t) == Pushed && FirstReturn(ls, t, j)
    ensures forall i :: 0 <= i < j ==> ls[i] != Drop(t)
    decreases ls
  {
    if j > 0 {
      var b := Next(a, ls[0]).value;
      assert OpOf(b, t) == Pushed && ls[0] != Drop(t);
      assert FirstReturn(ls[1..], t, j - 1);
      PushedStays(b, ls[1..], t, j - 1);
      assert forall i :: 0 < i < j ==> ls[i] == ls[1..][i - 1];
    }
  }

  /** The value that a thread has in hand at its data CAS is the one it was called with. */
  lemma {:induction false} CarriesCalled(s: State, x: Proof, a: Spec, sched: Schedule, t: Tid, v: Value, i: nat)
    requires Inv(s, x, a) && OpOf(a, t) == Pushing(v) && i < |sched|
    requires PcOf(Run(s, sched[..i]), t).PushData?
    requires var ls := Labels(s, sched[..i]); RetPush(t) !in ls && LinPush(t, v) !in ls && Drop(t) !in ls
    ensures PcOf(Run(s, sched[..i]), t).item == Item(v, t)
    decreases i
  {
    if i == 0 {
      assert ThreadOk(s, x, a, t);
    } else {
      var (u, c) := sched[0];
      var o := Step(s, u, c);
      var y := Keeps(s, x, a, u, c);
      var p := sched[..i];
      assert p[0] == sched[0] && p[1..] == sched[1..][..i - 1];
      assert Labels(s, p) == [o.l] + Labels(o.s, p[1..]);
      var b := Next(a, o.l).value;
      assert OpOf(b, t) == Pushing(v);
      CarriesCalled(o.s, y, b, sched[1..], t, v, i - 1);
    }
  }

  lemma LateInRun(s: State, sched: Schedule, t: Tid, i: nat)
    requires i < |sched|
    ensures |Labels(s, sched)| == |sched|
    ensures var si := Run(s, sched[..i]);
            Labels(s, sched)[i] == Drop(t) <==>
            sched[i].0 == t && PcOf(si, t).PushData? && InstallsLate(si, t, sched[i].1, PcOf(si, t).item)
  {
    LabelAt(s, sched, i);
    DropIsLate(Run(s, sched[..i]), sched[i].0, sched[i].1, t);
  }

  /** Step i of the schedule is a late install of t's push of v. */
  predicate LateAt(s: State, sched: Schedule, i: nat, t: Tid, v: Value)
    requires i < |sched|
  {
    sched[i].0 == t && InstallsLate(Run(s, sched[..i]), t, sched[i].1, Item(v, t))
  }

  /** From a state in which t is pushing v up to the return of that push. */
  lemma LostFrom(s: State, x: Proof, a: Spec, sched: Schedule, t: Tid, v: Value, j: nat)
    requires Inv(s, x, a) && OpOf(a, t) == Pushing(v) && FirstReturn(Labels(s, sched), t, j)
    ensures |Labels(s, sched)| == |sched|
    ensures (exists i :: 0 <= i < j && Labels(s, sched)[i] == LinPush(t, v)) <==>
            !(exists i :: 0 <= i < j && LateAt(s, sched, i, t, v))
  {
    var ls := Labels(s, sched);
    var z := Runs(s, x, a, sched);
    LabelsLength(s, sched);
    EntersOrDrops(a, ls, t, v, j);
    if i :| 0 <= i < j && LateAt(s, sched, i, t, v) {
      LateInRun(s, sched, t, i);
    }
    if k :| 0 <= k < j && ls[k] == Drop(t) {
      var i := FirstDrop(ls, t, k);
      LateInRun(s, sched, t, i);
      BeforeIt(s, sched, i);
      forall m | 0 <= m < i ensures ls[m] != LinPush(t, v) && ls[m] != RetPush(t) && ls[m] != Drop(t) {
      }
      CarriesCalled(s, x, a, sched, t, v, i);
      assert LateAt(s, sched, i, t, v);
    }
  }

  lemma {:induction false} FirstDrop(ls: seq<Label>, t: Tid, k: nat) returns (i: nat)
    requires k < |ls| && ls[k] == Drop(t)
    ensures i <= k && ls[i] == Drop(t) && forall m :: 0 <= m < i ==> ls[m] != Drop(t)
  {
    i := k;
    if m :| 0 <= m < k && ls[m] == Drop(t) {
      i := FirstDrop(ls, t, m);
    }
  }

  lemma {:induction false} BeforeIt(s: State, sched: Schedule, i: nat)
    requires i <= |sched|
    ensures |Labels(s, sched)| == |sched| && Labels(s, sched[..i]) == Labels(s, sched)[..i]
    decreases i
  {
    LabelsLength(s, sched);
    if i > 0 {
      var o := Step(s, sched[0].0, sched[0].1);
      BeforeIt(o.s, sched[1..], i - 1);
      assert sched[..i][0] == sched[0] && sched[..i][1..] == sched[1..][..i - 1];
      assert Labels(s, sched) == [o.l] + Labels(o.s, sched[1..]);
    }
  }

  /** In every run, a push that returns has entered the queue if and only if it has not, between its call and its
      return, turned the data of a node other than the tail from null into its own item. */
  lemma LostIffLate(sched: Schedule, t: Tid, v: Value, c: nat, j: nat)
    requires Completed(Labels(INIT, sched), t, v, c, j)
    ensures |Labels(INIT, sched)| == |sched|
    ensures (exists i :: c < i < j && Labels(INIT, sched)[i] == LinPush(t, v)) <==>
            !(exists i :: c < i < j && LateAt(INIT, sched, i, t, v))
  {
    hide Inv, LateAt, Replay, Run, FirstReturn;
    var ls := Labels(INIT, sched);
    LabelsLength(INIT, sched);
    var front, back := sched[..c + 1], sched[c + 1..];
    BackLabels(sched, c + 1);
    var x := FromInit(front);
    var s, a := Run(INIT, front), Replay(NEW_QUEUE, Labels(INIT, front)).value;
    BeforeIt(INIT, sched, c + 1);
    CalledIs(front, t, v);
    LostFrom(s, x, a, back, t, v, j - c - 1);
    Moved(ls, c, j, Labels(s, back), LinPush(t, v));
    if i :| c < i < j && LateAt(INIT, sched, i, t, v) {
      LateMoves(sched, c, i, t, v);
      assert LateAt(s, back, i - c - 1, t, v);
    }
    if i :| 0 <= i < j - c - 1 && LateAt(s, back, i, t, v) {
      LateMoves(sched, c, i + c + 1, t, v);
    }
  }

  lemma BackLabels(sched: Schedule, k: nat)
    requires k <= |sched|
    ensures |Labels(INIT, sched)| == |sched|
    ensures Labels(Run(INIT, sched[..k]), sched[k..]) == Labels(INIT, sched)[k..]
  {
    LabelsLength(INIT, sched);
    LabelsLength(INIT, sched[..k]);
    assert sched == sched[..k] + sched[k..];
    RunConcat(INIT, sched[..k], sched[k..]);
  }

  lemma LateMoves(sched: Schedule, c: nat, i: nat, t: Tid, v: Value)
    requires c < i < |sched|
    ensures LateAt(INIT, sched, i, t, v) == LateAt(Run(INIT, sched[..c + 1]), sched[c + 1..], i - c - 1, t, v)
  {
    var front, back := sched[..c + 1], sched[c + 1..];
    assert sched[..i] == front + back[..i - c - 1];
    RunConcat(INIT, front, back[..i - c - 1]);
  }

  lemma Moved(ls: seq<Label>, c: nat, j: nat, rest: seq<Label>, l: Label)
    requires c < j <= |ls| && rest == ls[c + 1..]
    ensures (exists i :: c < i < j && ls[i] == l) <==> (exists i :: 0 <= i < j - c - 1 && rest[i] == l)
  {
    if i :| c < i < j && ls[i] == l {
      assert rest[i - c - 1] == l;
    }
    if i :| 0 <= i < j - c - 1 && rest[i] == l {
      assert ls[i + c + 1] == l;
    }
  }

  /** After a run that ends with the call of push(v), t is pushing v. */
  lemma CalledIs(front: Schedule, t: Tid, v: Value)
    requires front != [] && |Labels(INIT, front)| == |front| && Labels(INIT, front)[|front| - 1] == CallPush(t, v)
    ensures Replay(NEW_QUEUE, Labels(INIT, front)).Some?
    ensures OpOf(Replay(NEW_QUEUE, Labels(INIT, front)).value, t) == Pushing(v)
  {
    var ls := Labels(INIT, front);
    Linearizable(front);
    var n := |ls| - 1;
    assert ls == ls[..n] + [ls[n]];
    BeforeIt(INIT, front, n);
    Linearizable(front[..n]);
    ReplayConcat(NEW_QUEUE, ls[..n], [ls[n]]);
    var a := Replay(NEW_QUEUE, ls[..n]).value;
    assert [ls[n]][1..] == [];
    assert Replay(a, [ls[n]]) == match Next(a, ls[n]) case None => None case Some(b) => Replay(b, []);
  }

  // ---------------------------------------------------------------- nodes that are not emptied

  /** The step takes the data out of a node. */
  predicate Empties(s: State, s': State) {
    exists p :: p in s.heap && s.heap[p].data.Some? && p in s'.heap && s'.heap[p].data == None
  }

  ghost predicate NeverEmpties(s: State, sched: Schedule)
    decreases sched
  {
    sched != [] ==>
      var s' := Step(s, sched[0].0, sched[0].1).s;
      !Empties(s, s') && NeverEmpties(s', sched[1..])
  }

  predicate FilledFor(s: State, t: Tid) {
    PcOf(s, t).PushData? && PcOf(s, t).was.ptr != s.tail.ptr ==>
      PcOf(s, t).was.ptr in s.heap && s.heap[PcOf(s, t).was.ptr].data.Some?
  }

  /** Whoever is about to install into a node that the tail has left finds it filled. */
  ghost predicate StaleFilled(s: State) {
    forall t: Tid :: FilledFor(s, t)
  }

  /** Only the CAS of set_new_tail moves the tail. */
  lemma TailMoves(s: State, u: Tid, c: Choice)
    requires Step(s, u, c).s.tail.ptr != s.tail.ptr
    ensures PcOf(s, u).SetTail? && s.tail == PcOf(s, u).was && Step(s, u, c).s.heap == s.heap
  {
    if !Pushes(PcOf(s, u)) && !(PcOf(s, u).Idle? && c.Push?) {
      PopperStaysOut(s, u, c);
    }
  }

  lemma ArrivesAtTail(s: State, u: Tid, c: Choice)
    requires !Step(s, u, c).s.fault && PcOf(Step(s, u, c).s, u).PushData?
    ensures PcOf(Step(s, u, c).s, u).was.ptr == Step(s, u, c).s.tail.ptr
  {
    if !Pushes(PcOf(s, u)) && !c.Push? {
      PopperStaysOut(s, u, c);
    }
  }

  lemma StaysFilled(s: State, x: Proof, a: Spec, u: Tid, c: Choice, y: Proof, b: Spec)
    requires Inv(s, x, a) && StaleFilled(s) && Inv(Step(s, u, c).s, y, b) && !Empties(s, Step(s, u, c).s)
    ensures StaleFilled(Step(s, u, c).s)
  {
    var s' := Step(s, u, c).s;
    forall t: Tid ensures FilledFor(s', t) {
      if PcOf(s', t).PushData? && PcOf(s', t).was.ptr != s'.tail.ptr {
        if t == u {
          ArrivesAtTail(s, u, c);
        } else {
          OthersStandStill(s, u, c, t);
          OneStaysFilled(s, x, a, u, c, y, b, t);
        }
      }
    }
  }

  lemma OneStaysFilled(s: State, x: Proof, a: Spec, u: Tid, c: Choice, y: Proof, b: Spec, t: Tid)
    requires Inv(s, x, a) && FilledFor(s, t) && Inv(Step(s, u, c).s, y, b) && !Empties(s, Step(s, u, c).s)
    requires PcOf(Step(s, u, c).s, t) == PcOf(s, t) && PcOf(s, t).PushData?
    requires PcOf(s, t).was.ptr != Step(s, u, c).s.tail.ptr
    ensures FilledFor(Step(s, u, c).s, t)
  {
    var s', p := Step(s, u, c).s, PcOf(s, t).was.ptr;
    assert ThreadOk(s', y, b, t);
    if p == s.tail.ptr {
      TailMoves(s, u, c);
      NextIsBare(s, x, a, u);
    }
    hide Step;
    assert p in s.heap && s.heap[p].data.Some? && p in s'.heap;
  }

  lemma {:induction false} FilledRun(s: State, x: Proof, a: Spec, sched: Schedule)
    requires Inv(s, x, a) && StaleFilled(s) && NeverEmpties(s, sched)
    ensures forall t :: Drop(t) !in Labels(s, sched)
    decreases sched
  {
    if sched != [] {
      var (u, c) := sched[0];
      var o := Step(s, u, c);
      forall t ensures o.l != Drop(t) {
        assert FilledFor(s, t);
        if o.l == Drop(t) {
          DropsOwn(s, u, c, t);
        }
      }
      var y := Keeps(s, x, a, u, c);
      StaysFilled(s, x, a, u, c, y, Next(a, o.l).value);
      FilledRun(o.s, y, Next(a, o.l).value, sched[1..]);
    }
  }

  /** With any number of pushers and poppers: as long as no node has been emptied, no push is dropped. */
  lemma NothingEmptiedNothingLost(sched: Schedule)
    requires NeverEmpties(INIT, sched)
    ensures forall t :: Drop(t) !in Labels(INIT, sched)
  {
    var x := InitOk();
    forall t: Tid ensures FilledFor(INIT, t) {
      assert PcOf(INIT, t) == Idle;
    }
    FilledRun(INIT, x, NEW_QUEUE, sched);
  }
}
