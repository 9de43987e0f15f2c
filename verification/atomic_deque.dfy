/** The deque behind the stealing queue of inc/concurrent/threadsafe_queue.h: pushes go in at the back,
    pops leave at the front, steals at the back, each in one indivisible step. After `Stop` a waiting pop
    may also give up. */
module AtomicDeque {
  import opened Options

  type Value = int
  type Tid = nat

  datatype Op =
    | Free
    | Pushing(v: Value)
    | Pushed
    | Popping
    | Popped(res: Option<Value>)
    | Stealing
    | Stolen(res: Option<Value>)

  /** `items` holds the front first, each item with the number of pushes before it. */
  datatype Item = Item(v: Value, serial: nat)

  datatype Spec = Spec(items: seq<Item>, pushes: nat, stopped: bool, ops: map<Tid, Op>)

  datatype Label =
    | Tau
    | CallPush(t: Tid, v: Value)
    | LinPush(t: Tid, v: Value)
    | RetPush(t: Tid)
    | CallPop(t: Tid)
    | LinPop(t: Tid, res: Option<Value>)
    | GiveUp(t: Tid)
    | RetPop(t: Tid, res: Option<Value>)
    | CallSteal(t: Tid)
    | LinSteal(t: Tid, res: Option<Value>)
    | RetSteal(t: Tid, res: Option<Value>)
    | Stop

  const NEW_DEQUE := Spec([], 0, false, map[])

  function OpOf(a: Spec, t: Tid): Op {
    if t in a.ops then a.ops[t] else Free
  }

  function Set(a: Spec, t: Tid, op: Op): Spec {
    a.(ops := a.ops[t := op])
  }

  function Front(items: seq<Item>): Option<Value> {
    if items == [] then None else Some(items[0].v)
  }

  function Back(items: seq<Item>): Option<Value> {
    if items == [] then None else Some(items[|items| - 1].v)
  }

  /** The effect of a label, or `None` when an atomic deque cannot produce it. */
  function Next(a: Spec, l: Label): Option<Spec> {
    match l
    case Tau => Some(a)
    case CallPush(t, v) => if OpOf(a, t) == Free then Some(Set(a, t, Pushing(v))) else None
    case LinPush(t, v) =>
      if OpOf(a, t) == Pushing(v) then
        Some(Set(a, t, Pushed).(items := a.items + [Item(v, a.pushes)], pushes := a.pushes + 1))
      else None
    case RetPush(t) => if OpOf(a, t) == Pushed then Some(Set(a, t, Free)) else None
    case CallPop(t) => if OpOf(a, t) == Free then Some(Set(a, t, Popping)) else None
    case LinPop(t, res) =>
      if OpOf(a, t) == Popping && res == Front(a.items) then
        Some(Set(a, t, Popped(res)).(items := if a.items == [] then [] else a.items[1..]))
      else None
    case GiveUp(t) => if OpOf(a, t) == Popping && a.stopped then Some(Set(a, t, Popped(None))) else None
    case RetPop(t, res) => if OpOf(a, t) == Popped(res) then Some(Set(a, t, Free)) else None
    case CallSteal(t) => if OpOf(a, t) == Free then Some(Set(a, t, Stealing)) else None
    case LinSteal(t, res) =>
      if OpOf(a, t) == Stealing && res == Back(a.items) then
        Some(Set(a, t, Stolen(res)).(items := if a.items == [] then [] else a.items[..|a.items| - 1]))
      else None
    case RetSteal(t, res) => if OpOf(a, t) == Stolen(res) then Some(Set(a, t, Free)) else None
    case Stop => Some(a.(stopped := true))
  }

  function Replay(a: Spec, ls: seq<Label>): Option<Spec>
    decreases ls
  {
    if ls == [] then Some(a)
    else
      match Next(a, ls[0])
      case None => None
      case Some(b) => Replay(b, ls[1..])
  }

  // ---------------------------------------------------------------- what every run of it keeps

  function Gains(l: Label): multiset<Value> {
    if l.LinPush? then multiset{l.v} else multiset{}
  }

  function Losses(l: Label): multiset<Value> {
    if (l.LinPop? || l.LinSteal?) && l.res.Some? then multiset{l.res.value} else multiset{}
  }

  function PushedIn(ls: seq<Label>): multiset<Value> {
    if ls == [] then multiset{} else Gains(ls[0]) + PushedIn(ls[1..])
  }

  /** What pops and steals took. */
  function TakenIn(ls: seq<Label>): multiset<Value> {
    if ls == [] then multiset{} else Losses(ls[0]) + TakenIn(ls[1..])
  }

  function Values(items: seq<Item>): multiset<Value> {
    if items == [] then multiset{} else multiset{items[0].v} + Values(items[1..])
  }

  lemma {:induction false} ValuesSnoc(items: seq<Item>, i: Item)
    ensures Values(items + [i]) == Values(items) + multiset{i.v}
  {
    if items == [] {
      assert items + [i] == [i];
    } else {
      ValuesSnoc(items[1..], i);
      assert (items + [i])[1..] == items[1..] + [i];
    }
  }

  lemma ValuesFront(items: seq<Item>)
    requires items != []
    ensures Values(items[..|items| - 1]) + multiset{items[|items| - 1].v} == Values(items)
  {
    var n := |items| - 1;
    ValuesSnoc(items[..n], items[n]);
    assert items == items[..n] + [items[n]];
  }

  lemma OneLabel(a: Spec, l: Label)
    requires Next(a, l).Some?
    ensures Values(a.items) + Gains(l) == Losses(l) + Values(Next(a, l).value.items)
  {
    hide Values;
    var b := Next(a, l).value;
    if l.LinPush? {
      OnePush(a.items, b.items, l.v, a.pushes);
    } else if (l.LinPop? || l.LinSteal?) && a.items != [] {
      OneTake(a.items, b.items, l.res.value, l.LinPop?);
    } else {
      assert b.items == a.items;
    }
  }

  lemma OnePush(was: seq<Item>, now: seq<Item>, v: Value, n: nat)
    requires now == was + [Item(v, n)]
    ensures Values(was) + multiset{v} == multiset{} + Values(now)
  {
    ValuesSnoc(was, Item(v, n));
  }

  lemma OneTake(was: seq<Item>, now: seq<Item>, v: Value, front: bool)
    requires was != [] && now == (if front then was[1..] else was[..|was| - 1])
    requires v == (if front then was[0] else was[|was| - 1]).v
    ensures Values(was) + multiset{} == multiset{v} + Values(now)
  {
    if !front {
      ValuesFront(was);
    }
  }

  lemma Chain(a: multiset<Value>, i: multiset<Value>, o: multiset<Value>, b: multiset<Value>,
              i': multiset<Value>, o': multiset<Value>, c: multiset<Value>)
    requires a + i == o + b && b + i' == o' + c
    ensures a + (i + i') == (o + o') + c
  {
    assert a + (i + i') == (o + b) + i' == o + (o' + c);
  }

  /** Popping and stealing conserve the values: what was there plus what was pushed is what was taken
      plus what is left. */
  lemma {:induction false} Conservation(a: Spec, ls: seq<Label>)
    requires Replay(a, ls).Some?
    ensures Values(a.items) + PushedIn(ls) == TakenIn(ls) + Values(Replay(a, ls).value.items)
    decreases ls
  {
    if ls != [] {
      var b := Next(a, ls[0]).value;
      OneLabel(a, ls[0]);
      Conservation(b, ls[1..]);
      Chain(Values(a.items), Gains(ls[0]), Losses(ls[0]), Values(b.items), PushedIn(ls[1..]), TakenIn(ls[1..]),
            Values(Replay(b, ls[1..]).value.items));
    }
  }

  /** The serial numbers of the items that pops took, in the order of the pops. */
  function PopOrder(a: Spec, ls: seq<Label>): seq<nat>
    requires Replay(a, ls).Some?
    decreases ls
  {
    if ls == [] then []
    else (if ls[0].LinPop? && a.items != [] then [a.items[0].serial] else []) + PopOrder(Next(a, ls[0]).value, ls[1..])
  }

  ghost predicate Ascending(s: seq<nat>) {
    forall i, j :: 0 <= i < j < |s| ==> s[i] < s[j]
  }

  lemma AscendingCons(x: nat, s: seq<nat>)
    requires Ascending(s) && forall y :: y in s ==> x < y
    ensures Ascending([x] + s)
  {
    assert forall i :: 0 <= i < |s| ==> s[i] in s;
  }

  function Serials(items: seq<Item>): seq<nat> {
    seq(|items|, i requires 0 <= i < |items| => items[i].serial)
  }

  /** Items lie in the order of their pushes. */
  ghost predicate InOrder(a: Spec) {
    Ascending(Serials(a.items)) && forall i :: 0 <= i < |a.items| ==> a.items[i].serial < a.pushes
  }

  lemma StaysInOrder(a: Spec, l: Label)
    requires InOrder(a) && Next(a, l).Some?
    ensures InOrder(Next(a, l).value)
  {
    var b := Next(a, l).value;
    forall i, j | 0 <= i < j < |b.items| ensures b.items[i].serial < b.items[j].serial {
      var k := if l.LinPop? then 1 else 0;
      if j < |a.items| {
        assert Serials(a.items)[i] < Serials(a.items)[j];
        if j + k < |a.items| {
          assert Serials(a.items)[i + k] < Serials(a.items)[j + k];
        }
      }
    }
  }

  lemma NewerStay(a: Spec, l: Label, last: int)
    requires Next(a, l).Some? && last < a.pushes && forall i :: 0 <= i < |a.items| ==> last < a.items[i].serial
    ensures var b := Next(a, l).value; last < b.pushes && forall i :: 0 <= i < |b.items| ==> last < b.items[i].serial
  {
  }

  lemma PopTakesOldest(a: Spec, l: Label)
    requires InOrder(a) && Next(a, l).Some? && l.LinPop? && a.items != []
    ensures var b := Next(a, l).value;
            a.items[0].serial < b.pushes && forall i :: 0 <= i < |b.items| ==> a.items[0].serial < b.items[i].serial
  {
    FrontIsOldest(a);
  }

  lemma FrontIsOldest(a: Spec)
    requires InOrder(a)
    ensures forall i :: 0 < i < |a.items| ==> a.items[0].serial < a.items[i].serial
    ensures forall i :: 0 <= i < |a.items| ==> a.items[i].serial < a.pushes
  {
    forall i | 0 < i < |a.items| ensures a.items[0].serial < a.items[i].serial {
      assert Serials(a.items)[0] < Serials(a.items)[i];
    }
  }

  /** Pops leave in the order of the pushes, whatever steals do, and every item left behind is newer
      than all that were popped. */
  lemma {:induction false} PopsInOrder(a: Spec, ls: seq<Label>, last: int)
    requires InOrder(a) && Replay(a, ls).Some? && last < a.pushes
    requires forall i :: 0 <= i < |a.items| ==> last < a.items[i].serial
    ensures Ascending(PopOrder(a, ls)) && forall s :: s in PopOrder(a, ls) ==> last < s
    ensures forall s, i :: s in PopOrder(a, ls) && 0 <= i < |Replay(a, ls).value.items| ==>
            s < Replay(a, ls).value.items[i].serial
    ensures forall i :: 0 <= i < |Replay(a, ls).value.items| ==> last < Replay(a, ls).value.items[i].serial
    decreases ls
  {
    hide InOrder, Next;
    if ls != [] {
      var b := Next(a, ls[0]).value;
      StaysInOrder(a, ls[0]);
      if ls[0].LinPop? && a.items != [] {
        var s := a.items[0].serial;
        PopTakesOldest(a, ls[0]);
        PopsInOrder(b, ls[1..], s);
        AscendingCons(s, PopOrder(b, ls[1..]));
      } else {
        NewerStay(a, ls[0], last);
        PopsInOrder(b, ls[1..], last);
      }
    }
  }

  // ---------------------------------------------------------------- one operation of one thread

  /** A label of thread t, but no call and no giving up. */
  predicate GoesOn(l: Label, t: Tid) {
    match l
    case Tau => true
    case LinPush(u, _) => u == t
    case RetPush(u) => u == t
    case LinPop(u, _) => u == t
    case RetPop(u, _) => u == t
    case LinSteal(u, _) => u == t
    case RetSteal(u, _) => u == t
    case _ => false
  }

  /** What the deque holds once an operation that stands at `op` is over, and what that operation returns. */
  function ItemsAfter(a: Spec, op: Op): seq<Item> {
    match op
    case Pushing(v) => a.items + [Item(v, a.pushes)]
    case Popping => if a.items == [] then [] else a.items[1..]
    case Stealing => if a.items == [] then [] else a.items[..|a.items| - 1]
    case _ => a.items
  }

  function ReturnOf(a: Spec, op: Op, t: Tid): Label {
    match op
    case Pushing(_) => RetPush(t)
    case Pushed => RetPush(t)
    case Popping => RetPop(t, Front(a.items))
    case Popped(res) => RetPop(t, res)
    case Stealing => RetSteal(t, Back(a.items))
    case Stolen(res) => RetSteal(t, res)
    case Free => Tau
  }

  /** If nothing else happens until the operation of t is over, it has its effect and returns its answer. */
  lemma {:induction false} OneOperation(a: Spec, ls: seq<Label>, t: Tid)
    requires Replay(a, ls).Some? && (forall l :: l in ls ==> GoesOn(l, t))
    requires OpOf(Replay(a, ls).value, t) == Free
    ensures Replay(a, ls).value.items == ItemsAfter(a, OpOf(a, t))
    ensures OpOf(a, t) != Free ==> ReturnOf(a, OpOf(a, t), t) in ls
    decreases ls
  {
    if ls != [] {
      assert GoesOn(ls[0], t);
      var b := Next(a, ls[0]).value;
      OneOperation(b, ls[1..], t);
      assert ls == [ls[0]] + ls[1..];
    }
  }

  /** A label of a pop of thread t that gives up. */
  predicate GivesUp(l: Label, t: Tid) {
    l == Tau || l == GiveUp(t) || l == RetPop(t, None)
  }

  lemma {:induction false} OneGivingUp(a: Spec, ls: seq<Label>, t: Tid)
    requires Replay(a, ls).Some? && (forall l :: l in ls ==> GivesUp(l, t))
    requires OpOf(Replay(a, ls).value, t) == Free
    ensures Replay(a, ls).value.items == a.items && (OpOf(a, t) != Free ==> RetPop(t, None) in ls)
    decreases ls
  {
    if ls != [] {
      assert GivesUp(ls[0], t);
      var b := Next(a, ls[0]).value;
      OneGivingUp(b, ls[1..], t);
      assert ls == [ls[0]] + ls[1..];
    }
  }
}
