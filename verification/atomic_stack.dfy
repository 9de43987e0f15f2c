/** The atomic LIFO stack that the two lock-free stacks of inc/public/ts_stack.h are meant to be.

    An operation is called, takes effect in one indivisible step, and returns what that step
    found.  A concurrent stack whose every run produces labels this object accepts is
    linearizable: `LinPush` and `LinPop` are the linearization points. */
module AtomicStack {
  import opened Options

  type Value = int
  type Tid = nat

  /** Where a thread stands in its current operation. */
  datatype Op =
    | Free
    | Pushing(v: Value)
    | Pushed
    | Popping
    | Popped(res: Option<Value>)

  /** `items` holds the bottom of the stack first. */
  datatype Spec = Spec(items: seq<Value>, ops: map<Tid, Op>)

  datatype Label =
    | Tau
    | CallPush(t: Tid, v: Value)
    | LinPush(t: Tid, v: Value)
    | RetPush(t: Tid)
    | CallPop(t: Tid)
    | LinPop(t: Tid, res: Option<Value>)
    | RetPop(t: Tid, res: Option<Value>)

  const NEW_STACK := Spec([], map[])

  function OpOf(a: Spec, t: Tid): Op {
    if t in a.ops then a.ops[t] else Free
  }

  function Set(a: Spec, t: Tid, op: Op): Spec {
    a.(ops := a.ops[t := op])
  }

  function Top(items: seq<Value>): Option<Value> {
    if items == [] then None else Some(items[|items| - 1])
  }

  /** The effect of a label, or `None` when an atomic stack cannot produce it. */
  function Next(a: Spec, l: Label): Option<Spec> {
    match l
    case Tau => Some(a)
    case CallPush(t, v) => if OpOf(a, t) == Free then Some(Set(a, t, Pushing(v))) else None
    case LinPush(t, v) =>
      if OpOf(a, t) == Pushing(v) then Some(Set(a, t, Pushed).(items := a.items + [v])) else None
    case RetPush(t) => if OpOf(a, t) == Pushed then Some(Set(a, t, Free)) else None
    case CallPop(t) => if OpOf(a, t) == Free then Some(Set(a, t, Popping)) else None
    case LinPop(t, res) =>
      if OpOf(a, t) == Popping && res == Top(a.items) then
        Some(Set(a, t, Popped(res)).(items := if a.items == [] then [] else a.items[..|a.items| - 1]))
      else None
    case RetPop(t, res) => if OpOf(a, t) == Popped(res) then Some(Set(a, t, Free)) else None
  }

  function Replay(a: Spec, ls: seq<Label>): Option<Spec>
    decreases ls
  {
    if ls == [] then Some(a)
    else
      match Next(a, ls[0])
      case None => None
      case Some(b) => Replay(b, ls[1..])
  }

  /** Values that took effect as pushes, and values that took effect as pops. */
  function PushedIn(ls: seq<Label>): multiset<Value> {
    if ls == [] then multiset{}
    else Pushed1(ls[0]) + PushedIn(ls[1..])
  }

  function PoppedIn(ls: seq<Label>): multiset<Value> {
    if ls == [] then multiset{}
    else Popped1(ls[0]) + PoppedIn(ls[1..])
  }

  function Pushed1(l: Label): multiset<Value> {
    if l.LinPush? then multiset{l.v} else multiset{}
  }

  function Popped1(l: Label): multiset<Value> {
    if l.LinPop? && l.res.Some? then multiset{l.res.value} else multiset{}
  }

  lemma OneLabel(a: Spec, l: Label)
    requires Next(a, l).Some?
    ensures multiset(a.items) + Pushed1(l) == Popped1(l) + multiset(Next(a, l).value.items)
  {
    if l.LinPop? && a.items != [] {
      assert a.items == a.items[..|a.items| - 1] + [a.items[|a.items| - 1]];
    }
  }

  lemma Chain(a: multiset<Value>, i: multiset<Value>, o: multiset<Value>, b: multiset<Value>,
              i': multiset<Value>, o': multiset<Value>, c: multiset<Value>)
    requires a + i == o + b && b + i' == o' + c
    ensures a + (i + i') == (o + o') + c
  {
    assert a + (i + i') == (o + b) + i' == o + (o' + c);
  }

  /** Nothing is lost, invented or delivered twice: what was in the stack plus what was pushed is
      what was popped plus what is left. */
  lemma {:induction false} Conservation(a: Spec, ls: seq<Label>)
    requires Replay(a, ls).Some?
    ensures multiset(a.items) + PushedIn(ls) == PoppedIn(ls) + multiset(Replay(a, ls).value.items)
    decreases ls
  {
    if ls != [] {
      var b := Next(a, ls[0]).value;
      OneLabel(a, ls[0]);
      Conservation(b, ls[1..]);
      Chain(multiset(a.items), Pushed1(ls[0]), Popped1(ls[0]), multiset(b.items), PushedIn(ls[1..]), PoppedIn(ls[1..]),
            multiset(Replay(b, ls[1..]).value.items));
    }
  }

  lemma PoppedWasPushed(ls: seq<Label>)
    requires Replay(NEW_STACK, ls).Some?
    ensures PoppedIn(ls) <= PushedIn(ls)
  {
    Conservation(NEW_STACK, ls);
    var left := multiset(Replay(NEW_STACK, ls).value.items);
    forall v ensures PoppedIn(ls)[v] <= PushedIn(ls)[v] {
      assert (multiset(NEW_STACK.items) + PushedIn(ls))[v] == (PoppedIn(ls) + left)[v];
    }
  }

  // ---------------------------------------------------------------- one operation of one thread

  /** A label of thread t, but no call. */
  predicate GoesOn(l: Label, t: Tid) {
    match l
    case Tau => true
    case LinPush(u, _) => u == t
    case RetPush(u) => u == t
    case LinPop(u, _) => u == t
    case RetPop(u, _) => u == t
    case _ => false
  }

  function WithoutTop(items: seq<Value>): seq<Value> {
    if items == [] then [] else items[..|items| - 1]
  }

  /** What the stack holds once an operation that stands at `op` is over, and what that operation returns. */
  function ItemsAfter(items: seq<Value>, op: Op): seq<Value> {
    match op
    case Pushing(v) => items + [v]
    case Popping => WithoutTop(items)
    case _ => items
  }

  function ReturnOf(items: seq<Value>, op: Op, t: Tid): Label {
    match op
    case Pushing(_) => RetPush(t)
    case Pushed => RetPush(t)
    case Popping => RetPop(t, Top(items))
    case Popped(res) => RetPop(t, res)
    case Free => Tau
  }

  /** If nothing else happens until the operation of t is over, it has its effect and returns its answer. */
  lemma {:induction false} OneOperation(a: Spec, ls: seq<Label>, t: Tid)
    requires Replay(a, ls).Some? && (forall l :: l in ls ==> GoesOn(l, t))
    requires OpOf(Replay(a, ls).value, t) == Free
    ensures Replay(a, ls).value.items == ItemsAfter(a.items, OpOf(a, t))
    ensures OpOf(a, t) != Free ==> ReturnOf(a.items, OpOf(a, t), t) in ls
    decreases ls
  {
    if ls != [] {
      assert GoesOn(ls[0], t);
      var b := Next(a, ls[0]).value;
      OneOperation(b, ls[1..], t);
      assert ls == [ls[0]] + ls[1..];
    }
  }
}
