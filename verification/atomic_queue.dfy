/** The queue object behind `lock_free_queue`: first in, first out, except that a push may be
    dropped.  `Drop` is the label of a push whose value will never be delivered; a run without one
    is a run of the ordinary atomic queue. */
module AtomicQueue {
  import opened Options

  type Value = int

  /** The node counts of inc/public/ts_queue.h have 30 bits, so fewer than 2^30 threads. */
  const MAX_THREADS: nat := 0x3FFF_FFFF
  type Tid = t: nat | t < MAX_THREADS

  datatype Op =
    | Free
    | Pushing(v: Value)
    | Pushed
    | Dropped
    | Popping
    | Popped(res: Option<Value>)

  /** `items` holds the front of the queue first. */
  datatype Spec = Spec(items: seq<Value>, ops: map<Tid, Op>)

  datatype Label =
    | Tau
    | CallPush(t: Tid, v: Value)
    | LinPush(t: Tid, v: Value)
    | Drop(t: Tid)
    | RetPush(t: Tid)
    | CallPop(t: Tid)
    | LinPop(t: Tid, res: Option<Value>)
    | RetPop(t: Tid, res: Option<Value>)

  const NEW_QUEUE := Spec([], map[])

  function OpOf(a: Spec, t: Tid): Op {
    if t in a.ops then a.ops[t] else Free
  }

  function Set(a: Spec, t: Tid, op: Op): Spec {
    a.(ops := a.ops[t := op])
  }

  function Front(items: seq<Value>): Option<Value> {
    if items == [] then None else Some(items[0])
  }

  /** The effect of a label, or `None` when the queue cannot produce it. */
  function Next(a: Spec, l: Label): Option<Spec> {
    match l
    case Tau => Some(a)
    case CallPush(t, v) => if OpOf(a, t) == Free then Some(Set(a, t, Pushing(v))) else None
    case LinPush(t, v) =>
      if OpOf(a, t) == Pushing(v) then Some(Set(a, t, Pushed).(items := a.items + [v])) else None
    case Drop(t) => if OpOf(a, t).Pushing? then Some(Set(a, t, Dropped)) else None
    case RetPush(t) => if OpOf(a, t) == Pushed || OpOf(a, t) == Dropped then Some(Set(a, t, Free)) else None
    case CallPop(t) => if OpOf(a, t) == Free then Some(Set(a, t, Popping)) else None
    case LinPop(t, res) =>
      if OpOf(a, t) == Popping && res == Front(a.items) then
        Some(Set(a, t, Popped(res)).(items := if a.items == [] then [] else a.items[1..]))
      else None
    case RetPop(t, res) => if OpOf(a, t) == Popped(res) then Some(Set(a, t, Free)) else None
  }

  function Replay(a: Spec, ls: seq<Label>): Option<Spec>
    decreases ls
  {
    if ls == [] then Some(a)
    else
      match Next(a, ls[0])
      case None => None
      case Some(b) => Replay(b, ls[1..])
  }

  function Enters(l: Label): seq<Value> {
    if l.LinPush? then [l.v] else []
  }

  function Leaves(l: Label): seq<Value> {
    if l.LinPop? && l.res.Some? then [l.res.value] else []
  }

  /** The values that entered the queue, and the values that left it, in order. */
  function Entered(ls: seq<Label>): seq<Value> {
    if ls == [] then [] else Enters(ls[0]) + Entered(ls[1..])
  }

  function Left(ls: seq<Label>): seq<Value> {
    if ls == [] then [] else Leaves(ls[0]) + Left(ls[1..])
  }

  lemma OneLabel(a: Spec, l: Label)
    requires Next(a, l).Some?
    ensures a.items + Enters(l) == Leaves(l) + Next(a, l).value.items
  {
  }

  lemma Regroup(a: seq<Value>, i: seq<Value>, o: seq<Value>, b: seq<Value>, i': seq<Value>, o': seq<Value>,
                c: seq<Value>)
    requires a + i == o + b && b + i' == o' + c
    ensures a + (i + i') == (o + o') + c
  {
    assert a + (i + i') == (a + i) + i' == (o + b) + i' == o + (b + i') == o + (o' + c) == (o + o') + c;
  }

  /** First in, first out, each value at most once: what left is what entered, in the same order,
      short of exactly what is still inside. */
  lemma {:induction false} Fifo(a: Spec, ls: seq<Label>)
    requires Replay(a, ls).Some?
    ensures a.items + Entered(ls) == Left(ls) + Replay(a, ls).value.items
    decreases ls
  {
    if ls != [] {
      var b := Next(a, ls[0]).value;
      OneLabel(a, ls[0]);
      Fifo(b, ls[1..]);
      Regroup(a.items, Enters(ls[0]), Leaves(ls[0]), b.items, Entered(ls[1..]), Left(ls[1..]),
              Replay(b, ls[1..]).value.items);
    }
  }

  lemma FifoFromInit(ls: seq<Label>)
    requires Replay(NEW_QUEUE, ls).Some?
    ensures Entered(ls) == Left(ls) + Replay(NEW_QUEUE, ls).value.items
  {
    Fifo(NEW_QUEUE, ls);
    assert NEW_QUEUE.items + Entered(ls) == Entered(ls);
  }

  // ---------------------------------------------------------------- one pop of one thread

  /** A label of a pop of thread t, but no call. */
  predicate PopGoesOn(l: Label, t: Tid) {
    match l
    case Tau => true
    case LinPop(u, _) => u == t
    case RetPop(u, _) => u == t
    case _ => false
  }

  function WithoutFront(items: seq<Value>): seq<Value> {
    if items == [] then [] else items[1..]
  }

  /** If nothing else happens until the pop of t is over, it takes the front and returns it. */
  lemma {:induction false} OnePop(a: Spec, ls: seq<Label>, t: Tid)
    requires Replay(a, ls).Some? && (forall l :: l in ls ==> PopGoesOn(l, t))
    requires OpOf(Replay(a, ls).value, t) == Free
    ensures OpOf(a, t) == Popping ==>
            RetPop(t, Front(a.items)) in ls && Replay(a, ls).value.items == WithoutFront(a.items)
    ensures OpOf(a, t).Popped? ==> RetPop(t, OpOf(a, t).res) in ls && Replay(a, ls).value.items == a.items
    ensures OpOf(a, t) == Free ==> Replay(a, ls).value.items == a.items
    decreases ls
  {
    if ls != [] {
      assert PopGoesOn(ls[0], t);
      var b := Next(a, ls[0]).value;
      OnePop(b, ls[1..], t);
      assert ls == [ls[0]] + ls[1..];
    }
  }

  lemma {:induction false} ReplayConcat(a: Spec, p: seq<Label>, q: seq<Label>)
    requires Replay(a, p).Some?
    ensures Replay(a, p + q) == Replay(Replay(a, p).value, q)
    decreases p
  {
    if p == [] {
      assert p + q == q;
    } else {
      assert (p + q)[0] == p[0] && (p + q)[1..] == p[1..] + q;
      ReplayConcat(Next(a, p[0]).value, p[1..], q);
    }
  }
}
