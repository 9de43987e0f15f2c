/** `threadsafe_list` of inc/public/ts_list.h with its operations taken one at a time: a singly linked list
    behind a head node that carries no value, and a pointer to the last node. Locks are left out. */
module TsList {
  import opened Options

  type Value = int
  type Test = Value -> bool

  class Node {
    const data: Option<Value>
    var next: Node?

    constructor (data: Option<Value>)
      ensures this.data == data && next == null
    {
      this.data := data;
      next := null;
    }
  }

  /** The values that do not satisfy p, in order. */
  function Without(s: seq<Value>, p: Test): seq<Value> {
    if s == [] then [] else (if p(s[0]) then [] else [s[0]]) + Without(s[1..], p)
  }

  /** The place of the first value that satisfies p; |s| if there is none. */
  function FirstMatch(s: seq<Value>, p: Test): (i: nat)
    ensures i <= |s| && (i < |s| ==> p(s[i])) && forall j :: 0 <= j < i ==> !p(s[j])
  {
    if s == [] || p(s[0]) then 0 else
      var i := FirstMatch(s[1..], p);
      assert forall j :: 0 < j < i + 1 ==> s[j] == s[1..][j - 1];
      i + 1
  }

  function ValueOf(n: Node): Value {
    if n.data.Some? then n.data.value else 0
  }

  /** The values behind the head. */
  ghost function Values(spine: seq<Node>): (s: seq<Value>)
    requires spine != []
    ensures |s| == |spine| - 1
  {
    seq(|spine| - 1, i requires 0 <= i < |spine| - 1 => ValueOf(spine[i + 1]))
  }

  class List {
    const head: Node
    var last: Node
    ghost var spine: seq<Node>

    /** The nodes from the head on are distinct and linked, all but the head carry values, and the last one is
        where the pointer to the last node points. */
    ghost predicate Valid()
      reads this, spine
    {
      && spine != [] && spine[0] == head && last == spine[|spine| - 1]
      && (forall i, j :: 0 <= i < j < |spine| ==> spine[i] != spine[j])
      && (forall i :: 0 <= i < |spine| - 1 ==> spine[i].next == spine[i + 1])
      && spine[|spine| - 1].next == null
      && (forall i :: 0 < i < |spine| ==> spine[i].data.Some?)
    }

    ghost function Contents(): (s: seq<Value>)
      requires Valid()
      reads this, spine
      ensures |s| == |spine| - 1
    {
      Values(spine)
    }

    constructor ()
      ensures Valid() && Contents() == [] && fresh(spine)
    {
      var sentinel := new Node(None);
      head, last, spine := sentinel, sentinel, [sentinel];
    }

    method Empty() returns (e: bool)
      requires Valid()
      ensures e <==> Contents() == []
    {
      e := last == head;
      assert |spine| > 1 ==> spine[0] != spine[|spine| - 1];
    }

    method PushFront(value: Value)
      requires Valid()
      modifies this, head
      ensures Valid() && Contents() == [value] + old(Contents())
      ensures fresh(set n | n in spine && n !in old(spine))
    {
      var node := new Node(Some(value));
      node.next := head.next;
      head.next := node;
      ghost var was := spine;
      spine := [head, node] + spine[1..];
      if node.next == null {
        last := node;
      }
      assert |was| > 1 ==> node.next == was[1];
      assert forall i :: 1 <= i < |was| ==> was[i] != head;
      assert forall i :: 2 <= i < |spine| ==> spine[i] == was[i - 1];
    }

    method PushBack(value: Value)
      requires Valid()
      modifies this, last
      ensures Valid() && Contents() == old(Contents()) + [value]
      ensures fresh(set n | n in spine && n !in old(spine))
    {
      var node := new Node(Some(value));
      last.next := node;
      last := node;
      spine := spine + [node];
    }

    /** The node after spine[i] is unlinked; the pointer to the last node moves back when it was that one. */
    method Unlink(ghost i: nat, cur: Node, next: Node)
      requires Valid() && i + 1 < |spine| && cur == spine[i] && next == spine[i + 1]
      modifies this, cur, next
      ensures Valid() && spine == old(spine)[..i + 1] + old(spine)[i + 2..]
      ensures Contents() == old(Contents())[..i] + old(Contents())[i + 1..]
    {
      assert i + 2 < |spine| ==> next.next == spine[i + 2];
      cur.next := next.next;
      next.next := null;
      ghost var was := spine;
      spine := spine[..i + 1] + spine[i + 2..];
      if cur.next == null {
        last := cur;
      }
      assert forall j :: 0 <= j <= i ==> spine[j] == was[j];
      assert forall j :: i < j < |spine| ==> spine[j] == was[j + 1];
    }

    /** Only the last node has no next. */
    lemma AtTheEnd(i: nat)
      requires Valid() && i < |spine|
      ensures spine[i].next == null <==> i == |spine| - 1
    {
      if i < |spine| - 1 {
        assert spine[i].next == spine[i + 1];
      }
    }

    /** Exactly the values that do not satisfy p stay, in order. */
    method RemoveIf(p: Test)
      requires Valid()
      modifies this, spine
      ensures Valid() && Contents() == Without(old(Contents()), p)
      ensures forall n :: n in spine ==> n in old(spine)
    {
      hide Without;
      var cur := head;
      ghost var i := 0;
      while cur.next != null
        invariant Valid() && i < |spine| && cur == spine[i]
        invariant forall n :: n in spine ==> n in old(spine)
        invariant Contents()[..i] + Without(Contents()[i..], p) == Without(old(Contents()), p)
        decreases |spine| - i
      {
        var next := cur.next;
        assert next == spine[i + 1] && ValueOf(next) == Contents()[i];
        assert cur in spine && next in spine;
        ghost var c := Contents();
        WithoutHead(c, i, p);
        if p(next.data.value) {
          Unlink(i, cur, next);
          assert Contents()[..i] == c[..i] && Contents()[i..] == c[i + 1..];
        } else {
          cur := next;
          i := i + 1;
        }
      }
      AtTheEnd(i);
      NothingWithout(p);
      assert Contents()[..i] == Contents() && Contents()[i..] == [];
    }

    /** The first value that satisfies p goes, and nothing else. */
    method RemoveFirst(p: Test) returns (found: bool)
      requires Valid()
      modifies this, spine
      ensures Valid()
      ensures var k := FirstMatch(old(Contents()), p);
        && (found <==> k < |old(Contents())|)
        && Contents() == if found then old(Contents())[..k] + old(Contents())[k + 1..] else old(Contents())
      ensures forall n :: n in spine ==> n in old(spine)
    {
      hide FirstMatch, Without;
      var cur := head;
      ghost var i := 0;
      ghost var k := FirstMatch(Contents(), p);
      while cur.next != null
        invariant Valid() && i < |spine| && cur == spine[i] && spine == old(spine) && Contents() == old(Contents())
        invariant i <= k
        decreases |spine| - i
      {
        var next := cur.next;
        assert next == spine[i + 1] && ValueOf(next) == Contents()[i];
        if p(next.data.value) {
          Unlink(i, cur, next);
          return true;
        }
        cur := next;
        i := i + 1;
      }
      AtTheEnd(i);
      return false;
    }

    method FindFirstIf(p: Test) returns (r: Option<Value>)
      requires Valid()
      ensures var k := FirstMatch(Contents(), p); r == if k < |Contents()| then Some(Contents()[k]) else None
    {
      var cur := head;
      ghost var i := 0;
      ghost var k := FirstMatch(Contents(), p);
      while cur.next != null
        invariant i < |spine| && cur == spine[i] && i <= k
        decreases |spine| - i
      {
        var next := cur.next;
        assert next == spine[i + 1] && ValueOf(next) == Contents()[i];
        if p(next.data.value) {
          return next.data;
        }
        cur := next;
        i := i + 1;
      }
      AtTheEnd(i);
      return None;
    }
  }

  lemma WithoutHead(s: seq<Value>, i: nat, p: Test)
    requires i < |s|
    ensures s[..i] + Without(s[i..], p) ==
      if p(s[i]) then s[..i] + Without(s[i + 1..], p) else s[..i + 1] + Without(s[i + 1..], p)
  {
    assert s[i..][1..] == s[i + 1..];
    assert s[..i + 1] == s[..i] + [s[i]];
  }

  lemma NothingWithout(p: Test)
    ensures Without([], p) == []
  {
  }

  /** What Without means: its values are those of s that fail p, each as often as in s, in the order of s. */
  lemma {:induction false} WithoutKeeps(s: seq<Value>, p: Test)
    ensures forall v :: multiset(Without(s, p))[v] == if p(v) then 0 else multiset(s)[v]
    ensures Without(Without(s, p), p) == Without(s, p)
  {
    if s != [] {
      WithoutKeeps(s[1..], p);
      assert s == [s[0]] + s[1..];
      if !p(s[0]) {
        assert Without(s, p)[1..] == Without(s[1..], p);
      } else {
        assert Without(s, p) == Without(s[1..], p);
      }
    }
  }
}
