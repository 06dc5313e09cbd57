/** The steque: a singly linked list with front and back pointers and a count. */
module Steque {
  import opened Wrappers

  class Node<T> {
    var item: T
    var next: Node?<T>

    constructor (i: T, n: Node?<T>)
      ensures item == i && next == n
    {
      item, next := i, n;
    }
  }

  /** `nodes` are linked one after the other, the last one to nothing. */
  ghost predicate Linked<T>(nodes: seq<Node<T>>)
    reads nodes
  {
    && (forall i, j :: 0 <= i < j < |nodes| ==> nodes[i] != nodes[j])
    && (forall i :: 0 <= i < |nodes| - 1 ==> nodes[i].next == nodes[i + 1])
    && (nodes != [] ==> nodes[|nodes| - 1].next == null)
  }

  class Steque<T> {
    var front: Node?<T>
    var back: Node?<T>
    var N: int
    /** The reachable nodes, front first. */
    ghost var spine: seq<Node<T>>

    /** Acyclic, `back` is the last reachable node, N is the length. */
    ghost predicate Valid()
      reads this, spine
    {
      && N == |spine| && Linked(spine)
      && (if spine == [] then front == null && back == null else front == spine[0] && back == spine[|spine| - 1])
    }

    /** The items, front first. */
    ghost function Contents(): (s: seq<T>)
      reads this, spine
    {
      seq(|spine|, i requires 0 <= i < |spine| reads this, spine => spine[i].item)
    }

    /** `steque_init` */
    constructor ()
      ensures Valid() && Contents() == []
      ensures spine == []
    {
      front, back, N, spine := null, null, 0, [];
    }

    method Enqueue(item: T)
      requires Valid()
      modifies this, spine
      ensures Valid() && Contents() == old(Contents()) + [item]
      ensures |spine| > 0 && spine[..|spine| - 1] == old(spine) && fresh(spine[|spine| - 1])
    {
      var node := new Node(item, null);
      if back == null {
        front := node;
      } else {
        back.next := node;
      }
      back := node;
      N := N + 1;
      spine := spine + [node];
    }

    method Push(item: T)
      requires Valid()
      modifies this
      ensures Valid() && Contents() == [item] + old(Contents())
      ensures |spine| > 0 && spine[1..] == old(spine) && fresh(spine[0])
    {
      var node := new Node(item, front);
      if back == null {
        back := node;
      }
      front := node;
      N := N + 1;
      spine := [node] + spine;
    }

    method Size() returns (n: int)
      requires Valid()
      ensures n == |Contents()|
    {
      return N;
    }

    method IsEmpty() returns (empty: bool)
      requires Valid()
      ensures empty <==> Contents() == []
    {
      return N == 0;
    }

    /** None: underflow, the process exits. */
    method Pop() returns (item: Option<T>)
      requires Valid()
      modifies this
      ensures Valid()
      ensures if old(Contents()) == [] then item == None && Contents() == [] && spine == []
        else item == Some(old(Contents())[0]) && Contents() == old(Contents())[1..] && spine == old(spine)[1..]
    {
      if front == null {
        return None;
      }
      var node := front;
      item := Some(node.item);
      front := front.next;
      if front == null {
        back := null;
      }
      N := N - 1;
      spine := spine[1..];
    }

    /** Moves the front item to the back by relinking; a single node is linked to itself for a moment. */
    method Cycle()
      requires Valid()
      modifies this, spine
      ensures Valid() && Contents() == Rotate(old(Contents())) && spine == Rotate(old(spine))
    {
      if back == null {
        return;
      }
      back.next := front;
      back := front;
      front := front.next;
      back.next := null;
      ghost var s := spine;
      spine := Rotate(s);
      assert spine[|s| - 1] == s[0] && forall i :: 0 <= i < |s| - 1 ==> spine[i] == s[i + 1];
      assert forall i :: 0 < i < |s| ==> s[i].next == if i < |s| - 1 then s[i + 1] else s[0];
    }

    /** None: underflow, the process exits. */
    method Front() returns (item: Option<T>)
      requires Valid()
      ensures item == if Contents() == [] then None else Some(Contents()[0])
    {
      if front == null {
        return None;
      }
      return Some(front.item);
    }

    method Destroy()
      requires Valid()
      modifies this
      ensures Valid() && Contents() == []
    {
      var empty := IsEmpty();
      while !empty
        invariant Valid() && (empty <==> Contents() == [])
        decreases |spine|
      {
        var item := Pop();
        empty := IsEmpty();
      }
    }
  }

  // ---------- cycling ----------

  function Rotate<T>(s: seq<T>): (r: seq<T>)
    ensures |r| == |s|
  {
    if s == [] then [] else s[1..] + [s[0]]
  }

  function Cycled<T>(s: seq<T>, n: nat): seq<T> {
    if n == 0 then s else Rotate(Cycled(s, n - 1))
  }

  /** After n cycles the first n items have moved to the back. */
  lemma {:induction false} CycledSplits<T>(s: seq<T>, n: nat)
    requires n <= |s|
    ensures Cycled(s, n) == s[n..] + s[..n]
  {
    if n > 0 {
      CycledSplits(s, n - 1);
      var t := s[n - 1..] + s[..n - 1];
      assert t[1..] == s[n..] + s[..n - 1] && t[0] == s[n - 1];
    } else {
      assert s[0..] + s[..0] == s;
    }
  }

  /** As many cycles as there are items restore the order. */
  lemma FullCycle<T>(s: seq<T>)
    ensures Cycled(s, |s|) == s
  {
    CycledSplits(s, |s|);
  }
}
