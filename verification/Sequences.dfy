/** Facts about sequences without repetition. */
module Sequences {
  ghost predicate NoDup<T>(q: seq<T>) {
    forall i, j :: 0 <= i < j < |q| ==> q[i] != q[j]
  }

  /** A sequence without repetition has as many elements as its set. */
  lemma {:induction false} NoDupSize<T>(q: seq<T>)
    requires NoDup(q)
    ensures |set x | x in q| == |q|
  {
    if q != [] {
      var front := q[..|q| - 1];
      NoDupSize(front);
      assert (set x | x in q) == (set x | x in front) + {q[|q| - 1]};
      assert q[|q| - 1] !in front;
    }
  }

  lemma SubsetSize<T>(a: set<T>, b: set<T>)
    requires a <= b
    ensures |a| <= |b|
    ensures a != b ==> |a| < |b|
  {
    assert b == a + (b - a);
    if a != b {
      assert b - a != {};
    }
  }

  lemma {:induction false} SetSize<T>(q: seq<T>)
    ensures |set x | x in q| <= |q|
  {
    if q != [] {
      SetSize(q[1..]);
      assert (set x | x in q) == (set x | x in q[1..]) + {q[0]};
    }
  }

  /** A repetition-free part of `q` that leaves out one of its elements is strictly shorter. */
  lemma ProperPartIsShorter<T>(part: seq<T>, q: seq<T>, x: T)
    requires NoDup(part) && x in q && x !in part
    requires forall y :: y in part ==> y in q
    ensures |part| < |q|
  {
    NoDupSize(part);
    SetSize(q);
    var small, large := set y | y in part, set y | y in q;
    assert small <= large && x in large && x !in small;
    SubsetSize(small, large);
  }

  /** A set that maps injectively into another one is no larger. */
  lemma {:induction false} InjectionSize<T, U>(a: set<T>, f: T -> U, b: set<U>)
    requires forall x :: x in a ==> f(x) in b
    requires forall x, y :: x in a && y in a && f(x) == f(y) ==> x == y
    ensures |a| <= |b|
    decreases a
  {
    if a != {} {
      var x :| x in a;
      InjectionSize(a - {x}, f, b - {f(x)});
    }
  }
}
