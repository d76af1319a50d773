/** A value that may be missing, and facts about sequences and sizes of sets. */
module Wrappers {

  datatype Option<T> = None | Some(value: T)

  lemma Rebracket<T>(a: seq<T>, b: seq<T>, c: seq<T>)
    ensures (a + b) + c == a + (b + c)
  {}

  lemma Inhabited<T>(s: set<T>)
    requires s != {}
    ensures exists x :: x in s
  {
    var x :| x in s;
  }

  lemma {:induction false} SubsetSize<T>(a: set<T>, b: set<T>)
    requires a <= b
    ensures |a| <= |b|
  {
    if a != {} {
      Inhabited(a);
      var x: T :| x in a;
      SubsetSize(a - {x}, b - {x});
    }
  }

  /** A proper subset is smaller. */
  lemma SubsetSmaller<T>(a: set<T>, b: set<T>, x: T)
    requires a <= b && x in b && x !in a
    ensures |a| < |b|
  {
    var rest := b - {x};
    assert a <= rest && b == rest + {x};
    SubsetSize(a, rest);
  }

  /** Different elements of a set are no more than it has. */
  lemma {:induction false} DistinctWithin<T>(q: seq<T>, s: set<T>)
    requires forall i, j | 0 <= i < j < |q| :: q[i] != q[j]
    requires forall x | x in q :: x in s
    ensures |q| <= |s|
  {
    if q != [] {
      var x := q[|q| - 1];
      DistinctWithin(q[..|q| - 1], s - {x});
    }
  }
}
