/** Small vocabulary shared by the models: options, sequences read as sets, and counting. */
module Prelude {

  datatype Option<+T> = None | Some(value: T)

  ghost function Elems<T>(s: seq<T>): set<T> {
    set x | x in s
  }

  ghost predicate Distinct<T>(s: seq<T>) {
    forall i, j :: 0 <= i < j < |s| ==> s[i] != s[j]
  }

  lemma DistinctAppend<T>(a: seq<T>, b: seq<T>)
    requires Distinct(a) && Distinct(b) && forall x :: x in a ==> x !in b
    ensures Distinct(a + b)
  {
    forall i, j | 0 <= i < j < |a + b|
      ensures (a + b)[i] != (a + b)[j]
    {
      if i < |a| <= j {
        assert a[i] in a && b[j - |a|] in b;
      }
    }
  }

  lemma {:induction false} DistinctCardinality<T>(s: seq<T>)
    requires Distinct(s)
    ensures |Elems(s)| == |s|
  {
    if s == [] {
      assert Elems(s) == {};
    } else {
      var front, last := s[..|s| - 1], s[|s| - 1];
      DistinctCardinality(front);
      assert Elems(s) == Elems(front) + {last};
      assert last !in front;
    }
  }

  lemma SubsetCardinality<T>(a: set<T>, b: set<T>)
    requires a <= b
    ensures |a| <= |b|
    ensures |a| == |b| ==> a == b
  {
    assert b == a + (b - a);
  }

  /** The integers 0 .. n - 1. */
  ghost function Range(n: nat): (r: set<int>)
    ensures |r| == n
    ensures forall i :: i in r <==> 0 <= i < n
  {
    if n == 0 then {} else Range(n - 1) + {n - 1}
  }

  function Ids(n: nat): seq<int> {
    seq(n, i => i)
  }

  lemma IdsListed(n: nat)
    ensures Distinct(Ids(n))
    ensures forall i :: i in Ids(n) <==> 0 <= i < n
  {
    forall i | 0 <= i < n
      ensures i in Ids(n)
    {
      assert Ids(n)[i] == i;
    }
  }

  /** Some member of a nonempty set: an arbitrary choice, such as the next element of an iterated set. */
  method Take<T(==)>(s: set<T>) returns (x: T)
    requires s != {}
    ensures x in s
  {
    x :| x in s;
  }

  lemma Member<T>(s: set<T>) returns (x: T)
    requires s != {}
    ensures x in s
  {
    x :| x in s;
  }

  /** Python's min over a set of integers. */
  method Min(s: set<int>) returns (m: int)
    requires s != {}
    ensures m in s && forall x :: x in s ==> m <= x
  {
    m := Take(s);
    var left := s - {m};
    while left != {}
      invariant m in s && left <= s
      invariant forall y :: y in s && y !in left ==> m <= y
      decreases left
    {
      var x := Take(left);
      if x < m {
        m := x;
      }
      left := left - {x};
    }
  }
}
