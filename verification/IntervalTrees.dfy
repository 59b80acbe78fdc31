/** Half-open intervals and the interval tree: a mutable finite set of them, by the library's abstract contract. */
module IntervalTrees {
  import opened Prelude

  /** A half-open interval of time. */
  datatype Span = Span(begin: int, end: int) {
    predicate Covers(t: int) {
      begin <= t < end
    }
  }

  /** An interval with its data. */
  datatype Interval<+T> = Interval(begin: int, end: int, data: T) {
    predicate Covers(t: int) {
      begin <= t < end
    }
  }

  ghost predicate Covered(spans: seq<Span>, t: int) {
    exists j :: 0 <= j < |spans| && spans[j].Covers(t)
  }

  /** No two intervals of the tree share a point. */
  ghost predicate Disjoint<T>(tree: set<Interval<T>>) {
    forall a, b, t :: a in tree && b in tree && a.Covers(t) && b.Covers(t) ==> a == b
  }

  ghost predicate Proper<T>(tree: set<Interval<T>>) {
    forall iv :: iv in tree ==> iv.begin < iv.end
  }

  /** The point-by-point meaning of a tree: the data of the intervals covering `t`. */
  ghost function DataAt<T>(tree: set<Interval<T>>, t: int): set<T> {
    set iv | iv in tree && iv.Covers(t) :: iv.data
  }

  /** The parts of one interval outside [begin, end). */
  function Outside<T(==)>(iv: Interval<T>, begin: int, end: int): set<Interval<T>> {
    (if iv.begin < begin then {Interval(iv.begin, if iv.end < begin then iv.end else begin, iv.data)} else {}) +
    (if end < iv.end then {Interval(if end < iv.begin then iv.begin else end, iv.end, iv.data)} else {})
  }

  ghost function Chopped<T>(tree: set<Interval<T>>, begin: int, end: int): set<Interval<T>> {
    set iv, x | iv in tree && x in Outside(iv, begin, end) :: x
  }

  /** Chopping removes exactly the range from every interval. */
  lemma ChopMeaning<T>(tree: set<Interval<T>>, begin: int, end: int, t: int)
    requires Proper(tree) && begin < end
    ensures DataAt(Chopped(tree, begin, end), t) == if begin <= t < end then {} else DataAt(tree, t)
  {
    var r := Chopped(tree, begin, end);
    forall x | x in r && x.Covers(t)
      ensures !(begin <= t < end) && x.data in DataAt(tree, t)
    {
      var iv :| iv in tree && x in Outside(iv, begin, end);
      assert iv.Covers(t);
    }
    forall iv | iv in tree && iv.Covers(t) && !(begin <= t < end)
      ensures iv.data in DataAt(r, t)
    {
      var x := if t < begin then Interval(iv.begin, if iv.end < begin then iv.end else begin, iv.data)
               else Interval(if end < iv.begin then iv.begin else end, iv.end, iv.data);
      assert x in Outside(iv, begin, end) && x in r && x.Covers(t);
    }
  }

  lemma ChopDisjoint<T>(tree: set<Interval<T>>, begin: int, end: int)
    requires Proper(tree) && Disjoint(tree) && begin < end
    ensures Proper(Chopped(tree, begin, end)) && Disjoint(Chopped(tree, begin, end))
  {
    var r := Chopped(tree, begin, end);
    hide Outside;
    forall a, b, t | a in r && b in r && a.Covers(t) && b.Covers(t)
      ensures a == b
    {
      var x :| x in tree && a in Outside(x, begin, end);
      var y :| y in tree && b in Outside(y, begin, end);
      PartOutside(x, begin, end, a, t);
      PartOutside(y, begin, end, b, t);
    }
    forall a | a in r
      ensures a.begin < a.end
    {
      var x :| x in tree && a in Outside(x, begin, end);
      PartOutside(x, begin, end, a, a.begin);
    }
  }

  /** A part left of an interval by a chop is nonempty, lies within the interval, and is the one on its side. */
  lemma PartOutside<T>(iv: Interval<T>, begin: int, end: int, part: Interval<T>, t: int)
    requires iv.begin < iv.end && begin < end && part in Outside(iv, begin, end)
    ensures part.begin < part.end
    ensures part.Covers(t) ==> iv.Covers(t) && part == (if t < begin
      then Interval(iv.begin, if iv.end < begin then iv.end else begin, iv.data)
      else Interval(if end < iv.begin then iv.begin else end, iv.end, iv.data))
  {
  }

  /** The tree with every interval straddling `point` split in two. */
  ghost function Sliced<T>(tree: set<Interval<T>>, point: int): set<Interval<T>> {
    set iv, x | iv in tree && x in Halves(iv, point) :: x
  }

  function Halves<T(==)>(iv: Interval<T>, point: int): set<Interval<T>> {
    if iv.begin < point < iv.end then {Interval(iv.begin, point, iv.data), Interval(point, iv.end, iv.data)} else {iv}
  }

  ghost predicate Straddled<T>(tree: set<Interval<T>>, point: int) {
    exists iv :: iv in tree && iv.begin < point < iv.end
  }

  /** Slicing changes no meaning and leaves nothing straddling the point; no other point becomes straddled. */
  lemma SliceMeaning<T>(tree: set<Interval<T>>, point: int)
    requires Proper(tree) && Disjoint(tree)
    ensures Proper(Sliced(tree, point)) && Disjoint(Sliced(tree, point))
    ensures forall t :: DataAt(Sliced(tree, point), t) == DataAt(tree, t)
    ensures !Straddled(Sliced(tree, point), point)
    ensures forall p :: Straddled(Sliced(tree, point), p) ==> Straddled(tree, p)
  {
    var r := Sliced(tree, point);
    forall x | x in r
      ensures exists iv :: iv in tree && x in Halves(iv, point)
    {
    }
    forall a, b, t | a in r && b in r && a.Covers(t) && b.Covers(t)
      ensures a == b
    {
      var x :| x in tree && a in Halves(x, point);
      var y :| y in tree && b in Halves(y, point);
      assert x.Covers(t) && y.Covers(t);
    }
    forall t
      ensures DataAt(r, t) == DataAt(tree, t)
    {
      SliceDataAt(tree, point, t);
    }
  }

  lemma SliceDataAt<T>(tree: set<Interval<T>>, point: int, t: int)
    ensures DataAt(Sliced(tree, point), t) == DataAt(tree, t)
  {
    var r := Sliced(tree, point);
    forall iv | iv in tree && iv.Covers(t)
      ensures iv.data in DataAt(r, t)
    {
      var x := if iv.begin < point < iv.end
               then if t < point then Interval(iv.begin, point, iv.data) else Interval(point, iv.end, iv.data)
               else iv;
      assert x in Halves(iv, point) && x in r && x.Covers(t);
    }
    forall x | x in r && x.Covers(t)
      ensures x.data in DataAt(tree, t)
    {
      var iv :| iv in tree && x in Halves(iv, point);
      assert iv.Covers(t);
    }
  }

  class IntervalTree<T(==)> {
    var ivs: set<Interval<T>>

    ghost predicate Valid()
      reads this
    {
      Proper(ivs)
    }

    constructor ()
      ensures Valid() && ivs == {}
    {
      ivs := {};
    }

    method Addi(begin: int, end: int, data: T)
      requires Valid() && begin < end
      modifies this
      ensures Valid() && ivs == old(ivs) + {Interval(begin, end, data)}
    {
      ivs := ivs + {Interval(begin, end, data)};
    }

    method Remove(iv: Interval<T>)
      requires Valid() && iv in ivs
      modifies this
      ensures Valid() && ivs == old(ivs) - {iv}
    {
      ivs := ivs - {iv};
    }

    method Chop(begin: int, end: int)
      requires Valid() && begin < end
      modifies this
      ensures ivs == Chopped(old(ivs), begin, end)
    {
      ivs := set iv, x | iv in ivs && x in Outside(iv, begin, end) :: x;
    }

    method Slice(point: int)
      requires Valid()
      modifies this
      ensures ivs == Sliced(old(ivs), point)
    {
      ivs := set iv, x | iv in ivs && x in Halves(iv, point) :: x;
    }

    predicate OverlapsPoint(point: int)
      reads this
    {
      exists iv :: iv in ivs && iv.Covers(point)
    }

    predicate Overlaps(begin: int, end: int)
      reads this
    {
      exists iv :: iv in ivs && iv.begin < end && begin < iv.end
    }

    function Envelop(begin: int, end: int): set<Interval<T>>
      reads this
    {
      if begin < end then set iv | iv in ivs && begin <= iv.begin && iv.end <= end else {}
    }

    function At(point: int): set<Interval<T>>
      reads this
    {
      set iv | iv in ivs && iv.Covers(point)
    }
  }
}
