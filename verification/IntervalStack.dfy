/** Stacking interval collections by precedence and stamping further data onto a tree. */
module IntervalStack {
  import opened Prelude
  import opened IntervalTrees

  ghost predicate CoveredBy(spans: set<Span>, t: int) {
    exists s :: s in spans && s.Covers(t)
  }

  ghost predicate ProperSpans(spans: set<Span>) {
    forall s :: s in spans ==> s.begin < s.end
  }

  /** The data of the last input covering `t`, if any does. */
  ghost function Top<T>(inputs: seq<set<Span>>, data: seq<T>, t: int): set<T>
    requires |inputs| <= |data|
  {
    if inputs == [] then {}
    else
      var n := |inputs| - 1;
      if CoveredBy(inputs[n], t) then {data[n]} else Top(inputs[..n], data, t)
  }

  /** Chopping a range out and adding an interval there overrides the meaning on exactly that range. */
  lemma Overlay<T>(tree: set<Interval<T>>, s: Span, data: T)
    requires Proper(tree) && Disjoint(tree) && s.begin < s.end
    ensures var tree' := Chopped(tree, s.begin, s.end) + {Interval(s.begin, s.end, data)};
      && Proper(tree') && Disjoint(tree')
      && forall t :: DataAt(tree', t) == if s.Covers(t) then {data} else DataAt(tree, t)
  {
    var chopped, iv := Chopped(tree, s.begin, s.end), Interval(s.begin, s.end, data);
    ChopDisjoint(tree, s.begin, s.end);
    forall t
      ensures DataAt(chopped, t) == if s.Covers(t) then {} else DataAt(tree, t)
      ensures DataAt(chopped + {iv}, t) == DataAt(chopped, t) + if iv.Covers(t) then {data} else {}
    {
      ChopMeaning(tree, s.begin, s.end, t);
      OneMore(chopped, iv, t);
    }
    forall x, t | x in chopped && x.Covers(t)
      ensures !iv.Covers(t)
    {
      assert x.data in DataAt(chopped, t);
    }
  }

  lemma OneMore<T>(tree: set<Interval<T>>, iv: Interval<T>, t: int)
    ensures DataAt(tree + {iv}, t) == DataAt(tree, t) + if iv.Covers(t) then {iv.data} else {}
  {
    forall d | d in DataAt(tree, t)
      ensures d in DataAt(tree + {iv}, t)
    {
      var x :| x in tree && x.Covers(t) && x.data == d;
      assert x in tree + {iv};
    }
    if iv.Covers(t) {
      assert iv in tree + {iv};
    }
  }

  /** Adds each input over the ones before it: the tree stays disjoint and shows the last covering input's data. */
  method StackTrees<T(==)>(inputs: seq<set<Span>>, data: seq<T>) returns (target: IntervalTree<T>)
    requires |data| == |inputs| && forall i :: 0 <= i < |inputs| ==> ProperSpans(inputs[i])
    ensures fresh(target) && target.Valid() && Disjoint(target.ivs)
    ensures forall t :: DataAt(target.ivs, t) == Top(inputs, data, t)
  {
    target := new IntervalTree<T>();
    for i := 0 to |inputs|
      invariant fresh(target) && target.Valid() && Disjoint(target.ivs)
      invariant forall t :: DataAt(target.ivs, t) == Top(inputs[..i], data, t)
    {
      var left := inputs[i];
      while left != {}
        invariant fresh(target) && target.Valid() && Disjoint(target.ivs) && left <= inputs[i]
        invariant forall t ::
          DataAt(target.ivs, t) == if CoveredBy(inputs[i] - left, t) then {data[i]} else Top(inputs[..i], data, t)
        decreases left
      {
        var s := Take(left);
        Overlay(target.ivs, s, data[i]);
        target.Chop(s.begin, s.end);
        target.Addi(s.begin, s.end, data[i]);
        forall t
          ensures CoveredBy(inputs[i] - (left - {s}), t) <==> s.Covers(t) || CoveredBy(inputs[i] - left, t)
        {
          CoveredOneMore(inputs[i], left, s, t);
        }
        left := left - {s};
      }
      assert inputs[i] - left == inputs[i];
      assert inputs[..i + 1][..i] == inputs[..i];
    }
    assert inputs[..|inputs|] == inputs;
  }

  lemma CoveredOneMore(all: set<Span>, left: set<Span>, s: Span, t: int)
    requires s in left && left <= all
    ensures CoveredBy(all - (left - {s}), t) <==> s.Covers(t) || CoveredBy(all - left, t)
  {
    if s.Covers(t) {
      assert s in all - (left - {s});
    }
    if x :| x in all - left && x.Covers(t) {
      assert x in all - (left - {s});
    }
  }

  // ---- Stamping ---------------------------------------------------------------------------

  /** The meaning a set of stamps gives data `before` at time `t`. */
  ghost function StampedAt<T, S>(before: set<T>, stamps: set<Interval<S>>, merge: (T, S) -> T, t: int): set<T> {
    if exists s :: s in stamps && s.Covers(t)
    then set d, s | d in before && s in stamps && s.Covers(t) :: merge(d, s.data)
    else before
  }

  ghost function Restamped<T, S>(tree: set<Interval<T>>, s: Interval<S>, merge: (T, S) -> T): set<Interval<T>> {
    set iv | iv in tree :: Restamp(iv, s, merge)
  }

  /** One interval's data merged if it lies within the stamp. */
  function Restamp<T, S>(iv: Interval<T>, s: Interval<S>, merge: (T, S) -> T): Interval<T> {
    if s.begin <= iv.begin && iv.end <= s.end then Interval(iv.begin, iv.end, merge(iv.data, s.data)) else iv
  }

  /** With nothing straddling its endpoints, a stamp merges exactly the data within it. */
  lemma StampMeaning<T, S>(tree: set<Interval<T>>, s: Interval<S>, merge: (T, S) -> T)
    requires Proper(tree) && Disjoint(tree) && s.begin < s.end
    requires !Straddled(tree, s.begin) && !Straddled(tree, s.end)
    ensures Proper(Restamped(tree, s, merge)) && Disjoint(Restamped(tree, s, merge))
    ensures forall t :: DataAt(Restamped(tree, s, merge), t) == StampedAt(DataAt(tree, t), {s}, merge, t)
  {
    var r := Restamped(tree, s, merge);
    forall a, b, t | a in r && b in r && a.Covers(t) && b.Covers(t)
      ensures a == b
    {
      var x :| x in tree && a == Restamp(x, s, merge);
      var y :| y in tree && b == Restamp(y, s, merge);
      assert x.Covers(t) && y.Covers(t);
    }
    forall t
      ensures DataAt(r, t) == StampedAt(DataAt(tree, t), {s}, merge, t)
    {
      StampPoint(tree, s, merge, t);
    }
  }

  lemma StampPoint<T, S>(tree: set<Interval<T>>, s: Interval<S>, merge: (T, S) -> T, t: int)
    requires Proper(tree) && s.begin < s.end
    requires !Straddled(tree, s.begin) && !Straddled(tree, s.end)
    ensures DataAt(Restamped(tree, s, merge), t) == StampedAt(DataAt(tree, t), {s}, merge, t)
  {
    var r, before := Restamped(tree, s, merge), DataAt(tree, t);
    forall iv | iv in tree && iv.Covers(t)
      ensures Restamp(iv, s, merge) in r && Restamp(iv, s, merge).Covers(t)
      ensures Restamp(iv, s, merge).data == if s.Covers(t) then merge(iv.data, s.data) else iv.data
    {
      assert !(iv.begin < s.begin < iv.end) && !(iv.begin < s.end < iv.end);
    }
    var now := StampedAt(before, {s}, merge, t);
    assert s in {s};
    forall x | x in r && x.Covers(t)
      ensures x.data in now
    {
      var iv :| iv in tree && x == Restamp(iv, s, merge);
      assert iv.Covers(t) && iv.data in before;
    }
    forall d | d in now
      ensures d in DataAt(r, t)
    {
      var iv :| iv in tree && iv.Covers(t) && d == if s.Covers(t) then merge(iv.data, s.data) else iv.data;
      assert Restamp(iv, s, merge) in r;
    }
  }

  /** The tree when the stamp has reached all of `all` but `left`. */
  ghost function Partly<T, S>(sliced: set<Interval<T>>, all: set<Interval<T>>, left: set<Interval<T>>, s: Interval<S>,
                              merge: (T, S) -> T): set<Interval<T>> {
    (sliced - all) + left + set iv | iv in all - left :: Restamp(iv, s, merge)
  }

  lemma PartlyMoves<T, S>(sliced: set<Interval<T>>, all: set<Interval<T>>, left: set<Interval<T>>, s: Interval<S>,
                          merge: (T, S) -> T, iv: Interval<T>)
    requires Proper(sliced) && Disjoint(sliced) && left <= all <= sliced && iv in left
    ensures Partly(sliced, all, left - {iv}, s, merge)
         == Partly(sliced, all, left, s, merge) - {iv} + {Restamp(iv, s, merge)}
  {
    forall x | x in all - left && Restamp(x, s, merge) == iv
      ensures false
    {
      assert x.Covers(iv.begin) && iv.Covers(iv.begin);
    }
    assert all - (left - {iv}) == (all - left) + {iv};
    var moved := set x | x in all - left :: Restamp(x, s, merge);
    var moved' := set x | x in all - (left - {iv}) :: Restamp(x, s, merge);
    assert moved' == moved + {Restamp(iv, s, merge)};
    assert iv !in moved;
  }

  method SliceAt<T(==)>(target: IntervalTree<T>, point: int)
    requires target.Valid() && Disjoint(target.ivs)
    modifies target
    ensures target.Valid() && Disjoint(target.ivs)
    ensures forall t :: DataAt(target.ivs, t) == old(DataAt(target.ivs, t))
    ensures !Straddled(target.ivs, point)
    ensures forall p :: Straddled(target.ivs, p) ==> old(Straddled(target.ivs, p))
  {
    if target.OverlapsPoint(point) {
      SliceMeaning(target.ivs, point);
      target.Slice(point);
    }
  }

  /** Replaces, one at a time, every interval inside the stamp by its merged form. */
  method MergeInside<T(==), S>(target: IntervalTree<T>, s: Interval<S>, merge: (T, S) -> T)
    requires target.Valid() && Disjoint(target.ivs) && s.begin < s.end
    modifies target
    ensures target.Valid() && target.ivs == Restamped(old(target.ivs), s, merge)
  {
    var left := target.Envelop(s.begin, s.end);
    ghost var all := left;
    ghost var sliced := target.ivs;
    assert target.ivs == Partly(sliced, all, left, s, merge);
    while left != {}
      invariant target.Valid() && left <= all
      invariant target.ivs == Partly(sliced, all, left, s, merge)
      decreases left
    {
      var iv := Take(left);
      PartlyMoves(sliced, all, left, s, merge, iv);
      target.Remove(iv);
      target.Addi(iv.begin, iv.end, merge(iv.data, s.data));
      left := left - {iv};
    }
    assert forall iv :: iv in sliced - all ==> Restamp(iv, s, merge) == iv;
    assert sliced == (sliced - all) + (all - left);
  }

  /** Slices the target on the stamp's boundaries and merges the data of every interval inside it. */
  method StampOne<T(==), S>(target: IntervalTree<T>, s: Interval<S>, merge: (T, S) -> T)
    requires target.Valid() && Disjoint(target.ivs) && s.begin < s.end
    modifies target
    ensures target.Valid() && Disjoint(target.ivs)
    ensures forall t :: DataAt(target.ivs, t) == StampedAt(old(DataAt(target.ivs, t)), {s}, merge, t)
  {
    hide DataAt, Straddled, Disjoint, Proper, StampedAt, Restamped;
    SliceAt(target, s.begin);
    SliceAt(target, s.end);
    StampMeaning(target.ivs, s, merge);
    MergeInside(target, s, merge);
  }

  /** Stamping by disjoint stamps, in any order, merges at each time the one stamp covering it. */
  method StampTrees<T(==), S(==)>(target: IntervalTree<T>, stamps: set<Interval<S>>, merge: (T, S) -> T)
    requires target.Valid() && Disjoint(target.ivs) && Proper(stamps) && Disjoint(stamps)
    modifies target
    ensures target.Valid() && Disjoint(target.ivs)
    ensures forall t :: DataAt(target.ivs, t) == StampedAt(old(DataAt(target.ivs, t)), stamps, merge, t)
  {
    var left := stamps;
    ghost var first := target.ivs;
    while left != {}
      invariant target.Valid() && Disjoint(target.ivs) && left <= stamps
      invariant forall t :: DataAt(target.ivs, t) == StampedAt(DataAt(first, t), stamps - left, merge, t)
      decreases left
    {
      var s := Take(left);
      StampOne(target, s, merge);
      forall t
        ensures DataAt(target.ivs, t) == StampedAt(DataAt(first, t), stamps - (left - {s}), merge, t)
      {
        StampMore(DataAt(first, t), stamps, left, s, merge, t);
      }
      left := left - {s};
    }
    assert stamps - left == stamps;
  }

  lemma StampMore<T, S>(before: set<T>, stamps: set<Interval<S>>, left: set<Interval<S>>, s: Interval<S>,
                        merge: (T, S) -> T, t: int)
    requires Disjoint(stamps) && left <= stamps && s in left
    ensures StampedAt(StampedAt(before, stamps - left, merge, t), {s}, merge, t) ==
            StampedAt(before, stamps - (left - {s}), merge, t)
  {
    var done, done' := stamps - left, stamps - (left - {s});
    assert done' == done + {s} && s in {s};
    if s.Covers(t) {
      assert forall x :: x in done ==> !x.Covers(t);
      assert forall x :: x in done' && x.Covers(t) <==> x == s;
    } else {
      assert forall x :: x in done' && x.Covers(t) <==> x in done && x.Covers(t);
      if x :| x in done && x.Covers(t) {
        assert x in done';
      }
    }
  }
}
