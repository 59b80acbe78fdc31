/** Daily time ranges given by times of day on fixed-offset clocks, in microseconds. */
module DailyRange {
  import opened Prelude
  import opened IntervalTrees

  const DAY := 86_400_000_000

  /** A time of day on the clock running `offset` ahead of UTC. */
  datatype Spec = Spec(tod: int, offset: int) {
    ghost predicate Valid() {
      0 <= tod < DAY
    }

    /** The spec's own clock shows its time of day at t. */
    ghost predicate Matches(t: int) {
      (t + offset) % DAY == tod
    }
  }

  /** The time of day, in UTC, at which a spec's clock shows it. */
  function Phase(spec: Spec): (p: int)
    ensures 0 <= p < DAY
    ensures forall t {:trigger spec.Matches(t)} :: spec.Valid() ==> (spec.Matches(t) <==> t % DAY == p)
  {
    (spec.tod - spec.offset) % DAY
  }

  /** The time of day at t lies in the cyclic range from start to end, which is all day when they coincide. */
  ghost predicate InRange(start: Spec, end: Spec, t: int) {
    var from, to, x := Phase(start), Phase(end), t % DAY;
    if from < to then from <= x < to else from <= x || x < to
  }

  /** The first match in [low, high]; none is the out-of-range error. */
  function ParseTimeOfDay(spec: Spec, low: int, high: int): (r: Option<int>)
    requires spec.Valid()
    ensures r.Some? ==> spec.Matches(r.value) && low <= r.value <= high && r.value < low + DAY
    ensures r.None? ==> high < low + DAY && forall t :: low <= t <= high ==> !spec.Matches(t)
  {
    var midnight := low - (low + spec.offset) % DAY;
    var sameDate := midnight + spec.tod;
    var found := if sameDate < low then sameDate + DAY else sameDate;
    if found > high then None else Some(found)
  }

  /** From the first end in the day after ref back to the first start in the day before that end. */
  function ParseTimeRange(start: Spec, end: Spec, ref: int): (r: Option<Span>)
    requires start.Valid() && end.Valid()
    ensures r.Some? && end.Matches(r.value.end) && start.Matches(r.value.begin)
    ensures ref <= r.value.end < ref + DAY && r.value.end - DAY <= r.value.begin < r.value.end
  {
    var last := ParseTimeOfDay(end, ref, ref + DAY);
    if last.None? then None
    else
      var first := ParseTimeOfDay(start, last.value - DAY, last.value);
      if first.None? then None else Some(Span(first.value, last.value))
  }

  lemma OncePerDay(spec: Spec, a: int, b: int)
    requires spec.Matches(a) && spec.Matches(b)
    ensures -DAY < a - b < DAY ==> a == b
    ensures DAY <= a - b < 2 * DAY ==> a == b + DAY
  {
  }

  lemma NextDay(spec: Spec, a: int)
    requires spec.Matches(a)
    ensures spec.Matches(a + DAY)
  {
  }

  /** One occurrence and its repetition a day later hold exactly the day's instants in the cyclic range. */
  lemma TwoOccurrences(start: Spec, end: Spec, ref: int, s: int, e: int, t: int)
    requires start.Valid() && end.Valid() && start.Matches(s) && end.Matches(e)
    requires e - DAY <= s < e && ref <= e < ref + DAY && ref <= t < ref + DAY
    ensures (s <= t < e || s + DAY <= t < e + DAY) <==> InRange(start, end, t)
  {
    var from, to, x := Phase(start), Phase(end), t % DAY;
    assert s % DAY == from && e % DAY == to;
    var i, j, k := s / DAY, e / DAY, t / DAY;
    assert s == i * DAY + from && e == j * DAY + to && t == k * DAY + x;
  }

  /** The range's occurrences meeting the day from ref; none is the out-of-range error. */
  method Evaluate(start: Spec, end: Spec, ref: int) returns (r: Option<seq<Span>>)
    requires start.Valid() && end.Valid()
    ensures r.Some? && |r.value| == 2
    ensures r.value[0].begin < r.value[0].end <= r.value[1].begin < r.value[1].end
    ensures forall t :: ref <= t < ref + DAY ==> (Covered(r.value, t) <==> InRange(start, end, t))
  {
    var first := ParseTimeRange(start, end, ref);
    if first.None? {
      return None;
    }
    var spans := [first.value];
    ghost var s, e := first.value.begin, first.value.end;
    if first.value.end < ref + DAY {
      var next := ParseTimeRange(start, end, first.value.begin + DAY);
      OncePerDay(end, next.value.end, e);
      if next.Some? {
        var begin, finish := next.value.begin, next.value.end;
        if finish == first.value.end {
          begin, finish := begin + DAY, finish + DAY;
        }
        spans := spans + [Span(begin, finish)];
      }
    }
    NextDay(start, s);
    NextDay(end, e);
    assert spans[1] == Span(s + DAY, e + DAY);
    forall t | ref <= t < ref + DAY
      ensures Covered(spans, t) <==> InRange(start, end, t)
    {
      TwoOccurrences(start, end, ref, s, e, t);
      assert Covered(spans, t) <==> spans[0].Covers(t) || spans[1].Covers(t);
    }
    return Some(spans);
  }
}
