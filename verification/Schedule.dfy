/** Operating modes, program offers, and the schedule they make, down to the intent read at one time. */
module Schedule {
  import opened Prelude
  import opened IntervalTrees
  import opened IntervalSweep
  import opened IntervalStack

  datatype ModeState = Operate | Standby

  /** What evaluating one criterion gives: its intervals, or an exception. */
  datatype Criterion = Yields(spans: seq<Span>) | Raises

  datatype Mode = Mode(name: string, state: ModeState) {
    /** `Mode.__lt__`: operate modes order before standby modes, and nothing else is ordered. */
    predicate Less(other: Mode) {
      state != other.state && state == Operate
    }
  }

  /** It raises nothing and yields no null interval, which an interval tree refuses. */
  ghost predicate SoundCriterion(c: Criterion) {
    c.Yields? && forall j :: 0 <= j < |c.spans| ==> c.spans[j].begin < c.spans[j].end
  }

  /** Every criterion holds at `t`, none fails to evaluate, and there is at least one. */
  ghost predicate Holds(criteria: seq<Criterion>, t: int) {
    && criteria != []
    && forall i :: 0 <= i < |criteria| ==> SoundCriterion(criteria[i]) && Covered(criteria[i].spans, t)
  }

  // ---- Merging overlaps -------------------------------------------------------------------

  ghost predicate ByBegin(spans: seq<Span>) {
    forall i, j :: 0 <= i < j < |spans| ==> spans[i].begin <= spans[j].begin
  }

  ghost predicate AllProper(spans: seq<Span>) {
    forall j :: 0 <= j < |spans| ==> spans[j].begin < spans[j].end
  }

  function InsertSpan(spans: seq<Span>, s: Span): (r: seq<Span>)
    requires ByBegin(spans)
    ensures ByBegin(r) && forall x :: x in r <==> x == s || x in spans
  {
    if spans == [] || s.begin <= spans[0].begin then
      assert forall x :: x in spans ==> spans[0].begin <= x.begin;
      [s] + spans
    else
      var rest := InsertSpan(spans[1..], s);
      assert forall x :: x in spans <==> x == spans[0] || x in spans[1..];
      assert forall x :: x in rest ==> spans[0].begin <= x.begin;
      [spans[0]] + rest
  }

  lemma CoveredIn(spans: seq<Span>, t: int)
    ensures Covered(spans, t) <==> exists s :: s in spans && s.Covers(t)
  {
    if Covered(spans, t) {
      var j :| 0 <= j < |spans| && spans[j].Covers(t);
      assert spans[j] in spans;
    }
    if s :| s in spans && s.Covers(t) {
      var j :| 0 <= j < |spans| && spans[j] == s;
      assert spans[j].Covers(t);
    }
  }

  method SortSpans(spans: seq<Span>) returns (r: seq<Span>)
    ensures ByBegin(r) && forall x :: x in r <==> x in spans
  {
    r := [];
    for i := 0 to |spans|
      invariant ByBegin(r) && forall x :: x in r <==> x in spans[..i]
    {
      r := InsertSpan(r, spans[i]);
      assert spans[..i + 1] == spans[..i] + [spans[i]];
    }
    assert spans[..|spans|] == spans;
  }

  /** Disjoint spans in order, none reaching past `end`. */
  ghost predicate Chain(spans: seq<Span>) {
    AllProper(spans) && forall i, j :: 0 <= i < j < |spans| ==> spans[i].end < spans[j].begin
  }

  /** merge_overlaps(strict=False): joins overlapping and touching spans without changing what they cover. */
  method MergeOverlaps(spans: seq<Span>) returns (merged: seq<Span>)
    requires AllProper(spans)
    ensures DisjointSpans(merged)
    ensures forall t :: Covered(merged, t) <==> Covered(spans, t)
    ensures merged == [] <==> spans == []
  {
    var sorted := SortSpans(spans);
    merged := [];
    for i := 0 to |sorted|
      invariant Chain(merged) && (merged == [] <==> i == 0)
      invariant merged != [] ==> merged[|merged| - 1].begin <= sorted[i - 1].begin
      invariant forall t :: Covered(merged, t) <==> Covered(sorted[..i], t)
    {
      var s := sorted[i];
      assert s in sorted;
      assert s in spans;
      ghost var was := merged;
      if merged != [] && s.begin <= merged[|merged| - 1].end {
        var last := merged[|merged| - 1];
        merged := merged[..|merged| - 1] + [Joined(last, s)];
      } else {
        merged := merged + [s];
      }
      forall t
        ensures Covered(merged, t) <==> Covered(sorted[..i + 1], t)
      {
        JoinCovers(was, s, merged, sorted, i, t);
      }
    }
    assert sorted[..|sorted|] == sorted;
    forall t
      ensures Covered(merged, t) <==> Covered(spans, t)
    {
      CoveredIn(sorted, t);
      CoveredIn(spans, t);
    }
    if spans != [] {
      assert spans[0] in sorted;
    }
    if sorted != [] {
      assert sorted[0] in sorted;
    }
  }

  lemma LastCovers(spans: seq<Span>, t: int)
    requires spans != []
    ensures Covered(spans, t) <==> Covered(spans[..|spans| - 1], t) || spans[|spans| - 1].Covers(t)
  {
    var n := |spans| - 1;
    if Covered(spans[..n], t) {
      var j :| 0 <= j < n && spans[..n][j].Covers(t);
      assert spans[j].Covers(t);
    }
    if Covered(spans, t) {
      var j :| 0 <= j < |spans| && spans[j].Covers(t);
      assert j < n ==> spans[..n][j].Covers(t);
    }
  }

  function Joined(a: Span, b: Span): Span {
    Span(a.begin, if a.end < b.end then b.end else a.end)
  }

  lemma JoinCovers(was: seq<Span>, s: Span, merged: seq<Span>, sorted: seq<Span>, i: nat, t: int)
    requires i < |sorted| && sorted[i] == s && Chain(was) && s.begin < s.end
    requires was != [] ==> was[|was| - 1].begin <= s.begin
    requires merged == if was != [] && s.begin <= was[|was| - 1].end
      then was[..|was| - 1] + [Joined(was[|was| - 1], s)]
      else was + [s]
    requires Covered(was, t) <==> Covered(sorted[..i], t)
    ensures Covered(merged, t) <==> Covered(sorted[..i + 1], t)
  {
    LastCovers(sorted[..i + 1], t);
    assert sorted[..i + 1][..i] == sorted[..i];
    LastCovers(merged, t);
    if was != [] {
      LastCovers(was, t);
    }
    if was != [] && s.begin <= was[|was| - 1].end {
      assert merged[..|merged| - 1] == was[..|was| - 1];
    } else {
      assert merged[..|merged| - 1] == was;
    }
  }

  // ---- Evaluating and ordering modes ------------------------------------------------------

  predicate HasNull(spans: seq<Span>) {
    exists j :: 0 <= j < |spans| && spans[j].end <= spans[j].begin
  }

  /** `Mode.evaluate`: the times at which every criterion holds, or None where evaluation raises. */
  method EvaluateMode(criteria: seq<Criterion>) returns (r: Option<set<Span>>)
    ensures r.Some? ==> ProperSpans(r.value) && forall t :: CoveredBy(r.value, t) <==> Holds(criteria, t)
    ensures r.None? ==> forall t :: !Holds(criteria, t)
  {
    var trees: seq<seq<Span>> := [];
    for i := 0 to |criteria|
      invariant |trees| == i
      invariant forall j :: 0 <= j < i ==> SoundCriterion(criteria[j]) && DisjointSpans(trees[j])
      invariant forall j, t :: 0 <= j < i ==> (Covered(trees[j], t) <==> Covered(criteria[j].spans, t))
    {
      var c := criteria[i];
      if c.Raises? || HasNull(c.spans) {
        assert !SoundCriterion(criteria[i]);
        return None;
      }
      if c.spans == [] {
        assert forall t :: !Covered(criteria[i].spans, t);
        return Some({});
      }
      var merged := MergeOverlaps(c.spans);
      trees := trees + [merged];
    }
    var target := new IntervalTree<()>();
    ghost var added := IntersectTrees(trees, target);
    var spans := set iv | iv in target.ivs :: Span(iv.begin, iv.end);
    assert target.ivs == added;
    forall t
      ensures CoveredBy(spans, t) <==> Holds(criteria, t)
    {
      SpansCover(added, spans, t);
      assert criteria != [] ==> Meets(trees, added, t);
    }
    return Some(spans);
  }

  lemma SpansCover<T>(tree: set<Interval<T>>, spans: set<Span>, t: int)
    requires spans == set iv | iv in tree :: Span(iv.begin, iv.end)
    ensures CoveredBy(spans, t) <==> exists iv :: iv in tree && iv.Covers(t)
  {
    if iv :| iv in tree && iv.Covers(t) {
      assert Span(iv.begin, iv.end) in spans;
    }
  }

  function ModesOf(modes: seq<Mode>, state: ModeState): seq<Mode> {
    if modes == [] then []
    else
      ModesOf(modes[..|modes| - 1], state) + if modes[|modes| - 1].state == state then [modes[|modes| - 1]] else []
  }

  lemma {:induction false} ModesOfState(modes: seq<Mode>, state: ModeState)
    ensures forall i :: 0 <= i < |ModesOf(modes, state)| ==> ModesOf(modes, state)[i].state == state
  {
    if modes != [] {
      ModesOfState(modes[..|modes| - 1], state);
    }
  }

  lemma ModesOfMore(modes: seq<Mode>, i: nat)
    requires i < |modes|
    ensures forall state ::
      ModesOf(modes[..i + 1], state) == ModesOf(modes[..i], state) + ModesOf([modes[i]], state)
  {
    assert modes[..i + 1][..i] == modes[..i];
    assert [modes[i]][..0] == [];
  }

  /** Inserts a mode before the first that it may not follow. */
  method InsertMode(r: seq<Mode>, x: Mode, ghost standby: seq<Mode>, ghost operate: seq<Mode>) returns (r': seq<Mode>)
    requires r == standby + operate
    requires forall i :: 0 <= i < |standby| ==> standby[i].state == Standby
    requires forall i :: 0 <= i < |operate| ==> operate[i].state == Operate
    ensures r' == if x.state == Standby then (standby + [x]) + operate else standby + (operate + [x])
  {
    var at := 0;
    while at < |r| && !r[at].Less(x)
      invariant 0 <= at <= |r|
      invariant x.state == Standby ==> at <= |standby|
    {
      at := at + 1;
    }
    r' := r[..at] + [x] + r[at..];
    assert at == if x.state == Standby then |standby| else |r|;
  }

  /** sorted(modes, reverse=True): standby modes, then operate modes, each group in its configured order. */
  method SortModes(modes: seq<Mode>) returns (r: seq<Mode>)
    ensures r == ModesOf(modes, Standby) + ModesOf(modes, Operate)
  {
    r := [];
    assert ModesOf([], Standby) == [] == ModesOf([], Operate);
    hide ModesOf;
    for i := 0 to |modes|
      invariant r == ModesOf(modes[..i], Standby) + ModesOf(modes[..i], Operate)
    {
      ModesOfMore(modes, i);
      ModesOfState(modes[..i], Standby);
      ModesOfState(modes[..i], Operate);
      r := InsertMode(r, modes[i], ModesOf(modes[..i], Standby), ModesOf(modes[..i], Operate));
    }
    assert modes[..|modes|] == modes;
  }

  type Evaluation = Mode -> seq<Criterion>

  /** The last listed mode that holds at `t`. */
  ghost function LastHolding(modes: seq<Mode>, ev: Evaluation, t: int): Option<Mode> {
    if modes == [] then None
    else if Holds(ev(modes[|modes| - 1]), t) then Some(modes[|modes| - 1])
    else LastHolding(modes[..|modes| - 1], ev, t)
  }

  /** The mode in effect: the last configured operate mode that holds, or else the last standby mode that holds. */
  ghost function ModeAt(modes: seq<Mode>, ev: Evaluation, t: int): Option<Mode> {
    var operate := LastHolding(ModesOf(modes, Operate), ev, t);
    if operate.Some? then operate else LastHolding(ModesOf(modes, Standby), ev, t)
  }

  lemma {:induction false} LastHoldingAppend(a: seq<Mode>, b: seq<Mode>, ev: Evaluation, t: int)
    ensures var last := LastHolding(b, ev, t);
      LastHolding(a + b, ev, t) == if last.Some? then last else LastHolding(a, ev, t)
  {
    if b == [] {
      assert a + b == a;
    } else {
      assert (a + b)[..|a + b| - 1] == a + b[..|b| - 1];
      LastHoldingAppend(a, b[..|b| - 1], ev, t);
    }
  }

  // ---- Ranking program offers -------------------------------------------------------------

  datatype Offer = Offer(program: string, windows: seq<Span>)

  ghost predicate Configured(offers: seq<Offer>, enabled: set<string>, priority: map<string, int>) {
    && AllPriced(offers, enabled, priority)
    && Offered(offers)
  }

  /** Every enabled program with an offer is configured, and so has a priority. */
  predicate AllPriced(offers: seq<Offer>, enabled: set<string>, priority: map<string, int>) {
    forall n :: 0 <= n < |offers| && offers[n].program in enabled ==> offers[n].program in priority
  }

  /** Each program is offered under one key, by windows that do not run backwards. */
  ghost predicate Offered(offers: seq<Offer>) {
    && (forall m, n :: 0 <= m < n < |offers| ==> offers[m].program != offers[n].program)
    && (forall n, j :: 0 <= n < |offers| && 0 <= j < |offers[n].windows| ==>
      offers[n].windows[j].begin <= offers[n].windows[j].end)
  }

  /** Offer `m` is ranked before offer `n`: lower priority number first, and offered order at a tie. */
  ghost predicate Before(offers: seq<Offer>, priority: map<string, int>, m: int, n: int) {
    && 0 <= m < |offers| && 0 <= n < |offers|
    && offers[m].program in priority && offers[n].program in priority
    && var p, q := priority[offers[m].program], priority[offers[n].program];
       p < q || (p == q && m < n)
  }

  /** `r` lists the enabled offers by rank; `at` names their places among all offers. */
  ghost predicate RankedList(offers: seq<Offer>, enabled: set<string>, priority: map<string, int>, r: seq<Offer>,
      at: seq<int>) {
    && |at| == |r|
    && (forall k :: 0 <= k < |r| ==> 0 <= at[k] < |offers| && r[k] == offers[at[k]] && r[k].program in enabled)
    && AllBefore(offers, priority, at)
  }

  /** sorted() of the enabled offers by configured priority, which is stable. */
  method RankOffers(offers: seq<Offer>, enabled: set<string>, priority: map<string, int>)
    returns (r: seq<Offer>, ghost at: seq<int>)
    requires Configured(offers, enabled, priority)
    ensures RankedList(offers, enabled, priority, r, at)
    ensures forall n :: 0 <= n < |offers| && offers[n].program in enabled ==> n in at
    ensures forall o :: o in r <==> o in offers && o.program in enabled
  {
    r, at := [], [];
    assert RankedList(offers, enabled, priority, r, at);
    hide AllBefore;
    for i := 0 to |offers|
      invariant RankedList(offers, enabled, priority, r, at)
      invariant forall n :: n in at ==> n < i
      invariant forall n :: 0 <= n < i && offers[n].program in enabled ==> n in at
    {
      if offers[i].program in enabled {
        var k := 0;
        assert forall l :: 0 <= l < |r| ==> r[l] == offers[at[l]] && at[l] in at && r[l].program in priority;
        while k < |r| && priority[r[k].program] <= priority[offers[i].program]
          invariant 0 <= k <= |r|
          invariant forall l :: 0 <= l < k ==> Before(offers, priority, at[l], i)
        {
          k := k + 1;
        }
        RankInsert(offers, enabled, priority, r, at, i, k);
        r, at := r[..k] + [offers[i]] + r[k..], at[..k] + [i] + at[k..];
      }
    }
    forall o | o in offers && o.program in enabled
      ensures o in r
    {
      var n :| 0 <= n < |offers| && offers[n] == o;
      assert n in at;
      var l :| 0 <= l < |at| && at[l] == n;
      assert r[l] == o;
    }
  }

  lemma RankInsert(offers: seq<Offer>, enabled: set<string>, priority: map<string, int>, r: seq<Offer>, at: seq<int>,
      i: nat, k: nat)
    requires RankedList(offers, enabled, priority, r, at) && i < |offers| && k <= |r|
    requires offers[i].program in enabled && offers[i].program in priority
    requires forall l :: 0 <= l < |at| ==> at[l] < i
    requires forall l :: 0 <= l < |r| ==> r[l].program in priority
    requires forall l :: 0 <= l < k ==> Before(offers, priority, at[l], i)
    requires k < |r| ==> priority[r[k].program] > priority[offers[i].program]
    ensures RankedList(offers, enabled, priority, r[..k] + [offers[i]] + r[k..], at[..k] + [i] + at[k..])
    ensures forall n :: n in at[..k] + [i] + at[k..] <==> n == i || n in at
  {
    forall l | k <= l < |r|
      ensures Before(offers, priority, i, at[l])
    {
      assert r[l] == offers[at[l]];
      if l > k {
        assert Before(offers, priority, at[k], at[l]);
      }
    }
    assert at == at[..k] + at[k..];
    hide Before;
    InsertInOrder(offers, priority, at, i, k);
    var r', at' := r[..k] + [offers[i]] + r[k..], at[..k] + [i] + at[k..];
    forall m | 0 <= m < |r'|
      ensures 0 <= at'[m] < |offers| && r'[m] == offers[at'[m]] && r'[m].program in enabled
    {
      if m != k {
        var l := if m < k then m else m - 1;
        assert r'[m] == r[l] && at'[m] == at[l];
      }
    }
  }

  ghost predicate AllBefore(offers: seq<Offer>, priority: map<string, int>, at: seq<int>) {
    forall k, l :: 0 <= k < l < |at| ==> Before(offers, priority, at[k], at[l])
  }

  lemma InsertInOrder(offers: seq<Offer>, priority: map<string, int>, at: seq<int>, i: nat, k: nat)
    requires k <= |at| && AllBefore(offers, priority, at)
    requires forall l :: 0 <= l < k ==> Before(offers, priority, at[l], i)
    requires forall l :: k <= l < |at| ==> Before(offers, priority, i, at[l])
    ensures AllBefore(offers, priority, at[..k] + [i] + at[k..])
  {
    hide Before;
    var at' := at[..k] + [i] + at[k..];
    forall m, n | 0 <= m < n < |at'|
      ensures Before(offers, priority, at'[m], at'[n])
    {
      assert m != k ==> at'[m] == at[if m < k then m else m - 1];
      assert n != k ==> at'[n] == at[if n < k then n else n - 1];
    }
  }

  /** What is kept by a filter is kept in order. */
  lemma {:induction false} FilterInOrder<D(!new)>(data: seq<D>, keys: set<D>, i: nat, j: nat) returns (a: nat, b: nat)
    requires i < j < |FilterIn(data, keys)|
    ensures a < b < |data| && data[a] == FilterIn(data, keys)[i] && data[b] == FilterIn(data, keys)[j]
  {
    var n := |data| - 1;
    var front := FilterIn(data[..n], keys);
    if j < |front| {
      a, b := FilterInOrder(data[..n], keys, i, j);
    } else {
      b := n;
      a := FilterInFrom(data[..n], keys, i);
    }
  }

  lemma {:induction false} FilterInFrom<D(!new)>(data: seq<D>, keys: set<D>, i: nat) returns (a: nat)
    requires i < |FilterIn(data, keys)|
    ensures a < |data| && data[a] == FilterIn(data, keys)[i] && data[a] in keys
  {
    var n := |data| - 1;
    if i < |FilterIn(data[..n], keys)| {
      a := FilterInFrom(data[..n], keys, i);
    } else {
      a := n;
    }
  }

  lemma {:induction false} FilterInKeeps<D(!new)>(data: seq<D>, keys: set<D>, a: nat)
    requires a < |data| && data[a] in keys
    ensures data[a] in FilterIn(data, keys)
  {
    var n := |data| - 1;
    if a < n {
      FilterInKeeps(data[..n], keys, a);
    }
  }

  /** `programs` lists exactly the enabled programs with an offer covering `t`, once each, in priority order. */
  ghost predicate ListsPrograms(offers: seq<Offer>, enabled: set<string>, priority: map<string, int>, t: int,
      programs: seq<string>) {
    && (forall p :: p in programs <==> OffersAt(offers, enabled, t, p))
    && (forall i, j :: 0 <= i < j < |programs| ==> RankedBefore(offers, priority, programs[i], programs[j]))
  }

  ghost predicate OffersAt(offers: seq<Offer>, enabled: set<string>, t: int, p: string) {
    p in enabled && exists n :: 0 <= n < |offers| && offers[n].program == p && Covered(offers[n].windows, t)
  }

  ghost predicate RankedBefore(offers: seq<Offer>, priority: map<string, int>, p: string, q: string) {
    exists m, n :: Before(offers, priority, m, n) && offers[m].program == p && offers[n].program == q
  }

  function Programs(offers: seq<Offer>): seq<string> {
    seq(|offers|, n requires 0 <= n < |offers| => offers[n].program)
  }

  function Windows(offers: seq<Offer>): seq<seq<Span>> {
    seq(|offers|, n requires 0 <= n < |offers| => offers[n].windows)
  }

  /** Filtering the ranked programs by coverage gives the list the schedule promises. */
  lemma RankedPrograms(offers: seq<Offer>, enabled: set<string>, priority: map<string, int>, r: seq<Offer>,
      at: seq<int>, t: int)
    requires Configured(offers, enabled, priority) && RankedList(offers, enabled, priority, r, at)
    requires forall n :: 0 <= n < |offers| && offers[n].program in enabled ==> n in at
    ensures ListsPrograms(offers, enabled, priority, t,
                          FilterIn(Programs(r), CoveringData(Windows(r), Programs(r), t)))
  {
    var names, keys := Programs(r), CoveringData(Windows(r), Programs(r), t);
    var programs := FilterIn(names, keys);
    forall p | p in programs
      ensures OffersAt(offers, enabled, t, p)
    {
      var i :| 0 <= i < |programs| && programs[i] == p;
      var a := FilterInFrom(names, keys, i);
      var k :| 0 <= k < |r| && Covered(Windows(r)[k], t) && names[k] == p;
      assert offers[at[k]].program == p && Covered(offers[at[k]].windows, t);
    }
    forall p | OffersAt(offers, enabled, t, p)
      ensures p in programs
    {
      var n :| 0 <= n < |offers| && offers[n].program == p && Covered(offers[n].windows, t);
      var k :| 0 <= k < |at| && at[k] == n;
      assert Covered(Windows(r)[k], t) && names[k] == p;
      FilterInKeeps(names, keys, k);
    }
    forall i, j | 0 <= i < j < |programs|
      ensures RankedBefore(offers, priority, programs[i], programs[j])
    {
      var a, b := FilterInOrder(names, keys, i, j);
      assert Before(offers, priority, at[a], at[b]);
    }
  }

  // ---- The schedule -----------------------------------------------------------------------

  datatype ScheduleIntent = ScheduleIntent(mode: string, programs: seq<string>)

  function MergeIntent(target: ScheduleIntent, stamp: seq<string>): ScheduleIntent {
    ScheduleIntent(target.mode, stamp)
  }

  function BareIntents(modes: seq<Mode>): seq<ScheduleIntent> {
    seq(|modes|, n requires 0 <= n < |modes| => ScheduleIntent(modes[n].name, []))
  }

  /** Stacks the modes' intervals in order and stamps the combined offers onto them. */
  method CreateSchedule(modes: seq<Mode>, evaluated: seq<set<Span>>, programs: seq<string>, offers: seq<seq<Span>>)
    returns (combined: IntervalTree<seq<string>>, schedule: IntervalTree<ScheduleIntent>)
    requires |evaluated| == |modes| && forall i :: 0 <= i < |evaluated| ==> ProperSpans(evaluated[i])
    requires |programs| == |offers| && Forward(offers)
    ensures fresh(combined) && fresh(schedule) && combined.Valid() && schedule.Valid() && Disjoint(schedule.ivs)
    ensures Combines(offers, programs, combined.ivs)
    ensures forall t ::
      DataAt(schedule.ivs, t) == StampedAt(Top(evaluated, BareIntents(modes), t), combined.ivs, MergeIntent, t)
  {
    hide Top, DataAt, StampedAt;
    schedule := StackTrees(evaluated, BareIntents(modes));
    combined := new IntervalTree<seq<string>>();
    ghost var added := CombineTrees(offers, programs, combined);
    assert combined.ivs == added;
    StampTrees(schedule, combined.ivs, MergeIntent);
  }

  /** What the schedule holds at one time: nothing outside every mode, and otherwise the mode with the programs
      that the combined offers name there. */
  lemma ScheduleAt(modes: seq<Mode>, evaluated: seq<set<Span>>, ev: Evaluation, programs: seq<string>,
      offers: seq<seq<Span>>,
                   combined: set<Interval<seq<string>>>, t: int)
    requires |evaluated| == |modes| && |programs| == |offers| && Combines(offers, programs, combined)
    requires forall i :: 0 <= i < |modes| ==> (CoveredBy(evaluated[i], t) <==> Holds(ev(modes[i]), t))
    ensures var mode := LastHolding(modes, ev, t);
      StampedAt(Top(evaluated, BareIntents(modes), t), combined, MergeIntent, t) ==
      if mode.None? then {}
      else {ScheduleIntent(mode.value.name, FilterIn(programs, CoveringData(offers, programs, t)))}
  {
    TopIsLast(modes, evaluated, ev, t);
    assert Right(offers, programs, combined, t);
    var keys := CoveringData(offers, programs, t);
    if keys == {} {
      FilterNone(programs);
    } else {
      var iv :| iv in combined && iv.Covers(t);
      assert iv.data == FilterIn(programs, keys);
    }
  }

  lemma {:induction false} FilterNone(data: seq<string>)
    ensures FilterIn(data, {}) == []
  {
    if data != [] {
      FilterNone(data[..|data| - 1]);
    }
  }

  lemma {:induction false} TopIsLast(modes: seq<Mode>, evaluated: seq<set<Span>>, ev: Evaluation, t: int)
    requires |evaluated| == |modes|
    requires forall i :: 0 <= i < |modes| ==> (CoveredBy(evaluated[i], t) <==> Holds(ev(modes[i]), t))
    ensures Top(evaluated, BareIntents(modes), t) ==
      if LastHolding(modes, ev, t).None? then {} else {ScheduleIntent(LastHolding(modes, ev, t).value.name, [])}
  {
    if modes != [] {
      var n := |modes| - 1;
      TopIsLast(modes[..n], evaluated[..n], ev, t);
      TopPrefix(evaluated[..n], BareIntents(modes), BareIntents(modes[..n]), t);
    }
  }

  lemma {:induction false} TopPrefix(inputs: seq<set<Span>>, a: seq<ScheduleIntent>, b: seq<ScheduleIntent>, t: int)
    requires |inputs| <= |b| <= |a| && forall i :: 0 <= i < |inputs| ==> a[i] == b[i]
    ensures Top(inputs, a, t) == Top(inputs, b, t)
  {
    if inputs != [] {
      TopPrefix(inputs[..|inputs| - 1], a, b, t);
    }
  }

  /** What the latest update was made from. */
  datatype Inputs = Inputs(ev: Evaluation, offers: seq<Offer>, enabled: set<string>)

  const HOUR := 3_600_000_000

  /** `iv` records, as ended now, an offer of `was` that was under way and that nothing in `offers` takes up. */
  ghost predicate CutShort(was: set<Interval<seq<string>>>, offers: set<Interval<seq<string>>>, now: int,
      iv: Interval<seq<string>>) {
    iv.end == now && exists end :: Vanished(was, offers, now, Interval(iv.begin, end, iv.data))
  }

  /** What the history held, the present offers, and previous ones cut short. */
  ghost predicate Recorded(history: set<Interval<seq<string>>>, previous: set<Interval<seq<string>>>,
                           offers: set<Interval<seq<string>>>, now: int, iv: Interval<seq<string>>) {
    iv in history || iv in offers || CutShort(previous, offers, now, iv)
  }

  ghost predicate Vanished(was: set<Interval<seq<string>>>, offers: set<Interval<seq<string>>>, now: int,
      iv: Interval<seq<string>>) {
    && iv in was && iv.begin < now < iv.end
    && forall x :: x in offers ==> !(x.begin < iv.end && iv.begin < x.end)
  }

  class Scheduler {
    var modes: seq<Mode>
    var priority: map<string, int>
    var combinedOffers: IntervalTree<seq<string>>
    var intervals: IntervalTree<ScheduleIntent>
    const offerHistory: IntervalTree<seq<string>>

    ghost predicate Valid()
      reads this, combinedOffers, offerHistory
    {
      offerHistory != combinedOffers && combinedOffers.Valid() && offerHistory.Valid()
    }

    constructor (configured: seq<Mode>, priorities: map<string, int>)
      ensures modes == ModesOf(configured, Standby) + ModesOf(configured, Operate) && priority == priorities
      ensures Valid() && fresh(combinedOffers) && fresh(intervals) && fresh(offerHistory)
      ensures intervals.ivs == {} && combinedOffers.ivs == {} && offerHistory.ivs == {}
    {
      modes := [];
      priority := priorities;
      combinedOffers := new IntervalTree<seq<string>>();
      intervals := new IntervalTree<ScheduleIntent>();
      offerHistory := new IntervalTree<seq<string>>();
      new;
      modes := SortModes(configured);
    }

    /** The schedule says at every time what the inputs mean: nothing where no mode holds, and elsewhere one intent,
        naming the mode in effect and the enabled programs with an offer there, in priority order. */
    ghost predicate Reflects(configured: seq<Mode>, inputs: Inputs)
      reads this, intervals
    {
      && Disjoint(intervals.ivs)
      && forall t :: ReflectsAt(DataAt(intervals.ivs, t), configured, priority, inputs, t)
    }

    method EvaluateModes(ev: Evaluation) returns (evaluated: seq<set<Span>>)
      ensures |evaluated| == |modes| && forall i :: 0 <= i < |evaluated| ==> ProperSpans(evaluated[i])
      ensures forall i, t :: 0 <= i < |modes| ==> (CoveredBy(evaluated[i], t) <==> Holds(ev(modes[i]), t))
    {
      evaluated := [];
      for i := 0 to |modes|
        invariant |evaluated| == i && forall j :: 0 <= j < i ==> ProperSpans(evaluated[j])
        invariant forall j, t :: 0 <= j < i ==> (CoveredBy(evaluated[j], t) <==> Holds(ev(modes[j]), t))
      {
        var r := EvaluateMode(ev(modes[i]));
        evaluated := evaluated + [if r.Some? then r.value else {}];
      }
    }

    /** Fails, with the schedule as it was, exactly when an enabled program with an offer is not configured. */
    method Update(now: int, ghost configured: seq<Mode>, inputs: Inputs) returns (ok: bool)
      requires Valid() && modes == ModesOf(configured, Standby) + ModesOf(configured, Operate) && Offered(inputs.offers)
      modifies this`combinedOffers, this`intervals, offerHistory
      ensures Valid() && (ok <==> AllPriced(inputs.offers, inputs.enabled, priority))
      ensures ok ==> fresh(intervals) && fresh(combinedOffers) && Reflects(configured, inputs)
      ensures ok ==> Remembers(now, old(offerHistory.ivs), old(combinedOffers.ivs))
      ensures !ok ==> intervals == old(intervals) && combinedOffers == old(combinedOffers)
      ensures !ok ==> offerHistory.ivs == old(offerHistory.ivs)
    {
      var previous := combinedOffers;
      hide Top, DataAt, StampedAt, Combines, FilterIn, CoveringData, ModeAt, LastHolding, Disjoint;
      var evaluated := EvaluateModes(inputs.ev);
      if !AllPriced(inputs.offers, inputs.enabled, priority) {
        return false;
      }
      var ranked, at := RankOffers(inputs.offers, inputs.enabled, priority);
      RankedForward(inputs.offers, inputs.enabled, priority, ranked, at);
      combinedOffers, intervals := CreateSchedule(modes, evaluated, Programs(ranked), Windows(ranked));
      forall t
        ensures ReflectsAt(DataAt(intervals.ivs, t), configured, priority, inputs, t)
      {
        ScheduleAt(modes, evaluated, inputs.ev, Programs(ranked), Windows(ranked), combinedOffers.ivs, t);
        RankedPrograms(inputs.offers, inputs.enabled, priority, ranked, at, t);
        ModeAtSorted(configured, inputs.ev, t);
      }
      SupportAfterActivity(now, previous);
      return true;
    }

    /** The history keeps what ended within the last hour, of what it held, of the present offers, and of previous
        offers cut short. */
    ghost predicate Remembers(now: int, history: set<Interval<seq<string>>>, previous: set<Interval<seq<string>>>)
      reads this, combinedOffers, offerHistory
    {
      forall iv ::
        iv in offerHistory.ivs <==> iv.end > now - HOUR && Recorded(history, previous, combinedOffers.ivs, now, iv)
    }

    method SupportAfterActivity(now: int, previous: IntervalTree<seq<string>>)
      requires Valid() && previous != offerHistory
      modifies offerHistory
      ensures Valid() && Remembers(now, old(offerHistory.ivs), old(previous.ivs))
    {
      var left := previous.ivs;
      while left != {}
        invariant Valid() && left <= previous.ivs
        invariant forall iv :: iv in offerHistory.ivs <==>
          (iv in old(offerHistory.ivs) || CutShort(previous.ivs - left, combinedOffers.ivs, now, iv))
        decreases left
      {
        var iv := Take(left);
        CutShortMore(previous.ivs, left, combinedOffers.ivs, now, iv);
        left := left - {iv};
        if iv.begin < now < iv.end && !combinedOffers.Overlaps(iv.begin, iv.end) {
          offerHistory.Addi(iv.begin, now, iv.data);
        }
      }
      left := combinedOffers.ivs;
      ghost var kept := offerHistory.ivs;
      while left != {}
        invariant Valid() && left <= combinedOffers.ivs && offerHistory.ivs == kept + (combinedOffers.ivs - left)
        decreases left
      {
        var iv := Take(left);
        left := left - {iv};
        offerHistory.Addi(iv.begin, iv.end, iv.data);
      }
      left := set iv | iv in offerHistory.ivs && iv.end <= now - HOUR;
      ghost var all, stale := offerHistory.ivs, left;
      while left != {}
        invariant Valid() && left <= stale <= all && offerHistory.ivs == all - (stale - left)
        decreases left
      {
        var iv := Take(left);
        left := left - {iv};
        offerHistory.Remove(iv);
      }
    }

    /** The scheduled intent at a time: the assertion that at most one interval covers it never fires. */
    method GetIntent(t: int, ghost configured: seq<Mode>, ghost inputs: Inputs) returns (r: Option<ScheduleIntent>)
      requires Reflects(configured, inputs)
      ensures r.None? <==> ModeAt(configured, inputs.ev, t).None?
      ensures r.Some? ==> r.value.mode == ModeAt(configured, inputs.ev, t).value.name
      ensures r.Some? ==> ListsPrograms(inputs.offers, inputs.enabled, priority, t, r.value.programs)
    {
      var ivs := intervals.At(t);
      assert ReflectsAt(DataAt(intervals.ivs, t), configured, priority, inputs, t);
      assert forall iv :: iv in intervals.ivs && iv.Covers(t) ==> iv in ivs;
      if ivs == {} {
        assert DataAt(intervals.ivs, t) == {};
        return None;
      }
      var iv := Take(ivs);
      assert forall x :: x in ivs ==> x == iv;
      assert ivs == {iv};
      assert |ivs| == 1;
      assert iv.data in DataAt(intervals.ivs, t);
      return Some(iv.data);
    }
  }

  function EndedAt(iv: Interval<seq<string>>, now: int): Interval<seq<string>> {
    Interval(iv.begin, now, iv.data)
  }

  lemma CutShortMore(was: set<Interval<seq<string>>>, left: set<Interval<seq<string>>>,
      offers: set<Interval<seq<string>>>, now: int,
                     iv: Interval<seq<string>>)
    requires iv in left && left <= was
    ensures forall x :: CutShort(was - (left - {iv}), offers, now, x) <==>
      (CutShort(was - left, offers, now, x) || (x == EndedAt(iv, now) && Vanished(was, offers, now, iv)))
  {
    forall x
      ensures CutShort(was - (left - {iv}), offers, now, x) <==>
        (CutShort(was - left, offers, now, x) || (x == EndedAt(iv, now) && Vanished(was, offers, now, iv)))
    {
      if CutShort(was - (left - {iv}), offers, now, x) {
        var end :| Vanished(was - (left - {iv}), offers, now, Interval(x.begin, end, x.data));
        var offer := Interval(x.begin, end, x.data);
        assert offer == iv || Vanished(was - left, offers, now, offer);
      }
      if CutShort(was - left, offers, now, x) {
        var end :| Vanished(was - left, offers, now, Interval(x.begin, end, x.data));
        assert Vanished(was - (left - {iv}), offers, now, Interval(x.begin, end, x.data));
      }
      if x == EndedAt(iv, now) && Vanished(was, offers, now, iv) {
        assert Vanished(was - (left - {iv}), offers, now, Interval(x.begin, iv.end, x.data));
      }
    }
  }

  ghost predicate ReflectsAt(intents: set<ScheduleIntent>, configured: seq<Mode>, priority: map<string, int>,
      inputs: Inputs, t: int) {
    var mode := ModeAt(configured, inputs.ev, t);
    if mode.None? then intents == {}
    else exists programs ::
      && intents == {ScheduleIntent(mode.value.name, programs)}
      && ListsPrograms(inputs.offers, inputs.enabled, priority, t, programs)
  }

  lemma RankedForward(offers: seq<Offer>, enabled: set<string>, priority: map<string, int>, r: seq<Offer>, at: seq<int>)
    requires Configured(offers, enabled, priority) && RankedList(offers, enabled, priority, r, at)
    ensures Forward(Windows(r))
  {
    forall k, j | 0 <= k < |r| && 0 <= j < |Windows(r)[k]|
      ensures Windows(r)[k][j].begin <= Windows(r)[k][j].end
    {
      assert r[k] == offers[at[k]];
    }
  }

  lemma ModeAtSorted(configured: seq<Mode>, ev: Evaluation, t: int)
    ensures LastHolding(ModesOf(configured, Standby) + ModesOf(configured, Operate), ev, t) == ModeAt(configured, ev, t)
  {
    LastHoldingAppend(ModesOf(configured, Standby), ModesOf(configured, Operate), ev, t);
  }

  /** An operate mode is in effect whenever any operate mode holds. */
  lemma OperateWins(configured: seq<Mode>, ev: Evaluation, t: int, i: nat)
    requires i < |configured| && configured[i].state == Operate && Holds(ev(configured[i]), t)
    ensures ModeAt(configured, ev, t).Some? && ModeAt(configured, ev, t).value.state == Operate
  {
    var operate := ModesOf(configured, Operate);
    var k := ModesOfHas(configured, i);
    var l := LastHoldingSome(operate, ev, t, k);
    ModesOfState(configured, Operate);
  }

  lemma {:induction false} ModesOfHas(modes: seq<Mode>, i: nat) returns (k: nat)
    requires i < |modes|
    ensures k < |ModesOf(modes, modes[i].state)| && ModesOf(modes, modes[i].state)[k] == modes[i]
  {
    var n := |modes| - 1;
    if i < n {
      k := ModesOfHas(modes[..n], i);
    } else {
      k := |ModesOf(modes[..n], modes[i].state)|;
    }
  }

  lemma {:induction false} LastHoldingSome(modes: seq<Mode>, ev: Evaluation, t: int, k: nat) returns (l: nat)
    requires k < |modes| && Holds(ev(modes[k]), t)
    ensures k <= l < |modes| && LastHolding(modes, ev, t) == Some(modes[l])
  {
    var n := |modes| - 1;
    if Holds(ev(modes[n]), t) {
      l := n;
    } else {
      l := LastHoldingSome(modes[..n], ev, t, k);
    }
  }
}
