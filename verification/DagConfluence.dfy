/** How far overrides allow confluence: pairs that collide, the weakest condition on hard edges, and what lies beyond.
    */
module DagConfluence {
  import opened Prelude
  import opened DagGraph
  import opened DagRun
  import opened DagMeaning

  // ---- Overrides that collide -------------------------------------------------------------

  const TASK := Node("task", OnFailure.Skip, false, None)

  /** Two tasks; `dep` waits for the second of them, and `node` for `dep`, which it needs, and for `others`. */
  function RaceGraph(node: Node, dep: Node, others: set<int>): Graph {
    Graph([TASK, TASK, dep, node], [{}, {}, {1}, {2} + others], [{}, {}, {}, {2}])
  }

  lemma RaceShaped(node: Node, dep: Node, others: set<int>)
    requires others <= {0, 1}
    ensures var g := RaceGraph(node, dep, others);
      g.Shaped() && g.Closed() && g.Ranked(map[0 := 0, 1 := 0, 2 := 1, 3 := 2])
  {
  }

  /** Every task returns. */
  function Returning(n: int): Outcome {
    Returned
  }

  lemma Step(g: Graph, outcome: int -> Outcome, log: seq<Event>, s: State, e: Event)
    returns (longer: seq<Event>, s': State)
    requires g.Shaped() && Legal(g, log) && Replay(g, log) == s && Enabled(g, s, e)
    requires Follows(log, outcome) && !e.CancelRest? && (e.Finish? ==> e.outcome == outcome(e.nid))
    ensures longer == log + [e] && Legal(g, longer) && Replay(g, longer) == s' == Next(g, s, e)
    ensures Follows(longer, outcome)
  {
    Extend(g, log, e);
    longer, s' := log + [e], Next(g, s, e);
  }

  // ---- Two tasks running ------------------------------------------------------------------

  /** Nodes 0 and 1 are tasks that wait for nothing, and every other node waits. */
  ghost predicate TwoRoots(g: Graph) {
    && g.Shaped() && |g.nodes| >= 2
    && (forall n :: 0 <= n < 2 ==> g.deps[n] == {} && g.nodes[n].decision.None? && g.nodes[n].onFailure != Stop)
    && forall n :: 2 <= n < |g.nodes| ==> g.deps[n] != {}
  }

  /** The two have been dispatched. */
  ghost function Racing(g: Graph): State {
    State(map[], {0, 1}, Range(|g.nodes|) - {0, 1}, false, Settling)
  }

  lemma RootDispatch(g: Graph, s: State, n: int)
    requires TwoRoots(g) && s.results == map[] && s.phase == Settling && !s.stop
    requires n in s.pending && (n == 0 || (n == 1 && 0 !in s.pending))
    ensures Enabled(g, s, Dispatch(n))
  {
    forall m | g.Has(m) && Ready(g, s.results, m)
      ensures m in {0, 1}
    {
      assert g.deps[m] == {};
    }
  }

  lemma OneStarts(g: Graph, outcome: int -> Outcome, run: seq<Event>, s: State, n: int) returns (log: seq<Event>)
    requires TwoRoots(g) && Legal(g, run) && Follows(run, outcome) && Replay(g, run) == s
    requires s.results == map[] && s.phase == Settling && !s.stop
    requires n in s.pending && (n == 0 || (n == 1 && 0 !in s.pending))
    ensures Legal(g, log) && Follows(log, outcome)
    ensures Replay(g, log) == State(map[], s.running + {n}, s.pending - {n}, false, Settling)
  {
    hide Legal, Replay, Enabled;
    RootDispatch(g, s, n);
    var s';
    log, s' := Step(g, outcome, run, s, Dispatch(n));
  }

  lemma BothStarted(g: Graph, outcome: int -> Outcome) returns (log: seq<Event>)
    requires TwoRoots(g)
    ensures Legal(g, log) && Follows(log, outcome) && Replay(g, log) == Racing(g)
  {
    var all := Range(|g.nodes|);
    log := [];
    assert Legal(g, log) && Replay(g, log) == State(map[], {}, all, false, Settling);
    hide Legal, Replay, Follows, TwoRoots;
    log := OneStarts(g, outcome, log, State(map[], {}, all, false, Settling), 0);
    log := OneStarts(g, outcome, log, State(map[], {0}, all - {0}, false, Settling), 1);
    assert all - {0} - {1} == all - {0, 1} && {0} + {1} == {0, 1};
  }

  lemma RootFinishes(g: Graph, n: int, outcome: Outcome)
    requires TwoRoots(g) && n in {0, 1}
    ensures Enabled(g, Racing(g), Finish(n, outcome))
  {
    forall m | g.Has(m) && m in Racing(g).pending
      ensures !Ready(g, map[], m)
    {
      var d := Member(g.deps[m]);
    }
    assert Settled(g, Racing(g));
  }

  /** The first root may end in a wait of its own, or as the last of all. */
  lemma RootFinishesLater(g: Graph, s: State, n: int, outcome: Outcome)
    requires g.Shaped() && n in s.running && (s.phase.Recording? || (s.phase == Settling && s.pending == {}))
    ensures Enabled(g, s, Finish(n, outcome))
  {
  }

  /** Both roots have ended, the end of the second being recorded last, or only the second has. */
  ghost function Ended(g: Graph, outcome: int -> Outcome, both: bool): State {
    var second := map[1 := TaskResult(outcome(1))];
    if both then State(second[0 := TaskResult(outcome(0))], {}, Range(|g.nodes|) - {0, 1}, false, Recording)
    else State(second, {0}, Range(|g.nodes|) - {0, 1}, false, Recording)
  }

  lemma RootsEnd(g: Graph, outcome: int -> Outcome, both: bool) returns (log: seq<Event>)
    requires TwoRoots(g)
    ensures Legal(g, log) && Follows(log, outcome) && Replay(g, log) == Ended(g, outcome, both)
  {
    hide Legal, Replay, Enabled, Follows, Ready;
    log := BothStarted(g, outcome);
    var s := Racing(g);
    RootFinishes(g, if both then 0 else 1, outcome(if both then 0 else 1));
    if both {
      log, s := Step(g, outcome, log, s, Finish(0, outcome(0)));
      RootFinishesLater(g, s, 1, outcome(1));
    }
    log, s := Step(g, outcome, log, s, Finish(1, outcome(1)));
    assert s.results == Ended(g, outcome, both).results;
  }

  // ---- A race between two tasks -----------------------------------------------------------

  const DONE := NodeResult(Ok, None)

  /** Once the second task is done, the next decision is the override of `dep`. */
  lemma FirstDecision(node: Node, dep: Node, s: State)
    requires Collides(node, dep, true) && RaceGraph(node, dep, {0}).Shaped()
    requires s.phase == Recording && s.pending == {2, 3} && !s.stop && 1 in s.results && 2 !in s.results
    requires forall n :: n in s.results ==> s.results[n] == DONE
    ensures Enabled(RaceGraph(node, dep, {0}), s, Override(2))
  {
    var g := RaceGraph(node, dep, {0});
    assert NoneBlocked(g, s);
  }

  /** The same pass then decides `node` if the first task is done too, and otherwise leaves it blocked. */
  lemma SecondDecision(node: Node, dep: Node, s: State)
    requires Collides(node, dep, true) && RaceGraph(node, dep, {0}).Shaped()
    requires s.phase == Deciding(2) && s.pending == {3} && !s.stop && 2 in s.results
    requires s.results[2] == DecidedResult(dep.decision.value)
    ensures Enabled(RaceGraph(node, dep, {0}), s, if 0 in s.results then Override(3) else MarkSkipped(3, 2))
  {
    var g := RaceGraph(node, dep, {0});
    assert g.deps[3] == {0, 2} && 2 in g.hard[3] && Blocks(g, s.results, 2);
    assert Decidable(g, s, 3) <==> 0 in s.results;
  }

  /** A run in which every task returns; `both` says whether the ends of the two come out of one wait or of two. */
  lemma Race(node: Node, dep: Node, both: bool) returns (log: seq<Event>)
    requires Collides(node, dep, true)
    ensures var g := RaceGraph(node, dep, {0});
      g.Shaped() && Legal(g, log) && Follows(log, Returning) && Replay(g, log).results.Keys == {0, 1, 2, 3}
      && Replay(g, log).results[3].status == if both then Ok else Skipped
  {
    var g := RaceGraph(node, dep, {0});
    RaceRoots(node, dep);
    EndedWaits(g, both);
    hide RaceGraph, TwoRoots, Ended, Legal, Replay, Follows;
    log := RootsEnd(g, Returning, both);
    var s;
    log, s := Decides(node, dep, log);
  }

  lemma RaceRoots(node: Node, dep: Node)
    ensures TwoRoots(RaceGraph(node, dep, {0})) && |RaceGraph(node, dep, {0}).nodes| == 4
  {
    assert 2 in RaceGraph(node, dep, {0}).deps[3];
  }

  lemma EndedWaits(g: Graph, both: bool)
    requires |g.nodes| == 4
    ensures var s := Ended(g, Returning, both);
      && s.phase == Recording && s.pending == {2, 3} && !s.stop && s.running + s.results.Keys == {0, 1}
      && 1 in s.results && (0 in s.results <==> both)
      && forall n :: n in s.results ==> s.results[n] == DONE && n !in s.running
  {
    hide Range;
    var s := Ended(g, Returning, both);
    assert s.pending == {2, 3};
    if both {
      assert s.results.Keys == {0, 1};
    } else {
      assert s.results.Keys == {1} && s.running == {0};
    }
  }

  lemma Decides(node: Node, dep: Node, run: seq<Event>) returns (log: seq<Event>, s: State)
    requires Collides(node, dep, true)
    requires var g := RaceGraph(node, dep, {0});
      g.Shaped() && Legal(g, run) && Follows(run, Returning) &&
      var r := Replay(g, run);
      && r.phase == Recording && r.pending == {2, 3} && !r.stop && r.running + r.results.Keys == {0, 1}
      && 1 in r.results && (forall n :: n in r.results ==> r.results[n] == DONE && n !in r.running)
    ensures var g := RaceGraph(node, dep, {0});
      Legal(g, log) && Follows(log, Returning) && s == Replay(g, log)
    ensures s.results.Keys == {0, 1, 2, 3}
    ensures s.results[3].status == if 0 in Replay(RaceGraph(node, dep, {0}), run).results then Ok else Skipped
  {
    var g := RaceGraph(node, dep, {0});
    hide Legal, Replay, Enabled;
    s := Replay(g, run);
    var both := 0 in s.results;
    FirstDecision(node, dep, s);
    log, s := Step(g, Returning, run, s, Override(2));
    assert s.pending == {3};
    SecondDecision(node, dep, s);
    if both {
      log, s := Step(g, Returning, log, s, Override(3));
    } else {
      log, s := Step(g, Returning, log, s, MarkSkipped(3, 2));
      RootFinishesLater(g, s, 0, Returned);
      log, s := Step(g, Returning, log, s, Finish(0, Returned));
    }
  }

  // ---- The weakest condition on hard edges ------------------------------------------------

  ghost predicate Buildable(g: Graph) {
    g.Shaped() && g.Closed() && exists rank :: g.Ranked(rank)
  }

  /** Both runs give every task the outcome named, and a node they both resolve the same status. */
  ghost predicate SameEnd(g: Graph, outcome: int -> Outcome, a: seq<Event>, b: seq<Event>)
    requires g.Shaped()
  {
    Legal(g, a) && Follows(a, outcome) && Legal(g, b) && Follows(b, outcome) ==>
      var x, y := Replay(g, a).results, Replay(g, b).results;
      forall n :: n in x && n in y ==> x[n].status == y[n].status
  }

  /** Whatever the outcomes of its tasks, their order decides no status. */
  ghost predicate Confluent(g: Graph)
    requires g.Shaped()
  {
    forall outcome, a, b :: SameEnd(g, outcome, a, b)
  }

  type EdgeCondition = (Node, Node, bool) -> bool

  /** Every hard edge meets the condition, which sees its two nodes and whether the dependency has the lower id. */
  ghost predicate EdgesMeet(g: Graph, c: EdgeCondition)
    requires g.Shaped()
  {
    forall n, d :: g.Has(n) && d in g.hard[n] && g.Has(d) ==> c(g.nodes[n], g.nodes[d], d < n)
  }

  /** Firm overrides leave nothing to the order in which tasks end, even where they collide. */
  lemma FirmConfluent(g: Graph, firm: set<int>)
    requires Buildable(g) && Firm(g, firm)
    ensures Confluent(g)
  {
    hide Legal, Replay, Follows, Firm;
    var rank :| g.Ranked(rank);
    forall outcome, a, b
      ensures SameEnd(g, outcome, a, b)
    {
      if Legal(g, a) && Follows(a, outcome) && Legal(g, b) && Follows(b, outcome) {
        forall n | n in Replay(g, a).results && n in Replay(g, b).results
          ensures Replay(g, a).results[n].status == Replay(g, b).results[n].status
        {
          Confluence(g, firm, rank, outcome, a, b, n);
        }
      }
    }
  }

  lemma RaceBuilds(node: Node, dep: Node, others: set<int>)
    requires others <= {0, 1}
    ensures Buildable(RaceGraph(node, dep, others))
  {
    RaceShaped(node, dep, others);
  }

  lemma Differ(g: Graph, outcome: int -> Outcome, a: seq<Event>, b: seq<Event>, n: int)
    requires g.Shaped() && Legal(g, a) && Follows(a, outcome) && Legal(g, b) && Follows(b, outcome)
    requires n in Replay(g, a).results && n in Replay(g, b).results
    requires Replay(g, a).results[n].status != Replay(g, b).results[n].status
    ensures !Confluent(g)
  {
    hide Legal, Replay, Follows;
    assert !SameEnd(g, outcome, a, b);
  }

  /** The order in which two tasks end decides how a node that collides with its dependency ends. */
  lemma RaceMatters(node: Node, dep: Node)
    requires Collides(node, dep, true)
    ensures Buildable(RaceGraph(node, dep, {0})) && !Confluent(RaceGraph(node, dep, {0}))
  {
    RaceBuilds(node, dep, {0});
    hide RaceGraph, Legal, Replay, Follows, Confluent, Buildable, Collides;
    var a := Race(node, dep, true);
    var b := Race(node, dep, false);
    assert 3 in {0, 1, 2, 3};
    Differ(RaceGraph(node, dep, {0}), Returning, a, b, 3);
  }

  /** Of the conditions that look at one hard edge at a time, exactly those make every graph that meets them confluent
      which let no overrides collide: `OverridesApart` is the weakest of them. */
  lemma ApartExactly(c: EdgeCondition)
    ensures (forall g: Graph :: Buildable(g) && EdgesMeet(g, c) ==> Confluent(g))
       <==> (forall node, dep, lower :: c(node, dep, lower) ==> !Collides(node, dep, lower))
  {
    if forall node, dep, lower :: c(node, dep, lower) ==> !Collides(node, dep, lower) {
      forall g: Graph | Buildable(g) && EdgesMeet(g, c)
        ensures Confluent(g)
      {
        ApartIsFirm(g);
        FirmConfluent(g, AllCountedOk(g));
      }
    } else {
      var node, dep, lower :| c(node, dep, lower) && Collides(node, dep, lower);
      RaceMatters(node, dep);
      assert EdgesMeet(RaceGraph(node, dep, {0}), c);
    }
  }

  // ---- Why no condition on overrides and hard edges alone can be exact --------------------

  /** Two graphs with the same nodes and hard edges, one confluent and one not: beyond `OverridesApart` it is the
      ordering edges that decide. */
  lemma OrderingDecides(node: Node, dep: Node)
    requires Collides(node, dep, true)
    ensures var race, tied := RaceGraph(node, dep, {0}), RaceGraph(node, dep, {});
      && race.nodes == tied.nodes && race.hard == tied.hard
      && Buildable(race) && Buildable(tied) && !Confluent(race) && Confluent(tied)
  {
    RaceMatters(node, dep);
    RaceBuilds(node, dep, {});
    TiedIsFirm(node, dep);
    hide RaceGraph, Confluent, Firm;
    FirmConfluent(RaceGraph(node, dep, {}), {2, 3});
  }

  lemma TiedIsFirm(node: Node, dep: Node)
    requires Collides(node, dep, true)
    ensures RaceGraph(node, dep, {}).Shaped() && Firm(RaceGraph(node, dep, {}), {2, 3})
  {
  }
}
