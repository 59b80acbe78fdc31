/** Why a firm node may wait for no more than its rival directly waits for: a skip can resolve a node long before what
    that node waits for. */
module DagEarlySkip {
  import opened Prelude
  import opened DagGraph
  import opened DagRun
  import opened DagMeaning
  import opened DagConfluence

  /** A third task needs the second and waits for the first; `dep` waits for the third; `node` needs `dep` and waits, as
      `dep` itself does through the third task, for the first. */
  function EarlyGraph(node: Node, dep: Node): Graph {
    Graph([TASK, TASK, TASK, dep, node], [{}, {}, {0, 1}, {2}, {0, 3}], [{}, {}, {1}, {}, {3}])
  }

  /** The second task fails, and the others return. */
  function SecondFails(n: int): Outcome {
    if n == 1 then Raised else Returned
  }

  lemma EarlyShaped(node: Node, dep: Node)
    ensures var g := EarlyGraph(node, dep);
      TwoRoots(g) && g.Closed() && g.Ranked(map[0 := 0, 1 := 0, 2 := 1, 3 := 2, 4 := 3])
  {
    var g := EarlyGraph(node, dep);
    assert 0 in g.deps[2] && 2 in g.deps[3] && 0 in g.deps[4];
  }

  /** The failure skips the third task, which resolves all that `dep` waits for. */
  lemma ThirdSkipped(node: Node, dep: Node, s: State)
    requires EarlyGraph(node, dep).Shaped() && s.phase == Recording && 2 in s.pending
    requires 1 in s.results && s.results[1].status == Failed
    ensures Enabled(EarlyGraph(node, dep), s, MarkSkipped(2, 1))
  {
    assert 1 in EarlyGraph(node, dep).hard[2];
  }

  lemma DepDecided(node: Node, dep: Node, s: State)
    requires EarlyGraph(node, dep).Shaped() && Collides(node, dep, true)
    requires s.phase == Settling && s.pending == {3, 4} && !s.stop && 2 in s.results && 3 !in s.results
    ensures Enabled(EarlyGraph(node, dep), s, Override(3))
  {
    var g := EarlyGraph(node, dep);
    assert 3 in g.deps[4] && g.deps[3] == {2};
    assert NoneBlocked(g, s);
  }

  lemma NodeLast(node: Node, dep: Node, s: State)
    requires EarlyGraph(node, dep).Shaped() && Collides(node, dep, true)
    requires s.phase == Deciding(3) && s.pending == {4} && !s.stop
    requires 3 in s.results && s.results[3] == DecidedResult(dep.decision.value)
    ensures Enabled(EarlyGraph(node, dep), s, if 0 in s.results then Override(4) else MarkSkipped(4, 3))
  {
    var g := EarlyGraph(node, dep);
    assert g.deps[4] == {0, 3} && 3 in g.hard[4] && Blocks(g, s.results, 3);
    assert Decidable(g, s, 4) <==> 0 in s.results;
  }

  lemma EndedWaits(g: Graph, both: bool)
    requires |g.nodes| == 5
    ensures var s := Ended(g, SecondFails, both);
      && s.phase == Recording && s.pending == {2, 3, 4} && !s.stop && s.running == (if both then {} else {0})
      && s.results.Keys == (if both then {0, 1} else {1}) && s.results[1].status == Failed
  {
    hide Range;
    var s := Ended(g, SecondFails, both);
    assert s.pending == {2, 3, 4};
    if both {
      assert s.results.Keys == {0, 1};
    }
  }

  /** The third task skipped and both overrides decided or skipped, with the first task done or still running. */
  lemma Overrides(node: Node, dep: Node, run: seq<Event>) returns (log: seq<Event>, s: State)
    requires Collides(node, dep, true)
    requires var g := EarlyGraph(node, dep);
      g.Shaped() && Legal(g, run) && Follows(run, SecondFails) &&
      var r := Replay(g, run);
      && r.phase == Recording && r.pending == {2, 3, 4} && !r.stop && r.results.Keys <= {0, 1}
      && 1 in r.results && r.results[1].status == Failed
    ensures var g := EarlyGraph(node, dep);
      Legal(g, log) && Follows(log, SecondFails) && s == Replay(g, log)
    ensures 4 in s.results
    ensures s.results[4].status == if 0 in Replay(EarlyGraph(node, dep), run).results then Ok else Skipped
  {
    var g := EarlyGraph(node, dep);
    hide Legal, Replay, Enabled;
    s := Replay(g, run);
    var done := 0 in s.results;
    ThirdSkipped(node, dep, s);
    log, s := Step(g, SecondFails, run, s, MarkSkipped(2, 1));
    assert s.pending == {3, 4};
    DepDecided(node, dep, s);
    log, s := Step(g, SecondFails, log, s, Override(3));
    assert s.pending == {4};
    NodeLast(node, dep, s);
    log, s := Step(g, SecondFails, log, s, if done then Override(4) else MarkSkipped(4, 3));
  }

  lemma EarlyRun(node: Node, dep: Node, both: bool) returns (log: seq<Event>)
    requires Collides(node, dep, true)
    ensures var g := EarlyGraph(node, dep);
      g.Shaped() && Legal(g, log) && Follows(log, SecondFails) && 4 in Replay(g, log).results
      && Replay(g, log).results[4].status == if both then Ok else Skipped
  {
    var g := EarlyGraph(node, dep);
    EarlyShaped(node, dep);
    assert |g.nodes| == 5;
    EndedWaits(g, both);
    hide EarlyGraph, TwoRoots, Ended, Legal, Replay, Follows;
    log := RootsEnd(g, SecondFails, both);
    var s;
    log, s := Overrides(node, dep, log);
  }

  /** `node` waits for nothing but `dep` and what `dep` transitively waits for, yet the order in which the two tasks end
      decides how it ends. */
  lemma TransitiveTieRaces(node: Node, dep: Node)
    requires Collides(node, dep, true)
    ensures var g := EarlyGraph(node, dep);
      Buildable(g) && !Confluent(g) && g.deps[4] <= {3} + g.deps[3] + g.deps[2]
  {
    EarlyShaped(node, dep);
    var g := EarlyGraph(node, dep);
    assert Buildable(g) && g.deps[4] <= {3} + g.deps[3] + g.deps[2];
    hide EarlyGraph, Legal, Replay, Follows, Confluent, Buildable;
    var a := EarlyRun(node, dep, true);
    var b := EarlyRun(node, dep, false);
    Differ(g, SecondFails, a, b, 4);
  }
}
