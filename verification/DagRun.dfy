/** Execution of one dependency graph: the bookkeeping rules as atomic events, and what every run of them keeps. */
module DagRun {
  import opened Prelude
  import opened DagGraph

  datatype Status = Ok | Failed | Skipped | Cancelled

  datatype NodeResult = NodeResult(status: Status, overridden: Option<string>) {
    /** Python truthiness of the override reason. */
    predicate Excused() {
      overridden.Some? && overridden.value != ""
    }
  }

  type Results = map<int, NodeResult>

  /** How a dispatched task ended. */
  datatype Outcome = Returned | Raised | WasCancelled

  /** Where the run loop stands: resolving skips, in an override pass that last decided `last`, recording the tasks of
      a finished wait, or giving up what is left. */
  datatype Phase = Settling | Deciding(last: int) | Recording | Closing

  datatype State = State(results: Results, running: set<int>, pending: set<int>, stop: bool, phase: Phase)

  datatype Event =
    | MarkSkipped(nid: int, cause: int)
    | Override(nid: int)
    | Dispatch(nid: int)
    | Finish(nid: int, outcome: Outcome)
    | CancelRest(nid: int)

  /** The result of `d` keeps a hard dependent from running. */
  predicate Blocks(g: Graph, results: Results, d: int) {
    g.Has(d) && d in results && results[d].status != Ok && g.nodes[d].onFailure != Continue
  }

  ghost predicate Blocked(g: Graph, results: Results, nid: int)
    requires g.Shaped() && g.Has(nid)
  {
    exists d :: d in g.hard[nid] && Blocks(g, results, d)
  }

  predicate Ready(g: Graph, results: Results, nid: int)
    requires g.Shaped() && g.Has(nid)
  {
    g.deps[nid] <= results.Keys
  }

  ghost predicate AllExcused(g: Graph, results: Results, nid: int)
    requires g.Shaped() && g.Has(nid)
  {
    forall d :: d in g.hard[nid] && Blocks(g, results, d) ==> results[d].Excused()
  }

  ghost function SkipResult(g: Graph, results: Results, nid: int, cause: int): NodeResult
    requires g.Shaped() && g.Has(nid) && cause in results
  {
    NodeResult(Skipped, if AllExcused(g, results, nid) then results[cause].overridden else None)
  }

  function DecidedResult(decision: NodeOverride): NodeResult {
    NodeResult(if decision.outcome.CountsAsOk? then Ok else Skipped, Some(decision.reason))
  }

  function TaskResult(outcome: Outcome): NodeResult {
    NodeResult(match outcome case Returned => Ok case Raised => Failed case WasCancelled => Cancelled, None)
  }

  predicate Halts(g: Graph, nid: int, outcome: Outcome) {
    outcome == Raised && g.Has(nid) && g.nodes[nid].onFailure == Stop
  }

  predicate TookOverride(g: Graph, results: Results, d: int) {
    g.Has(d) && d in results && g.nodes[d].decision.Some? && results[d] == DecidedResult(g.nodes[d].decision.value)
  }

  ghost function Init(g: Graph): State {
    State(map[], {}, Range(|g.nodes|), false, Settling)
  }

  ghost predicate NoneBlocked(g: Graph, s: State)
    requires g.Shaped()
  {
    forall n :: g.Has(n) && n in s.pending ==> !Blocked(g, s.results, n)
  }

  /** An override pass that reaches the node records its override. */
  ghost predicate Decidable(g: Graph, s: State, n: int)
    requires g.Shaped()
  {
    g.Has(n) && n in s.pending && Ready(g, s.results, n) && g.nodes[n].decision.Some?
  }

  ghost predicate NoneDecidable(g: Graph, s: State)
    requires g.Shaped()
  {
    forall n :: !Decidable(g, s, n)
  }

  ghost predicate NoneReady(g: Graph, s: State)
    requires g.Shaped()
  {
    forall n :: g.Has(n) && n in s.pending ==> !Ready(g, s.results, n)
  }

  /** No override pass is under way, or none of the ids it has yet to visit would be decided. */
  ghost predicate PassOver(g: Graph, s: State)
    requires g.Shaped()
  {
    s.phase.Deciding? ==> forall n :: Decidable(g, s, n) ==> n <= s.phase.last
  }

  /** Everything that can resolve or be dispatched without waiting has been. */
  ghost predicate Settled(g: Graph, s: State)
    requires g.Shaped()
  {
    !s.phase.Closing? && NoneBlocked(g, s) && PassOver(g, s) && (s.stop || (NoneDecidable(g, s) && NoneReady(g, s)))
  }

  /** The pass under way visits ids in ascending order; a new one starts when nothing is blocked, at the lowest. */
  ghost predicate IsNextDecision(g: Graph, s: State, n: int)
    requires g.Shaped()
  {
    if PassOver(g, s) then NoneBlocked(g, s) && !s.phase.Closing? && forall m :: Decidable(g, s, m) ==> n <= m
    else s.phase.last < n && forall m :: Decidable(g, s, m) && s.phase.last < m ==> n <= m
  }

  ghost predicate Enabled(g: Graph, s: State, e: Event)
    requires g.Shaped()
  {
    match e
    case MarkSkipped(n, cause) =>
      && n in s.pending && g.Has(n) && cause in g.hard[n] && Blocks(g, s.results, cause)
      && PassOver(g, s) && !s.phase.Closing?
    case Override(n) =>
      !s.stop && Decidable(g, s, n) && IsNextDecision(g, s, n)
    case Dispatch(n) =>
      && !s.stop && n in s.pending && g.Has(n) && Ready(g, s.results, n)
      && NoneBlocked(g, s) && NoneDecidable(g, s) && !s.phase.Closing?
      && forall m :: g.Has(m) && m in s.pending && Ready(g, s.results, m) ==> n <= m
    case Finish(n, _) =>
      n in s.running && (s.phase.Recording? || Settled(g, s))
    case CancelRest(n) =>
      s.running == {} && n in s.pending && (s.phase.Recording? || s.phase.Closing? || (s.stop && Settled(g, s)))
  }

  function PhaseAfter(e: Event): Phase {
    match e
    case MarkSkipped(_, _) | Dispatch(_) => Settling
    case Override(n) => Deciding(n)
    case Finish(_, _) => Recording
    case CancelRest(_) => Closing
  }

  ghost function Next(g: Graph, s: State, e: Event): State
    requires g.Shaped() && Enabled(g, s, e)
  {
    var s := s.(phase := PhaseAfter(e));
    match e
    case MarkSkipped(n, cause) =>
      s.(results := s.results[n := SkipResult(g, s.results, n, cause)], pending := s.pending - {n})
    case Override(n) =>
      s.(results := s.results[n := DecidedResult(g.nodes[n].decision.value)], pending := s.pending - {n})
    case Dispatch(n) =>
      s.(running := s.running + {n}, pending := s.pending - {n})
    case Finish(n, outcome) =>
      s.(results := s.results[n := TaskResult(outcome)], running := s.running - {n},
         stop := s.stop || Halts(g, n, outcome))
    case CancelRest(n) =>
      s.(results := s.results[n := NodeResult(Cancelled, None)], pending := s.pending - {n})
  }

  ghost predicate Legal(g: Graph, log: seq<Event>)
    requires g.Shaped()
    decreases |log|, 0
  {
    log == [] || (Legal(g, log[..|log| - 1]) && Enabled(g, Replay(g, log[..|log| - 1]), log[|log| - 1]))
  }

  ghost function Replay(g: Graph, log: seq<Event>): State
    requires g.Shaped() && Legal(g, log)
    decreases |log|, 1
  {
    if log == [] then Init(g) else Next(g, Replay(g, log[..|log| - 1]), log[|log| - 1])
  }

  lemma Extend(g: Graph, log: seq<Event>, e: Event)
    requires g.Shaped() && Legal(g, log) && Enabled(g, Replay(g, log), e)
    ensures Legal(g, log + [e]) && Replay(g, log + [e]) == Next(g, Replay(g, log), e)
  {
    assert (log + [e])[..|log|] == log;
  }

  /** Every node is in exactly one place: resolved, in flight, or waiting. */
  ghost predicate Partition(g: Graph, s: State) {
    && (forall n :: g.Has(n) <==> n in s.results || n in s.running || n in s.pending)
    && (forall n :: n in s.results ==> n !in s.running && n !in s.pending)
    && (forall n :: n in s.running ==> n !in s.pending)
  }

  lemma StepPartition(g: Graph, s: State, e: Event)
    requires g.Shaped() && Enabled(g, s, e) && Partition(g, s)
    ensures Partition(g, Next(g, s, e))
  {
    var s' := Next(g, s, e);
    assert forall n :: n in s'.results <==> n in s.results || (n == e.nid && !e.Dispatch?);
  }

  lemma {:induction false} RunPartition(g: Graph, log: seq<Event>)
    requires g.Shaped() && Legal(g, log)
    ensures Partition(g, Replay(g, log))
  {
    if log != [] {
      RunPartition(g, log[..|log| - 1]);
      StepPartition(g, Replay(g, log[..|log| - 1]), log[|log| - 1]);
    }
  }

  lemma StepGrows(g: Graph, s: State, e: Event)
    requires g.Shaped() && Enabled(g, s, e) && Partition(g, s)
    ensures Next(g, s, e).pending <= s.pending && (s.stop ==> Next(g, s, e).stop)
    ensures forall n :: n in s.results ==> n in Next(g, s, e).results && Next(g, s, e).results[n] == s.results[n]
  {
  }

  /** Results are written once, nodes leave `pending` for good, and a stopped run stays stopped. */
  lemma {:induction false} RunGrows(g: Graph, log: seq<Event>, k: nat)
    requires g.Shaped() && Legal(g, log) && k <= |log|
    ensures Legal(g, log[..k])
    ensures var old_, now := Replay(g, log[..k]), Replay(g, log);
            && now.pending <= old_.pending
            && (old_.stop ==> now.stop)
            && forall n :: n in old_.results ==> n in now.results && now.results[n] == old_.results[n]
    decreases |log|
  {
    if k < |log| {
      var front := log[..|log| - 1];
      RunGrows(g, front, k);
      assert front[..k] == log[..k];
      RunPartition(g, front);
      hide Enabled, Next;
      StepGrows(g, Replay(g, front), log[|log| - 1]);
    } else {
      assert log[..k] == log;
    }
  }

  predicate Resolves(e: Event, n: int) {
    e.nid == n && !e.Dispatch?
  }

  lemma StepIn(g: Graph, log: seq<Event>, i: nat)
    requires g.Shaped() && Legal(g, log) && i < |log|
    ensures Legal(g, log[..i]) && Legal(g, log[..i + 1]) && Enabled(g, Replay(g, log[..i]), log[i])
    ensures Replay(g, log[..i + 1]) == Next(g, Replay(g, log[..i]), log[i])
  {
    RunGrows(g, log, i + 1);
    assert log[..i + 1][..i] == log[..i];
  }

  /** A resolved node has an event of the run that resolved it. */
  lemma {:induction false} ResolvedBy(g: Graph, log: seq<Event>, n: int) returns (j: nat)
    requires g.Shaped() && Legal(g, log) && n in Replay(g, log).results
    ensures j < |log| && Resolves(log[j], n)
  {
    j := |log| - 1;
    if !Resolves(log[j], n) {
      j := ResolvedBy(g, log[..j], n);
    }
  }

  /** No node is dispatched twice and none gets two results. */
  lemma AtMostOnce(g: Graph, log: seq<Event>, i: nat, j: nat)
    requires g.Shaped() && Legal(g, log) && i < j < |log| && log[i].nid == log[j].nid
    ensures log[i].Dispatch? && log[j].Finish?
  {
    StepIn(g, log, i);
    StepIn(g, log, j);
    RunGrows(g, log[..j], i + 1);
    assert log[..j][..i + 1] == log[..i + 1];
    RunPartition(g, log[..i + 1]);
    RunPartition(g, log[..j]);
  }

  /** A node is dispatched only after every dependency resolved, each hard one ok or declared `continue`. */
  lemma DispatchSafe(g: Graph, log: seq<Event>, i: nat, d: int) returns (j: nat)
    requires g.Shaped() && Legal(g, log) && i < |log| && log[i].Dispatch?
    requires g.Has(log[i].nid) && d in g.deps[log[i].nid] && g.Has(d)
    ensures j < i && Resolves(log[j], d)
    ensures d in Replay(g, log).results
    ensures d in g.hard[log[i].nid] ==>
      Replay(g, log).results[d].status == Ok || g.nodes[d].onFailure == Continue
  {
    StepIn(g, log, i);
    RunGrows(g, log, i);
    j := ResolvedBy(g, log[..i], d);
    assert !Blocked(g, Replay(g, log[..i]).results, log[i].nid);
  }

  /** Nothing is dispatched, and no override is taken, after a failure whose policy is `stop`. */
  lemma StopHolds(g: Graph, log: seq<Event>, i: nat, j: nat)
    requires g.Shaped() && Legal(g, log) && i < j < |log|
    requires log[i].Finish? && g.Has(log[i].nid)
    requires log[i].outcome == Raised && g.nodes[log[i].nid].onFailure == Stop
    ensures !log[j].Dispatch? && !log[j].Override?
  {
    StepIn(g, log, i);
    StepIn(g, log, j);
    RunGrows(g, log[..j], i + 1);
    assert log[..j][..i + 1] == log[..i + 1];
  }

  // ---- Where skips come from --------------------------------------------------------------

  /** `d` is a blocking hard dependency of the skipped `n` that explains how `n` was recorded. */
  ghost predicate Explains(g: Graph, results: Results, n: int, d: int)
    requires g.Shaped() && g.Has(n) && n in results
  {
    && d in g.hard[n] && Blocks(g, results, d)
    && if results[n].Excused() then results[d].overridden == results[n].overridden else !results[d].Excused()
  }

  ghost predicate Explained(g: Graph, results: Results)
    requires g.Shaped()
  {
    forall n :: g.Has(n) && n in results ==>
      match results[n].status
      case Skipped => TookOverride(g, results, n) || exists d :: Explains(g, results, n, d)
      case Ok => true
      case _ => results[n].overridden.None?
  }

  lemma StepExplained(g: Graph, s: State, e: Event)
    requires g.Shaped() && Enabled(g, s, e) && Partition(g, s) && Explained(g, s.results)
    ensures Explained(g, Next(g, s, e).results)
  {
    var r, r' := s.results, Next(g, s, e).results;
    forall n | g.Has(n) && n in r && r[n].status == Skipped && !TookOverride(g, r, n)
      ensures exists d :: Explains(g, r', n, d)
    {
      var d :| Explains(g, r, n, d);
      assert Explains(g, r', n, d);
    }
    if e.MarkSkipped? {
      if AllExcused(g, r, e.nid) {
        assert Explains(g, r', e.nid, e.cause);
      } else {
        var d :| d in g.hard[e.nid] && Blocks(g, r, d) && !r[d].Excused();
        assert Explains(g, r', e.nid, d);
      }
    }
  }

  lemma {:induction false} RunExplained(g: Graph, log: seq<Event>)
    requires g.Shaped() && Legal(g, log)
    ensures Explained(g, Replay(g, log).results)
  {
    if log != [] {
      var front := log[..|log| - 1];
      RunExplained(g, front);
      RunPartition(g, front);
      StepExplained(g, Replay(g, front), log[|log| - 1]);
    }
  }

  ghost predicate BlockingEdge(g: Graph, results: Results, n: int, d: int)
    requires g.Shaped()
  {
    g.Has(n) && n in results && d in g.hard[n] && Blocks(g, results, d)
  }

  /** `path` leads from its first node down hard edges, each to a result that blocks. */
  ghost predicate BlockingPath(g: Graph, results: Results, path: seq<int>)
    requires g.Shaped()
  {
    && path != []
    && forall i, j :: 0 <= i && j == i + 1 < |path| ==> BlockingEdge(g, results, path[i], path[j])
  }

  ghost predicate ReasonsGiven(g: Graph) {
    forall n :: g.Has(n) && g.nodes[n].decision.Some? ==> g.nodes[n].decision.value.reason != ""
  }

  ghost predicate SkippedByOverride(g: Graph, n: int) {
    g.Has(n) && g.nodes[n].decision.Some? && g.nodes[n].decision.value.outcome.CountsAsSkipped?
  }

  /** What the root of a skip must be: for an excused one an override with the very reason it carries, for any
      other a node that failed or was cancelled and was not overridden. */
  ghost predicate RootOf(g: Graph, results: Results, skip: NodeResult, root: int) {
    root in results &&
    if skip.Excused()
    then SkippedByOverride(g, root) && Some(g.nodes[root].decision.value.reason) == skip.overridden
    else results[root].status in {Failed, Cancelled} && results[root].overridden.None?
  }

  lemma {:induction false} TraceSkip(g: Graph, rank: map<int, nat>, results: Results, n: int) returns (path: seq<int>)
    requires g.Shaped() && g.Ranked(rank) && Explained(g, results) && ReasonsGiven(g)
    requires g.Has(n) && n in results && results[n].status == Skipped
    ensures BlockingPath(g, results, path) && path[0] == n && RootOf(g, results, results[n], path[|path| - 1])
    decreases rank[n]
  {
    if TookOverride(g, results, n) {
      path := [n];
    } else {
      var d :| Explains(g, results, n, d);
      var rest := [d];
      if results[d].status == Skipped {
        rest := TraceSkip(g, rank, results, d);
      }
      path := [n] + rest;
      assert BlockingEdge(g, results, n, d);
    }
  }

  /** Every skip of a run is traced along hard edges to its root. */
  lemma SkipRoot(g: Graph, rank: map<int, nat>, log: seq<Event>, n: int) returns (path: seq<int>)
    requires g.Shaped() && g.Ranked(rank) && Legal(g, log) && ReasonsGiven(g)
    requires g.Has(n) && n in Replay(g, log).results && Replay(g, log).results[n].status == Skipped
    ensures var results := Replay(g, log).results;
      && BlockingPath(g, results, path) && path[0] == n
      && RootOf(g, results, results[n], path[|path| - 1])
  {
    RunExplained(g, log);
    path := TraceSkip(g, rank, Replay(g, log).results, n);
  }
}
