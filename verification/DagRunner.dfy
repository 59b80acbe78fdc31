/** The mutable run state and the dispatch loop, proved to make only legal moves and to finish every node. */
module DagRunner {
  import opened Prelude
  import opened DagGraph
  import opened DagRun
  import opened DagMeaning

  /** `t` contains every waiting node with a hard dependency that blocks, or that is itself in `t` and spreads. */
  ghost predicate SkipClosed(g: Graph, results: Results, waiting: set<int>, t: set<int>)
    requires g.Shaped()
  {
    forall n, d ::
      (g.Has(n) && n in waiting && d in g.hard[n] && g.Has(d)
       && (Blocks(g, results, d) || (d in t && g.nodes[d].onFailure != Continue)))
      ==> n in t
  }

  ghost predicate LeastSkips(g: Graph, results: Results, waiting: set<int>, skipped: set<int>)
    requires g.Shaped()
  {
    && skipped <= waiting
    && SkipClosed(g, results, waiting, skipped)
    && forall t :: SkipClosed(g, results, waiting, t) ==> skipped <= t
  }

  /** `now` differs from `before` only in nodes that were waiting and are now recorded as skipped. */
  ghost predicate SkippedFrom(before: State, now: State) {
    && now.running == before.running && now.stop == before.stop && now.pending <= before.pending
    && (forall n :: n in before.results ==> n in now.results && now.results[n] == before.results[n])
    && (forall n :: n in now.results && n !in before.results ==>
      n in before.pending && n !in now.pending && now.results[n].status == Skipped)
    && (forall n :: n in before.pending && n !in now.pending ==> n in now.results)
  }

  ghost predicate OnlySkips(before: seq<Event>, after: seq<Event>) {
    before <= after && forall i :: |before| <= i < |after| ==> after[i].MarkSkipped?
  }

  lemma SkipForced(g: Graph, before: State, s: State, e: Event, t: set<int>)
    requires g.Shaped() && Enabled(g, s, e) && e.MarkSkipped? && Partition(g, s)
    requires SkipClosed(g, before.results, before.pending, t)
    requires SkippedFrom(before, s) && before.pending - s.pending <= t
    ensures SkippedFrom(before, Next(g, s, e)) && before.pending - Next(g, s, e).pending <= t
  {
    assert Blocks(g, before.results, e.cause) || e.cause in t;
  }

  /** A stretch of skip events skips waiting nodes only, and none outside any closed set. */
  lemma {:induction false} SkipsForced(g: Graph, log: seq<Event>, k: nat, t: set<int>)
    requires g.Shaped() && Legal(g, log) && k <= |log| && Legal(g, log[..k]) && OnlySkips(log[..k], log)
    requires SkipClosed(g, Replay(g, log[..k]).results, Replay(g, log[..k]).pending, t)
    ensures SkippedFrom(Replay(g, log[..k]), Replay(g, log))
    ensures Replay(g, log[..k]).pending - Replay(g, log).pending <= t
  {
    if k == |log| {
      assert log[..k] == log;
      assert SkippedFrom(Replay(g, log), Replay(g, log));
    } else {
      var front := log[..|log| - 1];
      assert front[..k] == log[..k];
      SkipsForced(g, front, k, t);
      RunPartition(g, front);
      hide Enabled, Next, SkippedFrom, SkipClosed;
      SkipForced(g, Replay(g, log[..k]), Replay(g, front), log[|log| - 1], t);
    }
  }

  lemma SkipsLeast(g: Graph, log: seq<Event>, k: nat)
    requires g.Shaped() && g.Closed() && Legal(g, log) && k <= |log| && Legal(g, log[..k]) && OnlySkips(log[..k], log)
    requires NoneBlocked(g, Replay(g, log))
    ensures SkippedFrom(Replay(g, log[..k]), Replay(g, log))
    ensures LeastSkips(g, Replay(g, log[..k]).results, Replay(g, log[..k]).pending,
                       Replay(g, log[..k]).pending - Replay(g, log).pending)
  {
    var before, now := Replay(g, log[..k]), Replay(g, log);
    hide Blocks, Blocked;
    RunPartition(g, log[..k]);
    SkipsForced(g, log, k, before.pending);
    forall t | SkipClosed(g, before.results, before.pending, t)
      ensures before.pending - now.pending <= t
    {
      SkipsForced(g, log, k, t);
    }
    hide Legal, Replay;
    SkipsClosed(g, before, now);
  }

  /** Where nothing is left blocked, what has been skipped is closed. */
  lemma SkipsClosed(g: Graph, before: State, now: State)
    requires g.Shaped() && Partition(g, before) && SkippedFrom(before, now) && NoneBlocked(g, now)
    ensures SkipClosed(g, before.results, before.pending, before.pending - now.pending)
  {
    var skipped := before.pending - now.pending;
    forall n, d | g.Has(n) && n in before.pending && d in g.hard[n] && g.Has(d)
      && (Blocks(g, before.results, d) || (d in skipped && g.nodes[d].onFailure != Continue))
      ensures n in skipped
    {
      assert Blocks(g, now.results, d);
      assert Blocked(g, now.results, n);
    }
  }

  lemma LowestIsReady(g: Graph, rank: map<int, nat>, s: State) returns (n: int)
    requires g.Shaped() && g.Ranked(rank) && Partition(g, s) && s.running == {} && s.pending != {}
    ensures n in s.pending && g.Has(n) && Ready(g, s.results, n)
  {
    n := Member(s.pending);
    while g.deps[n] * s.pending != {}
      invariant n in s.pending && g.Has(n)
      decreases rank[n]
    {
      n := Member(g.deps[n] * s.pending);
    }
    forall d | d in g.deps[n]
      ensures d in s.results
    {
      assert g.Has(d) && d !in g.deps[n] * s.pending;
    }
  }

  class RunState {
    const graph: Graph
    var results: Results
    var running: set<int>
    var pending: set<int>
    var stop: bool
    ghost var phase: Phase
    ghost var log: seq<Event>

    ghost function Snap(): State
      reads this
    {
      State(results, running, pending, stop, phase)
    }

    ghost predicate Valid()
      reads this
    {
      && graph.Shaped() && graph.Closed()
      && Legal(graph, log) && Replay(graph, log) == Snap()
      && Partition(graph, Snap())
    }

    constructor (g: Graph)
      requires g.Shaped() && g.Closed()
      ensures Valid() && graph == g && log == [] && !stop && phase == Settling && pending == Range(|g.nodes|)
    {
      graph := g;
      results, running, pending, stop := map[], {}, set n | n in Ids(|g.nodes|), false;
      phase, log := Settling, [];
      new;
      IdsListed(|g.nodes|);
      RunPartition(g, []);
      assert pending == Range(|g.nodes|);
    }

    /** Appends one event to the log; the caller has made the fields match it. */
    ghost method Log(e: Event)
      requires graph.Shaped() && graph.Closed() && Legal(graph, log) && Partition(graph, Replay(graph, log))
      requires Enabled(graph, Replay(graph, log), e)
      requires Next(graph, Replay(graph, log), e) == Snap().(phase := PhaseAfter(e))
      modifies this`log, this`phase
      ensures Valid() && log == old(log) + [e] && phase == PhaseAfter(e)
    {
      Extend(graph, log, e);
      StepPartition(graph, Replay(graph, log), e);
      log, phase := log + [e], PhaseAfter(e);
    }

    /** The hard dependencies whose results keep the node from running, in some order. */
    method Blockers(nid: int) returns (causes: seq<int>)
      requires Valid() && graph.Has(nid)
      ensures forall d :: d in causes <==> d in graph.hard[nid] && Blocks(graph, results, d)
      ensures causes == [] <==> !Blocked(graph, results, nid)
    {
      causes := [];
      var left := graph.hard[nid];
      while left != {}
        invariant left <= graph.hard[nid]
        invariant forall d :: d in causes <==> d in graph.hard[nid] && d !in left && Blocks(graph, results, d)
        decreases left
      {
        var d := Take(left);
        left := left - {d};
        if Blocks(graph, results, d) {
          causes := causes + [d];
        }
      }
      if causes != [] {
        ghost var d := causes[0];
        assert d in causes && Blocks(graph, results, d);
      }
    }

    method Resolve(nid: int, result: NodeResult)
      modifies this`results, this`pending
      ensures results == old(results)[nid := result] && pending == old(pending) - {nid}
    {
      results := results[nid := result];
      pending := pending - {nid};
    }

    method SkipNode(nid: int, causes: seq<int>)
      requires Valid() && nid in pending && causes != []
      requires graph.Has(nid) && forall d :: d in causes <==> d in graph.hard[nid] && Blocks(graph, results, d)
      requires PassOver(graph, Snap()) && !phase.Closing?
      modifies this
      ensures Valid() && phase == Settling
      ensures pending == old(pending) - {nid} && running == old(running) && stop == old(stop)
      ensures results == old(results)[nid := results[nid]] && results[nid].status == Skipped
      ensures log == old(log) + [MarkSkipped(nid, causes[0])]
    {
      var first := causes[0];
      assert first in causes;
      var all := forall d | d in causes :: results[d].Excused();
      var excused := if all then results[first].overridden else None;
      assert all == AllExcused(graph, results, nid);
      Resolve(nid, NodeResult(Skipped, excused));
      Log(MarkSkipped(nid, causes[0]));
    }

    /** One pass over the waiting nodes in some order, skipping each that is blocked when its turn comes. */
    method SkipPass() returns (moved: bool)
      requires Valid() && PassOver(graph, Snap()) && !phase.Closing?
      modifies this
      ensures Valid() && PassOver(graph, Snap()) && phase == if moved then Settling else old(phase)
      ensures running == old(running) && stop == old(stop)
      ensures pending <= old(pending) && (moved <==> pending != old(pending))
      ensures !moved ==> Snap() == old(Snap()) && NoneBlocked(graph, Snap())
      ensures OnlySkips(old(log), log)
    {
      hide Legal, Replay, Blocked;
      moved := false;
      var left := pending;
      while left != {}
        invariant Valid() && left <= pending <= old(pending)
        invariant PassOver(graph, Snap()) && phase == if moved then Settling else old(phase)
        invariant running == old(running) && stop == old(stop)
        invariant moved <==> pending != old(pending)
        invariant OnlySkips(old(log), log)
        invariant !moved ==> Snap() == old(Snap())
        invariant !moved ==> forall n :: n in pending && n !in left && graph.Has(n) ==> !Blocked(graph, results, n)
        decreases left
      {
        var nid := Take(left);
        left := left - {nid};
        var causes := Blockers(nid);
        if causes != [] {
          SkipNode(nid, causes);
          moved := true;
        }
      }
    }

    /** Skips exactly the least set closed under "has a blocking hard dependency", whatever the order. */
    method ResolveSkips()
      requires Valid() && PassOver(graph, Snap()) && !phase.Closing?
      modifies this
      ensures Valid() && PassOver(graph, Snap()) && phase in {old(phase), Settling}
      ensures running == old(running) && stop == old(stop) && pending <= old(pending)
      ensures NoneBlocked(graph, Snap()) && OnlySkips(old(log), log)
      ensures SkippedFrom(old(Snap()), Snap())
      ensures LeastSkips(graph, old(results), old(pending), old(pending) - pending)
    {
      var moved := true;
      while moved
        invariant Valid() && running == old(running) && stop == old(stop) && pending <= old(pending)
        invariant PassOver(graph, Snap()) && phase in {old(phase), Settling}
        invariant OnlySkips(old(log), log)
        invariant !moved ==> NoneBlocked(graph, Snap())
        decreases pending, moved
      {
        moved := SkipPass();
      }
      assert log[..|old(log)|] == old(log);
      SkipsLeast(graph, log, |old(log)|);
    }

    method DecideNode(nid: int)
      requires Valid() && Enabled(graph, Snap(), Override(nid))
      modifies this
      ensures Valid() && phase == Deciding(nid)
      ensures pending == old(pending) - {nid} && running == old(running) && stop == old(stop)
      ensures log == old(log) + [Override(nid)]
    {
      Resolve(nid, DecidedResult(graph.nodes[nid].decision.value));
      Log(Override(nid));
    }

    /** What a pass that has visited the ids below `nid` has left undecided. */
    ghost predicate Visited(nid: int, moved: bool)
      requires graph.Shaped()
      reads this
    {
      var s := Snap();
      if moved
      then phase.Deciding? && phase.last < nid && forall n :: Decidable(graph, s, n) && phase.last < n ==> nid <= n
      else NoneBlocked(graph, s) && PassOver(graph, s) && forall n :: Decidable(graph, s, n) ==> nid <= n
    }

    /** One pass in ascending id order, recording the override of each node that is ready at its turn. */
    method OverridePass() returns (moved: bool)
      requires Valid() && !stop && NoneBlocked(graph, Snap()) && PassOver(graph, Snap()) && !phase.Closing?
      modifies this
      ensures Valid() && PassOver(graph, Snap()) && !phase.Closing? && running == old(running) && stop == old(stop)
      ensures pending <= old(pending) && (moved <==> pending != old(pending))
      ensures !moved ==> Snap() == old(Snap()) && NoneDecidable(graph, Snap())
      ensures Undispatched(old(log), log)
    {
      hide Legal, Replay, Partition, NoneBlocked, Ready;
      moved := false;
      for nid := 0 to |graph.nodes|
        invariant Valid() && running == old(running) && !stop && !phase.Closing?
        invariant pending <= old(pending) && (moved <==> pending != old(pending))
        invariant Visited(nid, moved)
        invariant !moved ==> Snap() == old(Snap())
        invariant Undispatched(old(log), log)
      {
        if nid in pending && Ready(graph, results, nid) && graph.nodes[nid].decision.Some? {
          assert Decidable(graph, Snap(), nid);
          DecideNode(nid);
          moved := true;
        }
      }
    }

    /** Alternates skips and override passes until neither finds anything to do. */
    method Settle()
      requires Valid() && PassOver(graph, Snap()) && !phase.Closing?
      modifies this
      ensures Valid() && running == old(running) && stop == old(stop) && pending <= old(pending)
      ensures NoneBlocked(graph, Snap()) && PassOver(graph, Snap()) && !phase.Closing?
      ensures !stop ==> NoneDecidable(graph, Snap())
      ensures Undispatched(old(log), log)
    {
      hide Legal, Replay, Partition, Blocked, LeastSkips, SkippedFrom, Ready;
      var moved := true;
      while moved
        invariant Valid() && running == old(running) && stop == old(stop) && pending <= old(pending)
        invariant PassOver(graph, Snap()) && !phase.Closing?
        invariant Undispatched(old(log), log)
        invariant !moved ==> NoneBlocked(graph, Snap()) && NoneDecidable(graph, Snap())
        decreases pending, moved
      {
        ResolveSkips();
        if stop {
          return;
        }
        moved := OverridePass();
      }
    }

    method DispatchNode(nid: int)
      requires Valid() && Enabled(graph, Snap(), Dispatch(nid))
      modifies this
      ensures Valid() && phase == Settling && results == old(results) && stop == old(stop)
      ensures pending == old(pending) - {nid} && running == old(running) + {nid}
      ensures log == old(log) + [Dispatch(nid)]
    {
      pending := pending - {nid};
      running := running + {nid};
      Log(Dispatch(nid));
    }

    /** Dispatches, in ascending id order, every waiting node whose dependencies have resolved. */
    method DispatchReady()
      requires Valid() && !stop && NoneBlocked(graph, Snap()) && NoneDecidable(graph, Snap()) && !phase.Closing?
      modifies this
      ensures Valid() && !stop && pending + running == old(pending + running)
      ensures Settled(graph, Snap())
      ensures Unfinished(old(log), log)
    {
      hide Legal, Replay, Partition, Blocked;
      for nid := 0 to |graph.nodes|
        invariant Valid() && !stop && results == old(results) && pending <= old(pending) && !phase.Closing?
        invariant NoneBlocked(graph, Snap()) && NoneDecidable(graph, Snap())
        invariant pending + running == old(pending + running)
        invariant forall n :: graph.Has(n) && n in pending && Ready(graph, results, n) ==> nid <= n
        invariant Unfinished(old(log), log)
      {
        if nid in pending && Ready(graph, results, nid) {
          ghost var before := Snap();
          DispatchNode(nid);
          assert forall n :: Decidable(graph, Snap(), n) ==> Decidable(graph, before, n);
        }
      }
    }

    /** Leaves no node behind that could be resolved or started now, unless the run is stopping. */
    method StartReady()
      requires Valid() && PassOver(graph, Snap()) && !phase.Closing?
      modifies this
      ensures Valid() && Settled(graph, Snap()) && stop == old(stop)
      ensures pending + running <= old(pending + running)
      ensures old(StopFree(graph, log) ==> !stop) ==> StopFree(graph, log) ==> !stop
      ensures Unfinished(old(log), log)
    {
      hide Legal, Replay, Partition, NoneBlocked, Blocked, StopFree;
      Settle();
      if !stop {
        DispatchReady();
      }
      PrefixStopFree(graph, old(log), log);
    }

    /** Files the result of one ended task; a failure under the `stop` policy halts the run. */
    method Record(nid: int, outcome: Outcome)
      requires Valid() && nid in running && (phase.Recording? || Settled(graph, Snap()))
      modifies this
      ensures Valid() && phase == Recording && running == old(running) - {nid} && pending == old(pending)
      ensures results == old(results)[nid := NodeResult(EndOf(outcome), None)]
      ensures stop == (old(stop) || (outcome == Raised && graph.Has(nid) && graph.nodes[nid].onFailure == Stop))
      ensures log == old(log) + [Finish(nid, outcome)]
    {
      running := running - {nid};
      results := results[nid := TaskResult(outcome)];
      stop := stop || Halts(graph, nid, outcome);
      Log(Finish(nid, outcome));
    }

    /** Records every task of a finished wait, each as it ended. */
    method RecordAll(done: set<int>, ends: int -> Outcome)
      requires Valid() && done <= running && done != {} && Settled(graph, Snap())
      modifies this
      ensures Valid() && phase == Recording && running == old(running) - done && pending == old(pending)
      ensures forall n :: n in done ==> n !in pending
      ensures NothingCancelled(old(log), log) && (FinishesAs(old(log), ends) ==> FinishesAs(log, ends))
      ensures StopFree(graph, log) && !old(stop) ==> !stop
      ensures results.Keys == old(results).Keys + done
      ensures forall n :: n in results ==>
        results[n] == if n in done then NodeResult(EndOf(ends(n)), None) else old(results)[n]
    {
      hide Legal, Replay, Settled, StopFree, FinishesAs;
      var left := done;
      assert forall n :: n in done ==> n !in pending && n !in results;
      while left != {}
        invariant Valid() && left <= done && running == old(running) - (done - left) && pending == old(pending)
        invariant if left == done then Snap() == old(Snap()) else phase == Recording
        invariant NothingCancelled(old(log), log) && (FinishesAs(old(log), ends) ==> FinishesAs(log, ends))
        invariant StopFree(graph, log) && !old(stop) ==> !stop
        invariant results.Keys == old(results).Keys + (done - left)
        invariant forall n :: n in results ==>
          results[n] == if n in done then NodeResult(EndOf(ends(n)), None) else old(results)[n]
        decreases left
      {
        var nid := Take(left);
        assert graph.Has(nid);
        ghost var before := log;
        Record(nid, ends(nid));
        left := left - {nid};
        FinishAppended(graph, before, nid, ends(nid), ends);
      }
    }

    method CancelPending()
      requires Valid() && running == {}
      requires pending == {} || phase.Recording? || (stop && Settled(graph, Snap()))
      modifies this
      ensures Valid() && running == {} && pending == {} && old(log) <= log
      ensures forall i :: |old(log)| <= i < |log| ==> log[i].CancelRest?
      ensures old(pending) == {} ==> log == old(log) && results == old(results)
      ensures forall n :: n in results <==> graph.Has(n)
      ensures forall n :: n in old(results) ==> n in results && results[n] == old(results)[n]
      ensures forall n :: n in old(pending) ==> n in results && results[n] == NodeResult(Cancelled, None)
    {
      hide Legal, Replay;
      while pending != {}
        invariant Valid() && running == {} && pending <= old(pending) && old(log) <= log
        invariant if pending == old(pending) then Snap() == old(Snap()) else phase == Closing
        invariant forall i :: |old(log)| <= i < |log| ==> log[i].CancelRest?
        invariant old(pending) == {} ==> log == old(log) && results == old(results)
        invariant forall n :: n in old(results) ==> n in results && results[n] == old(results)[n]
        invariant forall n :: n in old(pending) && n !in pending ==>
          n in results && results[n] == NodeResult(Cancelled, None)
        decreases pending
      {
        var nid := Take(pending);
        Resolve(nid, NodeResult(Cancelled, None));
        Log(CancelRest(nid));
      }
    }

    /** Ends every in-flight node and records it as it ended. `claims` says of each further cancellation that arrives
        meanwhile whether the caller would own up to it; the caller is asked only if `asked`. */
    method Drain(ends: int -> Outcome, asked: bool, claims: seq<bool>) returns (declined: bool)
      requires Valid() && running != {} && Settled(graph, Snap())
      modifies this
      ensures Valid() && phase == Recording && running == {} && pending == old(pending) && old(log) <= log
      ensures FinishesAs(old(log), ends) ==> FinishesAs(log, ends)
      ensures results.Keys == old(results).Keys + old(running)
      ensures forall n :: n in results ==>
        results[n] == if n in old(running) then NodeResult(EndOf(ends(n)), None) else old(results)[n]
      ensures declined <==> if asked then false in claims else claims != []
    {
      declined := false;
      for i := 0 to |claims|
        invariant declined <==> if asked then false in claims[..i] else i > 0
      {
        assert claims[..i + 1] == claims[..i] + [claims[i]];
        if !declined && !(asked && claims[i]) {
          declined := true;
        }
      }
      assert claims[..|claims|] == claims;
      RecordAll(running, ends);
    }
  }

  /** Every task that ended did so as `ends` says. */
  ghost predicate FinishesAs(log: seq<Event>, ends: int -> Outcome) {
    forall i :: 0 <= i < |log| && log[i].Finish? ==> log[i].outcome == ends(log[i].nid)
  }

  ghost predicate Undispatched(before: seq<Event>, after: seq<Event>) {
    before <= after && forall i :: |before| <= i < |after| ==> after[i].MarkSkipped? || after[i].Override?
  }

  ghost predicate Unfinished(before: seq<Event>, after: seq<Event>) {
    before <= after && forall i :: |before| <= i < |after| ==> !after[i].CancelRest? && !after[i].Finish?
  }

  ghost predicate NothingCancelled(before: seq<Event>, after: seq<Event>) {
    before <= after && forall i :: |before| <= i < |after| ==> !after[i].CancelRest?
  }

  /** Which of the running tasks a wait finds done: any, but at least one. */
  method CompletedTasks(running: set<int>) returns (done: set<int>)
    requires running != {}
    ensures done != {} && done <= running
  {
    var first := Take(running);
    done := {first};
    var left := running - done;
    while left != {}
      invariant done != {} && done <= running && left <= running
      decreases left
    {
      var nid := Take(left);
      left := left - {nid};
      if * {
        done := done + {nid};
      }
    }
  }

  /** A report, the deadlock error, or the cancellation passed on, with the results recorded by then. */
  datatype RunOutcome = Report(results: Results, aborted: bool) | Deadlock | Propagated(results: Results)

  /** No task failed under the `stop` policy. */
  ghost predicate StopFree(g: Graph, log: seq<Event>) {
    forall i :: 0 <= i < |log| && log[i].Finish? && log[i].outcome == Raised && g.Has(log[i].nid) ==>
      g.nodes[log[i].nid].onFailure != Stop
  }

  /** With nothing in flight and nothing ready, a graph whose dependencies are well-founded is all resolved. */
  lemma NoDeadlock(g: Graph, rank: map<int, nat>, s: State)
    requires g.Shaped() && g.Ranked(rank) && Partition(g, s) && s.running == {}
    requires forall n :: g.Has(n) && n in s.pending ==> !Ready(g, s.results, n)
    ensures s.pending == {}
  {
    if s.pending != {} {
      var n := LowestIsReady(g, rank, s);
      assert false;
    }
  }

  /** What the run had come to when it ended or was cancelled, and what is made of that: results stay, what was in
      flight is recorded as it ended, and whatever waited is cancelled. */
  ghost predicate Completes(g: Graph, s: State, ends: int -> Outcome, results: Results) {
    && results.Keys == Range(|g.nodes|)
    && (forall n :: n in results && n in s.results ==> results[n] == s.results[n])
    && (forall n :: n in results && n in s.running ==> results[n] == NodeResult(EndOf(ends(n)), None))
    && (forall n :: n in results && n in s.pending ==> results[n] == NodeResult(Cancelled, None))
  }

  lemma FinishAppended(g: Graph, before: seq<Event>, nid: int, outcome: Outcome, ends: int -> Outcome)
    ensures FinishesAs(before, ends) && outcome == ends(nid) ==> FinishesAs(before + [Finish(nid, outcome)], ends)
    ensures StopFree(g, before + [Finish(nid, outcome)]) ==>
      StopFree(g, before) && !(outcome == Raised && g.Has(nid) && g.nodes[nid].onFailure == Stop)
  {
    var after := before + [Finish(nid, outcome)];
    PrefixStopFree(g, before, after);
    assert after[|before|] == Finish(nid, outcome);
  }

  /** None of the first waits was cut short. */
  ghost predicate Undisturbed(cancels: nat -> seq<bool>, waits: int) {
    forall k :: 0 <= k < waits ==> cancels(k) == []
  }

  lemma DisturbedAt(cancels: nat -> seq<bool>, k: nat)
    ensures Undisturbed(cancels, k + 1) <==> Undisturbed(cancels, k) && cancels(k) == []
  {
    if Undisturbed(cancels, k) && cancels(k) == [] {
      forall j | 0 <= j < k + 1
        ensures cancels(j) == []
      {
      }
    }
  }

  lemma FinishesKept(before: seq<Event>, after: seq<Event>, ends: int -> Outcome)
    requires FinishesAs(before, ends) && before <= after
    requires forall i :: |before| <= i < |after| ==> !after[i].Finish?
    ensures FinishesAs(after, ends)
  {
    assert forall i :: 0 <= i < |before| ==> after[i] == before[i];
  }

  lemma SettledUnready(g: Graph, s: State)
    requires g.Shaped() && Settled(g, s) && !s.stop
    ensures forall n :: g.Has(n) && n in s.pending ==> !Ready(g, s.results, n)
  {
  }

  /** Where all is settled the last look for skips finds none. */
  lemma SettledSkips(g: Graph, s: State)
    requires g.Shaped() && Settled(g, s)
    ensures PassOver(g, s) && !s.phase.Closing?
    ensures forall skipped :: LeastSkips(g, s.results, s.pending, skipped) ==> skipped == {}
  {
    forall n, d | g.Has(n) && n in s.pending && d in g.hard[n] && g.Has(d)
      ensures !Blocks(g, s.results, d)
    {
      assert !Blocked(g, s.results, n);
    }
    assert SkipClosed(g, s.results, s.pending, {});
  }

  /** How cancellations decide the outcome: they reach the last wait only, and an unclaimed one is passed on. */
  ghost predicate Answers(cancels: nat -> seq<bool>, waits: nat, outcome: RunOutcome) {
    && Undisturbed(cancels, waits - 1)
    && var cancelled := waits > 0 && cancels(waits - 1) != [];
    && (outcome.Propagated? <==> cancelled && false in cancels(waits - 1))
    && (outcome.Report? && outcome.aborted <==> cancelled && false !in cancels(waits - 1))
  }

  /** The log is a run of the graph in which tasks end as they do, and completes what it had come to at `cut`. */
  ghost predicate Ran(g: Graph, ends: int -> Outcome, log: seq<Event>, cut: seq<Event>, results: Results)
    requires g.Shaped()
  {
    && Legal(g, log) && Replay(g, log).results == results && FinishesAs(log, ends)
    && cut <= log && Legal(g, cut) && Settled(g, Replay(g, cut)) && Completes(g, Replay(g, cut), ends, results)
  }

  /** Nothing was in flight at the cut, nothing waited there unless a failure stopped the run, and nothing was given up
      but for that. */
  ghost predicate Unbroken(g: Graph, log: seq<Event>, cut: seq<Event>)
    requires g.Shaped() && Legal(g, cut)
  {
    && Replay(g, cut).running == {} && (Replay(g, cut).pending == {} || Replay(g, cut).stop)
    && (StopFree(g, log) ==> NothingCancelled([], log))
  }

  /** The dispatch loop. Task n ends as `ends(n)`; the k-th wait is cut short by `cancels(k)`, the cancellations that
      reach it and the drain after it, each with whether the caller claims it as its own abort, or by none.

      Every node ends with exactly one result, the deadlock error is unreachable for every graph `Build` accepts, and
      nothing is given up on unless the run is cancelled or a failure stops it. The report is marked aborted exactly
      if a wait was cut short and every cancellation was claimed; one that was not is passed on. */
  method Execute(g: Graph, ends: int -> Outcome, cancels: nat -> seq<bool>)
    returns (outcome: RunOutcome, ghost log: seq<Event>, ghost cut: seq<Event>, ghost waits: nat)
    requires g.Shaped() && g.Closed()
    ensures (exists rank :: g.Ranked(rank)) ==> !outcome.Deadlock?
    ensures Answers(cancels, waits, outcome)
    ensures !outcome.Deadlock? ==> Ran(g, ends, log, cut, outcome.results)
    ensures outcome.Report? && !outcome.aborted ==> Legal(g, cut) && Unbroken(g, log, cut)
  {
    assert Undisturbed(cancels, 0) && NothingCancelled([], []);
    hide Legal, Replay, Partition, NoneBlocked, PassOver, StopFree, FinishesAs, Settled, Ready;
    hide Undisturbed, Ran, Unbroken, Answers, NothingCancelled, Unfinished;
    var state := new RunState(g);
    var wait := 0;
    assert PassOver(g, state.Snap()) && FinishesAs(state.log, ends) by {
      StartsSettling(g, state.Snap());
      FinishesKept([], state.log, ends);
    }
    while true
      invariant fresh(state) && state.Valid() && state.graph == g
      invariant PassOver(g, state.Snap()) && !state.phase.Closing?
      invariant NothingCancelled([], state.log) && FinishesAs(state.log, ends)
      invariant StopFree(g, state.log) ==> !state.stop
      invariant Undisturbed(cancels, wait)
      decreases state.pending + state.running
    {
      ghost var start := state.log;
      state.StartReady();
      StartKeeps(start, state.log, ends);
      cut := state.log;
      if state.running == {} {
        if state.pending != {} && !state.stop {
          DeadlockUnranked(g, state.Snap());
          UndisturbedAnswers(cancels, wait, Deadlock);
          return Deadlock, state.log, cut, wait;
        }
        outcome := EndRun(state, ends);
        UndisturbedAnswers(cancels, wait, outcome);
        return outcome, state.log, cut, wait;
      }
      var claims := cancels(wait);
      DisturbedAt(cancels, wait);
      wait := wait + 1;
      if claims != [] {
        outcome := CutShort(state, ends, claims);
        DisturbedAnswers(cancels, wait, outcome);
        return outcome, state.log, cut, wait;
      }
      FinishWait(state, ends);
    }
  }

  lemma DeadlockUnranked(g: Graph, s: State)
    requires g.Shaped() && Partition(g, s) && Settled(g, s) && !s.stop && s.running == {} && s.pending != {}
    ensures !exists rank :: g.Ranked(rank)
  {
    if rank :| g.Ranked(rank) {
      SettledUnready(g, s);
      NoDeadlock(g, rank, s);
    }
  }

  /** A wait that some tasks ended, each of which is recorded. */
  method FinishWait(state: RunState, ends: int -> Outcome)
    requires state.Valid() && Settled(state.graph, state.Snap()) && state.running != {} && FinishesAs(state.log, ends)
    requires NothingCancelled([], state.log) && (StopFree(state.graph, state.log) ==> !state.stop)
    modifies state
    ensures state.Valid() && PassOver(state.graph, state.Snap()) && !state.phase.Closing?
    ensures FinishesAs(state.log, ends) && NothingCancelled([], state.log)
    ensures StopFree(state.graph, state.log) ==> !state.stop
    ensures state.pending + state.running < old(state.pending + state.running)
  {
    hide Legal, Replay, Partition, Settled, FinishesAs, StopFree;
    var done := CompletedTasks(state.running);
    ghost var some := Member(done);
    state.RecordAll(done, ends);
    RecordingPasses(state.graph, state.Snap());
    PrefixStopFree(state.graph, old(state.log), state.log);
    assert some in old(state.pending + state.running) && some !in state.pending + state.running;
  }

  /** A run that nothing cancelled and no failure stopped ends every node with its plain meaning, if no overrides
      collide. */
  lemma EndsPlainly(g: Graph, rank: map<int, nat>, ends: int -> Outcome, log: seq<Event>, cut: seq<Event>,
      results: Results,
                    n: int)
    requires g.Shaped() && g.Ranked(rank) && OverridesApart(g) && g.Has(n) && StopFree(g, log)
    requires Ran(g, ends, log, cut, results) && Unbroken(g, log, cut)
    ensures n in results && results[n].status == Meaning(g, rank, ends, n)
  {
    assert Follows(log, ends);
    RunMeaning(g, rank, ends, log, n);
  }

  lemma StartKeeps(before: seq<Event>, after: seq<Event>, ends: int -> Outcome)
    requires FinishesAs(before, ends) && NothingCancelled([], before) && Unfinished(before, after)
    ensures FinishesAs(after, ends) && NothingCancelled([], after)
  {
    FinishesKept(before, after, ends);
    assert forall i :: 0 <= i < |before| ==> after[i] == before[i];
  }

  lemma UndisturbedAnswers(cancels: nat -> seq<bool>, waits: nat, outcome: RunOutcome)
    requires Undisturbed(cancels, waits) && !outcome.Propagated? && !(outcome.Report? && outcome.aborted)
    ensures Answers(cancels, waits, outcome)
  {
  }

  lemma DisturbedAnswers(cancels: nat -> seq<bool>, waits: nat, outcome: RunOutcome)
    requires waits > 0 && Undisturbed(cancels, waits - 1) && cancels(waits - 1) != []
    requires if false in cancels(waits - 1) then outcome.Propagated? else outcome.Report? && outcome.aborted
    ensures Answers(cancels, waits, outcome)
  {
  }

  lemma StartsSettling(g: Graph, s: State)
    requires g.Shaped() && s.phase == Settling
    ensures PassOver(g, s)
  {
  }

  lemma RecordingPasses(g: Graph, s: State)
    requires g.Shaped() && s.phase == Recording
    ensures PassOver(g, s)
  {
  }

  /** The end of a run that nothing cancelled: what a stop left waiting is given up. */
  method EndRun(state: RunState, ends: int -> Outcome) returns (outcome: RunOutcome)
    requires state.Valid() && Settled(state.graph, state.Snap()) && state.running == {} && FinishesAs(state.log, ends)
    requires (state.pending == {} || state.stop) && (StopFree(state.graph, state.log) ==> !state.stop)
    requires NothingCancelled([], state.log)
    modifies state
    ensures outcome == Report(state.results, false) && state.graph.Shaped() && Legal(state.graph, old(state.log))
    ensures Ran(state.graph, ends, state.log, old(state.log), state.results)
    ensures Unbroken(state.graph, state.log, old(state.log))
  {
    hide Legal, Replay, Partition, Settled, FinishesAs, NoneBlocked, PassOver, SkipClosed, SkippedFrom, LeastSkips;
    hide Completes, StopFree;
    SettledSkips(state.graph, state.Snap());
    state.ResolveSkips();
    NothingSkipped(old(state.Snap()), state.Snap());
    FinishesKept(old(state.log), state.log, ends);
    ghost var skipped := state.log;
    StillSettled(state.graph, old(state.Snap()), state.Snap());
    state.CancelPending();
    FinishesKept(skipped, state.log, ends);
    Completed(state.graph, old(state.Snap()), ends, state.results);
    PrefixStopFree(state.graph, old(state.log), state.log);
    return Report(state.results, false);
  }

  lemma Completed(g: Graph, s: State, ends: int -> Outcome, results: Results)
    requires forall n :: n in results <==> g.Has(n)
    requires forall n :: n in s.results ==> n in results && results[n] == s.results[n]
    requires forall n :: n in s.running ==> n in results && results[n] == NodeResult(EndOf(ends(n)), None)
    requires forall n :: n in s.pending ==> n in results && results[n] == NodeResult(Cancelled, None)
    ensures Completes(g, s, ends, results)
  {
  }

  lemma NothingSkipped(before: State, now: State)
    requires SkippedFrom(before, now) && before.pending - now.pending == {}
    ensures now.pending == before.pending && now.results.Keys == before.results.Keys
    ensures forall n :: n in before.results ==> now.results[n] == before.results[n]
  {
    forall n | n in before.pending
      ensures n in now.pending
    {
      assert n !in before.pending - now.pending;
    }
    assert forall n :: n in now.results <==> n in before.results;
  }

  lemma StillSettled(g: Graph, before: State, s: State)
    requires g.Shaped() && Settled(g, before) && s.results.Keys == before.results.Keys && s.pending == before.pending
    requires s.stop == before.stop && NoneBlocked(g, s) && PassOver(g, s) && !s.phase.Closing?
    ensures Settled(g, s)
  {
    assert forall n :: Decidable(g, s, n) ==> Decidable(g, before, n);
  }

  lemma UnclaimedFirst(claims: seq<bool>)
    requires claims != []
    ensures false in claims <==> !claims[0] || false in claims[1..]
  {
    assert claims == [claims[0]] + claims[1..];
  }

  /** A wait has been cut short: the caller's own aborts end in a report, and any other cancellation is passed on. */
  method CutShort(state: RunState, ends: int -> Outcome, claims: seq<bool>) returns (outcome: RunOutcome)
    requires state.Valid() && Settled(state.graph, state.Snap()) && state.running != {} && FinishesAs(state.log, ends)
    requires claims != []
    modifies state
    ensures outcome == if false in claims then Propagated(state.results) else Report(state.results, true)
    ensures state.graph.Shaped() && Ran(state.graph, ends, state.log, old(state.log), state.results)
  {
    assert forall n :: n in state.results ==> n !in state.running;
    hide Legal, Replay, Partition, Settled, FinishesAs, Completes, PassOver;
    var hard := !claims[0];
    UnclaimedFirst(claims);
    var declined := state.Drain(ends, !hard, claims[1..]);
    ghost var drained := state.log;
    state.CancelPending();
    FinishesKept(drained, state.log, ends);
    Completed(state.graph, old(state.Snap()), ends, state.results);
    return if hard || declined then Propagated(state.results) else Report(state.results, true);
  }

  lemma PrefixStopFree(g: Graph, before: seq<Event>, after: seq<Event>)
    requires before <= after
    ensures StopFree(g, after) ==> StopFree(g, before)
  {
    forall i | 0 <= i < |before|
      ensures before[i] == after[i]
    {
    }
  }
}
