/** What every run must make of each node, read off the graph: the order in which tasks end cannot matter. */
module DagMeaning {
  import opened Prelude
  import opened DagGraph
  import opened DagRun

  // ---- Overrides on both ends of a hard edge ----------------------------------------------

  /** An overridden node that a single pass can reach after overriding, as skipped and spreading, a node it depends hard
      on; `lower` says that the dependency has the lower id. */
  predicate Rivals(node: Node, dep: Node, lower: bool) {
    && node.decision.Some? && dep.decision.Some? && dep.decision.value.outcome.CountsAsSkipped?
    && dep.onFailure != Continue && lower
  }

  /** Such a node overridden as ok: whether the pass reaches it decides how it ends. */
  predicate Collides(node: Node, dep: Node, lower: bool) {
    Rivals(node, dep, lower) && node.decision.value.outcome.CountsAsOk?
  }

  ghost predicate Rival(g: Graph, n: int, d: int)
    requires g.Shaped()
  {
    g.Has(n) && d in g.hard[n] && g.Has(d) && Rivals(g.nodes[n], g.nodes[d], d < n)
  }

  ghost predicate CountedOk(g: Graph, n: int) {
    g.Has(n) && g.nodes[n].decision.Some? && g.nodes[n].decision.value.outcome.CountsAsOk?
  }

  /** No hard edge of the graph joins two overrides that collide. */
  ghost predicate OverridesApart(g: Graph)
    requires g.Shaped()
  {
    forall n, d :: g.Has(n) && d in g.hard[n] && g.Has(d) ==> !Collides(g.nodes[n], g.nodes[d], d < n)
  }

  /** Nodes overridden as ok are firm, and a firm node waits for no more than each rival, itself firm, and what the
      rival waits for: whatever pass overrides the rival goes on to override the node. */
  ghost predicate Firm(g: Graph, firm: set<int>)
    requires g.Shaped()
  {
    && (forall n :: CountedOk(g, n) ==> n in firm)
    && forall n, d :: n in firm && Rival(g, n, d) ==> d in firm && g.deps[n] <= g.deps[d] + {d}
  }

  ghost function AllCountedOk(g: Graph): (firm: set<int>)
    ensures forall n :: n in firm <==> CountedOk(g, n)
  {
    set n | n in Range(|g.nodes|) && CountedOk(g, n)
  }

  /** Where overrides are apart, a node overridden as ok has no rival to wait for. */
  lemma ApartIsFirm(g: Graph)
    requires g.Shaped() && OverridesApart(g)
    ensures Firm(g, AllCountedOk(g))
  {
    forall n, d | n in AllCountedOk(g)
      ensures !Rival(g, n, d)
    {
      assert Rival(g, n, d) ==> Collides(g.nodes[n], g.nodes[d], d < n);
    }
  }

  /** Whatever blocks a waiting node during an override pass was decided earlier in that pass, as skipped. */
  ghost predicate BlockedInPass(g: Graph, s: State)
    requires g.Shaped()
  {
    s.phase.Deciding? && !PassOver(g, s) ==>
      forall n, d :: g.Has(n) && n in s.pending && d in g.hard[n] && Blocks(g, s.results, d) ==>
        d <= s.phase.last && TookOverride(g, s.results, d)
  }

  lemma StepInPass(g: Graph, s: State, e: Event)
    requires g.Shaped() && Enabled(g, s, e) && BlockedInPass(g, s)
    ensures BlockedInPass(g, Next(g, s, e))
  {
    if e.Override? {
      var r, r' := s.results, Next(g, s, e).results;
      forall n, d | g.Has(n) && n in s.pending && d in g.hard[n] && Blocks(g, r', d)
        ensures d <= e.nid && TookOverride(g, r', d)
      {
        assert d == e.nid || Blocks(g, r, d);
        assert Blocks(g, r, d) ==> Blocked(g, r, n);
      }
    }
  }

  lemma {:induction false} RunInPass(g: Graph, log: seq<Event>)
    requires g.Shaped() && Legal(g, log)
    ensures BlockedInPass(g, Replay(g, log))
  {
    if log != [] {
      RunInPass(g, log[..|log| - 1]);
      StepInPass(g, Replay(g, log[..|log| - 1]), log[|log| - 1]);
    }
  }

  /** Every dispatched node ended as `outcome` says and the run was not cut short. */
  ghost predicate Follows(log: seq<Event>, outcome: int -> Outcome) {
    forall i :: 0 <= i < |log| ==>
      !log[i].CancelRest? && (log[i].Finish? ==> log[i].outcome == outcome(log[i].nid))
  }

  /** A node whose override is recorded although it is blocked was reached by the pass after what blocks it. */
  lemma DecidedBefore(g: Graph, s: State, n: int)
    requires g.Shaped() && BlockedInPass(g, s) && Enabled(g, s, Override(n))
    ensures Decidable(g, s, n)
    ensures forall d :: d in g.hard[n] && Blocks(g, s.results, d) ==> d < n && TookOverride(g, s.results, d)
  {
    forall d | d in g.hard[n] && Blocks(g, s.results, d)
      ensures d < n && TookOverride(g, s.results, d)
    {
      assert Blocked(g, s.results, n);
    }
  }

  // ---- How each node ends -----------------------------------------------------------------

  predicate Spreads(g: Graph, d: int) {
    g.Has(d) && g.nodes[d].onFailure != Continue
  }

  /** A task that returned is ok, one that raised has failed, and one whose own end is a cancellation is cancelled. */
  function EndOf(outcome: Outcome): Status {
    match outcome
    case Returned => Ok
    case Raised => Failed
    case WasCancelled => Cancelled
  }

  /** Nothing has the node skipped: what it depends hard on ends ok, spreads nothing, or is a rival whose own override
      is recorded, by the pass that then reaches the node. */
  ghost predicate Kept(g: Graph, rank: map<int, nat>, outcome: int -> Outcome, n: int)
    requires g.Shaped() && g.Ranked(rank) && g.Has(n)
    decreases rank[n], 0
  {
    forall d :: d in g.hard[n] && Spreads(g, d) ==>
      Ends(g, rank, outcome, d) == Ok || (Rival(g, n, d) && Kept(g, rank, outcome, d))
  }

  /** The status a node ends with, read off the graph and the outcomes of its tasks. */
  ghost function Ends(g: Graph, rank: map<int, nat>, outcome: int -> Outcome, n: int): Status
    requires g.Shaped() && g.Ranked(rank) && g.Has(n)
    decreases rank[n], 1
  {
    if g.nodes[n].decision.None? then if Kept(g, rank, outcome, n) then EndOf(outcome(n)) else Skipped
    else if CountedOk(g, n) && Kept(g, rank, outcome, n) then Ok
    else Skipped
  }

  /** The pass under way will yet reach the node, a rival of which it has overridden. */
  ghost predicate Reached(g: Graph, s: State, n: int, d: int)
    requires g.Shaped()
  {
    s.phase.Deciding? && d <= s.phase.last < n && Decidable(g, s, n)
  }

  /** Every result is what the graph says, and so is whatever is under way. */
  ghost predicate Right(g: Graph, firm: set<int>, rank: map<int, nat>, outcome: int -> Outcome, s: State)
    requires g.Shaped() && g.Ranked(rank)
  {
    && (forall n :: g.Has(n) && n in s.results ==> s.results[n].status == Ends(g, rank, outcome, n))
    && (forall n :: g.Has(n) && n in s.running ==> g.nodes[n].decision.None? && Kept(g, rank, outcome, n))
    && Followed(g, firm, rank, outcome, s) && KeptInPass(g, firm, rank, outcome, s)
  }

  /** Once its rival is resolved, a firm node either cannot be kept or is reached by the same pass. */
  ghost predicate Followed(g: Graph, firm: set<int>, rank: map<int, nat>, outcome: int -> Outcome, s: State)
    requires g.Shaped() && g.Ranked(rank)
  {
    forall n, d :: n in firm && Rival(g, n, d) && n in s.pending && d in s.results ==>
      !Kept(g, rank, outcome, n) || Reached(g, s, n, d)
  }

  /** The firm nodes a pass has overridden were kept. */
  ghost predicate KeptInPass(g: Graph, firm: set<int>, rank: map<int, nat>, outcome: int -> Outcome, s: State)
    requires g.Shaped() && g.Ranked(rank)
  {
    s.phase.Deciding? && !PassOver(g, s) ==>
      forall n, d :: g.Has(n) && n in s.pending && d in g.hard[n] && Blocks(g, s.results, d) && d in firm ==>
        Kept(g, rank, outcome, d)
  }

  lemma ReachedOpen(g: Graph, s: State, n: int, d: int)
    requires g.Shaped() && Reached(g, s, n, d)
    ensures !PassOver(g, s) && !NoneDecidable(g, s)
  {
  }

  lemma SkipEnds(g: Graph, firm: set<int>, rank: map<int, nat>, outcome: int -> Outcome, s: State, n: int, cause: int)
    requires g.Shaped() && g.Ranked(rank) && Firm(g, firm) && Right(g, firm, rank, outcome, s)
    requires Enabled(g, s, MarkSkipped(n, cause))
    ensures n in firm || g.nodes[n].decision.None? ==> !Kept(g, rank, outcome, n)
    ensures Ends(g, rank, outcome, n) == Skipped
  {
    assert Ends(g, rank, outcome, cause) != Ok && Spreads(g, cause);
    if n in firm && Rival(g, n, cause) && Kept(g, rank, outcome, n) {
      ReachedOpen(g, s, n, cause);
      assert false;
    }
  }

  lemma SkipRight(g: Graph, firm: set<int>, rank: map<int, nat>, outcome: int -> Outcome, s: State, n: int, cause: int)
    requires g.Shaped() && g.Ranked(rank) && Firm(g, firm) && Right(g, firm, rank, outcome, s)
    requires Enabled(g, s, MarkSkipped(n, cause))
    ensures Right(g, firm, rank, outcome, Next(g, s, MarkSkipped(n, cause)))
  {
    SkipEnds(g, firm, rank, outcome, s, n, cause);
    var s' := Next(g, s, MarkSkipped(n, cause));
    forall m, d | m in firm && Rival(g, m, d) && m in s'.pending && d in s'.results
      ensures !Kept(g, rank, outcome, m)
    {
      if d == n {
        assert Spreads(g, d) && d in firm;
      } else if Kept(g, rank, outcome, m) {
        ReachedOpen(g, s, m, d);
        assert false;
      }
    }
  }

  lemma OverrideEnds(g: Graph, firm: set<int>, rank: map<int, nat>, outcome: int -> Outcome, s: State, n: int)
    requires g.Shaped() && g.Ranked(rank) && Firm(g, firm) && Right(g, firm, rank, outcome, s) && BlockedInPass(g, s)
    requires Enabled(g, s, Override(n))
    ensures n in firm ==> Kept(g, rank, outcome, n)
    ensures Ends(g, rank, outcome, n) == DecidedResult(g.nodes[n].decision.value).status
  {
    DecidedBefore(g, s, n);
    if n in firm {
      forall d | d in g.hard[n] && Spreads(g, d)
        ensures Ends(g, rank, outcome, d) == Ok || (Rival(g, n, d) && Kept(g, rank, outcome, d))
      {
        assert d in s.results;
        if Blocks(g, s.results, d) {
          assert Rival(g, n, d) && Blocked(g, s.results, n);
        }
      }
    }
  }

  lemma OverrideRight(g: Graph, firm: set<int>, rank: map<int, nat>, outcome: int -> Outcome, s: State, n: int)
    requires g.Shaped() && g.Ranked(rank) && Firm(g, firm) && Right(g, firm, rank, outcome, s) && BlockedInPass(g, s)
    requires Enabled(g, s, Override(n)) && Partition(g, s)
    ensures Right(g, firm, rank, outcome, Next(g, s, Override(n)))
  {
    OverrideEnds(g, firm, rank, outcome, s, n);
    var s' := Next(g, s, Override(n));
    forall m, d | m in firm && Rival(g, m, d) && m in s'.pending && d in s'.results
      ensures !Kept(g, rank, outcome, m) || Reached(g, s', m, d)
    {
      if Kept(g, rank, outcome, m) {
        if d != n {
          ReachedOpen(g, s, m, d);
        }
        assert Decidable(g, s', m);
      }
    }
    forall m, d | g.Has(m) && m in s'.pending && d in g.hard[m] && Blocks(g, s'.results, d) && d in firm
      ensures Kept(g, rank, outcome, d)
    {
      if d != n {
        assert Blocks(g, s.results, d) && Blocked(g, s.results, m);
      }
    }
  }

  lemma DispatchRight(g: Graph, firm: set<int>, rank: map<int, nat>, outcome: int -> Outcome, s: State, n: int)
    requires g.Shaped() && g.Ranked(rank) && Firm(g, firm) && Right(g, firm, rank, outcome, s)
    requires Enabled(g, s, Dispatch(n))
    ensures Right(g, firm, rank, outcome, Next(g, s, Dispatch(n)))
  {
    assert !Decidable(g, s, n) && !Blocked(g, s.results, n);
    forall d | d in g.hard[n] && Spreads(g, d)
      ensures Ends(g, rank, outcome, d) == Ok
    {
      assert d in s.results && !Blocks(g, s.results, d);
    }
    forall m, d | m in firm && Rival(g, m, d) && m in s.pending && d in s.results
      ensures !Kept(g, rank, outcome, m)
    {
      if Kept(g, rank, outcome, m) {
        ReachedOpen(g, s, m, d);
        assert false;
      }
    }
  }

  lemma FinishRight(g: Graph, firm: set<int>, rank: map<int, nat>, outcome: int -> Outcome, s: State, n: int)
    requires g.Shaped() && g.Ranked(rank) && Firm(g, firm) && Right(g, firm, rank, outcome, s) && Partition(g, s)
    requires Enabled(g, s, Finish(n, outcome(n)))
    ensures Right(g, firm, rank, outcome, Next(g, s, Finish(n, outcome(n))))
  {
    var s' := Next(g, s, Finish(n, outcome(n)));
    assert g.Has(n);
    forall m, d | m in firm && Rival(g, m, d) && m in s'.pending && d in s'.results
      ensures !Kept(g, rank, outcome, m)
    {
      assert d != n && d in s.results;
      if Kept(g, rank, outcome, m) {
        ReachedOpen(g, s, m, d);
        assert false;
      }
    }
  }

  lemma StepRight(g: Graph, firm: set<int>, rank: map<int, nat>, outcome: int -> Outcome, s: State, e: Event)
    requires g.Shaped() && g.Ranked(rank) && Firm(g, firm) && Right(g, firm, rank, outcome, s)
    requires Partition(g, s) && BlockedInPass(g, s)
    requires Enabled(g, s, e) && !e.CancelRest? && (e.Finish? ==> e.outcome == outcome(e.nid))
    ensures Right(g, firm, rank, outcome, Next(g, s, e))
  {
    hide Right, Firm, Partition, BlockedInPass, Enabled, Next;
    match e
    case MarkSkipped(n, cause) => SkipRight(g, firm, rank, outcome, s, n, cause);
    case Override(n) => OverrideRight(g, firm, rank, outcome, s, n);
    case Dispatch(n) => DispatchRight(g, firm, rank, outcome, s, n);
    case Finish(n, o) => FinishRight(g, firm, rank, outcome, s, n);
  }

  /** Whatever the order in which tasks end, every node resolved by an uncancelled run ends as the graph says. */
  lemma {:induction false} RunRight(g: Graph, firm: set<int>, rank: map<int, nat>, outcome: int -> Outcome,
      log: seq<Event>)
    requires g.Shaped() && g.Ranked(rank) && Firm(g, firm) && Legal(g, log) && Follows(log, outcome)
    ensures Right(g, firm, rank, outcome, Replay(g, log))
  {
    if log != [] {
      var front := log[..|log| - 1];
      RunRight(g, firm, rank, outcome, front);
      RunPartition(g, front);
      RunInPass(g, front);
      StepRight(g, firm, rank, outcome, Replay(g, front), log[|log| - 1]);
    }
  }

  /** Confluence: two runs with the same task outcomes give a node they both resolve the same status. */
  lemma Confluence(g: Graph, firm: set<int>, rank: map<int, nat>, outcome: int -> Outcome, a: seq<Event>, b: seq<Event>,
      n: int)
    requires g.Shaped() && g.Ranked(rank) && Firm(g, firm)
    requires Legal(g, a) && Follows(a, outcome) && Legal(g, b) && Follows(b, outcome)
    requires n in Replay(g, a).results && n in Replay(g, b).results
    ensures Replay(g, a).results[n].status == Replay(g, b).results[n].status
  {
    RunRight(g, firm, rank, outcome, a);
    RunRight(g, firm, rank, outcome, b);
    RunPartition(g, a);
  }

  // ---- The plain meaning ------------------------------------------------------------------

  /** Skipped if a hard dependency that spreads failure is not ok, and otherwise what the override or dispatch says. */
  ghost function Meaning(g: Graph, rank: map<int, nat>, outcome: int -> Outcome, n: int): Status
    requires g.Shaped() && g.Ranked(rank) && g.Has(n)
    decreases rank[n]
  {
    if exists d :: d in g.hard[n] && Spreads(g, d) && Meaning(g, rank, outcome, d) != Ok then Skipped
    else if g.nodes[n].decision.Some? then if CountedOk(g, n) then Ok else Skipped
    else EndOf(outcome(n))
  }

  lemma {:induction false} EndsAsMeant(g: Graph, rank: map<int, nat>, outcome: int -> Outcome, n: int)
    requires g.Shaped() && g.Ranked(rank) && OverridesApart(g) && g.Has(n)
    ensures Ends(g, rank, outcome, n) == Meaning(g, rank, outcome, n)
    decreases rank[n]
  {
    forall d | d in g.hard[n] && Spreads(g, d)
      ensures Ends(g, rank, outcome, d) == Meaning(g, rank, outcome, d)
    {
      EndsAsMeant(g, rank, outcome, d);
    }
    if CountedOk(g, n) || g.nodes[n].decision.None? {
      forall d
        ensures !Rival(g, n, d)
      {
        assert Rival(g, n, d) ==> Collides(g.nodes[n], g.nodes[d], d < n);
      }
    }
  }

  /** Where no overrides collide, and so wherever there are none, every node resolved by an uncancelled run has the
      plain meaning. */
  lemma RunMeaning(g: Graph, rank: map<int, nat>, outcome: int -> Outcome, log: seq<Event>, n: int)
    requires g.Shaped() && g.Ranked(rank) && OverridesApart(g) && Legal(g, log) && Follows(log, outcome)
    requires n in Replay(g, log).results
    ensures g.Has(n) && Replay(g, log).results[n].status == Meaning(g, rank, outcome, n)
  {
    ApartIsFirm(g);
    RunRight(g, AllCountedOk(g), rank, outcome, log);
    RunPartition(g, log);
    EndsAsMeant(g, rank, outcome, n);
  }
}
