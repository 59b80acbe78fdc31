/** Dependency graphs, their builder, and the topological check that guards every run. */
module DagGraph {
  import opened Prelude

  datatype OnFailure = Stop | Skip | Continue

  datatype Verdict = CountsAsOk | CountsAsSkipped

  /** An operator's verdict on a node, which then never runs. */
  datatype NodeOverride = NodeOverride(outcome: Verdict, reason: string)

  datatype Node = Node(title: string, onFailure: OnFailure, isOptional: bool, decision: Option<NodeOverride>)

  /** Node ids are positions in `nodes`; `hard` is the subset of `deps` whose failure skips the node. */
  datatype Graph = Graph(nodes: seq<Node>, deps: seq<set<int>>, hard: seq<set<int>>) {
    predicate Has(n: int) {
      0 <= n < |nodes|
    }

    ghost predicate Shaped() {
      && |deps| == |nodes| == |hard|
      && forall n :: Has(n) ==> hard[n] <= deps[n]
    }

    /** Every dependency names a node of the graph. */
    ghost predicate Closed()
      requires Shaped()
    {
      forall n, d :: Has(n) && d in deps[n] ==> Has(d)
    }

    /** `walk` follows dependency edges and returns to where it began. */
    ghost predicate IsCycle(walk: seq<int>)
      requires Shaped()
    {
      && |walk| >= 2
      && walk[0] == walk[|walk| - 1]
      && (forall i :: 0 <= i < |walk| ==> Has(walk[i]))
      && (forall i :: 0 <= i < |walk| - 1 ==> Has(walk[i]) && walk[i + 1] in deps[walk[i]])
    }

    ghost predicate Acyclic()
      requires Shaped()
    {
      forall walk :: !IsCycle(walk)
    }

    /** All nodes, each once, and none before a node it depends on. */
    ghost predicate IsTopological(order: seq<int>)
      requires Shaped()
    {
      && Distinct(order)
      && (forall n :: n in order <==> Has(n))
      && forall j :: 0 <= j < |order| ==> Has(order[j]) && deps[order[j]] <= Elems(order[..j])
    }

    /** Each dependency ranks strictly below its dependents. */
    ghost predicate Ranked(rank: map<int, nat>)
      requires Shaped()
    {
      && (forall n :: Has(n) ==> n in rank)
      && forall n, d :: Has(n) && d in deps[n] ==> Has(d) && rank[d] < rank[n]
    }
  }

  /** How the topological sort ends: an order, Python's KeyError, or the reported cycle. */
  datatype TopoResult = Sorted(order: seq<int>) | UnknownDependency(dep: int) | CycleError(cycle: seq<int>)

  ghost function IndexOf(s: seq<int>, x: int): (i: nat)
    requires x in s
    ensures i < |s| && s[i] == x
  {
    var i :| 0 <= i < |s| && s[i] == x;
    i
  }

  /** A topological order yields ranks, so whatever is sorted has well-founded dependencies. */
  lemma OrderRanks(g: Graph, order: seq<int>) returns (rank: map<int, nat>)
    requires g.Shaped() && g.IsTopological(order)
    ensures g.Ranked(rank)
  {
    rank := map n | n in Elems(order) :: IndexOf(order, n);
    forall n, d | g.Has(n) && d in g.deps[n]
      ensures g.Has(d) && rank[d] < rank[n]
    {
      assert n in Elems(order);
      var j := rank[n];
      assert d in order[..j];
      var i :| 0 <= i < j && order[..j][i] == d;
      assert order[i] == d && d in Elems(order);
      assert order[rank[d]] == order[i];
    }
  }

  lemma {:induction false} CycleDescends(g: Graph, rank: map<int, nat>, walk: seq<int>, i: nat)
    requires g.Shaped() && g.Ranked(rank) && g.IsCycle(walk) && i < |walk|
    ensures rank[walk[i]] + i <= rank[walk[0]]
  {
    if i > 0 {
      CycleDescends(g, rank, walk, i - 1);
    }
  }

  /** Ranked dependencies cannot close a cycle, so a sorted graph is acyclic. */
  lemma RankedAcyclic(g: Graph, rank: map<int, nat>)
    requires g.Shaped() && g.Ranked(rank)
    ensures g.Acyclic()
  {
    forall walk | g.IsCycle(walk)
      ensures false
    {
      CycleDescends(g, rank, walk, |walk| - 1);
    }
  }

  /** `names` lists, once each, the nodes that depend on `d`. */
  ghost predicate DependentsOf(g: Graph, d: int, names: seq<int>)
    requires g.Shaped()
  {
    && Distinct(names)
    && forall n :: n in names <==> g.Has(n) && d in g.deps[n]
  }

  ghost predicate ListsDependents(g: Graph, dependents: seq<seq<int>>)
    requires g.Shaped()
  {
    && |dependents| == |g.nodes|
    && forall d :: 0 <= d < |dependents| ==> DependentsOf(g, d, dependents[d])
  }

  /** Reverse adjacency lists, or the first dependency met that is no node of the graph. */
  method Dependents(g: Graph) returns (dependents: seq<seq<int>>, unknown: Option<int>)
    requires g.Shaped()
    ensures unknown.None? ==> g.Closed() && ListsDependents(g, dependents)
    ensures unknown.Some? ==> !g.Has(unknown.value) && exists n :: g.Has(n) && unknown.value in g.deps[n]
  {
    dependents := seq(|g.nodes|, _ => []);
    for nid := 0 to |g.nodes|
      invariant |dependents| == |g.nodes|
      invariant forall n, d :: 0 <= n < nid && d in g.deps[n] ==> g.Has(d)
      invariant forall d :: 0 <= d < |dependents| ==> Distinct(dependents[d])
      invariant forall d :: 0 <= d < |dependents| ==>
        forall n :: n in dependents[d] <==> 0 <= n < nid && d in g.deps[n]
    {
      var left := g.deps[nid];
      while left != {}
        invariant left <= g.deps[nid] && |dependents| == |g.nodes|
        invariant forall d :: d in g.deps[nid] && d !in left ==> g.Has(d)
        invariant forall d :: 0 <= d < |dependents| ==> Distinct(dependents[d])
        invariant forall d :: 0 <= d < |dependents| ==> forall n :: n in dependents[d] <==>
          (0 <= n < nid && d in g.deps[n]) || (n == nid && d in g.deps[nid] && d !in left)
        decreases left
      {
        var d := Take(left);
        if !g.Has(d) {
          return dependents, Some(d);
        }
        dependents := dependents[d := dependents[d] + [nid]];
        left := left - {d};
      }
    }
    unknown := None;
  }

  /** Each counter holds how many dependencies of its node are not done. */
  ghost predicate Counted(g: Graph, indeg: seq<int>, done: set<int>)
    requires g.Shaped()
  {
    && |indeg| == |g.nodes|
    && forall n :: 0 <= n < |indeg| ==> indeg[n] == |g.deps[n] - done|
  }

  /** The queue lists, once each, exactly the nodes whose counter is exhausted. */
  ghost predicate Queued(indeg: seq<int>, order: seq<int>) {
    && Distinct(order)
    && forall n :: n in order <==> 0 <= n < |indeg| && indeg[n] == 0
  }

  ghost predicate DepsFirst(g: Graph, order: seq<int>)
    requires g.Shaped()
  {
    forall j :: 0 <= j < |order| ==> g.Has(order[j]) && g.deps[order[j]] <= Elems(order[..j])
  }

  /** A list of distinct nodes is no longer than the graph, and lists them all exactly when it is as long. */
  lemma OrderFits(g: Graph, order: seq<int>)
    requires Distinct(order) && forall n :: n in order ==> g.Has(n)
    ensures |order| <= |g.nodes|
    ensures |order| == |g.nodes| <==> forall n :: g.Has(n) ==> n in order
  {
    DistinctCardinality(order);
    SubsetCardinality(Elems(order), Range(|g.nodes|));
    if forall n :: g.Has(n) ==> n in order {
      SubsetCardinality(Range(|g.nodes|), Elems(order));
    } else {
      var n :| g.Has(n) && n !in order;
      assert n in Range(|g.nodes|);
    }
  }

  method Subtract(indeg: seq<int>, names: seq<int>) returns (r: seq<int>)
    requires Distinct(names) && forall n :: n in names ==> 0 <= n < |indeg|
    ensures |r| == |indeg|
    ensures forall n :: 0 <= n < |r| ==> r[n] == indeg[n] - (if n in names then 1 else 0)
  {
    r := indeg;
    for j := 0 to |names|
      invariant |r| == |indeg|
      invariant forall n :: 0 <= n < |r| ==> r[n] == indeg[n] - (if n in names[..j] then 1 else 0)
    {
      assert names[j] in names && names[j] !in names[..j];
      r := r[names[j] := r[names[j]] - 1];
      assert names[..j + 1] == names[..j] + [names[j]];
    }
    assert names[..|names|] == names;
  }

  /** The names whose counter reached zero, in their given order. */
  method Released(indeg: seq<int>, names: seq<int>) returns (r: seq<int>)
    requires Distinct(names) && forall n :: n in names ==> 0 <= n < |indeg|
    ensures Distinct(r)
    ensures forall n :: n in r <==> n in names && indeg[n] == 0
  {
    r := [];
    for j := 0 to |names|
      invariant 0 <= j <= |names| && Distinct(r)
      invariant forall n :: n in r <==> n in names[..j] && 0 <= n < |indeg| && indeg[n] == 0
    {
      assert names[j] in names && names[j] !in names[..j];
      assert names[..j + 1] == names[..j] + [names[j]];
      if indeg[names[j]] == 0 {
        r := r + [names[j]];
      }
    }
    assert names[..|names|] == names;
  }

  lemma CounterDrops(deps: set<int>, done: set<int>, nid: int)
    requires nid !in done
    ensures |deps - (done + {nid})| == |deps - done| - (if nid in deps then 1 else 0)
  {
    if nid in deps {
      assert deps - done == (deps - (done + {nid})) + {nid};
    } else {
      assert deps - (done + {nid}) == deps - done;
    }
  }

  /** Lowering the counters of its dependents by one accounts exactly for consuming `nid`. */
  lemma TurnCounters(g: Graph, names: seq<int>, indeg: seq<int>, indeg': seq<int>, done: set<int>, nid: int)
    requires g.Shaped() && Counted(g, indeg, done) && nid !in done && |indeg'| == |indeg|
    requires DependentsOf(g, nid, names)
    requires forall n :: 0 <= n < |indeg| ==> indeg'[n] == indeg[n] - (if n in names then 1 else 0)
    ensures Counted(g, indeg', done + {nid})
  {
    forall n | 0 <= n < |indeg|
      ensures indeg'[n] == |g.deps[n] - (done + {nid})|
    {
      CounterDrops(g.deps[n], done, nid);
    }
  }

  /** The released nodes are new to the queue, and all they depend on has been consumed. */
  lemma TurnQueue(g: Graph, order: seq<int>, freed: seq<int>, indeg: seq<int>, indeg': seq<int>,
                  done: set<int>, nid: int)
    requires g.Shaped() && Counted(g, indeg, done) && Counted(g, indeg', done + {nid}) && nid !in done
    requires Queued(indeg, order) && Distinct(freed)
    requires forall n :: n in freed <==> g.Has(n) && nid in g.deps[n] && indeg'[n] == 0
    ensures Queued(indeg', order + freed)
    ensures forall n :: n in freed ==> g.Has(n) && g.deps[n] <= done + {nid}
  {
    forall n | 0 <= n < |indeg|
      ensures (n in order || n in freed) <==> indeg'[n] == 0
      ensures n in freed ==> n !in order && g.deps[n] <= done + {nid}
    {
      CounterDrops(g.deps[n], done, nid);
      if nid in g.deps[n] {
        assert nid in g.deps[n] - done;
      }
      if indeg'[n] == 0 {
        assert g.deps[n] - (done + {nid}) == {};
      }
    }
    forall n | n in order
      ensures n !in freed
    {
      assert 0 <= n < |indeg|;
    }
    DistinctAppend(order, freed);
  }

  lemma DepsFirstAppend(g: Graph, order: seq<int>, freed: seq<int>, k: nat)
    requires g.Shaped() && k < |order| && DepsFirst(g, order)
    requires forall n :: n in freed ==> g.Has(n) && g.deps[n] <= Elems(order[..k + 1])
    ensures DepsFirst(g, order + freed)
  {
    var order' := order + freed;
    forall j | 0 <= j < |order'|
      ensures g.Has(order'[j]) && g.deps[order'[j]] <= Elems(order'[..j])
    {
      if j < |order| {
        assert order'[..j] == order[..j];
      } else {
        assert order'[j] in freed;
        assert order[..k + 1] == order'[..j][..k + 1];
        assert forall x :: x in order[..k + 1] ==> x in order'[..j];
      }
    }
  }

  lemma PrefixGrows(order: seq<int>, freed: seq<int>, k: nat)
    requires k < |order| && Distinct(order)
    ensures Elems((order + freed)[..k + 1]) == Elems(order[..k]) + {order[k]}
    ensures order[k] !in Elems(order[..k])
  {
    assert (order + freed)[..k + 1] == order[..k] + [order[k]];
  }

  lemma TurnKeeps(g: Graph, order: seq<int>, k: nat, names: seq<int>, indeg: seq<int>, indeg': seq<int>,
      freed: seq<int>)
    requires g.Shaped() && k < |order| && DependentsOf(g, order[k], names)
    requires Counted(g, indeg, Elems(order[..k])) && Queued(indeg, order) && DepsFirst(g, order)
    requires |indeg'| == |indeg|
    requires forall n :: 0 <= n < |indeg| ==> indeg'[n] == indeg[n] - (if n in names then 1 else 0)
    requires Distinct(freed) && forall n :: n in freed <==> n in names && indeg'[n] == 0
    ensures Counted(g, indeg', Elems((order + freed)[..k + 1]))
    ensures Queued(indeg', order + freed) && DepsFirst(g, order + freed)
  {
    var nid, done := order[k], Elems(order[..k]);
    PrefixGrows(order, [], k);
    PrefixGrows(order, freed, k);
    assert order + [] == order;
    TurnCounters(g, names, indeg, indeg', done, nid);
    TurnQueue(g, order, freed, indeg, indeg', done, nid);
    DepsFirstAppend(g, order, freed, k);
  }

  /** One turn of the sort keeps the bookkeeping and appends only nodes whose dependencies are done. */
  method KahnTurn(g: Graph, dependents: seq<seq<int>>, indeg: seq<int>, order: seq<int>, k: nat)
    returns (indeg': seq<int>, order': seq<int>)
    requires g.Shaped() && ListsDependents(g, dependents) && k < |order|
    requires Counted(g, indeg, Elems(order[..k])) && Queued(indeg, order) && DepsFirst(g, order)
    ensures |order'| >= |order|
    ensures Counted(g, indeg', Elems(order'[..k + 1])) && Queued(indeg', order') && DepsFirst(g, order')
  {
    var nid := order[k];
    assert nid in order;
    assert DependentsOf(g, nid, dependents[nid]);
    indeg' := Subtract(indeg, dependents[nid]);
    var freed := Released(indeg', dependents[nid]);
    order' := order + freed;
    TurnKeeps(g, order, k, dependents[nid], indeg, indeg', freed);
  }

  /** A cycle among nodes each of which waits on another: smallest id first, then smallest dependency. */
  method FindCycle(g: Graph, stuck: set<int>) returns (cycle: seq<int>)
    requires g.Shaped() && stuck != {}
    requires forall n :: n in stuck ==> g.Has(n) && g.deps[n] * stuck != {}
    ensures g.IsCycle(cycle)
    ensures forall n :: n in cycle ==> n in stuck
  {
    var path: seq<int> := [];
    var nid := Min(stuck);
    while nid !in path
      invariant nid in stuck && Distinct(path) && Trail(g, stuck, path)
      invariant path != [] ==> nid in g.deps[path[|path| - 1]]
      decreases |stuck| - |path|
    {
      TrailGrows(g, stuck, path, nid);
      path := path + [nid];
      nid := Min(g.deps[nid] * stuck);
    }
    var at := 0;
    while path[at] != nid
      invariant 0 <= at < |path| && nid !in path[..at]
      decreases |path| - at
    {
      at := at + 1;
    }
    cycle := path[at..] + [nid];
    TrailCloses(g, stuck, path, at);
  }

  /** Each node of the path is stuck and depends on the next. */
  ghost predicate Trail(g: Graph, stuck: set<int>, path: seq<int>)
    requires g.Shaped() && forall n :: n in stuck ==> g.Has(n)
  {
    && (forall i :: 0 <= i < |path| ==> path[i] in stuck)
    && forall i, j :: 0 <= i && j == i + 1 < |path| ==> path[j] in g.deps[path[i]]
  }

  /** A node not met before prolongs the path, which cannot outgrow the stuck set. */
  lemma TrailGrows(g: Graph, stuck: set<int>, path: seq<int>, nid: int)
    requires g.Shaped() && forall n :: n in stuck ==> g.Has(n)
    requires Distinct(path) && Trail(g, stuck, path) && nid in stuck && nid !in path
    requires path != [] ==> nid in g.deps[path[|path| - 1]]
    ensures Distinct(path + [nid]) && Trail(g, stuck, path + [nid]) && |path| < |stuck|
  {
    DistinctCardinality(path + [nid]);
    SubsetCardinality(Elems(path + [nid]), stuck);
  }

  /** A path whose last node depends on one of its own closes there. */
  lemma TrailCloses(g: Graph, stuck: set<int>, path: seq<int>, at: nat)
    requires g.Shaped() && forall n :: n in stuck ==> g.Has(n)
    requires Trail(g, stuck, path) && at < |path| && path[at] in g.deps[path[|path| - 1]]
    ensures g.IsCycle(path[at..] + [path[at]])
    ensures forall n :: n in path[at..] + [path[at]] ==> n in stuck
  {
    var cycle := path[at..] + [path[at]];
    forall i | 0 <= i < |cycle|
      ensures cycle[i] in stuck && (i + 1 < |cycle| ==> cycle[i + 1] in g.deps[cycle[i]])
    {
      assert cycle[i] == path[if i < |path| - at then at + i else at];
      assert i + 1 < |path| - at ==> cycle[i + 1] == path[at + i + 1];
    }
  }

  lemma KahnStart(g: Graph, indeg: seq<int>, order: seq<int>)
    requires g.Shaped() && |indeg| == |g.nodes| && Queued(indeg, order)
    requires forall n :: 0 <= n < |indeg| ==> indeg[n] == |g.deps[n]|
    ensures Counted(g, indeg, Elems(order[..0])) && DepsFirst(g, order)
  {
    assert Elems(order[..0]) == {};
    forall n | 0 <= n < |indeg|
      ensures g.deps[n] - {} == g.deps[n]
    {
    }
    forall j | 0 <= j < |order|
      ensures g.Has(order[j]) && g.deps[order[j]] == {}
    {
      assert order[j] in order;
    }
  }

  /** Every node the sort could not order waits on another such node. */
  lemma StuckWait(g: Graph, indeg: seq<int>, order: seq<int>, stuck: set<int>)
    requires g.Shaped() && g.Closed() && |order| < |g.nodes|
    requires Counted(g, indeg, Elems(order)) && Queued(indeg, order)
    requires forall n :: n in stuck <==> g.Has(n) && n !in order
    ensures stuck != {}
    ensures forall n :: n in stuck ==> g.deps[n] * stuck != {}
  {
    OrderFits(g, order);
    var n :| g.Has(n) && n !in order;
    assert n in stuck;
    forall n | n in stuck
      ensures g.deps[n] * stuck != {}
    {
      assert indeg[n] != 0;
      var d := Member(g.deps[n] - Elems(order));
      assert d in g.deps[n] * stuck;
    }
  }

  /** The counting loop: what it leaves out of the order still waits on something left out. */
  method KahnSort(g: Graph, dependents: seq<seq<int>>) returns (indeg: seq<int>, order: seq<int>)
    requires g.Shaped() && ListsDependents(g, dependents)
    ensures Counted(g, indeg, Elems(order)) && Queued(indeg, order) && DepsFirst(g, order)
  {
    indeg := seq(|g.nodes|, n requires 0 <= n < |g.nodes| => |g.deps[n]|);
    IdsListed(|g.nodes|);
    order := Released(indeg, Ids(|g.nodes|));
    KahnStart(g, indeg, order);
    var k := 0;
    while k < |order|
      invariant 0 <= k <= |order|
      invariant Counted(g, indeg, Elems(order[..k])) && Queued(indeg, order) && DepsFirst(g, order)
      decreases |g.nodes| - k
    {
      OrderFits(g, order);
      indeg, order := KahnTurn(g, dependents, indeg, order, k);
      k := k + 1;
    }
    assert order[..k] == order;
  }

  /** Sorts exactly the closed acyclic graphs, and otherwise names what is wrong with the graph. */
  method TopoOrder(g: Graph) returns (r: TopoResult)
    requires g.Shaped()
    ensures r.Sorted? ==> g.IsTopological(r.order)
    ensures r.UnknownDependency? ==> !g.Has(r.dep) && exists n :: g.Has(n) && r.dep in g.deps[n]
    ensures r.CycleError? ==> g.IsCycle(r.cycle)
    ensures r.UnknownDependency? <==> !g.Closed()
    ensures r.Sorted? <==> g.Closed() && g.Acyclic()
  {
    var dependents, unknown := Dependents(g);
    if unknown.Some? {
      return UnknownDependency(unknown.value);
    }
    var indeg, order := KahnSort(g, dependents);
    OrderFits(g, order);
    if |order| < |g.nodes| {
      var stuck := set n | n in Ids(|g.nodes|) && n !in order;
      IdsListed(|g.nodes|);
      StuckWait(g, indeg, order, stuck);
      var cycle := FindCycle(g, stuck);
      return CycleError(cycle);
    }
    ghost var rank := OrderRanks(g, order);
    RankedAcyclic(g, rank);
    return Sorted(order);
  }

  datatype BuildResult = Built(graph: Graph) | Refused(why: TopoResult)

  /** A graph under construction: nodes in insertion order, with two kinds of edges. */
  class GraphBuilder {
    var nodes: seq<Node>
    var soft: seq<set<int>>
    var hard: seq<set<int>>

    ghost predicate Valid()
      reads this
    {
      |soft| == |nodes| == |hard|
    }

    constructor ()
      ensures Valid() && nodes == [] && soft == [] && hard == []
    {
      nodes, soft, hard := [], [], [];
    }

    method Add(node: Node, softDeps: set<int>, hardDeps: set<int>) returns (nid: int)
      requires Valid()
      modifies this
      ensures Valid() && nid == |old(nodes)|
      ensures nodes == old(nodes) + [node]
      ensures soft == old(soft) + [softDeps] && hard == old(hard) + [hardDeps]
    {
      nid := |nodes|;
      nodes, soft, hard := nodes + [node], soft + [softDeps], hard + [hardDeps];
    }

    method Require(nid: int, deps: set<int>)
      requires Valid() && 0 <= nid < |nodes|
      modifies this`hard
      ensures Valid() && hard == old(hard)[nid := old(hard)[nid] + deps]
    {
      hard := hard[nid := hard[nid] + deps];
    }

    method Order(nid: int, deps: set<int>)
      requires Valid() && 0 <= nid < |nodes|
      modifies this`soft
      ensures Valid() && soft == old(soft)[nid := old(soft)[nid] + deps]
    {
      soft := soft[nid := soft[nid] + deps];
    }

    /** The graph of the edges collected so far; both kinds order their nodes. */
    function Collected(): (g: Graph)
      requires Valid()
      reads this
      ensures g.Shaped() && g.nodes == nodes && g.hard == hard
      ensures forall n :: 0 <= n < |nodes| ==> g.deps[n] == soft[n] + hard[n]
    {
      var s, h := soft, hard;
      Graph(nodes, seq(|nodes|, n requires 0 <= n < |s| && |s| == |h| => s[n] + h[n]), hard)
    }

    /** Freezes the edges and accepts exactly the closed acyclic graphs. */
    method Build() returns (r: BuildResult)
      requires Valid()
      ensures r.Built? <==> Collected().Closed() && Collected().Acyclic()
      ensures r.Built? ==> r.graph == Collected() && exists rank :: r.graph.Ranked(rank)
      ensures r.Refused? && !Collected().Closed() ==> r.why.UnknownDependency?
      ensures r.Refused? && Collected().Closed() ==> r.why.CycleError? && Collected().IsCycle(r.why.cycle)
    {
      var graph := Collected();
      var topo := TopoOrder(graph);
      if topo.Sorted? {
        ghost var rank := OrderRanks(graph, topo.order);
        return Built(graph);
      }
      return Refused(topo);
    }
  }
}
