/** Line sweeps over half-open intervals: combining tagged collections and intersecting collections. */
module IntervalSweep {
  import opened Prelude
  import opened IntervalTrees

  // ---- Sweep items, edges, and counting ---------------------------------------------------

  datatype Item = Item(left: int, tag: nat, right: int)

  datatype Edge = Edge(at: int, rising: bool, tag: nat)

  datatype Endpoint = Endpoint(at: int, tag: nat)

  ghost function Hit<D>(data: seq<D>, tag: nat, d: D): nat {
    if tag < |data| && data[tag] == d then 1 else 0
  }

  ghost function Change<D>(e: Edge, data: seq<D>, d: D): int {
    if e.rising then Hit(data, e.tag, d) else 0 - Hit(data, e.tag, d)
  }

  /** How many of the items with datum `d` cover `t`. */
  ghost function Live<D>(items: seq<Item>, data: seq<D>, t: int, d: D): nat {
    if items == [] then 0
    else
      var x := items[|items| - 1];
      Live(items[..|items| - 1], data, t, d) + if x.left <= t < x.right then Hit(data, x.tag, d) else 0
  }

  /** Risings minus fallings with datum `d`. */
  ghost function Balance<D>(edges: seq<Edge>, data: seq<D>, d: D): int {
    if edges == [] then 0
    else
      var e := edges[|edges| - 1];
      Balance(edges[..|edges| - 1], data, d) + Change(e, data, d)
  }

  /** The same, counting only edges up to time `t`. */
  ghost function Net<D>(edges: seq<Edge>, data: seq<D>, t: int, d: D): int {
    if edges == [] then 0
    else
      var e := edges[|edges| - 1];
      Net(edges[..|edges| - 1], data, t, d) +
      if e.at > t then 0 else Change(e, data, d)
  }

  /** Endpoints with datum `d` that fall no later than `t`. */
  ghost function Due<D>(ends: seq<Endpoint>, data: seq<D>, t: int, d: D): nat {
    if ends == [] then 0
    else (if ends[0].at <= t then Hit(data, ends[0].tag, d) else 0) + Due(ends[1..], data, t, d)
  }

  ghost function Open<D>(ends: seq<Endpoint>, data: seq<D>, d: D): nat {
    if ends == [] then 0 else Hit(data, ends[0].tag, d) + Open(ends[1..], data, d)
  }

  ghost function Cov(spans: seq<Span>, t: int): nat {
    if spans == [] then 0
    else Cov(spans[..|spans| - 1], t) + if spans[|spans| - 1].Covers(t) then 1 else 0
  }

  /** How many spans of the inputs tagged `d` cover `t`. */
  ghost function Cover<D>(inputs: seq<seq<Span>>, data: seq<D>, t: int, d: D): nat
    requires |inputs| <= |data|
  {
    if inputs == [] then 0
    else
      var i := |inputs| - 1;
      Cover(inputs[..i], data, t, d) + if data[i] == d then Cov(inputs[i], t) else 0
  }

  // ---- Priority queues as ordered sequences -----------------------------------------------

  predicate EndBefore(a: Endpoint, b: Endpoint) {
    a.at < b.at || (a.at == b.at && a.tag <= b.tag)
  }

  ghost predicate Heap(ends: seq<Endpoint>) {
    forall i, j :: 0 <= i < j < |ends| ==> EndBefore(ends[i], ends[j])
  }

  /** heapq.heappush on the queue kept in order. */
  function Push(ends: seq<Endpoint>, x: Endpoint): (r: seq<Endpoint>)
    requires Heap(ends)
    ensures Heap(r)
    ensures forall y :: y in r <==> y == x || y in ends
  {
    if ends == [] || EndBefore(x, ends[0]) then [x] + ends
    else
      var rest := Push(ends[1..], x);
      assert forall y :: y in rest ==> EndBefore(ends[0], y);
      assert forall y :: y in ends <==> y == ends[0] || y in ends[1..];
      [ends[0]] + rest
  }

  lemma {:induction false} PushCounts<D>(ends: seq<Endpoint>, x: Endpoint, data: seq<D>, t: int, d: D)
    requires Heap(ends)
    ensures Due(Push(ends, x), data, t, d) == Due(ends, data, t, d) + if x.at <= t then Hit(data, x.tag, d) else 0
    ensures Open(Push(ends, x), data, d) == Open(ends, data, d) + Hit(data, x.tag, d)
  {
    if ends == [] || EndBefore(x, ends[0]) {
      assert ([x] + ends)[1..] == ends;
    } else {
      PushCounts(ends[1..], x, data, t, d);
      assert ([ends[0]] + Push(ends[1..], x))[1..] == Push(ends[1..], x);
    }
  }

  predicate ItemBefore(a: Item, b: Item) {
    a.left < b.left || (a.left == b.left && (a.tag < b.tag || (a.tag == b.tag && a.right <= b.right)))
  }

  ghost predicate Ordered(items: seq<Item>) {
    forall i, j :: 0 <= i < j < |items| ==> ItemBefore(items[i], items[j])
  }

  function Insert(items: seq<Item>, x: Item): (r: seq<Item>)
    requires Ordered(items)
    ensures Ordered(r)
    ensures forall y :: y in r <==> y == x || y in items
  {
    if items == [] || ItemBefore(items[|items| - 1], x) then items + [x]
    else
      var last := items[|items| - 1];
      var rest := Insert(items[..|items| - 1], x);
      assert forall y :: y in items <==> y == last || y in items[..|items| - 1];
      assert forall y :: y in rest ==> ItemBefore(y, last);
      rest + [last]
  }

  lemma {:induction false} InsertCounts<D>(items: seq<Item>, x: Item, data: seq<D>, t: int, d: D)
    requires Ordered(items)
    ensures Live(Insert(items, x), data, t, d) ==
            Live(items, data, t, d) + if x.left <= t < x.right then Hit(data, x.tag, d) else 0
  {
    if items == [] || ItemBefore(items[|items| - 1], x) {
      assert (items + [x])[..|items|] == items;
    } else {
      var rest := Insert(items[..|items| - 1], x);
      InsertCounts(items[..|items| - 1], x, data, t, d);
      assert (rest + [items[|items| - 1]])[..|rest|] == rest;
    }
  }

  // ---- The sweep --------------------------------------------------------------------------

  ghost predicate Forward(inputs: seq<seq<Span>>) {
    forall i, j :: 0 <= i < |inputs| && 0 <= j < |inputs[i]| ==> inputs[i][j].begin <= inputs[i][j].end
  }

  ghost predicate ForwardItems(items: seq<Item>, tags: nat) {
    forall x :: x in items ==> x.left <= x.right && x.tag < tags
  }

  /** heapq.merge of the sorted, tagged inputs: all their spans in one order, none lost and none repeated. */
  method MergeInputs<D(!new)>(inputs: seq<seq<Span>>, ghost data: seq<D>) returns (items: seq<Item>)
    requires |data| == |inputs| && Forward(inputs)
    ensures Ordered(items) && ForwardItems(items, |inputs|)
    ensures forall t, d :: Live(items, data, t, d) == Cover(inputs, data, t, d)
  {
    items := [];
    for i := 0 to |inputs|
      invariant Ordered(items) && ForwardItems(items, |inputs|)
      invariant forall t, d :: Live(items, data, t, d) == Cover(inputs[..i], data, t, d)
    {
      for j := 0 to |inputs[i]|
        invariant Ordered(items) && ForwardItems(items, |inputs|)
        invariant forall t, d ::
          Live(items, data, t, d) == Cover(inputs[..i], data, t, d) + if data[i] == d then Cov(inputs[i][..j], t) else 0
      {
        var span := inputs[i][j];
        var x := Item(span.begin, i, span.end);
        assert inputs[i][..j + 1][..j] == inputs[i][..j];
        forall t, d
          ensures Live(Insert(items, x), data, t, d) ==
            Cover(inputs[..i], data, t, d) + if data[i] == d then Cov(inputs[i][..j + 1], t) else 0
        {
          InsertCounts(items, x, data, t, d);
        }
        items := Insert(items, x);
      }
      assert inputs[i][..|inputs[i]|] == inputs[i];
      assert inputs[..i + 1][..i] == inputs[..i];
    }
    assert inputs[..|inputs|] == inputs;
  }

  ghost predicate Ascending(edges: seq<Edge>) {
    forall i, j :: 0 <= i < j < |edges| ==> edges[i].at <= edges[j].at
  }

  /** Whenever an edge falls, its datum is active. */
  ghost predicate NeverUnderflows<D>(edges: seq<Edge>, data: seq<D>) {
    forall k :: 0 <= k < |edges| && !edges[k].rising && edges[k].tag < |data| ==>
      Balance(edges[..k], data, data[edges[k].tag]) >= 1
  }

  /** What the edges emitted and the endpoints queued so far account for. */
  ghost predicate Swept<D(!new)>(items: seq<Item>, data: seq<D>, edges: seq<Edge>, ends: seq<Endpoint>) {
    Queueing(data, edges, ends) && Accounted(items, data, edges, ends)
  }

  /** Edges in order, none of them past an endpoint still queued. */
  ghost predicate Queueing<D(!new)>(data: seq<D>, edges: seq<Edge>, ends: seq<Endpoint>) {
    && Heap(ends) && Ascending(edges) && NeverUnderflows(edges, data)
    && (forall e :: e in edges ==> e.tag < |data|)
    && (forall x :: x in ends ==> x.tag < |data|)
    && (forall e, x :: e in edges && x in ends ==> e.at <= x.at)
  }

  ghost predicate Accounted<D(!new)>(items: seq<Item>, data: seq<D>, edges: seq<Edge>, ends: seq<Endpoint>) {
    && (forall d :: Balance(edges, data, d) == Open(ends, data, d))
    && (forall t, d :: Net(edges, data, t, d) == Live(items, data, t, d) + Due(ends, data, t, d))
  }

  lemma AppendEdge<D>(edges: seq<Edge>, e: Edge, data: seq<D>)
    requires NeverUnderflows(edges, data) && e.tag < |data|
    requires !e.rising ==> Balance(edges, data, data[e.tag]) >= 1
    ensures NeverUnderflows(edges + [e], data)
  {
    var edges' := edges + [e];
    forall k | 0 <= k < |edges'| && !edges'[k].rising && edges'[k].tag < |data|
      ensures Balance(edges'[..k], data, data[edges'[k].tag]) >= 1
    {
      assert edges'[..k] == edges[..k];
      assert edges[..|edges|] == edges;
    }
  }

  lemma AppendCounts<D>(edges: seq<Edge>, e: Edge, data: seq<D>, t: int, d: D)
    ensures Balance(edges + [e], data, d) == Balance(edges, data, d) + Change(e, data, d)
    ensures Net(edges + [e], data, t, d) == Net(edges, data, t, d) + if e.at > t then 0 else Change(e, data, d)
  {
    assert (edges + [e])[..|edges|] == edges;
  }

  lemma Falls<D(!new)>(items: seq<Item>, data: seq<D>, edges: seq<Edge>, ends: seq<Endpoint>)
    requires Swept(items, data, edges, ends) && ends != []
    ensures Swept(items, data, edges + [Edge(ends[0].at, false, ends[0].tag)], ends[1..])
  {
    assert Balance(edges, data, data[ends[0].tag]) == Open(ends, data, data[ends[0].tag]) >= 1;
    FallQueues(data, edges, ends);
    FallAccounts(items, data, edges, ends);
  }

  lemma FallQueues<D(!new)>(data: seq<D>, edges: seq<Edge>, ends: seq<Endpoint>)
    requires Queueing(data, edges, ends) && ends != [] && Balance(edges, data, data[ends[0].tag]) >= 1
    ensures Queueing(data, edges + [Edge(ends[0].at, false, ends[0].tag)], ends[1..])
  {
    var e := Edge(ends[0].at, false, ends[0].tag);
    assert ends[0] in ends;
    assert forall x :: x in ends[1..] ==> x in ends && EndBefore(ends[0], x);
    AppendEdge(edges, e, data);
    AppendAscends(edges, e);
    hide Balance, NeverUnderflows, Ascending;
  }

  lemma FallAccounts<D(!new)>(items: seq<Item>, data: seq<D>, edges: seq<Edge>, ends: seq<Endpoint>)
    requires Accounted(items, data, edges, ends) && ends != []
    ensures Accounted(items, data, edges + [Edge(ends[0].at, false, ends[0].tag)], ends[1..])
  {
    hide Balance, Net, Live, Due, Open;
    var edges' := edges + [Edge(ends[0].at, false, ends[0].tag)];
    forall d
      ensures Balance(edges', data, d) == Open(ends[1..], data, d)
    {
      FallCounts(edges, ends, data, 0, d);
    }
    forall t, d
      ensures Net(edges', data, t, d) == Live(items, data, t, d) + Due(ends[1..], data, t, d)
    {
      FallCounts(edges, ends, data, t, d);
    }
  }

  lemma FallCounts<D>(edges: seq<Edge>, ends: seq<Endpoint>, data: seq<D>, t: int, d: D)
    requires ends != []
    ensures var edges' := edges + [Edge(ends[0].at, false, ends[0].tag)];
      && Balance(edges', data, d) - Balance(edges, data, d) == Open(ends[1..], data, d) - Open(ends, data, d)
      && Net(edges', data, t, d) - Net(edges, data, t, d) == Due(ends[1..], data, t, d) - Due(ends, data, t, d)
  {
    AppendCounts(edges, Edge(ends[0].at, false, ends[0].tag), data, t, d);
  }

  lemma AppendAscends(edges: seq<Edge>, e: Edge)
    requires Ascending(edges) && forall x :: x in edges ==> x.at <= e.at
    ensures Ascending(edges + [e])
  {
  }

  lemma RiseCounts<D>(items: seq<Item>, data: seq<D>, edges: seq<Edge>, ends: seq<Endpoint>, x: Item, t: int, d: D)
    requires Heap(ends) && x.left <= x.right
    requires Balance(edges, data, d) == Open(ends, data, d)
    requires Net(edges, data, t, d) == Live(items, data, t, d) + Due(ends, data, t, d)
    ensures var edges', ends' := edges + [Edge(x.left, true, x.tag)], Push(ends, Endpoint(x.right, x.tag));
      && Balance(edges', data, d) == Open(ends', data, d)
      && Net(edges', data, t, d) == Live(items + [x], data, t, d) + Due(ends', data, t, d)
  {
    assert (items + [x])[..|items|] == items;
    AppendCounts(edges, Edge(x.left, true, x.tag), data, t, d);
    PushCounts(ends, Endpoint(x.right, x.tag), data, t, d);
  }

  lemma RiseBounds(edges: seq<Edge>, ends: seq<Endpoint>, x: Item)
    requires Heap(ends) && Ascending(edges) && x.left <= x.right
    requires forall e :: e in edges ==> e.at <= x.left
    requires forall y :: y in ends ==> x.left <= y.at
    ensures var edges', ends' := edges + [Edge(x.left, true, x.tag)], Push(ends, Endpoint(x.right, x.tag));
      Heap(ends') && Ascending(edges') && forall e, y :: e in edges' && y in ends' ==> e.at <= y.at
  {
    AppendAscends(edges, Edge(x.left, true, x.tag));
  }

  lemma Rises<D(!new)>(items: seq<Item>, data: seq<D>, edges: seq<Edge>, ends: seq<Endpoint>, x: Item)
    requires Swept(items, data, edges, ends) && x.left <= x.right && x.tag < |data|
    requires forall e :: e in edges ==> e.at <= x.left
    requires forall y :: y in ends ==> x.left <= y.at
    ensures Swept(items + [x], data, edges + [Edge(x.left, true, x.tag)], Push(ends, Endpoint(x.right, x.tag)))
  {
    AppendEdge(edges, Edge(x.left, true, x.tag), data);
    RiseBounds(edges, ends, x);
    forall d
      ensures Balance(edges + [Edge(x.left, true, x.tag)], data, d)
           == Open(Push(ends, Endpoint(x.right, x.tag)), data, d)
    {
      RiseCounts(items, data, edges, ends, x, 0, d);
    }
    forall t, d
      ensures Net(edges + [Edge(x.left, true, x.tag)], data, t, d) ==
        Live(items + [x], data, t, d) + Due(Push(ends, Endpoint(x.right, x.tag)), data, t, d)
    {
      RiseCounts(items, data, edges, ends, x, t, d);
    }
  }

  lemma SweptStart<D(!new)>(data: seq<D>)
    ensures Swept([], data, [], [])
  {
  }

  /** The edge list of a sweep: each span rises where it begins and falls where it ends, falls first at a tie. */
  method SweepEdges<D(!new)>(items: seq<Item>, ghost data: seq<D>) returns (edges: seq<Edge>)
    requires Ordered(items) && ForwardItems(items, |data|)
    ensures Swept(items, data, edges, [])
  {
    hide Live, Net, Due, Balance, Open, NeverUnderflows, Ascending;
    edges := [];
    var ends: seq<Endpoint> := [];
    SweptStart(data);
    for j := 0 to |items|
      invariant Swept(items[..j], data, edges, ends)
      invariant forall e, k :: e in edges && j <= k < |items| ==> e.at <= items[k].left
    {
      var x := items[j];
      assert x in items;
      while ends != [] && ends[0].at <= x.left
        invariant Swept(items[..j], data, edges, ends)
        invariant forall e, k :: e in edges && j <= k < |items| ==> e.at <= items[k].left
        decreases |ends|
      {
        Falls(items[..j], data, edges, ends);
        edges := edges + [Edge(ends[0].at, false, ends[0].tag)];
        ends := ends[1..];
      }
      assert forall y :: y in ends ==> EndBefore(ends[0], y);
      Rises(items[..j], data, edges, ends, x);
      assert items[..j + 1] == items[..j] + [x];
      edges := edges + [Edge(x.left, true, x.tag)];
      ends := Push(ends, Endpoint(x.right, x.tag));
    }
    assert items[..|items|] == items;
    while ends != []
      invariant Swept(items, data, edges, ends)
      decreases |ends|
    {
      Falls(items, data, edges, ends);
      edges := edges + [Edge(ends[0].at, false, ends[0].tag)];
      ends := ends[1..];
    }
  }

  // ---- Combining --------------------------------------------------------------------------

  lemma {:induction false} NetIsBalance<D>(edges: seq<Edge>, data: seq<D>, k: nat, t: int, d: D)
    requires k <= |edges|
    requires forall i :: 0 <= i < k ==> edges[i].at <= t
    requires forall i :: k <= i < |edges| ==> edges[i].at > t
    ensures Net(edges, data, t, d) == Balance(edges[..k], data, d)
    decreases |edges|
  {
    if k < |edges| {
      var front := edges[..|edges| - 1];
      assert front[..k] == edges[..k];
      NetIsBalance(front, data, k, t, d);
    } else if k > 0 {
      var front := edges[..k - 1];
      assert edges[..k] == edges && front[..k - 1] == front;
      NetIsBalance(front, data, k - 1, t, d);
    }
  }

  /** The data of the inputs that cover `t`. */
  ghost function CoveringData<D>(inputs: seq<seq<Span>>, data: seq<D>, t: int): set<D>
    requires |inputs| <= |data|
  {
    set i | 0 <= i < |inputs| && Covered(inputs[i], t) :: data[i]
  }

  lemma {:induction false} CovPositive(spans: seq<Span>, t: int)
    ensures Cov(spans, t) > 0 <==> Covered(spans, t)
  {
    if spans != [] {
      var n := |spans| - 1;
      CovPositive(spans[..n], t);
      if Covered(spans, t) {
        var j :| 0 <= j < |spans| && spans[j].Covers(t);
        assert j < n ==> spans[..n][j].Covers(t);
      }
      if Covered(spans[..n], t) {
        var j :| 0 <= j < n && spans[..n][j].Covers(t);
        assert spans[j].Covers(t);
      }
    }
  }

  lemma {:induction false} CoverPositive<D>(inputs: seq<seq<Span>>, data: seq<D>, t: int, d: D)
    requires |inputs| <= |data|
    ensures Cover(inputs, data, t, d) > 0 <==> d in CoveringData(inputs, data, t)
  {
    if inputs != [] {
      var n := |inputs| - 1;
      CoverPositive(inputs[..n], data, t, d);
      CovPositive(inputs[n], t);
      assert forall i :: 0 <= i < n ==> inputs[..n][i] == inputs[i];
    }
  }

  /** The data kept, in their given order. */
  function FilterIn<D(==)>(data: seq<D>, keys: set<D>): seq<D> {
    if data == [] then []
    else FilterIn(data[..|data| - 1], keys) + if data[|data| - 1] in keys then [data[|data| - 1]] else []
  }

  /** The tree says of time `t` exactly which inputs cover it. */
  ghost predicate Right<D>(inputs: seq<seq<Span>>, data: seq<D>, tree: set<Interval<seq<D>>>, t: int)
    requires |inputs| <= |data|
  {
    var keys := CoveringData(inputs, data, t);
    && ((exists iv :: iv in tree && iv.Covers(t)) <==> keys != {})
    && forall iv :: iv in tree && iv.Covers(t) ==> iv.data == FilterIn(data, keys)
  }

  ghost predicate Combines<D>(inputs: seq<seq<Span>>, data: seq<D>, tree: set<Interval<seq<D>>>)
    requires |inputs| <= |data|
  {
    && Disjoint(tree)
    && (forall iv :: iv in tree ==> iv.begin < iv.end)
    && forall t :: Right(inputs, data, tree, t)
  }

  /** `active` holds each datum with its positive count. */
  ghost predicate Counts<D(!new)>(active: map<D, int>, edges: seq<Edge>, data: seq<D>) {
    && (forall d :: Balance(edges, data, d) == if d in active then active[d] else 0)
    && (forall d :: d in active ==> active[d] >= 1)
  }

  /** The edge list of a sweep accounts for exactly the inputs. */
  ghost predicate Accounts<D(!new)>(inputs: seq<seq<Span>>, data: seq<D>, edges: seq<Edge>)
    requires |inputs| <= |data|
  {
    && Ascending(edges) && NeverUnderflows(edges, data)
    && (forall e :: e in edges ==> e.tag < |data|)
    && (forall d :: Balance(edges, data, d) == 0)
    && (forall t, d :: Net(edges, data, t, d) == Cover(inputs, data, t, d))
  }

  method InputEdges<D(!new)>(inputs: seq<seq<Span>>, ghost data: seq<D>) returns (edges: seq<Edge>)
    requires |data| == |inputs| && Forward(inputs)
    ensures Accounts(inputs, data, edges)
  {
    var items := MergeInputs(inputs, data);
    edges := SweepEdges(items, data);
  }

  /** Between edges the active data are those of the covering inputs. */
  lemma KeysAt<D(!new)>(inputs: seq<seq<Span>>, data: seq<D>, edges: seq<Edge>, k: nat, t: int, active: map<D, int>)
    requires |inputs| <= |data| && Accounts(inputs, data, edges) && k <= |edges|
    requires forall i :: 0 <= i < k ==> edges[i].at <= t
    requires forall i :: k <= i < |edges| ==> edges[i].at > t
    requires Counts(active, edges[..k], data)
    ensures active.Keys == CoveringData(inputs, data, t)
  {
    forall d
      ensures d in active <==> d in CoveringData(inputs, data, t)
    {
      NetIsBalance(edges, data, k, t, d);
      CoverPositive(inputs, data, t, d);
    }
  }

  /** What the sweep has written once it has reached time `left`. */
  ghost predicate WrittenTo<D>(inputs: seq<seq<Span>>, data: seq<D>, tree: set<Interval<seq<D>>>, left: int)
    requires |inputs| <= |data|
  {
    && Disjoint(tree)
    && (forall iv :: iv in tree ==> iv.begin < iv.end <= left)
    && forall t :: t < left ==> Right(inputs, data, tree, t)
  }

  ghost function NextSlab<D>(data: seq<D>, keys: set<D>, left: int, right: int): set<Interval<seq<D>>> {
    if keys != {} && left < right then {Interval(left, right, FilterIn(data, keys))} else {}
  }

  /** Writing, or not writing, the slab up to the next edge keeps the tree right. */
  lemma Slab<D(!new)>(inputs: seq<seq<Span>>, data: seq<D>, tree: set<Interval<seq<D>>>, left: int, right: int,
      keys: set<D>)
    requires |inputs| <= |data| && WrittenTo(inputs, data, tree, left) && left <= right
    requires forall t :: left <= t < right ==> CoveringData(inputs, data, t) == keys
    ensures WrittenTo(inputs, data, tree + NextSlab(data, keys, left, right), right)
  {
    var iv := Interval(left, right, FilterIn(data, keys));
    var slab := NextSlab(data, keys, left, right);
    forall t | t < right
      ensures Right(inputs, data, tree + slab, t)
    {
      if t < left {
        assert Right(inputs, data, tree, t);
        assert forall x :: x in slab ==> !x.Covers(t);
      } else {
        assert CoveringData(inputs, data, t) == keys;
        assert forall x :: x in tree ==> !x.Covers(t);
        if keys != {} {
          assert iv in tree + slab && iv.Covers(t);
        }
      }
    }
  }

  /** Everything the sweep needs at its `k`-th edge. */
  lemma CombineStep<D(!new)>(inputs: seq<seq<Span>>, data: seq<D>, edges: seq<Edge>, k: nat, left: int,
                             active: map<D, int>, tree: set<Interval<seq<D>>>)
    requires |inputs| <= |data| && Accounts(inputs, data, edges) && k < |edges|
    requires WrittenTo(inputs, data, tree, left) && Counts(active, edges[..k], data)
    requires forall i :: 0 <= i < k ==> edges[i].at <= left
    requires forall i :: k <= i < |edges| ==> left <= edges[i].at
    ensures WrittenTo(inputs, data, tree + NextSlab(data, active.Keys, left, edges[k].at), edges[k].at)
    ensures edges[k].tag < |data| && edges[..k + 1] == edges[..k] + [edges[k]]
    ensures !edges[k].rising ==> Balance(edges[..k], data, data[edges[k].tag]) >= 1
    ensures forall i :: 0 <= i < k + 1 ==> edges[i].at <= edges[k].at
    ensures forall i :: k <= i < |edges| ==> edges[k].at <= edges[i].at
  {
    assert edges[k] in edges;
    forall t | left <= t < edges[k].at
      ensures CoveringData(inputs, data, t) == active.Keys
    {
      KeysAt(inputs, data, edges, k, t, active);
    }
    Slab(inputs, data, tree, left, edges[k].at, active.Keys);
  }

  /** One edge updates the active counts as it updates the balance. */
  method Advance<D(==, !new)>(active: map<D, int>, ghost edges: seq<Edge>, e: Edge, data: seq<D>)
      returns (active': map<D, int>)
    requires Counts(active, edges, data) && e.tag < |data|
    requires !e.rising ==> Balance(edges, data, data[e.tag]) >= 1
    ensures Counts(active', edges + [e], data)
  {
    var datum := data[e.tag];
    if e.rising {
      active' := active[datum := (if datum in active then active[datum] else 0) + 1];
    } else if active[datum] > 1 {
      active' := active[datum := active[datum] - 1];
    } else {
      active' := active - {datum};
    }
    forall d
      ensures Balance(edges + [e], data, d) == if d in active' then active'[d] else 0
    {
      AppendCounts(edges, e, data, 0, d);
    }
  }

  /** Combines the inputs into `target`: the intervals added are disjoint, and each carries, in input order, exactly
      the data of the inputs covering it. */
  method CombineTrees<D(==, !new)>(inputs: seq<seq<Span>>, data: seq<D>, target: IntervalTree<seq<D>>)
    returns (ghost added: set<Interval<seq<D>>>)
    requires |data| == |inputs| && Forward(inputs) && target.Valid()
    modifies target
    ensures target.Valid() && target.ivs == old(target.ivs) + added
    ensures Combines(inputs, data, added)
  {
    hide Net, Cover, Right, WrittenTo, Combines, CoveringData, FilterIn, Accounts, Disjoint, Balance;
    var edges := InputEdges(inputs, data);
    added := {};
    if edges == [] {
      WrittenStart(inputs, data, edges, 0);
      assert Counts(map[], edges, data);
      WrittenEnd(inputs, data, edges, added, 0, map[]);
      return;
    }

    var left := edges[0].at;
    var active: map<D, int> := map[];
    CombineStart(inputs, data, edges);
    WrittenStart(inputs, data, edges, left);
    for k := 0 to |edges|
      invariant target.Valid() && target.ivs == old(target.ivs) + added
      invariant WrittenTo(inputs, data, added, left) && Counts(active, edges[..k], data)
      invariant forall i :: 0 <= i < k ==> edges[i].at <= left
      invariant forall i :: k <= i < |edges| ==> left <= edges[i].at
    {
      var e := edges[k];
      CombineStep(inputs, data, edges, k, left, active, added);
      if active.Keys != {} && left < e.at {
        target.Addi(left, e.at, FilterIn(data, active.Keys));
      }
      added := added + NextSlab(data, active.Keys, left, e.at);
      active := Advance(active, edges[..k], e, data);
      left := e.at;
    }
    assert edges[..|edges|] == edges;
    WrittenEnd(inputs, data, edges, added, left, active);
  }

  lemma CombineStart<D(!new)>(inputs: seq<seq<Span>>, data: seq<D>, edges: seq<Edge>)
    requires |inputs| <= |data| && Accounts(inputs, data, edges) && edges != []
    ensures Counts(map[], edges[..0], data)
    ensures forall i :: 0 <= i < |edges| ==> edges[0].at <= edges[i].at
  {
  }

  lemma WrittenStart<D(!new)>(inputs: seq<seq<Span>>, data: seq<D>, edges: seq<Edge>, left: int)
    requires |inputs| <= |data| && Accounts(inputs, data, edges)
    requires forall i :: 0 <= i < |edges| ==> left <= edges[i].at
    ensures WrittenTo(inputs, data, {}, left)
  {
    forall t | t < left
      ensures Right(inputs, data, {}, t)
    {
      KeysAt(inputs, data, edges, 0, t, map[]);
    }
  }

  lemma WrittenEnd<D(!new)>(inputs: seq<seq<Span>>, data: seq<D>, edges: seq<Edge>, tree: set<Interval<seq<D>>>,
                            left: int, active: map<D, int>)
    requires |inputs| <= |data| && Accounts(inputs, data, edges) && WrittenTo(inputs, data, tree, left)
    requires Counts(active, edges, data) && forall i :: 0 <= i < |edges| ==> edges[i].at <= left
    ensures Combines(inputs, data, tree)
  {
    assert active.Keys == {};
    forall t | left <= t
      ensures Right(inputs, data, tree, t)
    {
      assert edges[..|edges|] == edges;
      KeysAt(inputs, data, edges, |edges|, t, active);
      assert forall iv :: iv in tree ==> !iv.Covers(t);
    }
  }

  // ---- Intersecting -----------------------------------------------------------------------

  ghost predicate DisjointSpans(spans: seq<Span>) {
    && (forall j :: 0 <= j < |spans| ==> spans[j].begin < spans[j].end)
    && forall i, j, t :: 0 <= i < j < |spans| && spans[i].Covers(t) ==> !spans[j].Covers(t)
  }

  ghost predicate AllCover(inputs: seq<seq<Span>>, t: int) {
    forall i :: 0 <= i < |inputs| ==> Covered(inputs[i], t)
  }

  lemma {:induction false} CovAtMostOne(spans: seq<Span>, t: int)
    requires DisjointSpans(spans)
    ensures Cov(spans, t) <= 1
  {
    if spans != [] {
      var n := |spans| - 1;
      CovAtMostOne(spans[..n], t);
      CovPositive(spans[..n], t);
      if Cov(spans[..n], t) > 0 {
        var i :| 0 <= i < n && spans[..n][i].Covers(t);
        assert spans[i].Covers(t);
      }
    }
  }

  function Zeros(n: nat): seq<int> {
    seq(n, _ => 0)
  }

  /** The number of spans covering `t` counts the covering inputs, so it is full exactly when all of them cover. */
  lemma {:induction false} CoverFull(inputs: seq<seq<Span>>, n: nat, t: int)
    requires |inputs| <= n && forall i :: 0 <= i < |inputs| ==> DisjointSpans(inputs[i])
    ensures Cover(inputs, Zeros(n), t, 0) <= |inputs|
    ensures Cover(inputs, Zeros(n), t, 0) == |inputs| <==> AllCover(inputs, t)
  {
    if inputs != [] {
      var k := |inputs| - 1;
      CoverFull(inputs[..k], n, t);
      CovAtMostOne(inputs[k], t);
      CovPositive(inputs[k], t);
      assert forall i :: 0 <= i < k ==> inputs[..k][i] == inputs[i];
    }
  }

  /** Between edges the depth counter is the number of covering inputs. */
  lemma DepthAt(inputs: seq<seq<Span>>, edges: seq<Edge>, k: nat, t: int)
    requires Accounts(inputs, Zeros(|inputs|), edges) && k <= |edges|
    requires forall i :: 0 <= i < |inputs| ==> DisjointSpans(inputs[i])
    requires forall i :: 0 <= i < k ==> edges[i].at <= t
    requires forall i :: k <= i < |edges| ==> edges[i].at > t
    ensures Balance(edges[..k], Zeros(|inputs|), 0) == Cover(inputs, Zeros(|inputs|), t, 0)
    ensures Balance(edges[..k], Zeros(|inputs|), 0) == |inputs| <==> AllCover(inputs, t)
  {
    NetIsBalance(edges, Zeros(|inputs|), k, t, 0);
    CoverFull(inputs, |inputs|, t);
  }

  ghost predicate Meets<T>(inputs: seq<seq<Span>>, tree: set<Interval<T>>, t: int) {
    (exists iv :: iv in tree && iv.Covers(t)) <==> AllCover(inputs, t)
  }

  ghost predicate Intersects<T>(inputs: seq<seq<Span>>, tree: set<Interval<T>>) {
    Disjoint(tree) && Proper(tree) && forall t :: Meets(inputs, tree, t)
  }

  ghost predicate MetTo<T>(inputs: seq<seq<Span>>, tree: set<Interval<T>>, left: int) {
    && Disjoint(tree) && Proper(tree)
    && (forall iv :: iv in tree ==> iv.end <= left)
    && forall t :: t < left ==> Meets(inputs, tree, t)
  }

  lemma MeetSlab<T>(inputs: seq<seq<Span>>, tree: set<Interval<T>>, left: int, right: int, all: bool, data: T)
    requires MetTo(inputs, tree, left) && left <= right
    requires forall t :: left <= t < right ==> (AllCover(inputs, t) <==> all)
    ensures MetTo(inputs, tree + (if all && left < right then {Interval(left, right, data)} else {}), right)
  {
    var iv := Interval(left, right, data);
    var slab := if all && left < right then {iv} else {};
    forall t | t < right
      ensures Meets(inputs, tree + slab, t)
    {
      if t < left {
        assert Meets(inputs, tree, t);
        assert forall x :: x in slab ==> !x.Covers(t);
      } else {
        assert forall x :: x in tree ==> !x.Covers(t);
        if all {
          assert iv in tree + slab && iv.Covers(t);
        }
      }
    }
  }

  /** Intersects the inputs into `target`: for at least one input, the intervals added are disjoint and cover `t`
      exactly when every input does; for none, nothing is added. */
  method IntersectTrees(inputs: seq<seq<Span>>, target: IntervalTree<()>) returns (ghost added: set<Interval<()>>)
    requires target.Valid() && forall i :: 0 <= i < |inputs| ==> DisjointSpans(inputs[i])
    modifies target
    ensures target.Valid() && target.ivs == old(target.ivs) + added
    ensures |inputs| > 0 ==> Intersects(inputs, added)
    ensures |inputs| == 0 ==> added == {}
  {
    hide Net, Cover, MetTo, AllCover, Intersects, Accounts, Disjoint;
    ghost var zeros := Zeros(|inputs|);
    var edges := InputEdges(inputs, zeros);
    added := {};
    var nextStart: Option<int> := None;
    var depth := 0;
    ghost var left := if edges == [] then 0 else edges[0].at;
    assert forall i :: 0 <= i < |edges| ==> left <= edges[i].at by {
      if edges != [] {
        DepthChanges(inputs, edges, 0);
      }
    }
    if |inputs| > 0 {
      MetStart(inputs, edges, left);
    }
    for k := 0 to |edges|
      invariant target.Valid() && target.ivs == old(target.ivs) + added
      invariant depth == Balance(edges[..k], zeros, 0)
      invariant forall i :: 0 <= i < k ==> edges[i].at <= left
      invariant forall i :: k <= i < |edges| ==> left <= edges[i].at
      invariant |inputs| > 0 ==> MetTo<()>(inputs, added, left)
      invariant |inputs| > 0 ==> nextStart == if depth == |inputs| then Some(left) else None
      invariant |inputs| == 0 ==> added == {}
    {
      var e := edges[k];
      DepthChanges(inputs, edges, k);
      forall t | left <= t < e.at
        ensures AllCover(inputs, t) <==> depth == |inputs|
      {
        DepthAt(inputs, edges, k, t);
      }
      MeetSlab(inputs, added, left, e.at, depth == |inputs|, ());
      ghost var next := added + if depth == |inputs| && left < e.at then {Interval(left, e.at, ())} else {};
      depth := depth + if e.rising then 1 else -1;
      if depth == |inputs| {
        nextStart := if nextStart.None? then Some(e.at) else nextStart;
      } else if nextStart.Some? && nextStart.value < e.at {
        target.Addi(nextStart.value, e.at, ());
        added := added + {Interval(nextStart.value, e.at, ())};
        nextStart := None;
      } else if nextStart.Some? {
        nextStart := None;
      }
      assert added == next;
      left := e.at;
    }
    assert edges[..|edges|] == edges;
    if |inputs| > 0 {
      MetEnd(inputs, edges, added, left);
    }
  }

  lemma DepthChanges(inputs: seq<seq<Span>>, edges: seq<Edge>, k: nat)
    requires Accounts(inputs, Zeros(|inputs|), edges) && k < |edges|
    ensures Balance(edges[..k + 1], Zeros(|inputs|), 0) ==
            Balance(edges[..k], Zeros(|inputs|), 0) + if edges[k].rising then 1 else -1
    ensures forall i :: 0 <= i < k ==> edges[i].at <= edges[k].at
    ensures forall i :: k <= i < |edges| ==> edges[k].at <= edges[i].at
    ensures |inputs| > 0
  {
    assert edges[k] in edges;
    assert edges[..k + 1] == edges[..k] + [edges[k]];
    AppendCounts(edges[..k], edges[k], Zeros(|inputs|), 0, 0);
  }

  lemma MetStart(inputs: seq<seq<Span>>, edges: seq<Edge>, left: int)
    requires |inputs| > 0 && Accounts(inputs, Zeros(|inputs|), edges)
    requires forall i :: 0 <= i < |inputs| ==> DisjointSpans(inputs[i])
    requires forall i :: 0 <= i < |edges| ==> left <= edges[i].at
    ensures MetTo<()>(inputs, {}, left)
  {
    forall t | t < left
      ensures Meets<()>(inputs, {}, t)
    {
      DepthAt(inputs, edges, 0, t);
    }
  }

  lemma MetEnd(inputs: seq<seq<Span>>, edges: seq<Edge>, tree: set<Interval<()>>, left: int)
    requires |inputs| > 0 && Accounts(inputs, Zeros(|inputs|), edges)
    requires forall i :: 0 <= i < |inputs| ==> DisjointSpans(inputs[i])
    requires forall i :: 0 <= i < |edges| ==> edges[i].at <= left
    requires MetTo(inputs, tree, left)
    ensures Intersects(inputs, tree)
  {
    forall t
      ensures Meets(inputs, tree, t)
    {
      if left <= t {
        assert edges[..|edges|] == edges;
        DepthAt(inputs, edges, |edges|, t);
        assert forall iv :: iv in tree ==> !iv.Covers(t);
      }
    }
  }
}
