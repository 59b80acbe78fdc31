/** Elections of subjects by up and down votes, weighed with what the subjects depend on. */
module Election {
  import opened Prelude

  type Subject = string
  type Source = Option<string>
  type Graph = map<Subject, seq<Subject>>
  type Votes = map<Source, map<Subject, Option<bool>>>

  datatype Tally = Tally(up: int, down: int)

  function VoteOf(votes: Votes, source: Source, subject: Subject): Option<bool> {
    if source in votes && subject in votes[source] then votes[source][subject] else None
  }

  ghost function Voters(votes: Votes, subject: Subject, vote: bool): set<Source> {
    set s | s in votes && VoteOf(votes, s, subject) == Some(vote)
  }

  function TallyOf(tallies: map<Subject, Tally>, subject: Subject): Tally {
    if subject in tallies then tallies[subject] else Tally(0, 0)
  }

  /** Each tally is the number of sources currently voting up and down. */
  ghost predicate TalliesRight(votes: Votes, tallies: map<Subject, Tally>) {
    forall s :: TallyOf(tallies, s) == Tally(|Voters(votes, s, true)|, |Voters(votes, s, false)|)
  }

  lemma VotersSame(votes: Votes, votes': Votes, subject: Subject, b: bool)
    requires forall s :: VoteOf(votes', s, subject) == VoteOf(votes, s, subject)
    ensures Voters(votes', subject, b) == Voters(votes, subject, b)
  {
    forall s
      ensures s in Voters(votes', subject, b) <==> s in Voters(votes, subject, b)
    {
      assert VoteOf(votes', s, subject) == VoteOf(votes, s, subject);
    }
  }

  lemma VotersExist(votes: Votes, subject: Subject, b: bool)
    ensures |Voters(votes, subject, b)| > 0 <==> exists source :: VoteOf(votes, source, subject) == Some(b)
  {
    if source :| VoteOf(votes, source, subject) == Some(b) {
      assert source in Voters(votes, subject, b);
    }
    if Voters(votes, subject, b) != {} {
      var source := Member(Voters(votes, subject, b));
      assert VoteOf(votes, source, subject) == Some(b);
    }
  }

  /** Changing one source's vote on a subject moves only that source between its voters. */
  lemma VotersMove(votes: Votes, votes': Votes, source: Source, subject: Subject, b: bool)
    requires forall s :: s != source ==> VoteOf(votes', s, subject) == VoteOf(votes, s, subject)
    ensures |Voters(votes', subject, b)| ==
      |Voters(votes, subject, b)| - (if VoteOf(votes, source, subject) == Some(b) then 1 else 0)
      + (if VoteOf(votes', source, subject) == Some(b) then 1 else 0)
  {
    var was, now := Voters(votes, subject, b), Voters(votes', subject, b);
    forall s | s != source
      ensures s in now <==> s in was
    {
      assert VoteOf(votes', s, subject) == VoteOf(votes, s, subject);
    }
    OneMoves(was, now, source);
  }

  lemma OneMoves<T>(was: set<T>, now: set<T>, x: T)
    requires forall s :: s != x ==> (s in now <==> s in was)
    ensures |now| == |was| - (if x in was then 1 else 0) + (if x in now then 1 else 0)
  {
    var rest := was - {x};
    assert was == if x in was then rest + {x} else rest;
    assert now == if x in now then rest + {x} else rest;
  }

  ghost function Share(v: Option<bool>, b: bool): int {
    if v == Some(b) then 1 else 0
  }

  /** Moving one vote in the tally of its subject keeps every tally exact. */
  lemma TalliesFollow(votes: Votes, votes': Votes, tallies: map<Subject, Tally>, tallies': map<Subject, Tally>,
                      source: Source, subject: Subject, vote: Option<bool>)
    requires TalliesRight(votes, tallies)
    requires forall s, t :: VoteOf(votes', s, t) == if s == source && t == subject then vote else VoteOf(votes, s, t)
    requires var was, previous := TallyOf(tallies, subject), VoteOf(votes, source, subject);
      tallies' == tallies[subject := Tally(was.up - Share(previous, true) + Share(vote, true),
                                           was.down - Share(previous, false) + Share(vote, false))]
    ensures TalliesRight(votes', tallies')
  {
    forall t
      ensures TallyOf(tallies', t) == Tally(|Voters(votes', t, true)|, |Voters(votes', t, false)|)
    {
      assert TallyOf(tallies, t) == Tally(|Voters(votes, t, true)|, |Voters(votes, t, false)|);
      if t == subject {
        VotersMove(votes, votes', source, subject, true);
        VotersMove(votes, votes', source, subject, false);
      } else {
        VotersSame(votes, votes', t, true);
        VotersSame(votes, votes', t, false);
      }
    }
  }

  // ---- What an evaluation means -----------------------------------------------------------

  /** The votes that matter to an evaluation: which subjects are voted on, and which are voted down. */
  datatype Standing = Standing(graph: Graph, up: set<Subject>, down: set<Subject>) {
    predicate DependsOn(s: Subject, d: Subject) {
      s in graph && d in graph[s]
    }

    function Deps(s: Subject): seq<Subject> {
      if s in graph then graph[s] else []
    }

    ghost predicate Ranked(rank: Subject -> nat) {
      forall s, d :: DependsOn(s, d) ==> rank(d) < rank(s)
    }

    ghost predicate Walk(path: seq<Subject>) {
      path != [] && forall i, j :: 0 <= i && j == i + 1 < |path| ==> DependsOn(path[i], path[j])
    }

    /** No downvote on the subject or anywhere in its transitive dependencies. */
    ghost predicate Upheld(s: Subject) {
      forall path :: Walk(path) && path[0] == s ==> path[|path| - 1] !in down
    }

    /** Reached from a voted subject of the graph through subjects that are not voted down. */
    ghost predicate Admits(path: seq<Subject>) {
      && Walk(path) && path[0] in graph && (path[0] in up || path[0] in down)
      && forall i :: 0 <= i < |path| - 1 ==> path[i] !in down
    }

    ghost predicate InDomain(s: Subject) {
      exists path :: Admits(path) && path[|path| - 1] == s
    }
  }

  /** A subject is upheld exactly when it is not voted down itself and all it depends on is upheld. */
  lemma UpheldSteps(v: Standing, s: Subject)
    ensures v.Upheld(s) <==> s !in v.down && forall d :: v.DependsOn(s, d) ==> v.Upheld(d)
  {
    if v.Upheld(s) {
      assert v.Walk([s]);
      forall d, path | v.DependsOn(s, d) && v.Walk(path) && path[0] == d
        ensures path[|path| - 1] !in v.down
      {
        assert v.Walk([s] + path) && ([s] + path)[0] == s;
      }
    }
    if s !in v.down && forall d :: v.DependsOn(s, d) ==> v.Upheld(d) {
      forall path | v.Walk(path) && path[0] == s
        ensures path[|path| - 1] !in v.down
      {
        if |path| > 1 {
          assert v.DependsOn(path[0], path[1]) && v.Upheld(path[1]);
          assert v.Walk(path[1..]) by {
            assert forall i :: 0 <= i < |path| - 1 ==> path[1..][i] == path[i + 1];
          }
        }
      }
    }
  }

  lemma DomainSteps(v: Standing, s: Subject, d: Subject)
    requires v.InDomain(s) && s !in v.down && v.DependsOn(s, d)
    ensures v.InDomain(d)
  {
    var path :| v.Admits(path) && path[|path| - 1] == s;
    assert v.Admits(path + [d]);
  }

  // ---- The order of the output ------------------------------------------------------------

  /** The output order after one subject, and whatever of its dependencies is still missing, has been evaluated. */
  ghost function Visited(v: Standing, rank: Subject -> nat, done: seq<Subject>, s: Subject,
      dependency: bool): seq<Subject>
    requires v.Ranked(rank)
    decreases rank(s), 1, 0
  {
    if s in done then done
    else if s in v.down then done + [s]
    else if s in v.up || dependency then DepsVisited(v, rank, done, s, |v.Deps(s)|) + [s]
    else done
  }

  ghost function DepsVisited(v: Standing, rank: Subject -> nat, done: seq<Subject>, s: Subject, n: nat): seq<Subject>
    requires v.Ranked(rank) && n <= |v.Deps(s)|
    decreases rank(s), 0, n
  {
    if n == 0 then done
    else
      assert v.DependsOn(s, v.Deps(s)[n - 1]);
      Visited(v, rank, DepsVisited(v, rank, done, s, n - 1), v.Deps(s)[n - 1], true)
  }

  ghost function KeysVisited(v: Standing, rank: Subject -> nat, keys: seq<Subject>): seq<Subject>
    requires v.Ranked(rank)
  {
    if keys == [] then [] else Visited(v, rank, KeysVisited(v, rank, keys[..|keys| - 1]), keys[|keys| - 1], false)
  }

  /** Subjects of the domain, each once, those not voted down after all they depend on. */
  ghost predicate InOrder(v: Standing, order: seq<Subject>) {
    && Distinct(order)
    && (forall s :: s in order ==> v.InDomain(s))
    && forall i, d :: 0 <= i < |order| && order[i] !in v.down && v.DependsOn(order[i], d) ==> d in order[..i]
  }

  lemma Append(v: Standing, order: seq<Subject>, s: Subject)
    requires InOrder(v, order) && s !in order && v.InDomain(s)
    requires s !in v.down ==> forall d :: v.DependsOn(s, d) ==> d in order
    ensures InOrder(v, order + [s])
  {
    var order' := order + [s];
    forall i, d | 0 <= i < |order'| && order'[i] !in v.down && v.DependsOn(order'[i], d)
      ensures d in order'[..i]
    {
      if i < |order| {
        assert order'[..i] == order[..i];
      } else {
        assert order'[..i] == order;
      }
    }
  }

  lemma VotedInDomain(v: Standing, s: Subject)
    requires s in v.graph && (s in v.up || s in v.down)
    ensures v.InDomain(s)
  {
    assert v.Admits([s]);
  }

  /** Nothing is lost from the order, and what is new ranks no higher than `top`. */
  ghost predicate Grown(before: seq<Subject>, now: seq<Subject>, rank: Subject -> nat, top: int) {
    before <= now && forall s :: s in now && s !in before ==> rank(s) <= top
  }

  lemma {:induction false} VisitedGrows(v: Standing, rank: Subject -> nat, done: seq<Subject>, s: Subject,
      dependency: bool)
    requires v.Ranked(rank)
    ensures Grown(done, Visited(v, rank, done, s, dependency), rank, rank(s))
    decreases rank(s), 1, 0
  {
    if s !in done && s !in v.down && (s in v.up || dependency) {
      DepsGrow(v, rank, done, s, |v.Deps(s)|);
    }
  }

  lemma {:induction false} DepsGrow(v: Standing, rank: Subject -> nat, done: seq<Subject>, s: Subject, n: nat)
    requires v.Ranked(rank) && n <= |v.Deps(s)|
    ensures Grown(done, DepsVisited(v, rank, done, s, n), rank, rank(s) - 1)
    decreases rank(s), 0, n
  {
    if n > 0 {
      assert v.DependsOn(s, v.Deps(s)[n - 1]);
      DepsGrow(v, rank, done, s, n - 1);
      VisitedGrows(v, rank, DepsVisited(v, rank, done, s, n - 1), v.Deps(s)[n - 1], true);
    }
  }

  /** Whatever has to be output is, whether it was there before or not. */
  lemma VisitedHas(v: Standing, rank: Subject -> nat, done: seq<Subject>, s: Subject, dependency: bool)
    requires v.Ranked(rank) && (dependency || s in v.up || s in v.down)
    ensures s in Visited(v, rank, done, s, dependency)
  {
  }

  lemma {:induction false} DepsHave(v: Standing, rank: Subject -> nat, done: seq<Subject>, s: Subject, n: nat,
      d: Subject)
    requires v.Ranked(rank) && n <= |v.Deps(s)| && d in v.Deps(s)[..n]
    ensures d in DepsVisited(v, rank, done, s, n)
    decreases n
  {
    var before, last := DepsVisited(v, rank, done, s, n - 1), v.Deps(s)[n - 1];
    assert v.DependsOn(s, last);
    VisitedHas(v, rank, before, last, true);
    VisitedGrows(v, rank, before, last, true);
    if d != last {
      DepsHave(v, rank, done, s, n - 1, d);
    }
  }

  /** What a subject depends on ranks below it, so visiting that does not output the subject itself. */
  lemma DepsExclude(v: Standing, rank: Subject -> nat, done: seq<Subject>, s: Subject, n: nat)
    requires v.Ranked(rank) && s !in done && n <= |v.Deps(s)|
    ensures s !in DepsVisited(v, rank, done, s, n)
  {
    hide DepsVisited, Standing.Ranked;
    DepsGrow(v, rank, done, s, n);
  }

  lemma DependencyBelow(v: Standing, rank: Subject -> nat, s: Subject, j: nat)
    requires v.Ranked(rank) && v.InDomain(s) && s !in v.down && j < |v.Deps(s)|
    ensures rank(v.Deps(s)[j]) < rank(s) && v.InDomain(v.Deps(s)[j])
  {
    assert v.DependsOn(s, v.Deps(s)[j]);
    DomainSteps(v, s, v.Deps(s)[j]);
  }

  lemma {:induction false} VisitedInOrder(v: Standing, rank: Subject -> nat, done: seq<Subject>, s: Subject,
    dependency: bool)
    requires v.Ranked(rank) && InOrder(v, done) && if dependency then v.InDomain(s) else s in v.graph
    ensures InOrder(v, Visited(v, rank, done, s, dependency))
    decreases rank(s), 1, 0
  {
    hide InOrder, Standing.InDomain;
    if s !in done && (s in v.up || s in v.down || dependency) {
      if !dependency {
        VotedInDomain(v, s);
      }
      if s in v.down {
        Append(v, done, s);
      } else {
        var order := DepsVisited(v, rank, done, s, |v.Deps(s)|);
        DepsInOrder(v, rank, done, s, |v.Deps(s)|);
        DepsExclude(v, rank, done, s, |v.Deps(s)|);
        forall d | v.DependsOn(s, d)
          ensures d in order
        {
          DepsHave(v, rank, done, s, |v.Deps(s)|, d);
        }
        Append(v, order, s);
      }
    }
  }

  lemma {:induction false} DepsInOrder(v: Standing, rank: Subject -> nat, done: seq<Subject>, s: Subject, n: nat)
    requires v.Ranked(rank) && InOrder(v, done) && v.InDomain(s) && s !in v.down && n <= |v.Deps(s)|
    ensures InOrder(v, DepsVisited(v, rank, done, s, n))
    decreases rank(s), 0, n
  {
    hide InOrder, Standing.InDomain, Standing.Ranked, Visited;
    if n > 0 {
      DependencyBelow(v, rank, s, n - 1);
      DepsInOrder(v, rank, done, s, n - 1);
      VisitedInOrder(v, rank, DepsVisited(v, rank, done, s, n - 1), v.Deps(s)[n - 1], true);
    }
  }

  lemma {:induction false} KeysInOrder(v: Standing, rank: Subject -> nat, keys: seq<Subject>)
    requires v.Ranked(rank) && forall k :: k in keys ==> k in v.graph
    ensures InOrder(v, KeysVisited(v, rank, keys))
    ensures forall k :: k in keys && (k in v.up || k in v.down) ==> k in KeysVisited(v, rank, keys)
    ensures keys != [] && keys[0] in v.down ==> [keys[0]] <= KeysVisited(v, rank, keys)
  {
    if keys != [] {
      var n := |keys| - 1;
      KeysInOrder(v, rank, keys[..n]);
      var before := KeysVisited(v, rank, keys[..n]);
      VisitedInOrder(v, rank, before, keys[n], false);
      VisitedGrows(v, rank, before, keys[n], false);
      if keys[n] in v.up || keys[n] in v.down {
        VisitedHas(v, rank, before, keys[n], false);
      }
      assert keys == keys[..n] + [keys[n]];
    }
  }

  // ---- What is output ---------------------------------------------------------------------

  lemma DependencyCovered(v: Standing, order: seq<Subject>, s: Subject, d: Subject)
    requires InOrder(v, order) && s in order && s !in v.down && v.DependsOn(s, d)
    ensures d in order
  {
    var i :| 0 <= i < |order| && order[i] == s;
    assert d in order[..i];
  }

  lemma AdmitsFront(v: Standing, path: seq<Subject>)
    requires v.Admits(path) && |path| > 1
    ensures v.Admits(path[..|path| - 1])
    ensures path[|path| - 2] !in v.down && v.DependsOn(path[|path| - 2], path[|path| - 1])
  {
  }

  /** Once every voted subject of the graph is output, the whole domain is. */
  lemma {:induction false} DomainCovered(v: Standing, order: seq<Subject>, path: seq<Subject>)
    requires InOrder(v, order) && v.Admits(path)
    requires forall s :: s in v.graph && (s in v.up || s in v.down) ==> s in order
    ensures path[|path| - 1] in order
    decreases |path|
  {
    if |path| > 1 {
      var n := |path| - 1;
      AdmitsFront(v, path);
      hide InOrder, Standing.Admits, Standing.DependsOn;
      DomainCovered(v, order, path[..n]);
      assert path[..n][n - 1] == path[n - 1];
      DependencyCovered(v, order, path[n - 1], path[n]);
    }
  }

  /** The keys of the graph in some order, each once. */
  ghost predicate Lists(v: Standing, keys: seq<Subject>) {
    Distinct(keys) && Elems(keys) == v.graph.Keys
  }

  /** Whatever the order of the keys, exactly the domain is output. */
  lemma KeysCover(v: Standing, rank: Subject -> nat, keys: seq<Subject>)
    requires v.Ranked(rank) && Lists(v, keys)
    ensures InOrder(v, KeysVisited(v, rank, keys))
    ensures forall s :: s in KeysVisited(v, rank, keys) <==> v.InDomain(s)
  {
    var order := KeysVisited(v, rank, keys);
    assert forall k :: k in v.graph <==> k in Elems(keys);
    KeysInOrder(v, rank, keys);
    forall s | v.InDomain(s)
      ensures s in order
    {
      var path :| v.Admits(path) && path[|path| - 1] == s;
      DomainCovered(v, order, path);
    }
  }

  // ---- When the output is in topological order --------------------------------------------

  /** Every subject comes after those it depends on, as far as they are in the output. */
  ghost predicate TopologicalOrder(v: Standing, order: seq<Subject>) {
    forall i, d :: 0 <= i < |order| && v.DependsOn(order[i], d) && d in order ==> d in order[..i]
  }

  /** Nothing that a downvoted subject of the graph depends on is in the domain. */
  ghost predicate DownvotesApart(v: Standing) {
    forall s, d :: s in v.down && v.DependsOn(s, d) ==> !v.InDomain(d)
  }

  lemma ApartIsOrdered(v: Standing, order: seq<Subject>)
    requires InOrder(v, order) && DownvotesApart(v)
    ensures TopologicalOrder(v, order)
  {
  }

  lemma {:induction false} ListOf(s: set<Subject>) returns (list: seq<Subject>)
    ensures Distinct(list) && Elems(list) == s
  {
    if s == {} {
      list := [];
    } else {
      var x := Member(s);
      list := ListOf(s - {x});
      assert Elems([x] + list) == {x} + Elems(list);
      assert x !in Elems(list);
      list := [x] + list;
    }
  }

  /** A key order that puts the downvoted subject first outputs it before what it depends on. */
  lemma DownvoteFirst(v: Standing, rank: Subject -> nat, s: Subject, d: Subject) returns (keys: seq<Subject>)
    requires v.Ranked(rank) && s in v.down && v.DependsOn(s, d) && v.InDomain(d)
    ensures Lists(v, keys) && !TopologicalOrder(v, KeysVisited(v, rank, keys))
  {
    var rest := ListOf(v.graph.Keys - {s});
    keys := [s] + rest;
    assert forall i :: 0 < i < |keys| ==> keys[i] in Elems(rest);
    assert Elems(keys) == {s} + Elems(rest);
    KeysCover(v, rank, keys);
    assert forall k :: k in keys ==> k in Elems(keys);
    KeysInOrder(v, rank, keys);
    var order := KeysVisited(v, rank, keys);
    assert order[0] == s && d in order && d !in order[..0];
  }

  /** The output comes in topological order for every order of the keys exactly when nothing a downvoted subject depends
      on is in the domain. */
  lemma OrderedExactly(v: Standing, rank: Subject -> nat)
    requires v.Ranked(rank)
    ensures (forall keys :: Lists(v, keys) ==> TopologicalOrder(v, KeysVisited(v, rank, keys))) <==> DownvotesApart(v)
  {
    if DownvotesApart(v) {
      forall keys | Lists(v, keys)
        ensures TopologicalOrder(v, KeysVisited(v, rank, keys))
      {
        KeysCover(v, rank, keys);
        ApartIsOrdered(v, KeysVisited(v, rank, keys));
      }
    } else {
      var s, d :| s in v.down && v.DependsOn(s, d) && v.InDomain(d);
      var keys := DownvoteFirst(v, rank, s, d);
    }
  }

  /** The answers are right, and are for the subjects listed. */
  ghost predicate Right(v: Standing, results: map<Subject, bool>, order: seq<Subject>) {
    Elems(order) == results.Keys && forall s :: s in results ==> results[s] == v.Upheld(s)
  }

  /** The output dictionary of one evaluation, with its insertion order. */
  class Output {
    var results: map<Subject, bool>
    var order: seq<Subject>

    constructor ()
      ensures results == map[] && order == []
    {
      results, order := map[], [];
    }

    method Put(s: Subject, value: bool)
      modifies this
      ensures results == old(results)[s := value]
      ensures order == if s in old(results) then old(order) else old(order) + [s]
    {
      if s !in results {
        order := order + [s];
      }
      results := results[s := value];
    }
  }

  class StateElection {
    const graph: Graph
    var votes: Votes
    var tallies: map<Subject, Tally>

    ghost predicate Valid()
      reads this
    {
      TalliesRight(votes, tallies)
    }

    constructor (g: Graph)
      ensures Valid() && graph == g && votes == map[]
    {
      graph, votes, tallies := g, map[], map[];
      new;
      assert forall s, b :: Voters(votes, s, b) == {};
    }

    ghost function Stand(): Standing
      reads this
    {
      Standing(graph, set s | s in tallies && tallies[s].up > 0, set s | s in tallies && tallies[s].down > 0)
    }

    /** Whoever has a vote up, or down, among the subjects is known from the tallies. */
    lemma StandsByVotes()
      requires Valid()
      ensures forall s :: s in Stand().up <==> exists source :: VoteOf(votes, source, s) == Some(true)
      ensures forall s :: s in Stand().down <==> exists source :: VoteOf(votes, source, s) == Some(false)
    {
      forall s
        ensures s in Stand().up <==> exists source :: VoteOf(votes, source, s) == Some(true)
        ensures s in Stand().down <==> exists source :: VoteOf(votes, source, s) == Some(false)
      {
        VotersExist(votes, s, true);
        VotersExist(votes, s, false);
        assert TallyOf(tallies, s).up == |Voters(votes, s, true)|;
      }
    }

    /** Sets or clears one source's vote; the tallies stay exact. */
    method Vote(source: Source, subject: Subject, vote: Option<bool>)
      requires Valid()
      modifies this
      ensures Valid()
      ensures forall s, t ::
        VoteOf(votes, s, t) == if s == source && t == subject then vote else VoteOf(old(votes), s, t)
    {
      var mine := if source in votes then votes[source] else map[];
      var previous := VoteOf(votes, source, subject);
      if vote == previous {
        return;
      }
      var tally := TallyOf(tallies, subject);
      if previous == Some(true) {
        tally := tally.(up := tally.up - 1);
      } else if previous == Some(false) {
        tally := tally.(down := tally.down - 1);
      }
      votes := votes[source := mine[subject := vote]];
      if vote == Some(true) {
        tally := tally.(up := tally.up + 1);
      } else if vote == Some(false) {
        tally := tally.(down := tally.down + 1);
      }
      tallies := tallies[subject := tally];
      TalliesFollow(old(votes), votes, old(tallies), tallies, source, subject, vote);
    }

    /** Evaluates one subject and what it depends on into the shared output. */
    method EvaluateSubject(subject: Subject, output: Output, dependency: bool, ghost rank: Subject -> nat)
        returns (r: Option<bool>)
      requires Valid() && Stand().Ranked(rank) && Right(Stand(), output.results, output.order)
      modifies output
      ensures Right(Stand(), output.results, output.order)
      ensures output.order == Visited(Stand(), rank, old(output.order), subject, dependency)
      ensures old(output.order) <= output.order
      ensures if r.Some? then subject in output.results else output.order == old(output.order)
      ensures r.Some? ==> r.value == Stand().Upheld(subject)
      ensures dependency || subject in Stand().up || subject in Stand().down ==> r.Some?
      decreases rank(subject), 1
    {
      hide Standing.Upheld, Standing.Ranked;
      ghost var v := Stand();
      assert subject in output.results <==> subject in Elems(output.order);
      if subject in output.results {
        return Some(output.results[subject]);
      }
      var tally := TallyOf(tallies, subject);
      assert tally.up >= 0 && tally.down >= 0;
      assert (subject in v.up <==> tally.up > 0) && (subject in v.down <==> tally.down > 0);
      UpheldSteps(v, subject);
      if tally.down > 0 {
        output.Put(subject, false);
        RightMore(v, old(output.results), old(output.order), subject);
        return Some(false);
      }
      if tally.up + (if dependency then 1 else 0) > 0 {
        var depsGood := EvaluateDeps(subject, output, rank);
        DepsGrow(v, rank, old(output.order), subject, |v.Deps(subject)|);
        assert subject in output.results <==> subject in Elems(output.order);
        RightMore(v, output.results, output.order, subject);
        output.Put(subject, depsGood);
        return Some(depsGood);
      }
      return None;
    }

    method EvaluateDeps(subject: Subject, output: Output, ghost rank: Subject -> nat) returns (depsGood: bool)
      requires Valid() && Stand().Ranked(rank) && Right(Stand(), output.results, output.order)
      modifies output
      ensures Right(Stand(), output.results, output.order) && old(output.order) <= output.order
      ensures output.order == DepsVisited(Stand(), rank, old(output.order), subject, |Stand().Deps(subject)|)
      ensures depsGood <==> forall d :: Stand().DependsOn(subject, d) ==> Stand().Upheld(d)
      decreases rank(subject), 0
    {
      hide Right, TalliesRight, Standing.Upheld;
      ghost var v := Stand();
      depsGood := true;
      if subject in graph {
        for i := 0 to |graph[subject]|
          invariant Right(v, output.results, output.order) && old(output.order) <= output.order
          invariant output.order == DepsVisited(v, rank, old(output.order), subject, i)
          invariant depsGood <==> forall j :: 0 <= j < i ==> v.Upheld(graph[subject][j])
        {
          var other := graph[subject][i];
          assert v.DependsOn(subject, other);
          var good := EvaluateSubject(other, output, true, rank);
          depsGood := depsGood && good.value;
        }
        assert forall d :: v.DependsOn(subject, d) ==> exists j :: 0 <= j < |graph[subject]| && graph[subject][j] == d;
      }
    }

    /** The election's result: on an acyclic graph, in whatever order the keys come, it maps exactly the subjects of
        the domain, each to whether it is upheld, with the dependencies of each subject not voted down before it. */
    method Evaluate(keys: seq<Subject>, ghost rank: Subject -> nat)
        returns (results: map<Subject, bool>, order: seq<Subject>)
      requires Valid() && Stand().Ranked(rank) && Lists(Stand(), keys)
      ensures forall s :: s in results <==> Stand().InDomain(s)
      ensures forall s :: s in results ==> results[s] == Stand().Upheld(s)
      ensures InOrder(Stand(), order) && Elems(order) == results.Keys
      ensures order == KeysVisited(Stand(), rank, keys)
    {
      hide TalliesRight, Standing.Upheld, Standing.InDomain, InOrder;
      var output := new Output();
      ghost var v := Stand();
      for i := 0 to |keys|
        invariant fresh(output) && Stand() == v && Right(v, output.results, output.order)
        invariant output.order == KeysVisited(v, rank, keys[..i])
      {
        assert keys[..i + 1][..i] == keys[..i];
        var r := EvaluateSubject(keys[i], output, false, rank);
      }
      results, order := output.results, output.order;
      assert keys[..|keys|] == keys;
      KeysCover(v, rank, keys);
      assert forall s :: s in results <==> s in Elems(order);
    }
  }

  lemma RightMore(v: Standing, results: map<Subject, bool>, order: seq<Subject>, s: Subject)
    requires Right(v, results, order) && s !in results
    ensures s !in order && Right(v, results[s := v.Upheld(s)], order + [s])
  {
    assert Elems(order + [s]) == Elems(order) + {s};
    assert s in order ==> s in Elems(order);
  }

  /** Of two subjects the first depends on the second, and only the first is voted down. */
  function TwoSubjects(a: Subject, b: Subject): Standing {
    Standing(map[a := [b], b := []], {b}, {a})
  }

  function SecondFirst(a: Subject): Subject -> nat {
    s => if s == a then 1 else 0
  }

  lemma FirstKeyFirst(a: Subject, b: Subject)
    requires a != b
    ensures var v, rank := TwoSubjects(a, b), SecondFirst(a);
      && v.Ranked(rank) && Lists(v, [a, b])
      && KeysVisited(v, rank, [a, b]) == [a, b] && !TopologicalOrder(v, [a, b])
  {
    var v, rank := TwoSubjects(a, b), SecondFirst(a);
    assert [a, b][..1] == [a] && [a][..0] == [];
    assert KeysVisited(v, rank, [a]) == [a];
    assert v.Deps(b) == [] && DepsVisited(v, rank, [a], b, 0) == [a];
    assert Visited(v, rank, [a], b, false) == [a] + [b];
    assert v.DependsOn([a, b][0], b) && b in [a, b] && b !in [a, b][..0];
  }

  /** An election whose output is not in topological order: one vote down, then one vote up for what it depends on. */
  method DependencyLast(a: Subject, b: Subject) returns (order: seq<Subject>)
    requires a != b
    ensures order == [a, b] && !TopologicalOrder(TwoSubjects(a, b), order)
  {
    var election := new StateElection(map[a := [b], b := []]);
    election.Vote(None, a, Some(false));
    election.Vote(None, b, Some(true));
    election.StandsByVotes();
    assert VoteOf(election.votes, None, a) == Some(false) && VoteOf(election.votes, None, b) == Some(true);
    assert election.Stand().down == {a} && election.Stand().up == {b};
    assert election.Stand() == TwoSubjects(a, b);
    FirstKeyFirst(a, b);
    var results;
    results, order := election.Evaluate([a, b], SecondFirst(a));
  }

  /** The result does not depend on the order of the keys. */
  lemma OrderIndependent(v: Standing, rank: Subject -> nat, keys: seq<Subject>, keys': seq<Subject>,
      a: map<Subject, bool>, b: map<Subject, bool>)
    requires v.Ranked(rank) && Lists(v, keys) && Lists(v, keys')
    requires Right(v, a, KeysVisited(v, rank, keys)) && Right(v, b, KeysVisited(v, rank, keys'))
    ensures a == b
  {
    KeysCover(v, rank, keys);
    KeysCover(v, rank, keys');
    assert forall s :: s in a <==> s in Elems(KeysVisited(v, rank, keys));
    assert forall s :: s in b <==> s in Elems(KeysVisited(v, rank, keys'));
  }
}
