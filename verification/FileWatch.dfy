/** The shared watch manager, whose physical teardown is deferred to a reaper. */
module FileWatch {
  import opened Prelude

  type Dir = string

  /** A physical watch; two are equal when path and recursion are. */
  datatype Observed = Observed(dir: Dir, recursive: bool)

  datatype DirWatch = DirWatch(recursive: bool, subscribers: set<nat>)

  /** `reaping` is the teardown the reaper has taken from the queue but not yet carried out. */
  datatype World = World(
    watches: map<Dir, DirWatch>,
    scheduled: set<Observed>,
    queue: seq<Observed>,
    reaping: Option<Observed>)
  {
    predicate Live(o: Observed) {
      o.dir in watches && watches[o.dir].recursive == o.recursive
    }
  }

  datatype Event =
    | Subscribe(dir: Dir, who: nat, recursive: bool)
    | Unsubscribe(dir: Dir, who: nat)
    | TakeNext
    | Unschedule

  /** A recursive subscriber cannot share a watch that is not. */
  predicate Rejects(w: World, dir: Dir, recursive: bool) {
    dir in w.watches && recursive && !w.watches[dir].recursive
  }

  function Subscribed(w: World, dir: Dir, who: nat, recursive: bool): World {
    if Rejects(w, dir, recursive) then w
    else
      var watch := if dir in w.watches then w.watches[dir] else DirWatch(recursive, {});
      w.(watches := w.watches[dir := watch.(subscribers := watch.subscribers + {who})],
         scheduled := if dir in w.watches then w.scheduled else w.scheduled + {Observed(dir, recursive)})
  }

  function Unsubscribed(w: World, dir: Dir, who: nat): World {
    if dir !in w.watches then w
    else
      var watch := w.watches[dir];
      var left := watch.subscribers - {who};
      if left != {} then w.(watches := w.watches[dir := watch.(subscribers := left)])
      else w.(watches := w.watches - {dir}, queue := w.queue + [Observed(dir, watch.recursive)])
  }

  function Reaped(w: World): World
    requires w.reaping.Some?
  {
    var o := w.reaping.value;
    // A watch re-added with the same recursion reuses the emitter, so it must not be torn down.
    w.(reaping := None, scheduled := if w.Live(o) then w.scheduled else w.scheduled - {o})
  }

  predicate Can(w: World, e: Event) {
    match e
    case TakeNext => w.reaping.None? && w.queue != []
    case Unschedule => w.reaping.Some?
    case _ => true
  }

  function Move(w: World, e: Event): World
    requires Can(w, e)
  {
    match e
    case Subscribe(dir, who, recursive) => Subscribed(w, dir, who, recursive)
    case Unsubscribe(dir, who) => Unsubscribed(w, dir, who)
    case TakeNext => w.(queue := w.queue[1..], reaping := Some(w.queue[0]))
    case Unschedule => Reaped(w)
  }

  ghost predicate Legal(run: seq<Event>)
    decreases |run|, 0
  {
    run == [] || (Legal(run[..|run| - 1]) && Can(Replay(run[..|run| - 1]), run[|run| - 1]))
  }

  ghost function Replay(run: seq<Event>): World
    requires Legal(run)
    decreases |run|, 1
  {
    if run == [] then World(map[], {}, [], None) else Move(Replay(run[..|run| - 1]), run[|run| - 1])
  }

  // ---- Subscriptions, from the events alone -----------------------------------------------

  /** Who has subscribed to the directory and not withdrawn. */
  ghost function Members(run: seq<Event>, dir: Dir): set<nat>
    decreases |run|
  {
    if run == [] then {}
    else
      var front, e := run[..|run| - 1], run[|run| - 1];
      var members := Members(front, dir);
      match e
      case Subscribe(d, who, recursive) =>
        // A recursive subscriber is refused where the others share a watch that is not.
        if d != dir || (members != {} && recursive && !Recursion(front, dir)) then members else members + {who}
      case Unsubscribe(d, who) => if d == dir then members - {who} else members
      case _ => members
  }

  /** Whether the one that found the directory without subscribers asked for recursion. */
  ghost function Recursion(run: seq<Event>, dir: Dir): bool
    decreases |run|
  {
    run != [] &&
    var front, e := run[..|run| - 1], run[|run| - 1];
    if e.Subscribe? && e.dir == dir && Members(front, dir) == {} then e.recursive else Recursion(front, dir)
  }

  /** The watches are those of the directories with subscribers. */
  ghost predicate Agrees(run: seq<Event>, w: World) {
    forall dir ::
      && (dir in w.watches <==> Members(run, dir) != {})
      && (dir in w.watches ==> w.watches[dir] == DirWatch(Recursion(run, dir), Members(run, dir)))
  }

  lemma MoveAgrees(run: seq<Event>, w: World, e: Event)
    requires Agrees(run, w) && Can(w, e)
    ensures Agrees(run + [e], Move(w, e))
  {
    var run' := run + [e];
    assert run'[..|run|] == run && run'[|run|] == e;
    forall dir
      ensures Members(run', dir) == match e
        case Subscribe(d, who, recursive) =>
          if d != dir || (Members(run, dir) != {} && recursive && !Recursion(run, dir)) then Members(run, dir)
          else Members(run, dir) + {who}
        case Unsubscribe(d, who) => if d == dir then Members(run, dir) - {who} else Members(run, dir)
        case _ => Members(run, dir)
      ensures Recursion(run', dir) ==
        if e.Subscribe? && e.dir == dir && Members(run, dir) == {} then e.recursive else Recursion(run, dir)
    {
    }
    hide Members, Recursion;
    if e.Subscribe? {
      assert e.who in Members(run, e.dir) + {e.who};
    }
  }

  // ---- What is scheduled ------------------------------------------------------------------

  ghost predicate Awaiting(w: World, o: Observed) {
    o in w.queue || w.reaping == Some(o)
  }

  /** A watch has subscribers, and is scheduled. */
  ghost predicate Served(w: World) {
    forall dir :: dir in w.watches ==>
      w.watches[dir].subscribers != {} && Observed(dir, w.watches[dir].recursive) in w.scheduled
  }

  /** Whatever is scheduled is in use or awaits the reaper. */
  ghost predicate Tracked(w: World) {
    forall o :: o in w.scheduled ==> w.Live(o) || Awaiting(w, o)
  }

  ghost predicate Inv(w: World) {
    Served(w) && Tracked(w)
  }

  lemma SubscribeInv(w: World, dir: Dir, who: nat, recursive: bool)
    requires Inv(w)
    ensures Inv(Subscribed(w, dir, who, recursive))
  {
    var v := Subscribed(w, dir, who, recursive);
    if !Rejects(w, dir, recursive) {
      assert who in v.watches[dir].subscribers;
      forall o | o in v.scheduled
        ensures v.Live(o) || Awaiting(v, o)
      {
        assert o in w.scheduled ==> w.Live(o) || Awaiting(w, o);
      }
    }
  }

  lemma UnsubscribeInv(w: World, dir: Dir, who: nat)
    requires Inv(w)
    ensures Inv(Unsubscribed(w, dir, who))
  {
    var v := Unsubscribed(w, dir, who);
    if dir in w.watches {
      forall o | o in v.scheduled
        ensures v.Live(o) || Awaiting(v, o)
      {
        assert w.Live(o) || Awaiting(w, o);
        assert w.Live(o) && !v.Live(o) ==> v.queue[|w.queue|] == o;
      }
    }
  }

  lemma TakeInv(w: World)
    requires Inv(w) && Can(w, TakeNext)
    ensures Inv(Move(w, TakeNext))
  {
    var v := Move(w, TakeNext);
    forall o | o in v.scheduled
      ensures v.Live(o) || Awaiting(v, o)
    {
      assert w.Live(o) || Awaiting(w, o);
      assert o in w.queue ==> o == w.queue[0] || o in w.queue[1..];
    }
  }

  lemma ReapInv(w: World)
    requires Inv(w) && w.reaping.Some?
    ensures Inv(Reaped(w))
  {
    var v := Reaped(w);
    forall dir | dir in v.watches
      ensures v.watches[dir].subscribers != {} && Observed(dir, v.watches[dir].recursive) in v.scheduled
    {
      assert w.Live(Observed(dir, v.watches[dir].recursive));
    }
    forall o | o in v.scheduled
      ensures v.Live(o) || Awaiting(v, o)
    {
      assert w.Live(o) || Awaiting(w, o);
    }
  }

  lemma MoveInv(w: World, e: Event)
    requires Inv(w) && Can(w, e)
    ensures Inv(Move(w, e))
  {
    match e
    case Subscribe(dir, who, recursive) => SubscribeInv(w, dir, who, recursive);
    case Unsubscribe(dir, who) => UnsubscribeInv(w, dir, who);
    case TakeNext => TakeInv(w);
    case Unschedule => ReapInv(w);
  }

  /** Under every interleaving the watches are those of the directories with subscribers, each of them is scheduled, and
      whatever is scheduled is in use or awaits the reaper. */
  lemma {:induction false} RunInv(run: seq<Event>)
    requires Legal(run)
    ensures Agrees(run, Replay(run)) && Inv(Replay(run))
  {
    if run != [] {
      var front, e := run[..|run| - 1], run[|run| - 1];
      RunInv(front);
      MoveInv(Replay(front), e);
      MoveAgrees(front, Replay(front), e);
      assert front + [e] == run;
    }
  }

  /** Under every interleaving a directory someone has subscribed to stays watched, as recursively as was first asked.
      */
  lemma SubscribedIsScheduled(run: seq<Event>, dir: Dir, who: nat)
    requires Legal(run) && who in Members(run, dir)
    ensures dir in Replay(run).watches && who in Replay(run).watches[dir].subscribers
    ensures Observed(dir, Recursion(run, dir)) in Replay(run).scheduled
  {
    RunInv(run);
  }

  /** Once the reaper has caught up, exactly the watches of directories with subscribers are scheduled. */
  lemma DrainedIsExact(run: seq<Event>, o: Observed)
    requires Legal(run) && Replay(run).queue == [] && Replay(run).reaping.None?
    ensures o in Replay(run).scheduled <==> Members(run, o.dir) != {} && o.recursive == Recursion(run, o.dir)
  {
    RunInv(run);
    var w := Replay(run);
    assert Members(run, o.dir) != {} ==> w.watches[o.dir].recursive == Recursion(run, o.dir);
    if w.Live(o) {
      assert o == Observed(o.dir, w.watches[o.dir].recursive);
    }
  }

  class WatchManager {
    var watches: map<Dir, DirWatch>
    var scheduled: set<Observed>
    var queue: seq<Observed>
    var reaping: Option<Observed>

    ghost function Now(): World
      reads this
    {
      World(watches, scheduled, queue, reaping)
    }

    constructor ()
      ensures Now() == World(map[], {}, [], None)
    {
      watches, scheduled, queue, reaping := map[], {}, [], None;
    }

    method AddSubscriber(dir: Dir, who: nat, recursive: bool) returns (accepted: bool)
      modifies this
      ensures Now() == Subscribed(old(Now()), dir, who, recursive)
      ensures accepted <==> !(dir in old(watches) && recursive && !old(watches)[dir].recursive)
      ensures !accepted ==> Now() == old(Now())
      // The subscriber shares the watch of the directory, or finds a new one scheduled as asked.
      ensures accepted ==> queue == old(queue) && reaping == old(reaping)
      ensures accepted && dir in old(watches) ==> scheduled == old(scheduled)
      ensures accepted && dir in old(watches) ==>
        watches == old(watches)[dir := DirWatch(old(watches)[dir].recursive, old(watches)[dir].subscribers + {who})]
      ensures accepted && dir !in old(watches) ==> scheduled == old(scheduled) + {Observed(dir, recursive)}
      ensures accepted && dir !in old(watches) ==>
        watches == old(watches)[dir := DirWatch(recursive, {who})]
    {
      if dir !in watches {
        scheduled := scheduled + {Observed(dir, recursive)};
        watches := watches[dir := DirWatch(recursive, {})];
      } else if recursive && !watches[dir].recursive {
        return false;
      }
      assert {} + {who} == {who};
      watches := watches[dir := watches[dir].(subscribers := watches[dir].subscribers + {who})];
      return true;
    }

    method RemoveSubscriber(dir: Dir, who: nat)
      modifies this
      ensures Now() == Unsubscribed(old(Now()), dir, who)
      // The last subscriber queues the teardown; the others keep the watch. Nothing is unscheduled here.
      ensures scheduled == old(scheduled) && (dir !in old(watches) ==> Now() == old(Now()))
      ensures dir in old(watches) && old(watches)[dir].subscribers <= {who} ==>
        dir !in watches && queue == old(queue) + [Observed(dir, old(watches)[dir].recursive)]
      ensures dir in old(watches) && !(old(watches)[dir].subscribers <= {who}) ==>
        dir in watches && watches[dir].subscribers == old(watches)[dir].subscribers - {who} && queue == old(queue)
    {
      if dir !in watches {
        return;
      }
      var watch := watches[dir];
      watch := watch.(subscribers := watch.subscribers - {who});
      if watch.subscribers != {} {
        watches := watches[dir := watch];
        return;
      }
      watches := watches - {dir};
      queue := queue + [Observed(dir, watch.recursive)];
    }

    method TakeTeardown()
      requires queue != [] && reaping.None?
      modifies this
      ensures Now() == Move(old(Now()), TakeNext)
      ensures old(queue) == [reaping.value] + queue && scheduled == old(scheduled) && watches == old(watches)
    {
      reaping := Some(queue[0]);
      queue := queue[1..];
    }

    method TearDown()
      requires reaping.Some?
      modifies this
      ensures Now() == Reaped(old(Now()))
      ensures forall o :: o in scheduled <==> o in old(scheduled) && (o == old(reaping.value) ==> old(Now()).Live(o))
    {
      var o := reaping.value;
      reaping := None;
      if o.dir in watches && watches[o.dir].recursive == o.recursive {
        return;
      }
      scheduled := scheduled - {o};
    }
  }
}
