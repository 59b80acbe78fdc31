/** Operating constraints: one evaluator run after another, and the hold that must outlive each of them. */
module Constraint {
  import opened Prelude

  datatype Config = Config(hold: int, optional: bool)

  datatype State = NotReady | Clear | Holding | Active

  /** One evaluator: what the check wants, what is shown, and the deadline of its hold, if one runs. */
  datatype Evaluator = Evaluator(
    intended: State, actual: State, ready: bool, holdingUntil: Option<int>, holdTask: bool)
  {
    function Updated(): Evaluator {
      this.(actual := if !ready then NotReady else if holdingUntil.Some? then Holding else intended)
    }

    function HoldBegun(now: int, wait: int): Evaluator {
      this.(holdingUntil := Some(now + wait), holdTask := true)
    }

    function HoldCancelled(): Evaluator {
      this.(holdingUntil := None, holdTask := false)
    }

    function Constrained(): Evaluator {
      HoldCancelled().(intended := Active).Updated()
    }

    /** Whether clearing would start a hold, which raises if one is already in effect. */
    predicate StartsHold(c: Config) {
      c.hold > 0 && intended == Active
    }

    function Cleared(c: Config, now: int): Evaluator {
      (if StartsHold(c) then HoldBegun(now, c.hold) else this).(intended := Clear).Updated()
    }

    function MadeReady(): Evaluator {
      if ready then this else this.(ready := true).Updated()
    }

    function HoldElapsed(): Evaluator {
      this.(holdTask := false, holdingUntil := None).Updated()
    }

    /** The hold a replacement must start with. */
    function HoldRemaining(c: Config, now: int): int {
      if holdingUntil.Some? then if holdingUntil.value > now then holdingUntil.value - now else 0
      else if intended == Active then c.hold
      else 0
    }
  }

  function Fresh(c: Config, now: int, initialHold: int): Evaluator {
    var state := if c.optional then Clear else NotReady;
    var e := Evaluator(state, state, c.optional, None, false);
    if initialHold > 0 then e.HoldBegun(now, initialHold) else e
  }

  /** The moments that decide how early a constraint may be shown clear. */
  datatype Mark = Constrain | Release(at: int)

  datatype World = World(now: int, evaluator: Evaluator, log: seq<Mark>)

  datatype Event =
    | Tick(delta: nat)
    | CallConstrain
    | CallClear
    | CallReady
    | HoldEnds                 // the hold task wakes
    | CleanUp                  // the evaluator's hold task is stopped
    | Restart(gap: nat)        // the evaluator ends, and a replacement starts `gap` later

  ghost predicate Can(w: World, e: Event) {
    e.HoldEnds? ==> w.evaluator.holdTask && w.evaluator.holdingUntil.Some? && w.now >= w.evaluator.holdingUntil.value
  }

  /** The one call that can raise: clearing when a hold is to start but one is already in effect. */
  ghost predicate Raises(w: World, c: Config, e: Event) {
    e.CallClear? && w.evaluator.StartsHold(c) && w.evaluator.holdingUntil.Some?
  }

  ghost function Move(w: World, c: Config, e: Event): World
    requires Can(w, e)
  {
    match e
    case Tick(delta) => w.(now := w.now + delta)
    case CallConstrain => w.(evaluator := w.evaluator.Constrained(), log := w.log + [Constrain])
    case CallClear => w.(evaluator := w.evaluator.Cleared(c, w.now), log := w.log + [Release(w.now)])
    case CallReady => w.(evaluator := w.evaluator.MadeReady())
    case HoldEnds => w.(evaluator := w.evaluator.HoldElapsed())
    case CleanUp => w.(evaluator := w.evaluator.(holdTask := false))
    case Restart(gap) =>
      World(w.now + gap, Fresh(c, w.now + gap, w.evaluator.HoldRemaining(c, w.now)), w.log + [Release(w.now)])
  }

  ghost predicate Legal(c: Config, now: int, run: seq<Event>)
    decreases |run|, 0
  {
    run == [] || (Legal(c, now, run[..|run| - 1]) && Can(Replay(c, now, run[..|run| - 1]), run[|run| - 1]))
  }

  ghost function Replay(c: Config, now: int, run: seq<Event>): World
    requires Legal(c, now, run)
    decreases |run|, 1
  {
    if run == [] then World(now, Fresh(c, now, 0), []) else Move(Replay(c, now, run[..|run| - 1]), c, run[|run| - 1])
  }

  /** When the constraint may first be shown clear: at any time, not yet, or from a time on. */
  datatype Floor = Free | Never | From(at: int)

  /** Constrained, it may not be shown clear until the hold has passed since the first clear call or evaluator end
      after the last `constrain`. */
  ghost function FloorOf(c: Config, log: seq<Mark>): Floor {
    if log == [] then Free
    else match log[|log| - 1]
      case Constrain => Never
      case Release(at) =>
        var before := FloorOf(c, log[..|log| - 1]);
        if before.Never? then From(at + c.hold) else before
  }

  ghost predicate Allows(f: Floor, now: int) {
    f.Free? || (f.From? && f.at <= now)
  }

  ghost predicate Safe(w: World, c: Config) {
    w.evaluator.actual == Clear ==> Allows(FloorOf(c, w.log), w.now)
  }

  /** The condition under which a hold is honoured. */
  predicate Honours(c: Config) {
    !c.optional || c.hold <= 0
  }

  ghost predicate Inv(w: World, c: Config) {
    var e, f := w.evaluator, FloorOf(c, w.log);
    && (e.intended == NotReady || e.intended == Clear || e.intended == Active)
    && (e.intended == Active ==> e.holdingUntil.None?)
    && (c.hold <= 0 ==> e.holdingUntil.None?)
    && (c.optional ==> e.ready)
    // While the floor is closed the check wants the constraint active; afterwards the deadline stands in for it.
    && (f.Never? ==> e.intended == Active)
    && (f.From? ==> e.intended != Active)
    && (f.From? ==> f.at <= w.now || (e.holdingUntil.Some? && e.holdingUntil.value >= f.at))
    && (Honours(c) ==> e.actual == e.Updated().actual)
  }

  lemma FloorAppend(c: Config, log: seq<Mark>, m: Mark)
    ensures FloorOf(c, log + [m]) == match m
      case Constrain => Never
      case Release(at) => if FloorOf(c, log).Never? then From(at + c.hold) else FloorOf(c, log)
  {
    assert (log + [m])[..|log|] == log;
  }

  lemma MoveInv(w: World, c: Config, e: Event)
    requires Inv(w, c) && Can(w, e)
    ensures Inv(Move(w, c, e), c)
  {
    FloorAppend(c, w.log, Constrain);
    FloorAppend(c, w.log, Release(w.now));
    hide FloorOf;
    match e
    case Tick(_) =>
    case CallConstrain =>
    case CallClear =>
    case CallReady =>
    case HoldEnds =>
    case CleanUp =>
    case Restart(_) =>
  }

  lemma {:induction false} RunInv(c: Config, now: int, run: seq<Event>)
    requires Legal(c, now, run)
    ensures Inv(Replay(c, now, run), c)
  {
    if run != [] {
      RunInv(c, now, run[..|run| - 1]);
      MoveInv(Replay(c, now, run[..|run| - 1]), c, run[|run| - 1]);
    }
  }

  /** Across any chain of evaluators, crashes and restarts, a required constraint is never shown clear early. */
  lemma HoldRespected(c: Config, now: int, run: seq<Event>)
    requires Legal(c, now, run) && Honours(c)
    ensures Safe(Replay(c, now, run), c)
  {
    RunInv(c, now, run);
  }

  // ---- Clearing in time -------------------------------------------------------------------

  /** The latest call or restart is a call to clear, and the hold task has not been stopped since. */
  ghost predicate ClearedLast(run: seq<Event>) {
    run != [] && match run[|run| - 1]
      case CallClear => true
      case CallConstrain | Restart(_) | CleanUp => false
      case _ => ClearedLast(run[..|run| - 1])
  }

  /** The hold task has not been stopped since the latest restart. */
  ghost predicate Tended(run: seq<Event>) {
    run == [] || match run[|run| - 1]
      case Restart(_) => true
      case CleanUp => false
      case _ => Tended(run[..|run| - 1])
  }

  /** A hold in effect has a task that will end it. */
  lemma {:induction false} HoldHasTask(c: Config, now: int, run: seq<Event>)
    requires Legal(c, now, run) && Tended(run)
    ensures var e := Replay(c, now, run).evaluator; e.holdingUntil.Some? <==> e.holdTask
  {
    if run != [] && !run[|run| - 1].Restart? {
      HoldHasTask(c, now, run[..|run| - 1]);
    }
  }

  /** After a call to clear, a ready constraint shows clear exactly when no hold is in effect. */
  lemma {:induction false} ShowsClear(c: Config, now: int, run: seq<Event>)
    requires Legal(c, now, run) && ClearedLast(run)
    ensures var e := Replay(c, now, run).evaluator;
      && e.intended == Clear
      && e.actual == if !e.ready then NotReady else if e.holdingUntil.Some? then Holding else Clear
  {
    if !run[|run| - 1].CallClear? {
      ShowsClear(c, now, run[..|run| - 1]);
    }
  }

  /** A call to clear an active constraint begins a hold that ends exactly `hold` later; a restart resumes what was
      left, and begins in full a hold that had not begun. */
  lemma HoldLength(w: World, c: Config, gap: nat)
    ensures var until := Move(w, c, CallClear).evaluator.holdingUntil;
      w.evaluator.intended == Active && c.hold > 0 ==> until == Some(w.now + c.hold)
    ensures var e, v := w.evaluator, Move(w, c, Restart(gap));
      v.now == w.now + gap && v.evaluator.holdingUntil ==
        if e.holdingUntil.Some? && e.holdingUntil.value > w.now then Some(v.now + (e.holdingUntil.value - w.now))
        else if e.holdingUntil.None? && e.intended == Active && c.hold > 0 then Some(v.now + c.hold)
        else None
  {
  }

  /** Once cleared and ready, a constraint shows clear as soon as its hold has run out and its task has woken. */
  lemma ClearsInTime(c: Config, now: int, run: seq<Event>)
    requires Legal(c, now, run) && ClearedLast(run) && Tended(run)
    ensures var w := Replay(c, now, run);
      w.evaluator.ready && w.evaluator.holdingUntil.Some? ==>
        && (Can(w, HoldEnds) <==> w.now >= w.evaluator.holdingUntil.value)
        && (Can(w, HoldEnds) ==>
              var e := Move(w, c, HoldEnds).evaluator; e.actual == Clear && e.holdingUntil.None?)
  {
    HoldHasTask(c, now, run);
    ShowsClear(c, now, run);
  }

  /** The "already holding" error is unreachable from a clear call. */
  lemma NeverAlreadyHolding(c: Config, now: int, run: seq<Event>, e: Event)
    requires Legal(c, now, run)
    ensures !Raises(Replay(c, now, run), c, e)
  {
    RunInv(c, now, run);
  }

  /** A restarted optional constraint shows clear although it carries a hold over. */
  lemma OptionalShowsClear(c: Config, now: int) returns (run: seq<Event>)
    requires c.optional && c.hold > 0
    ensures Legal(c, now, run) && !Safe(Replay(c, now, run), c)
    ensures Replay(c, now, run).evaluator.holdingUntil == Some(now + c.hold)
  {
    Extend(c, now, [], CallConstrain);
    FloorAppend(c, [], Constrain);
    run := [] + [CallConstrain];
    assert Replay(c, now, run).log == [] + [Constrain];
    Extend(c, now, run, Restart(0));
    FloorAppend(c, [] + [Constrain], Release(now));
    run := run + [Restart(0)];
  }

  lemma Extend(c: Config, now: int, run: seq<Event>, e: Event)
    requires Legal(c, now, run) && Can(Replay(c, now, run), e)
    ensures Legal(c, now, run + [e]) && Replay(c, now, run + [e]) == Move(Replay(c, now, run), c, e)
  {
    assert (run + [e])[..|run|] == run;
  }

  /** Every run honours the hold exactly when the constraint is required or holds nothing. */
  lemma HonouredExactly(c: Config, now: int)
    ensures (forall run :: Legal(c, now, run) ==> Safe(Replay(c, now, run), c)) <==> Honours(c)
  {
    if Honours(c) {
      forall run | Legal(c, now, run)
        ensures Safe(Replay(c, now, run), c)
      {
        HoldRespected(c, now, run);
      }
    } else {
      var run := OptionalShowsClear(c, now);
    }
  }

  // ---- The evaluator and manager objects --------------------------------------------------

  class ConstraintEvaluator {
    const config: Config
    var intended: State
    var actual: State
    var isReady: bool
    var holdingUntil: Option<int>
    var holdTask: bool

    function Now(): Evaluator
      reads this
    {
      Evaluator(intended, actual, isReady, holdingUntil, holdTask)
    }

    constructor (c: Config, now: int, initialHold: int)
      ensures config == c && Now() == Fresh(c, now, initialHold)
      ensures isReady == c.optional && actual == intended == if c.optional then Clear else NotReady
      ensures holdingUntil == if initialHold > 0 then Some(now + initialHold) else None
      ensures holdTask == (initialHold > 0)
    {
      config := c;
      var state := if c.optional then Clear else NotReady;
      intended, actual, isReady := state, state, c.optional;
      holdingUntil, holdTask := None, false;
      if initialHold > 0 {
        holdingUntil, holdTask := Some(now + initialHold), true;
      }
    }

    method UpdateState()
      modifies this`actual
      ensures Now() == old(Now()).Updated()
      ensures actual == if !isReady then NotReady else if holdingUntil.Some? then Holding else intended
    {
      if !isReady {
        actual := NotReady;
      } else if holdingUntil.Some? {
        actual := Holding;
      } else {
        actual := intended;
      }
    }

    method MarkReady()
      modifies this
      ensures Now() == old(Now()).MadeReady()
      ensures isReady && intended == old(intended) && holdingUntil == old(holdingUntil)
      ensures actual == if old(isReady) then old(actual) else if holdingUntil.Some? then Holding else intended
    {
      if !isReady {
        isReady := true;
        UpdateState();
      }
    }

    method MarkConstrained()
      modifies this
      ensures Now() == old(Now()).Constrained()
      ensures intended == Active && holdingUntil.None? && !holdTask && actual == if isReady then Active else NotReady
    {
      holdTask := false;
      holdingUntil := None;
      intended := Active;
      UpdateState();
    }

    /** Refuses, changing nothing, while an earlier hold lasts. */
    method BeginHold(now: int, wait: int) returns (ok: bool)
      modifies this`holdingUntil, this`holdTask
      ensures ok <==> old(holdingUntil).None?
      ensures Now() == if ok then old(Now()).HoldBegun(now, wait) else old(Now())
    {
      if holdingUntil.Some? {
        return false;
      }
      holdingUntil := Some(now + wait);
      holdTask := true;
      return true;
    }

    /** False, with nothing changed, if a hold is to start but one is already in effect. */
    method MarkClear(now: int) returns (ok: bool)
      modifies this
      ensures ok <==> !(old(Now()).StartsHold(config) && old(holdingUntil).Some?)
      ensures Now() == if ok then old(Now()).Cleared(config, now) else old(Now())
      // A hold begins exactly when an active constraint with one is cleared, and lasts exactly that long.
      ensures ok ==> intended == Clear && isReady == old(isReady)
      ensures var starts := old(intended) == Active && config.hold > 0;
        ok ==> holdingUntil == if starts then Some(now + config.hold) else old(holdingUntil)
      ensures ok ==> actual == if !isReady then NotReady else if holdingUntil.Some? then Holding else Clear
    {
      if config.hold > 0 && intended == Active {
        ok := BeginHold(now, config.hold);
        if !ok {
          return false;
        }
      }
      intended := Clear;
      UpdateState();
      return true;
    }

    method EndHold()
      modifies this
      ensures Now() == old(Now()).HoldElapsed()
      ensures holdingUntil.None? && !holdTask && intended == old(intended)
      ensures actual == if isReady then intended else NotReady
    {
      holdTask := false;
      holdingUntil := None;
      UpdateState();
    }

    /** Stops the hold task; the deadline stays to be carried over. */
    method CleanUp()
      modifies this`holdTask
      ensures !holdTask
    {
      holdTask := false;
    }

    /** The hold with which a replacement must start: what is left of one in effect, and the whole of one not begun. */
    function Remaining(now: int): (r: int)
      reads this
      ensures r == Now().HoldRemaining(config, now)
      ensures holdingUntil.Some? && holdingUntil.value > now ==> now + r == holdingUntil.value
      ensures holdingUntil.Some? && holdingUntil.value <= now ==> r == 0
      ensures holdingUntil.None? ==> r == if intended == Active then config.hold else 0
    {
      if holdingUntil.Some? then if holdingUntil.value > now then holdingUntil.value - now else 0
      else if intended == Active then config.hold
      else 0
    }
  }

  /** Which constraints keep the controller constrained, and whether all are ready. */
  class ConstraintManager {
    var entries: seq<State>
    var constrained: set<int>
    var readySet: set<int>
    var allReady: bool
    ghost var reported: set<int>   // indices whose state has been set

    ghost predicate Valid()
      reads this
    {
      && reported <= Range(|entries|)
      && AllBut(entries, reported, Clear, constrained)
      && AllBut(entries, reported, NotReady, readySet)
      && (allReady <==> |readySet| == |entries|)
    }

    /** `listed` are the reported indices whose entry is not `state`. */
    static ghost predicate AllBut(entries: seq<State>, reported: set<int>, state: State, listed: set<int>) {
      reported <= Range(|entries|) && forall i :: i in listed <==> i in reported && entries[i] != state
    }

    static lemma ReportOne(entries: seq<State>, reported: set<int>, state: State, listed: set<int>, idx: nat,
        current: State)
      requires idx < |entries| && AllBut(entries, reported, state, listed)
      ensures var listed' := if current == state then listed - {idx} else listed + {idx};
        AllBut(entries[idx := current], reported + {idx}, state, listed')
    {
    }

    constructor (count: nat)
      ensures Valid() && |entries| == count && reported == {} && constrained == {}
    {
      entries := seq(count, _ => NotReady);
      constrained, readySet, reported, allReady := {}, {}, {}, count == 0;
    }

    method SetState(idx: nat, current: State)
      requires Valid() && idx < |entries|
      modifies this
      ensures Valid() && entries == old(entries)[idx := current] && reported == old(reported) + {idx}
    {
      ReportOne(entries, reported, Clear, constrained, idx, current);
      ReportOne(entries, reported, NotReady, readySet, idx, current);
      hide AllBut;
      entries := entries[idx := current];
      reported := reported + {idx};
      if current == NotReady {
        readySet := readySet - {idx};
        constrained := constrained + {idx};
      } else {
        readySet := readySet + {idx};
        if current == Clear {
          constrained := constrained - {idx};
        } else {
          constrained := constrained + {idx};
        }
      }
      allReady := |readySet| == |entries|;
    }

    /** The ready event is set exactly when every constraint has reported and none is unready. */
    lemma ReadyMeansAll()
      requires Valid()
      ensures allReady <==> forall i :: 0 <= i < |entries| ==> i in reported && entries[i] != NotReady
    {
      assert readySet <= Range(|entries|);
      SubsetCardinality(readySet, Range(|entries|));
      if forall i :: 0 <= i < |entries| ==> i in reported && entries[i] != NotReady {
        forall i | i in Range(|entries|)
          ensures i in readySet
        {
        }
        assert readySet == Range(|entries|);
      }
    }

    /** Unconstrained means every constraint that has reported is clear. */
    predicate IsConstrained()
      requires Valid()
      reads this
      ensures IsConstrained() <==> exists i :: i in reported && entries[i] != Clear
    {
      if constrained == {} then false
      else
        assert |constrained| > 0;
        true
    }
  }
}
