/** A reactor together with its supervisor: the failures the reactor counts are those that reported states cause. */
module Supervised {
  import opened Prelude
  import opened Failure
  import opened Procedure
  import R = Reactor
  import S = Supervisor

  /** One reactor, and the supervisor made for its latest run. */
  datatype Joint = Joint(reactor: R.World, watch: Option<S.Watch>)

  datatype Event =
    | Drive(e: R.Event)                    // any event of the reactor but a failure of supervision
    | Report(report: Option<S.Report>)     // a queued update, a fresh read, or a wakeup of the supervisor
    | GiveUp                               // a lifecycle task that did not end well leaves the expectation unknown
    | MonitorFails                         // supervision ends

  /** What an evaluation reads is what supervision last processed, and whether supervision still runs. */
  predicate Reads(input: R.Input, watch: S.Watch) {
    && (input.healthy ==> !watch.ended && watch.observed.Some?)
    && (input.healthy ==> input.actual.current == watch.observed.value.current
                          && input.actual.target == watch.observed.value.target)
  }

  ghost predicate Can(j: Joint, e: Event) {
    match e
    case Drive(re) =>
      && !re.StateFails? && R.Can(j.reactor, re)
      && (re.Evaluation? ==> j.watch.Some? && Reads(re.input, j.watch.value))
    case Report(_) => j.watch.Some? && !j.watch.value.ended
    case GiveUp | MonitorFails => j.watch.Some?
  }

  /** The evaluation that led from `w` to `v` has started a recovery procedure. */
  predicate Recovers(w: R.World, v: R.World) {
    |w.log| < |v.log| && v.log[|v.log| - 1].Started? && v.log[|v.log| - 1].kind.Recover?
  }

  /** The expectation that the event sets, if it sets one. */
  ghost function Sets(w: R.World, s: R.Setup, e: R.Event): Option<Reported>
    requires R.Can(w, e)
  {
    match e
    case Step(pe) =>
      if !R.SetsExpectation(w.current.value, pe) then None
      else if pe.Send? then Some(InTransition)
      else Some(InState(w.current.value.kind.target))
    case Evaluation(_) => if Recovers(w, R.Move(w, s, e)) then Some(InUnknown) else None
    case _ => None
  }

  predicate HasFailed(before: S.Watch, now: S.Watch) {
    |before.log| < |now.log| && now.log[|now.log| - 1].FailedAt?
  }

  ghost function Move(j: Joint, s: R.Setup, grace: int, e: Event): Joint
    requires Can(j, e)
  {
    match e
    case Drive(re) =>
      var watch :=
        if re.Begin? then Some(S.START)
        else if j.watch.Some? && Sets(j.reactor, s, re).Some?
        then Some(S.Expecting(j.watch.value, Sets(j.reactor, s, re).value))
        else j.watch;
      Joint(R.Move(j.reactor, s, re), watch)
    case Report(report) =>
      var watch := S.Processing(j.watch.value, grace, j.reactor.now, report);
      Joint(if HasFailed(j.watch.value, watch) then R.CountFailure(j.reactor, s.failure).(watched := false)
            else j.reactor, Some(watch))
    case GiveUp => j.(watch := Some(S.Expecting(j.watch.value, InUnknown)))
    case MonitorFails => j.(watch := Some(S.Move(j.watch.value, grace, S.End)))
  }

  ghost predicate Legal(s: R.Setup, grace: int, now: int, run: seq<Event>)
    decreases |run|, 0
  {
    run == [] ||
    (Legal(s, grace, now, run[..|run| - 1]) && Can(Replay(s, grace, now, run[..|run| - 1]), run[|run| - 1]))
  }

  ghost function Replay(s: R.Setup, grace: int, now: int, run: seq<Event>): Joint
    requires Legal(s, grace, now, run)
    decreases |run|, 1
  {
    if run == [] then Joint(R.Replay(s, now, []), None)
    else Move(Replay(s, grace, now, run[..|run| - 1]), s, grace, run[|run| - 1])
  }

  /** Wherever supervision has an expectation that a report can fail, the reactor's model says so too. */
  ghost predicate Linked(j: Joint, grace: int) {
    j.watch.Some? ==>
      && S.Sound(j.watch.value, grace)
      && (j.watch.value.expected != Some(InUnknown) ==> j.reactor.watched)
  }

  /** Evaluation gives the expectation up exactly by starting a recovery. */
  lemma EvaluationWatches(w: R.World, s: R.Setup, input: R.Input)
    ensures var v := R.Evaluate(w, s, input); v.watched == w.watched || (!v.watched && Recovers(w, v))
  {
    var done := w.current.Some? && w.current.value.IsDone();
    var u := if done then R.Conclude(w, s.failure, w.current.value) else w;
    assert |u.log| >= |w.log| && u.watched == w.watched;
    if u.alive && input.healthy && u.current.None? && input.enabled && input.demand.state.Some? {
      DispatchWatches(u, s, input);
    }
  }

  lemma DispatchWatches(w: R.World, s: R.Setup, input: R.Input)
    requires input.demand.state.Some?
    ensures var v := R.Dispatch(w, s, input);
      |v.log| >= |w.log| && (v.watched == w.watched || (!v.watched && Recovers(w, v)))
  {
    R.SettlingOnly(R.Expire(w, s.failure), s, input);
  }

  lemma DriveLinked(j: Joint, s: R.Setup, grace: int, e: R.Event)
    requires Linked(j, grace) && Can(j, Drive(e))
    ensures Linked(Move(j, s, grace, Drive(e)), grace)
  {
    hide S.Sound;
    StartSound(grace);
    if j.watch.Some? && Sets(j.reactor, s, e).Some? {
      S.MoveSound(j.watch.value, grace, S.Expect(Sets(j.reactor, s, e).value));
    }
    if e.Evaluation? {
      EvaluationWatches(j.reactor, s, e.input);
      hide R.Evaluate;
    }
  }

  lemma StartSound(grace: int)
    ensures S.Sound(S.START, grace)
  {
    S.RunSound(grace, []);
  }

  /** A failure of supervision needs an expectation that it then uses up. */
  lemma ReportFails(w: S.Watch, grace: int, now: int, report: Option<S.Report>)
    requires S.Sound(w, grace)
    ensures var v := S.Processing(w, grace, now, report);
      && S.Sound(v, grace)
      && (HasFailed(w, v) ==> w.expected.Some? && w.expected != Some(InUnknown) && v.expected == Some(InUnknown))
      && (!HasFailed(w, v) && v.expected != Some(InUnknown) ==> w.expected != Some(InUnknown))
  {
    S.MoveSound(w, grace, S.Process(now, report));
  }

  lemma MoveLinked(j: Joint, s: R.Setup, grace: int, e: Event)
    requires Linked(j, grace) && Can(j, e)
    ensures Linked(Move(j, s, grace, e), grace)
  {
    match e
    case Drive(re) => DriveLinked(j, s, grace, re);
    case Report(report) =>
      hide S.Sound, S.Processing, R.CountFailure;
      ReportFails(j.watch.value, grace, j.reactor.now, report);
    case GiveUp => S.MoveSound(j.watch.value, grace, S.Expect(InUnknown));
    case MonitorFails => S.MoveSound(j.watch.value, grace, S.End);
  }

  lemma {:induction false} RunLinked(s: R.Setup, grace: int, now: int, run: seq<Event>)
    requires Legal(s, grace, now, run)
    ensures Linked(Replay(s, grace, now, run), grace)
  {
    if run != [] {
      RunLinked(s, grace, now, run[..|run| - 1]);
      MoveLinked(Replay(s, grace, now, run[..|run| - 1]), s, grace, run[|run| - 1]);
    }
  }

  lemma Extend(s: R.Setup, now: int, run: seq<R.Event>, e: R.Event)
    requires R.Legal(s, now, run) && R.Can(R.Replay(s, now, run), e)
    ensures R.Legal(s, now, run + [e]) && R.Replay(s, now, run + [e]) == R.Move(R.Replay(s, now, run), s, e)
  {
    assert (run + [e])[..|run|] == run;
  }

  /** The reactor of a joint run makes a run of its own, so all that holds of its runs holds of it under supervision. */
  lemma {:induction false} Refines(s: R.Setup, grace: int, now: int, run: seq<Event>) returns (alone: seq<R.Event>)
    requires Legal(s, grace, now, run)
    ensures R.Legal(s, now, alone) && R.Replay(s, now, alone) == Replay(s, grace, now, run).reactor
  {
    if run == [] {
      alone := [];
    } else {
      var front, e := run[..|run| - 1], run[|run| - 1];
      alone := Refines(s, grace, now, front);
      RunLinked(s, grace, now, front);
      var j := Replay(s, grace, now, front);
      var j' := Move(j, s, grace, e);
      hide Legal, Replay, R.Legal, R.Replay, R.Evaluate, R.CountFailure;
      match e
      case Drive(re) =>
        Extend(s, now, alone, re);
        alone := alone + [re];
      case Report(report) =>
        hide S.Processing, S.Sound;
        ReportFails(j.watch.value, grace, j.reactor.now, report);
        if HasFailed(j.watch.value, j'.watch.value) {
          Extend(s, now, alone, R.StateFails);
          alone := alone + [R.StateFails];
        }
      case GiveUp =>
      case MonitorFails =>
    }
  }

  /** A report counts a failure exactly if it contradicts the expectation and none has been counted since a procedure
      was started. It is then the first since a procedure was started and the first since an expectation was set. The
      state it shows differs from the state expected, no recovery is running, and a commanded transition has had its
      grace period. */
  lemma FirstFailure(s: R.Setup, grace: int, now: int, run: seq<Event>, report: Option<S.Report>)
    requires Legal(s, grace, now, run) && Can(Replay(s, grace, now, run), Report(report))
    ensures var j := Replay(s, grace, now, run);
      var j' := Move(j, s, grace, Report(report));
      && (j'.reactor.log != j.reactor.log <==>
            Contradicts(j.watch.value, j.reactor.now, report) && !R.CountedSince(j.reactor.log))
      && (j'.reactor.log != j.reactor.log ==>
        && !R.CountedSince(j.reactor.log) && R.CountedSince(j'.reactor.log)
        && S.NoneFailedSince(j.watch.value.log) && !S.NoneFailedSince(j'.watch.value.log)
        && j.watch.value.expected.Some? && j'.watch.value.observed.Some?
        && j.watch.value.expected != Some(j'.watch.value.observed.value.current)
        && !(j.reactor.current.Some? && j.reactor.current.value.kind.Recover?)
        && (j.watch.value.expected == Some(InTransition) ==>
              exists due, k :: S.GraceBegan(j.watch.value.log, grace, due, k) && due <= j.reactor.now))
  {
    var j := Replay(s, grace, now, run);
    var alone := Refines(s, grace, now, run);
    R.RunEscalation(s, now, alone);
    RunLinked(s, grace, now, run);
    hide Legal, Replay, R.Legal, R.Replay;
    ReportFails(j.watch.value, grace, j.reactor.now, report);
    WhyFailed(j.watch.value, grace, j.reactor.now, report);
    CountMarks(j.reactor, s.failure);
    hide R.CountFailure, R.CountedSince, S.Sound, S.Processing, S.NoneFailedSince, S.GraceBegan, HasFailed;
  }

  /** The newest state known contradicts the expectation: a settled state that was left, or a transition not reported
      although its grace period has run out. */
  predicate Contradicts(w: S.Watch, now: int, report: Option<S.Report>) {
    var newer := report.Some? && (w.observed.None? || report.value.id > w.observed.value.id);
    var newest := if newer then report else w.observed;
    newest.Some? && w.expected.Some? && w.expected.value != InUnknown && w.expected.value != newest.value.current &&
    (w.expected.value == InTransition ==> w.deadline.Some? && w.deadline.value <= now)
  }

  /** What a failure of supervision says about the report and the expectation. */
  lemma WhyFailed(w: S.Watch, grace: int, now: int, report: Option<S.Report>)
    requires S.Sound(w, grace)
    ensures var v := S.Processing(w, grace, now, report);
      && (HasFailed(w, v) <==> Contradicts(w, now, report))
      && (HasFailed(w, v) ==>
        && S.NoneFailedSince(w.log) && !S.NoneFailedSince(v.log)
        && v.observed.Some? && w.expected != Some(v.observed.value.current)
        && (w.expected == Some(InTransition) ==>
              exists due, k :: S.GraceBegan(w.log, grace, due, k) && due <= now))
  {
  }

  lemma CountMarks(w: R.World, c: Config)
    requires R.Escalation(c, w)
    ensures var v := R.CountFailure(w, c);
      && (v.log != w.log <==> !R.CountedSince(w.log))
      && (v.log != w.log ==> R.CountedSince(v.log))
  {
    var reset := R.ResetMark(c, w.failures, w.now);
    R.Appended(c, w.log + reset, R.Counted(w.now));
  }
}
