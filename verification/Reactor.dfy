/** The reactor, which has one lifecycle procedure at a time: its decisions over values, and whole runs of it. */
module Reactor {
  import opened Prelude
  import opened Failure
  import opened Procedure

  /** The controller state the supervisor last processed. */
  datatype Actual = Actual(current: Reported, target: Option<Demanded>, context: int) {
    predicate Matches(demand: Demand) {
      demand.state.Some? && current == InState(demand.state.value) && target.None? && context == demand.contexts
    }
  }

  datatype Execution = Execution(taskId: nat, remaining: Option<int>)

  /** What one evaluation reads. */
  datatype Input = Input(enabled: bool, demand: Demand, healthy: bool, actual: Actual, execution: Option<Execution>)

  datatype Setup = Setup(failure: Config, settleTimeout: int)

  datatype Wait = Wait(taskId: nat, since: int)

  /** What a run has done that counts: for proofs about its history. */
  datatype Mark =
    | Began
    | Started(kind: Kind, at: int)
    | Counted(at: int)
    | Attempted(at: int, ok: bool, final: bool)
    | Reset(at: int)

  datatype World = World(
    now: int,
    failures: Failures,
    current: Option<Proc>,
    settleWait: Option<Wait>,
    alive: bool,
    past: seq<Proc>,             // procedures this reactor run concluded
    log: seq<Mark>,
    watched: bool)               // supervision has an expectation that a report can fail

  predicate ProgramInterruptible(p: Proc, actual: Actual) {
    !p.work.Pending() && actual.current == InState(Operate) && actual.target.None?
  }

  /** The interruption that demand, failures and reported state call for. */
  function InterruptKind(enabled: bool, demand: Demand, error: bool, p: Proc, actual: Actual): Level {
    if !enabled || demand.state.None? then Abort
    else if error then Abort
    else if p.kind.Recover? then Uninterrupted
    else if !p.demand.Same(demand) then
      if demand.interrupt || (demand.programInterrupt && ProgramInterruptible(p, actual)) then Abort else Stop
    else if !p.status.achieved || p.work.Pending() then Uninterrupted
    else if actual.Matches(demand) then Uninterrupted
    else Stop
  }

  function Interrupt(p: Proc, level: Level): Proc {
    match level
    case Uninterrupted => p
    case Stop => RequestStop(p)
    case Abort => RequestAbort(p)
  }

  function ResetMark(c: Config, f: Failures, now: int): seq<Mark> {
    if f.Stable(c, now) then [Reset(now)] else []
  }

  function Expire(w: World, c: Config): World {
    w.(failures := w.failures.Expired(c, w.now), log := w.log + ResetMark(c, w.failures, w.now))
  }

  function CountFailure(w: World, c: Config): World {
    if w.failures.error then w
    else w.(failures := w.failures.Failed(c, w.now), log := w.log + ResetMark(c, w.failures, w.now) + [Counted(w.now)])
  }

  /** Updates counts from the finished procedure; a raised error ends the run. */
  function Conclude(w: World, c: Config, p: Proc): World {
    var w := w.(current := None);
    var kept := w.(past := w.past + [p]);
    if p.status.unresolved then w.(alive := false)
    else match (p.kind, p.Error())
      case (_, Some(ControllerOffline)) => w.(alive := false)
      case (Recover(_), Some(ControllerUnrecoverable)) =>
        w.(alive := false, failures := w.failures.Cleared(), log := w.log + [Reset(w.now)])
      case (Recover(emergency), error) =>
        if p.status.recovered then
          var f := w.failures.Recovered(c, w.now);
          kept.(failures := f, log := w.log + [Attempted(w.now, true, f.EmergencyDue(c))])
        else if error.None? then kept
        else if emergency then kept.(failures := w.failures.EmergencyFailed(c, w.now), log := w.log + [Reset(w.now)])
        else
          var f := w.failures.AttemptFailed(c, w.now);
          kept.(failures := f, log := w.log + [Attempted(w.now, false, f.EmergencyDue(c))])
      case (Reach(_), None) => kept
      case (Reach(_), Some(fault)) =>
        if w.failures.error then kept
        else if fault.ControllerFailure? then CountFailure(kept, c)
        else kept.(failures := w.failures.RetryDelayed(c, w.now))
  }

  /** A recovery procedure begins by giving up any expectation. */
  function Launch(w: World, kind: Kind, demand: Demand): World {
    w.(current := Some(Fresh(kind, demand)), failures := w.failures.Begun(), log := w.log + [Started(kind, w.now)],
       watched := w.watched && kind.Reach?)
  }

  /** Sending a lifecycle task, or confirming a state, sets an expectation; recovery sets none. */
  predicate SetsExpectation(p: Proc, e: ProcEvent) {
    p.kind.Reach? && (e.Send? || e.Achieve?)
  }

  /** A controller already on its way to the demanded state is given time to arrive, up to a limit. */
  function Settling(w: World, s: Setup, input: Input): (World, bool) {
    if input.execution.None? || input.actual.current != InTransition || input.actual.target != input.demand.state
       || input.actual.context != input.demand.contexts then (w, false)
    else
      var execution := input.execution.value;
      var wait := if w.settleWait.Some? && w.settleWait.value.taskId == execution.taskId then w.settleWait.value
                  else Wait(execution.taskId, w.now);
      var limit := wait.since + s.settleTimeout;
      var until := if execution.remaining.Some? && w.now + execution.remaining.value < limit
                   then w.now + execution.remaining.value else limit;
      (w.(settleWait := Some(wait)), w.now < until)
  }

  /** Launches recovery if it is due and otherwise what is demanded, delays permitting. */
  function Dispatch(w: World, s: Setup, input: Input): World
    requires input.demand.state.Some?
  {
    var w := Expire(w, s.failure);
    if w.failures.RecoveryDue(s.failure) then
      if w.failures.Waiting(w.now) then w
      else Launch(w, Recover(w.failures.EmergencyDue(s.failure)), input.demand)
    else if input.demand.state.value != Shutdown && w.failures.Waiting(w.now) then w
    else
      var (v, settling) := Settling(w, s, input);
      if settling then v else Launch(v, Reach(input.demand.state.value), input.demand)
  }

  /** One evaluation of demand and reported state, with the run loop's exit after it. */
  function Evaluate(w: World, s: Setup, input: Input): World {
    var v := if w.current.Some? && w.current.value.IsDone() then Conclude(w, s.failure, w.current.value) else w;
    if !v.alive then v
    else if !input.healthy then v.(alive := false)
    else if v.current.Some? then
      var p := v.current.value;
      v.(current := Some(Interrupt(p, InterruptKind(input.enabled, input.demand, v.failures.error, p, input.actual))))
    else if !input.enabled then v.(alive := false)
    else if input.demand.state.None? then v
    else Dispatch(v, s, input)
  }

  datatype Event =
    | Tick(delta: nat)
    | Begin(reportsError: bool)  // a new reactor run over the same failure history
    | Step(e: ProcEvent)         // the running procedure, or the work it waits for, moves
    | StateFails                 // the state supervisor counts a failure
    | Evaluation(input: Input)
    | Leave                      // the run ends and releases its procedure

  ghost predicate Can(w: World, e: Event) {
    match e
    case Begin(_) => !w.alive && (w.current.None? || w.current.value.IsDone())
    case Step(pe) => w.current.Some? && Enabled(w.current.value, pe)
    case Evaluation(_) => w.alive
    case Leave => w.alive
    // No report fails an unknown expectation, and each failure leaves the expectation unknown.
    case StateFails => w.watched
    case _ => true
  }

  ghost function Move(w: World, s: Setup, e: Event): World
    requires Can(w, e)
  {
    match e
    case Tick(delta) => w.(now := w.now + delta)
    case Begin(reportsError) =>
      var log := w.log + [Began];
      var v := w.(alive := true, current := None, settleWait := None, past := [], log := log, watched := true);
      if reportsError then
        v.(failures := w.failures.InitialError(s.failure, w.now), log := log + ResetMark(s.failure, w.failures, w.now))
      else v
    case Step(pe) =>
      w.(current := Some(Next(w.current.value, pe)), watched := w.watched || SetsExpectation(w.current.value, pe))
    case StateFails => CountFailure(w, s.failure).(watched := false)
    case Evaluation(input) => Evaluate(w, s, input)
    case Leave => w.(alive := false, current := if w.current.None? then None else Some(RequestAbort(w.current.value)))
  }

  ghost predicate Legal(s: Setup, now: int, run: seq<Event>)
    decreases |run|, 0
  {
    run == [] || (Legal(s, now, run[..|run| - 1]) && Can(Replay(s, now, run[..|run| - 1]), run[|run| - 1]))
  }

  ghost function Replay(s: Setup, now: int, run: seq<Event>): World
    requires Legal(s, now, run)
    decreases |run|, 1
  {
    if run == [] then World(now, FRESH, None, None, false, [], [], false)
    else Move(Replay(s, now, run[..|run| - 1]), s, run[|run| - 1])
  }

  // ---- Single writer ----------------------------------------------------------------------

  /** How many procedures this reactor run has started. */
  ghost function Starts(log: seq<Mark>): nat {
    if log == [] then 0
    else match log[|log| - 1]
      case Began => 0
      case Started(_, _) => Starts(log[..|log| - 1]) + 1
      case _ => Starts(log[..|log| - 1])
  }

  ghost predicate Closed(p: Proc) {
    p.IsDone() && !p.status.unresolved && p.work.AllDefinite()
  }

  /** Every procedure of this run but the current one has finished with all its controller tasks definite. */
  ghost predicate SingleWriter(w: World) {
    && (w.current.Some? ==> Inv(w.current.value))
    && (forall i :: 0 <= i < |w.past| ==> Closed(w.past[i]))
    && (w.alive ==> Starts(w.log) == |w.past| + if w.current.Some? then 1 else 0)
  }

  lemma StartsAppend(log: seq<Mark>, m: Mark)
    ensures Starts(log + [m]) == match m case Began => 0 case Started(_, _) => Starts(log) + 1 case _ => Starts(log)
  {
    assert (log + [m])[..|log|] == log;
  }

  lemma StartsQuiet(log: seq<Mark>, c: Config, f: Failures, now: int)
    ensures Starts(log + ResetMark(c, f, now)) == Starts(log)
  {
    if f.Stable(c, now) {
      StartsAppend(log, Reset(now));
    } else {
      assert log + [] == log;
    }
  }

  lemma CountKeeps(w: World, c: Config)
    requires SingleWriter(w)
    ensures SingleWriter(CountFailure(w, c))
  {
    StartsQuiet(w.log, c, w.failures, w.now);
    StartsAppend(w.log + ResetMark(c, w.failures, w.now), Counted(w.now));
  }

  /** Concluding a closed procedure files it among the past ones, whatever happens to the counts. */
  lemma FiledKeeps(w: World, p: Proc, f: Failures, log: seq<Mark>)
    requires SingleWriter(w) && w.alive && w.current == Some(p) && p.IsDone() && !p.status.unresolved
    requires Starts(log) == Starts(w.log)
    ensures SingleWriter(w.(current := None, past := w.past + [p], failures := f, log := log))
  {
  }

  lemma ConcludeStarts(w: World, c: Config, p: Proc)
    ensures Starts(Conclude(w, c, p).log) == Starts(w.log)
  {
    hide Starts;
    StartsAppend(w.log, Reset(w.now));
    StartsAppend(w.log, Attempted(w.now, true, w.failures.Recovered(c, w.now).EmergencyDue(c)));
    StartsAppend(w.log, Attempted(w.now, false, w.failures.AttemptFailed(c, w.now).EmergencyDue(c)));
    StartsQuiet(w.log, c, w.failures, w.now);
    StartsAppend(w.log + ResetMark(c, w.failures, w.now), Counted(w.now));
  }

  lemma ConcludeFiles(w: World, c: Config, p: Proc)
    requires w.alive
    ensures Conclude(w, c, p).current.None?
    ensures Conclude(w, c, p).alive ==>
      !p.status.unresolved && Conclude(w, c, p) ==
        w.(current := None, past := w.past + [p], failures := Conclude(w, c, p).failures, log := Conclude(w, c, p).log)
    ensures !Conclude(w, c, p).alive ==> Conclude(w, c, p).past == w.past
  {
  }

  lemma ConcludeKeeps(w: World, c: Config, p: Proc)
    requires SingleWriter(w) && w.alive && w.current == Some(p) && p.IsDone()
    ensures SingleWriter(Conclude(w, c, p)) && Conclude(w, c, p).current.None?
    ensures Conclude(w, c, p).alive ==> Conclude(w, c, p).past == w.past + [p] && Closed(p)
  {
    hide Conclude, Starts;
    var v := Conclude(w, c, p);
    ConcludeStarts(w, c, p);
    ConcludeFiles(w, c, p);
    if v.alive {
      FiledKeeps(w, p, v.failures, v.log);
    }
  }

  lemma LaunchKeeps(w: World, kind: Kind, demand: Demand)
    requires SingleWriter(w) && w.current.None?
    ensures SingleWriter(Launch(w, kind, demand))
  {
    StartsAppend(w.log, Started(kind, w.now));
  }

  lemma ExpireKeeps(w: World, c: Config)
    requires SingleWriter(w)
    ensures SingleWriter(Expire(w, c))
  {
    StartsQuiet(w.log, c, w.failures, w.now);
  }

  lemma SettlingOnly(w: World, s: Setup, input: Input)
    ensures Settling(w, s, input).0 == w.(settleWait := Settling(w, s, input).0.settleWait)
  {
  }

  lemma DispatchKeeps(w: World, s: Setup, input: Input)
    requires SingleWriter(w) && w.alive && w.current.None? && input.demand.state.Some?
    ensures SingleWriter(Dispatch(w, s, input)) && Dispatch(w, s, input).past == w.past
    ensures Dispatch(w, s, input).alive
  {
    hide Starts, SingleWriter, Settling;
    ExpireKeeps(w, s.failure);
    var v := Expire(w, s.failure);
    SettlingOnly(v, s, input);
    var u := Settling(v, s, input).0;
    assert SingleWriter(u) by {
      WaitKeeps(v, u.settleWait);
    }
    LaunchKeeps(v, Recover(v.failures.EmergencyDue(s.failure)), input.demand);
    LaunchKeeps(u, Reach(input.demand.state.value), input.demand);
  }

  lemma WaitKeeps(w: World, wait: Option<Wait>)
    requires SingleWriter(w)
    ensures SingleWriter(w.(settleWait := wait))
  {
  }

  lemma InterruptKeeps(p: Proc, level: Level)
    requires Inv(p)
    ensures Inv(Interrupt(p, level)) && p.control.interrupt.Rank() <= Interrupt(p, level).control.interrupt.Rank()
    ensures Interrupt(p, level).kind == p.kind && Interrupt(p, level).work == p.work
    ensures Interrupt(p, level).control.phase == p.control.phase
  {
  }

  lemma EvaluateKeeps(w: World, s: Setup, input: Input)
    requires SingleWriter(w) && w.alive
    ensures SingleWriter(Evaluate(w, s, input))
  {
    var v := w;
    if w.current.Some? && w.current.value.IsDone() {
      ConcludeKeeps(w, s.failure, w.current.value);
      v := Conclude(w, s.failure, w.current.value);
    }
    if v.alive && input.healthy {
      if v.current.Some? {
        var p := v.current.value;
        InterruptKeeps(p, InterruptKind(input.enabled, input.demand, v.failures.error, p, input.actual));
      } else if input.enabled && input.demand.state.Some? {
        DispatchKeeps(v, s, input);
      }
    }
  }

  lemma MoveKeeps(w: World, s: Setup, e: Event)
    requires SingleWriter(w) && Can(w, e)
    ensures SingleWriter(Move(w, s, e))
  {
    match e
    case Begin(_) =>
      StartsAppend(w.log, Began);
      StartsQuiet(w.log + [Began], s.failure, w.failures, w.now);
    case Step(pe) =>
      StepCalls(w.current.value, pe);
      StepFaults(w.current.value, pe);
    case StateFails => CountKeeps(w, s.failure);
    case Evaluation(input) => EvaluateKeeps(w, s, input);
    case _ =>
  }

  lemma {:induction false} RunSingleWriter(s: Setup, now: int, run: seq<Event>)
    requires Legal(s, now, run)
    ensures SingleWriter(Replay(s, now, run))
  {
    if run != [] {
      RunSingleWriter(s, now, run[..|run| - 1]);
      MoveKeeps(Replay(s, now, run[..|run| - 1]), s, run[|run| - 1]);
    }
  }

  /** A new procedure starts only when every procedure this run started before it has finished, and every controller
      task any of them dispatched was rejected, failed or succeeded. */
  lemma StartIsSafe(s: Setup, now: int, run: seq<Event>, input: Input)
    requires Legal(s, now, run) && Can(Replay(s, now, run), Evaluation(input))
    ensures var w, w' := Replay(s, now, run), Evaluate(Replay(s, now, run), s, input);
      Starts(w'.log) > Starts(w.log) ==>
      && w'.current.Some? && w'.current.value.control.phase == Created
      && |w'.past| == Starts(w.log)
      && (forall i :: 0 <= i < |w'.past| ==> Closed(w'.past[i]))
      && (w.current.Some? ==> Closed(w.current.value))
  {
    RunSingleWriter(s, now, run);
    EvaluationStarts(Replay(s, now, run), s, input);
  }

  lemma EvaluationStarts(w: World, s: Setup, input: Input)
    requires SingleWriter(w) && w.alive
    ensures var w' := Evaluate(w, s, input);
      Starts(w'.log) > Starts(w.log) ==>
      && w'.current.Some? && w'.current.value.control.phase == Created
      && |w'.past| == Starts(w.log)
      && (forall i :: 0 <= i < |w'.past| ==> Closed(w'.past[i]))
      && (w.current.Some? ==> Closed(w.current.value))
  {
    EvaluateKeeps(w, s, input);
    if w.current.Some? && w.current.value.IsDone() {
      ConcludeKeeps(w, s.failure, w.current.value);
      var v := Conclude(w, s.failure, w.current.value);
      hide Starts, Conclude;
      if v.alive && input.enabled && input.demand.state.Some? && input.healthy {
        DispatchKeeps(v, s, input);
        DispatchStarts(v, s, input);
        hide Dispatch;
      }
    } else if w.current.None? && input.enabled && input.demand.state.Some? && input.healthy {
      hide Starts;
      DispatchKeeps(w, s, input);
      DispatchStarts(w, s, input);
      hide Dispatch;
    }
  }

  lemma DispatchStarts(w: World, s: Setup, input: Input)
    requires SingleWriter(w) && w.alive && w.current.None? && input.demand.state.Some?
    ensures var w' := Dispatch(w, s, input);
      w'.current.None? || (w'.current.value.control.phase == Created && w'.current.value.work == Work([], [], {}))
  {
    SettlingOnly(Expire(w, s.failure), s, input);
  }

  /** While a procedure runs it is not replaced, and its interruption only rises. */
  lemma InterruptionRises(w: World, s: Setup, e: Event)
    requires Can(w, e) && w.current.Some? && w.current.value.control.phase != Done
    ensures Move(w, s, e).current.Some?
    ensures Move(w, s, e).current.value.kind == w.current.value.kind
    ensures w.current.value.control.interrupt.Rank() <= Move(w, s, e).current.value.control.interrupt.Rank()
  {
    if e.Step? {
      StepSettles(w.current.value, e.e);
    }
  }

  // ---- Escalation -------------------------------------------------------------------------

  // ---- Interruption -----------------------------------------------------------------------

  ghost function LevelOf(w: World): Level
    requires w.current.Some?
  {
    w.current.value.control.interrupt
  }

  /** What an evaluation does to a procedure that is still running, case by case. */
  lemma EvaluationInterrupts(w: World, s: Setup, input: Input)
    requires w.alive && w.current.Some? && !w.current.value.IsDone() && input.healthy
    ensures var p, v, demand, actual := w.current.value, Evaluate(w, s, input), input.demand, input.actual;
      && v == w.(current := v.current) && v.current.Some? && v.current.value == p.(control := v.current.value.control)
      && v.current.value.control == p.control.(interrupt := LevelOf(v))
      && var was, now := LevelOf(w), LevelOf(v);
      // Withdrawn demand, a disabled reactor and a counted failure abort it.
      && (!input.enabled || demand.state.None? || w.failures.error ==> now == Abort)
      && (input.enabled && demand.state.Some? && !w.failures.error ==>
          // Nothing else interrupts recovery.
          && (p.kind.Recover? ==> now == was)
          && (p.kind.Reach? && Changed(p, demand) ==>
              if demand.interrupt || (demand.programInterrupt && Between(p, actual)) then now == Abort
              else now == (if was == Uninterrupted then Stop else was))
          && (p.kind.Reach? && !Changed(p, demand) ==>
              if p.status.achieved && NonePending(p) && Lost(demand, actual)
              then now == (if was == Uninterrupted then Stop else was)
              else now == was))
  {
  }

  /** With no procedure running, a reactor that is disabled ends its run, and one without demand does nothing. */
  lemma EvaluationRests(w: World, s: Setup, input: Input)
    requires w.alive && (w.current.Some? ==> !w.current.value.IsDone())
    ensures !input.healthy ==> Evaluate(w, s, input) == w.(alive := false)
    ensures input.healthy && w.current.None? && !input.enabled ==> Evaluate(w, s, input) == w.(alive := false)
    ensures input.healthy && w.current.None? && input.enabled && input.demand.state.None? ==> Evaluate(w, s, input) == w
  {
  }

  /** Whether a wait for a controller on its way to the demanded state, which began at `since`, is still on. */
  ghost predicate Awaited(w: World, s: Setup, input: Input, since: int) {
    && input.execution.Some? && input.actual.current == InTransition
    && input.actual.target == input.demand.state && input.actual.context == input.demand.contexts
    && w.now < since + s.settleTimeout
    && (input.execution.value.remaining.Some? ==> input.execution.value.remaining.value > 0)
  }

  /** What is started where nothing runs: recovery if enough failures count and no delay is left, an emergency shutdown
      if its attempts are used up, and otherwise what is demanded, unless a delay or a settling task holds it back. */
  lemma EvaluationStartsDemand(w: World, s: Setup, input: Input)
    requires w.alive && w.current.None? && input.healthy && input.enabled && input.demand.state.Some?
    ensures var c, f, v, state := s.failure, w.failures, Evaluate(w, s, input), input.demand.state.value;
      var stable := f.stableSince.Some? && w.now - f.stableSince.value >= c.stablePeriod;
      var failures, attempts := if stable then 0 else f.failures, if stable then 0 else f.attempts;
      var delayed := f.retryAt.Some? && w.now < f.retryAt.value;
      var since := if input.execution.Some? && w.settleWait.Some? &&
                      w.settleWait.value.taskId == input.execution.value.taskId
                   then w.settleWait.value.since else w.now;
      && v.alive && v.failures.failures == failures && v.failures.attempts == attempts
      && v.current ==
         if failures >= c.recoverAfter then
           if delayed then None else Some(Fresh(Recover(attempts >= c.recoveryAttempts), input.demand))
         else if state != Shutdown && delayed then None
         else if Awaited(w, s, input, since) then None
         else Some(Fresh(Reach(state), input.demand))
  {
  }

  /** What the end of a procedure does to the counts and deadlines, in full. */
  lemma ConcludeCounts(w: World, c: Config, p: Proc)
    requires w.alive && !p.status.unresolved && FaultsFit(p) && p.Error() != Some(ControllerOffline)
    ensures var f, v, error := w.failures, Conclude(w, c, p), p.Error();
      var delay := if p.kind == Recover(true) then c.cycleDelay
                   else if p.kind == Recover(false) && !p.status.recovered then c.attemptDelay else c.retryDelay;
      match p.kind
      case Recover(emergency) =>
        if p.status.recovered then
          // A recovered controller is one failure away from recovery at most, and is retried after a delay.
          v.failures == f.(failures := 1, attempts := f.attempts + 1, stableSince := Some(w.now),
                           retryAt := Some(w.now + delay))
        else if error.None? then v.failures == f
        else if error == Some(ControllerUnrecoverable) then
          !v.alive && v.failures == f.(failures := 0, attempts := 0, retryAt := None, stableSince := None)
        else if emergency then
          v.failures == f.(attempts := 0, stableSince := Some(w.now), retryAt := Some(w.now + delay))
        else
          v.failures == f.(attempts := f.attempts + 1, stableSince := Some(w.now),
            retryAt := if f.failures >= c.recoverAfter && f.attempts + 1 >= c.recoveryAttempts then f.retryAt
                       else Some(w.now + delay))
      case Reach(_) =>
        if error.None? || f.error then v.failures == f
        else if error != Some(ControllerFailure) then v.failures == f.(retryAt := Some(w.now + delay))
        else
          && v.failures.error && v.failures.stableSince == Some(w.now)
          && v.failures.failures == 1 + (if f.Stable(c, w.now) then 0 else f.failures)
          && v.failures.retryAt == if v.failures.failures >= c.recoverAfter then f.retryAt else Some(w.now + delay)
  {
    if p.Error() == Some(ControllerUnrecoverable) {
      UnrecoverableIsEmergency(p);
    }
  }

  /** Something other than the interruption flags is demanded than when the procedure was started. */
  ghost predicate Changed(p: Proc, demand: Demand) {
    p.demand.state != demand.state || p.demand.contexts != demand.contexts || p.demand.program != demand.program
  }

  ghost predicate NonePending(p: Proc) {
    forall i :: 0 <= i < |p.work.calls| ==> !p.work.calls[i].outcome.Pending?
  }

  /** No lifecycle task is under way and the controller reports that it operates. */
  ghost predicate Between(p: Proc, actual: Actual) {
    NonePending(p) && actual.current == InState(Operate) && actual.target.None?
  }

  /** The controller no longer reports the demanded state and context. */
  ghost predicate Lost(demand: Demand, actual: Actual)
    requires demand.state.Some?
  {
    actual.current != InState(demand.state.value) || actual.target.Some? || actual.context != demand.contexts
  }

  /** The current procedure, if there is one, has been interrupted. */
  ghost predicate Halted(w: World) {
    w.current.Some? ==> LevelOf(w) != Uninterrupted
  }

  /** Every start of a procedure leaves a mark. */
  lemma MoveHalts(w: World, s: Setup, e: Event)
    requires Can(w, e) && Halted(w) && !Halted(Move(w, s, e))
    ensures |w.log| < |Move(w, s, e).log| && Move(w, s, e).log[|Move(w, s, e).log| - 1].Started?
  {
    match e
    case Evaluation(input) =>
      EvaluateHalts(w, s, input);
      hide Evaluate;
    case _ =>
  }

  lemma ConcludeGrows(w: World, c: Config, p: Proc)
    ensures w.log <= Conclude(w, c, p).log && Conclude(w, c, p).current.None?
  {
  }

  lemma DispatchGrows(w: World, s: Setup, input: Input)
    requires w.current.None? && input.demand.state.Some?
    ensures var v := Dispatch(w, s, input);
      w.log <= v.log && (v.current.Some? ==> |w.log| < |v.log| && v.log[|v.log| - 1].Started?)
  {
    SettlingOnly(Expire(w, s.failure), s, input);
  }

  lemma EvaluateHalts(w: World, s: Setup, input: Input)
    ensures var v := Evaluate(w, s, input);
      && w.log <= v.log
      && (Halted(w) ==> Halted(v) || (|w.log| < |v.log| && v.log[|v.log| - 1].Started?))
  {
    var done := w.current.Some? && w.current.value.IsDone();
    var u := if done then Conclude(w, s.failure, w.current.value) else w;
    if done {
      ConcludeGrows(w, s.failure, w.current.value);
    }
    hide Conclude;
    if u.alive && input.healthy && u.current.None? && input.enabled && input.demand.state.Some? {
      DispatchGrows(u, s, input);
      hide Dispatch;
    }
  }

  lemma LogGrows(w: World, s: Setup, e: Event)
    requires Can(w, e)
    ensures w.log <= Move(w, s, e).log
  {
    match e
    case Evaluation(input) =>
      EvaluateHalts(w, s, input);
      hide Evaluate;
    case _ =>
  }

  /** Once an evaluation has interrupted the procedure, no task is sent until another procedure has been started. */
  lemma {:induction false} NoSendOnceHalted(s: Setup, now: int, run: seq<Event>, k: nat, id: nat)
    requires Legal(s, now, run) && k <= |run| && Legal(s, now, run[..k]) && Halted(Replay(s, now, run[..k]))
    ensures Replay(s, now, run[..k]).log <= Replay(s, now, run).log
    ensures var log, later := Replay(s, now, run[..k]).log, Replay(s, now, run).log;
      (forall i :: |log| <= i < |later| ==> !later[i].Started?) ==>
        Halted(Replay(s, now, run)) && !Can(Replay(s, now, run), Step(Send(id)))
    decreases |run|
  {
    if k == |run| {
      assert run[..k] == run;
    } else {
      var front := run[..|run| - 1];
      assert front[..k] == run[..k];
      NoSendOnceHalted(s, now, front, k, id);
      var w, e := Replay(s, now, front), run[|run| - 1];
      LogGrows(w, s, e);
      if Halted(w) && !Halted(Move(w, s, e)) {
        MoveHalts(w, s, e);
      }
    }
  }

  /** Recovery attempts concluded since the counters were last reset. */
  ghost function AttemptsSince(log: seq<Mark>): nat {
    if log == [] then 0
    else match log[|log| - 1]
      case Reset(_) => 0
      case Attempted(_, _, _) => AttemptsSince(log[..|log| - 1]) + 1
      case _ => AttemptsSince(log[..|log| - 1])
  }

  /** Whether a failure was counted since a procedure was last started. */
  ghost predicate CountedSince(log: seq<Mark>) {
    log != [] && match log[|log| - 1]
      case Started(_, _) => false
      case Counted(_) => true
      case _ => CountedSince(log[..|log| - 1])
  }

  /** When the last recovery attempt failed short of the final one, if no recovery has started since. */
  ghost function LastFailed(log: seq<Mark>): Option<int> {
    if log == [] then None
    else match log[|log| - 1]
      case Started(Recover(_), _) => None
      case Attempted(at, ok, final) => if ok || final then None else Some(at)
      case _ => LastFailed(log[..|log| - 1])
  }

  /** What the next mark may be after `log`. */
  ghost predicate Follows(c: Config, log: seq<Mark>, m: Mark) {
    match m
    // Emergency shutdown only after exactly the configured number of concluded attempts.
    case Started(Recover(emergency), at) =>
      && (if emergency then AttemptsSince(log) == c.recoveryAttempts else AttemptsSince(log) < c.recoveryAttempts)
      // After a failed attempt that was not the final one, recovery waits.
      && (LastFailed(log).Some? && c.stablePeriod >= c.attemptDelay ==> at >= LastFailed(log).value + c.attemptDelay)
    case Counted(_) => !CountedSince(log)
    case Attempted(_, _, _) => AttemptsSince(log) < c.recoveryAttempts
    case _ => true
  }

  ghost predicate WellEscalated(c: Config, log: seq<Mark>) {
    log == [] || (WellEscalated(c, log[..|log| - 1]) && Follows(c, log[..|log| - 1], log[|log| - 1]))
  }

  /** Recovery is held back, or its delay has passed. */
  ghost predicate HeldBack(c: Config, w: World) {
    LastFailed(w.log).Some? && c.stablePeriod >= c.attemptDelay ==>
      var due := LastFailed(w.log).value + c.attemptDelay;
      || w.now >= due
      || (&& w.current.None? && w.failures.RecoveryDue(c)
          && w.failures.retryAt.Some? && w.failures.retryAt.value >= due
          && w.failures.stableSince.Some? && w.failures.stableSince.value >= LastFailed(w.log).value)
  }

  ghost predicate Escalation(c: Config, w: World) {
    && WellEscalated(c, w.log)
    && w.failures.attempts == AttemptsSince(w.log) <= c.recoveryAttempts
    && (w.current.Some? && w.current.value.kind == Recover(false) ==> w.failures.attempts < c.recoveryAttempts)
    && (w.current.Some? && w.current.value.kind.Recover? ==> w.failures.RecoveryDue(c))
    && (w.failures.error <==> CountedSince(w.log))
    && HeldBack(c, w)
    && (LastFailed(w.log).Some? ==> LastFailed(w.log).value <= w.now)
    && (w.current.Some? ==> FaultsFit(w.current.value))
    && (w.watched ==> !(w.current.Some? && w.current.value.kind.Recover?))
  }

  lemma Appended(c: Config, log: seq<Mark>, m: Mark)
    ensures (log + [m])[..|log|] == log
    ensures AttemptsSince(log + [m]) == match m
      case Reset(_) => 0
      case Attempted(_, _, _) => AttemptsSince(log) + 1
      case _ => AttemptsSince(log)
    ensures CountedSince(log + [m]) == match m
      case Started(_, _) => false
      case Counted(_) => true
      case _ => CountedSince(log)
    ensures LastFailed(log + [m]) == match m
      case Started(Recover(_), _) => None
      case Attempted(at, ok, final) => if ok || final then None else Some(at)
      case _ => LastFailed(log)
    ensures WellEscalated(c, log + [m]) == (WellEscalated(c, log) && Follows(c, log, m))
  {
    assert (log + [m])[..|log|] == log;
  }

  lemma EscalationExpire(c: Config, w: World)
    requires Escalation(c, w) && (w.current.Some? ==> w.current.value.kind.Reach?)
    ensures Escalation(c, Expire(w, c))
  {
    if w.failures.Stable(c, w.now) {
      Appended(c, w.log, Reset(w.now));
    } else {
      assert w.log + [] == w.log;
    }
  }

  lemma EscalationCount(c: Config, w: World)
    requires Escalation(c, w) && (w.current.Some? ==> w.current.value.kind.Reach?)
    ensures Escalation(c, CountFailure(w, c))
  {
    if !w.failures.error {
      EscalationExpire(c, w);
      EscalationCounted(c, Expire(w, c), w.failures.Failed(c, w.now));
    }
  }

  /** Counting a failure brings recovery no nearer than its delay. */
  lemma EscalationCounted(c: Config, w: World, f: Failures)
    requires Escalation(c, w) && (w.current.Some? ==> w.current.value.kind.Reach?) && !w.failures.error
    requires f.error && f.attempts == w.failures.attempts && f.failures == w.failures.failures + 1
    requires f.stableSince == Some(w.now) && (f.RecoveryDue(c) ==> f.retryAt == w.failures.retryAt)
    ensures Escalation(c, w.(failures := f, log := w.log + [Counted(w.now)]))
  {
    Appended(c, w.log, Counted(w.now));
    hide WellEscalated, AttemptsSince, CountedSince, LastFailed;
  }

  lemma EscalationAttempt(c: Config, w: World, p: Proc, past: seq<Proc>, ok: bool)
    requires Escalation(c, w) && w.current == Some(p) && p.kind == Recover(false)
    ensures var f := if ok then w.failures.Recovered(c, w.now) else w.failures.AttemptFailed(c, w.now);
      Escalation(c, w.(current := None, past := past, failures := f,
                       log := w.log + [Attempted(w.now, ok, f.EmergencyDue(c))]))
  {
    var f := if ok then w.failures.Recovered(c, w.now) else w.failures.AttemptFailed(c, w.now);
    Appended(c, w.log, Attempted(w.now, ok, f.EmergencyDue(c)));
  }

  lemma EscalationReset(c: Config, w: World, alive: bool, past: seq<Proc>, f: Failures)
    requires Escalation(c, w) && w.current.Some? && f.attempts == 0 && f.error == w.failures.error
    ensures
      Escalation(c, w.(alive := alive, current := None, past := past, failures := f, log := w.log + [Reset(w.now)]))
  {
    Appended(c, w.log, Reset(w.now));
  }

  lemma EscalationDrop(c: Config, w: World, alive: bool, past: seq<Proc>)
    requires Escalation(c, w) && w.current.Some?
    ensures Escalation(c, w.(alive := alive, current := None, past := past))
    ensures FaultsFit(w.current.value)
  {
  }

  lemma EscalationDelay(c: Config, w: World, past: seq<Proc>)
    requires Escalation(c, w) && w.current.Some?
    ensures Escalation(c, w.(current := None, past := past, failures := w.failures.RetryDelayed(c, w.now)))
  {
  }

  lemma EscalationConclude(c: Config, w: World, p: Proc)
    requires Escalation(c, w) && w.current == Some(p)
    ensures Escalation(c, Conclude(w, c, p))
  {
    hide Escalation;
    var kept := w.(current := None, past := w.past + [p]);
    EscalationDrop(c, w, false, w.past);
    EscalationDrop(c, w, w.alive, kept.past);
    if p.kind.Recover? {
      EscalationReset(c, w, false, w.past, w.failures.Cleared());
      EscalationReset(c, w, w.alive, kept.past, w.failures.EmergencyFailed(c, w.now));
      if !p.kind.emergency {
        EscalationAttempt(c, w, p, kept.past, true);
        EscalationAttempt(c, w, p, kept.past, false);
      }
    } else {
      EscalationCount(c, kept);
      EscalationDelay(c, w, kept.past);
    }
  }

  lemma EscalationLaunch(c: Config, w: World, kind: Kind, demand: Demand)
    requires Escalation(c, w) && w.current.None?
    requires match kind
      case Recover(emergency) =>
        w.failures.RecoveryDue(c) && emergency == w.failures.EmergencyDue(c) && !w.failures.Waiting(w.now)
      case Reach(_) => !w.failures.RecoveryDue(c)
    ensures Escalation(c, Launch(w, kind, demand))
  {
    Appended(c, w.log, Started(kind, w.now));
  }

  lemma EscalationDispatch(s: Setup, w: World, input: Input)
    requires Escalation(s.failure, w) && w.current.None? && input.demand.state.Some?
    ensures Escalation(s.failure, Dispatch(w, s, input))
  {
    hide Escalation, Settling;
    EscalationExpire(s.failure, w);
    var v := Expire(w, s.failure);
    SettlingOnly(v, s, input);
    var u := Settling(v, s, input).0;
    EscalationWait(s.failure, v, u.settleWait);
    if v.failures.RecoveryDue(s.failure) {
      if !v.failures.Waiting(v.now) {
        EscalationLaunch(s.failure, v, Recover(v.failures.EmergencyDue(s.failure)), input.demand);
      }
    } else {
      EscalationLaunch(s.failure, u, Reach(input.demand.state.value), input.demand);
    }
  }

  lemma EscalationWait(c: Config, w: World, wait: Option<Wait>)
    requires Escalation(c, w)
    ensures Escalation(c, w.(settleWait := wait))
  {
  }

  /** Ending a run, or interrupting its procedure, touches no count. */
  lemma EscalationOther(c: Config, w: World, alive: bool, level: Level)
    requires Escalation(c, w)
    ensures Escalation(c, w.(alive := alive))
    ensures var current := if w.current.None? then None else Some(Interrupt(w.current.value, level));
      Escalation(c, w.(alive := alive, current := current))
  {
  }

  lemma EscalationEvaluate(s: Setup, w: World, input: Input)
    requires Escalation(s.failure, w)
    ensures Escalation(s.failure, Evaluate(w, s, input))
  {
    hide Escalation, Conclude, Dispatch;
    var v := w;
    if w.current.Some? && w.current.value.IsDone() {
      EscalationConclude(s.failure, w, w.current.value);
      v := Conclude(w, s.failure, w.current.value);
    }
    if v.current.Some? {
      EscalationOther(s.failure, v, v.alive,
        InterruptKind(input.enabled, input.demand, v.failures.error, v.current.value, input.actual));
    }
    EscalationOther(s.failure, v, false, Uninterrupted);
    if v.current.None? && input.demand.state.Some? {
      EscalationDispatch(s, v, input);
    }
  }

  lemma EscalationBegin(s: Setup, w: World, reportsError: bool)
    requires Escalation(s.failure, w) && Can(w, Begin(reportsError))
    ensures Escalation(s.failure, Move(w, s, Begin(reportsError)))
  {
    Appended(s.failure, w.log, Began);
    var log := w.log + [Began];
    var v := w.(alive := true, current := None, settleWait := None, past := [], log := log, watched := true);
    assert Escalation(s.failure, v);
    EscalationExpire(s.failure, v);
  }

  lemma EscalationMove(s: Setup, w: World, e: Event)
    requires Escalation(s.failure, w) && Can(w, e)
    ensures Escalation(s.failure, Move(w, s, e))
  {
    hide WellEscalated, AttemptsSince, CountedSince, LastFailed, Next, Evaluate, CountFailure;
    match e
    case Begin(reportsError) => EscalationBegin(s, w, reportsError);
    case Step(pe) =>
      StepFaults(w.current.value, pe);
      StepSettles(w.current.value, pe);
    case StateFails => EscalationCount(s.failure, w);
    case Evaluation(input) => EscalationEvaluate(s, w, input);
    case Leave => EscalationOther(s.failure, w, false, Abort);
    case Tick(_) =>
  }

  /** In every run of reactors over one failure history, the history is well escalated and attempts stay bounded. */
  lemma {:induction false} RunEscalation(s: Setup, now: int, run: seq<Event>)
    requires Legal(s, now, run)
    ensures Escalation(s.failure, Replay(s, now, run))
  {
    if run != [] {
      RunEscalation(s, now, run[..|run| - 1]);
      EscalationMove(s, Replay(s, now, run[..|run| - 1]), run[|run| - 1]);
    }
  }

  lemma {:induction false} MarkFollows(c: Config, log: seq<Mark>, i: nat)
    requires WellEscalated(c, log) && i < |log|
    ensures Follows(c, log[..i], log[i])
  {
    var front := log[..|log| - 1];
    if i < |front| {
      assert front[..i] == log[..i];
      MarkFollows(c, front, i);
    }
  }

  /** Recovery, emergency shutdown and failure counting follow the configured escalation at every point of a run. */
  lemma Escalates(s: Setup, now: int, run: seq<Event>, i: nat)
    requires Legal(s, now, run) && i < |Replay(s, now, run).log|
    ensures var w := Replay(s, now, run); Follows(s.failure, w.log[..i], w.log[i])
    ensures Replay(s, now, run).failures.attempts <= s.failure.recoveryAttempts
  {
    RunEscalation(s, now, run);
    MarkFollows(s.failure, Replay(s, now, run).log, i);
  }

  /** At most one failure counts between two procedure starts. */
  lemma {:induction false} OneFailurePerProcedure(c: Config, log: seq<Mark>, i: nat, j: nat) returns (k: nat)
    requires WellEscalated(c, log) && i < j < |log| && log[i].Counted? && log[j].Counted?
    ensures i < k < j && log[k].Started?
  {
    MarkFollows(c, log, j);
    k := StartedBetween(log[..j], i);
  }

  lemma {:induction false} StartedBetween(log: seq<Mark>, i: nat) returns (k: nat)
    requires i < |log| && log[i].Counted? && !CountedSince(log)
    ensures i < k < |log| && log[k].Started?
  {
    k := |log| - 1;
    if !log[k].Started? {
      k := StartedBetween(log[..k], i);
    }
  }

  // ---- The reactor object -----------------------------------------------------------------

  /** The reactor over its shared failure state; its methods make exactly the decisions above. */
  class ControllerReactor {
    const setup: Setup
    const failureState: FailureState
    var procedure: LifecycleProcedure?
    var settleWait: Option<Wait>
    var alive: bool
    ghost var past: seq<Proc>
    ghost var log: seq<Mark>
    ghost var watched: bool

    ghost predicate Valid()
      reads this, failureState
    {
      failureState.config == setup.failure
    }

    ghost function Now(now: int): World
      reads this, failureState, procedure
    {
      var current := if procedure == null then None else Some(procedure.Now());
      World(now, failureState.Now(), current, settleWait, alive, past, log, watched)
    }

    constructor (s: Setup, f: FailureState)
      requires f.config == s.failure
      ensures setup == s && failureState == f && Valid()
      ensures forall now :: Now(now) == World(now, f.Now(), None, None, true, [], [], true)
    {
      setup, failureState := s, f;
      procedure, settleWait, alive := null, None, true;
      past, log, watched := [], [], true;
    }

    method StartProcedure(now: int, kind: Kind, demand: Demand)
      requires Valid()
      modifies this`procedure, this`log, this`watched, failureState
      ensures Valid() && Now(now) == Launch(old(Now(now)), kind, demand) && fresh(procedure)
    {
      procedure := new LifecycleProcedure(kind, demand);
      failureState.BeginProcedure();
      log, watched := log + [Started(kind, now)], watched && kind.Reach?;
    }

    method ExpireCounts(now: int)
      requires Valid()
      modifies this`log, failureState
      ensures Valid() && Now(now) == Expire(old(Now(now)), setup.failure)
    {
      log := log + ResetMark(setup.failure, failureState.Now(), now);
      failureState.Expire(now);
    }

    method CountControllerFailure(now: int)
      requires Valid()
      modifies this`log, failureState
      ensures Valid() && Now(now) == CountFailure(old(Now(now)), setup.failure)
    {
      if !failureState.error {
        log := log + ResetMark(setup.failure, failureState.Now(), now) + [Counted(now)];
      }
      failureState.RecordFailure(now);
    }

    method ConcludeProcedure(now: int)
      requires Valid() && procedure != null
      modifies this`procedure, this`alive, this`past, this`log, failureState
      ensures Valid() && Now(now) == Conclude(old(Now(now)), setup.failure, old(procedure.Now())) && procedure == null
      // Unresolved work, a controller offline or beyond recovery end the run; all else is filed.
      ensures old(procedure.unresolved) ==> !alive && failureState.Now() == old(failureState.Now())
      ensures old(alive) ==> (alive <==>
        !old(procedure.unresolved) && old(procedure.Now().Error()) != Some(ControllerOffline)
        && !(old(procedure).kind.Recover? && old(procedure.Now().Error()) == Some(ControllerUnrecoverable)))
      ensures old(alive) && alive ==> past == old(past) + [old(procedure.Now())]
      // An attempt is counted exactly when a recovery, not an emergency shutdown, succeeded or failed.
      ensures old(alive) && alive && old(procedure).kind == Recover(false) ==>
        failureState.attempts == old(failureState.attempts) +
          if old(procedure.recovered) || old(procedure.Now().Error()).Some? then 1 else 0
      ensures old(alive) && alive && old(procedure).kind.Reach? && old(procedure.Now().Error()).None? ==>
        failureState.Now() == old(failureState.Now())
    {
      var p := procedure.Now();
      var error := p.Error();
      procedure := null;
      if p.status.unresolved || error == Some(ControllerOffline) {
        alive := false;
        return;
      }
      if p.kind.Recover? && error == Some(ControllerUnrecoverable) {
        failureState.Clear();
        alive := false;
        log := log + [Reset(now)];
        return;
      }
      past := past + [p];
      if p.kind.Recover? {
        if p.status.recovered {
          failureState.RecordRecovery(now);
          log := log + [Attempted(now, true, failureState.Now().EmergencyDue(setup.failure))];
        } else if error.None? {
        } else if p.kind.emergency {
          failureState.RecordFailedEmergency(now);
          log := log + [Reset(now)];
        } else {
          failureState.RecordFailedAttempt(now);
          log := log + [Attempted(now, false, failureState.Now().EmergencyDue(setup.failure))];
        }
      } else if error.Some? && !failureState.error {
        if error.value.ControllerFailure? {
          CountControllerFailure(now);
        } else {
          failureState.DelayRetry(now);
        }
      }
    }

    method DispatchDemand(now: int, input: Input)
      requires Valid() && input.demand.state.Some?
      modifies this`procedure, this`settleWait, this`log, this`watched, failureState
      ensures Valid() && Now(now) == Dispatch(old(Now(now)), setup, input)
      // What is started is recovery exactly when that is due, and nothing is started while a delay holds it back.
      ensures var counts := old(failureState.Now()).Expired(setup.failure, now);
        var recover := counts.RecoveryDue(setup.failure);
        var kind := if recover then Recover(counts.EmergencyDue(setup.failure)) else Reach(input.demand.state.value);
        procedure != old(procedure) ==> procedure != null && procedure.kind == kind
      ensures var counts := old(failureState.Now()).Expired(setup.failure, now);
        var delays := counts.RecoveryDue(setup.failure) || input.demand.state.value != Shutdown;
        counts.Waiting(now) && delays ==> procedure == old(procedure)
    {
      ExpireCounts(now);
      var failures := failureState.Now();
      if failures.RecoveryDue(setup.failure) {
        if !failures.Waiting(now) {
          StartProcedure(now, Recover(failures.EmergencyDue(setup.failure)), input.demand);
        }
        return;
      }
      if input.demand.state.value != Shutdown && failures.Waiting(now) {
        return;
      }
      var settling := Settle(now, input);
      if !settling {
        StartProcedure(now, Reach(input.demand.state.value), input.demand);
      }
    }

    method Settle(now: int, input: Input) returns (settling: bool)
      requires Valid()
      modifies this`settleWait
      ensures Valid() && (Now(now), settling) == Settling(old(Now(now)), setup, input)
      // A controller on its way to the demanded state is waited for until the settle timeout since it was first seen,
      // or the end of its execution if that comes first.
      ensures settling ==>
        && input.execution.Some? && input.actual.current == InTransition
        && input.actual.target == input.demand.state && input.actual.context == input.demand.contexts
        && settleWait.Some? && settleWait.value.taskId == input.execution.value.taskId
        && now < settleWait.value.since + setup.settleTimeout
        && (input.execution.value.remaining.Some? ==> input.execution.value.remaining.value > 0)
    {
      if input.execution.None? || input.actual.current != InTransition || input.actual.target != input.demand.state
         || input.actual.context != input.demand.contexts {
        return false;
      }
      var execution := input.execution.value;
      if settleWait.None? || settleWait.value.taskId != execution.taskId {
        settleWait := Some(Wait(execution.taskId, now));
      }
      var until := settleWait.value.since + setup.settleTimeout;
      if execution.remaining.Some? && now + execution.remaining.value < until {
        until := now + execution.remaining.value;
      }
      return now < until;
    }

    method EvaluateInput(now: int, input: Input)
      requires Valid() && alive
      modifies this`procedure, this`settleWait, this`alive, this`past, this`log, this`watched, failureState, procedure
      ensures Valid() && Now(now) == Evaluate(old(Now(now)), setup, input)
    {
      if procedure != null && procedure.phase == Done {
        ConcludeProcedure(now);
        if !alive {
          return;
        }
      }
      if !input.healthy {
        alive := false;
        return;
      }
      if procedure != null {
        match InterruptKind(input.enabled, input.demand, failureState.error, procedure.Now(), input.actual) {
          case Uninterrupted =>
          case Stop => procedure.AskStop();
          case Abort => procedure.AskAbort();
        }
        return;
      }
      if !input.enabled {
        alive := false;
        return;
      }
      if input.demand.state.Some? {
        DispatchDemand(now, input);
      }
    }
  }
}
