/** When the delay after a failed recovery attempt is kept: exactly when, over every run, and a run that breaks it
    otherwise. */
module RecoveryDelay {
  import opened Prelude
  import opened Failure
  import opened Procedure
  import opened Reactor

  /** Every recovery waits out the delay of the failed, non-final attempt before it. */
  ghost predicate Waited(c: Config, log: seq<Mark>) {
    forall i :: 0 <= i < |log| ==> WaitedAt(c, log[..i], log[i])
  }

  ghost predicate WaitedAt(c: Config, log: seq<Mark>, m: Mark) {
    m.Started? && m.kind.Recover? && LastFailed(log).Some? ==> m.at >= LastFailed(log).value + c.attemptDelay
  }

  /** The counts outlive the delay, or else never expire into a fresh start: recovery is then always due, never due,
      or has no attempt but the final one. */
  predicate Patient(c: Config) {
    c.stablePeriod >= c.attemptDelay || c.stablePeriod <= 0 || c.recoverAfter <= 0 || c.recoveryAttempts <= 1
  }

  lemma WaitedMore(c: Config, log: seq<Mark>, m: Mark)
    ensures Waited(c, log + [m]) <==> Waited(c, log) && WaitedAt(c, log, m)
  {
    assert (log + [m])[..|log|] == log;
    assert forall i :: 0 <= i < |log| ==> (log + [m])[..i] == log[..i];
    if Waited(c, log + [m]) {
      assert WaitedAt(c, (log + [m])[..|log|], (log + [m])[|log|]);
      forall i | 0 <= i < |log|
        ensures WaitedAt(c, log[..i], log[i])
      {
        assert WaitedAt(c, (log + [m])[..i], (log + [m])[i]);
      }
    }
  }

  // ---- Configurations without a second attempt --------------------------------------------

  /** What holds at every point of a run whose configuration leaves nothing to wait for. */
  ghost predicate Idle(c: Config, w: World) {
    && Waited(c, w.log) && w.failures.failures >= 0
    && if c.recoverAfter <= 0 then AlwaysDue(c, w)
       else LastFailed(w.log).None? && (c.stablePeriod <= 0 ==> NeverDue(c, w))
  }

  ghost predicate AlwaysDue(c: Config, w: World) {
    && (w.current.Some? ==> w.current.value.kind.Recover? && LastFailed(w.log).None?)
    && (LastFailed(w.log).Some? ==>
          w.failures.retryAt.Some? && w.failures.retryAt.value >= LastFailed(w.log).value + c.attemptDelay)
  }

  ghost predicate NeverDue(c: Config, w: World) {
    && (w.current.Some? ==> w.current.value.kind.Reach?)
    && (w.failures.failures > 0 ==> w.failures.stableSince.Some? && w.failures.stableSince.value <= w.now)
  }

  predicate Degenerate(c: Config) {
    c.stablePeriod <= 0 || c.recoverAfter <= 0 || c.recoveryAttempts <= 1
  }

  lemma LogMore(c: Config, log: seq<Mark>, m: Mark)
    ensures Waited(c, log + [m]) <==> Waited(c, log) && WaitedAt(c, log, m)
    ensures LastFailed(log + [m]) == match m
      case Started(Recover(_), _) => None
      case Attempted(at, ok, final) => if ok || final then None else Some(at)
      case _ => LastFailed(log)
  {
    WaitedMore(c, log, m);
    Appended(c, log, m);
  }

  lemma ResetQuiet(c: Config, log: seq<Mark>, f: Failures, now: int)
    requires Waited(c, log)
    ensures Waited(c, log + ResetMark(c, f, now)) && LastFailed(log + ResetMark(c, f, now)) == LastFailed(log)
  {
    LogMore(c, log, Reset(now));
    assert log + [] == log;
  }

  lemma IdleExpire(c: Config, w: World)
    requires Degenerate(c) && Idle(c, w)
    ensures Idle(c, Expire(w, c))
    ensures c.recoverAfter > 0 && c.stablePeriod <= 0 ==> !Expire(w, c).failures.RecoveryDue(c)
  {
    ResetQuiet(c, w.log, w.failures, w.now);
  }

  lemma IdleCount(c: Config, w: World)
    requires Degenerate(c) && Idle(c, w)
    ensures Idle(c, CountFailure(w, c))
  {
    var log := w.log + ResetMark(c, w.failures, w.now);
    ResetQuiet(c, w.log, w.failures, w.now);
    LogMore(c, log, Counted(w.now));
    hide Waited, LastFailed;
    if !w.failures.error {
      assert CountFailure(w, c).log == log + [Counted(w.now)];
    }
  }

  lemma IdleConclude(c: Config, w: World, p: Proc)
    requires Degenerate(c) && Idle(c, w) && Escalation(c, w) && w.current == Some(p)
    ensures Idle(c, Conclude(w, c, p))
  {
    hide Waited, AttemptsSince, CountedSince, LastFailed, WellEscalated;
    LogMore(c, w.log, Reset(w.now));
    forall ok, final
      ensures Waited(c, w.log + [Attempted(w.now, ok, final)])
      ensures LastFailed(w.log + [Attempted(w.now, ok, final)]) == if ok || final then None else Some(w.now)
    {
      LogMore(c, w.log, Attempted(w.now, ok, final));
    }
    IdleCount(c, w.(current := None, past := w.past + [p]));
  }

  lemma IdleLaunch(c: Config, w: World, kind: Kind, demand: Demand)
    requires Degenerate(c) && Idle(c, w)
    requires kind.Recover? <==> w.failures.RecoveryDue(c)
    requires kind.Recover? ==> !w.failures.Waiting(w.now)
    requires c.recoverAfter > 0 && c.stablePeriod <= 0 ==> kind.Reach?
    ensures Idle(c, Launch(w, kind, demand))
  {
    LogMore(c, w.log, Started(kind, w.now));
  }

  lemma IdleDispatch(s: Setup, w: World, input: Input)
    requires Degenerate(s.failure) && Idle(s.failure, w) && w.current.None? && input.demand.state.Some?
    ensures Idle(s.failure, Dispatch(w, s, input))
  {
    var c := s.failure;
    IdleExpire(c, w);
    var e := Expire(w, c);
    if e.failures.RecoveryDue(c) {
      if !e.failures.Waiting(e.now) {
        IdleLaunch(c, e, Recover(e.failures.EmergencyDue(c)), input.demand);
      }
    } else if input.demand.state.value == Shutdown || !e.failures.Waiting(e.now) {
      SettlingOnly(e, s, input);
      var v := Settling(e, s, input).0;
      assert Idle(c, v);
      IdleLaunch(c, v, Reach(input.demand.state.value), input.demand);
    }
  }

  lemma IdleEvaluate(s: Setup, w: World, input: Input)
    requires Degenerate(s.failure) && Idle(s.failure, w) && Escalation(s.failure, w)
    ensures Idle(s.failure, Evaluate(w, s, input))
  {
    var c := s.failure;
    var done := w.current.Some? && w.current.value.IsDone();
    var v := if done then Conclude(w, c, w.current.value) else w;
    if done {
      IdleConclude(c, w, w.current.value);
    }
    assert Idle(c, v);
    hide Conclude, Waited, LastFailed;
    if v.alive && input.healthy && v.current.None? && input.enabled && input.demand.state.Some? {
      IdleDispatch(s, v, input);
    } else if v.current.Some? {
      var p := v.current.value;
      var level := InterruptKind(input.enabled, input.demand, v.failures.error, p, input.actual);
      assert Interrupt(p, level).kind == p.kind;
      assert Idle(c, v.(current := Some(Interrupt(p, level))));
      assert Idle(c, v.(alive := false));
    }
  }

  lemma IdleMove(s: Setup, w: World, e: Event)
    requires Degenerate(s.failure) && Idle(s.failure, w) && Escalation(s.failure, w) && Can(w, e)
    ensures Idle(s.failure, Move(w, s, e))
  {
    hide Waited, LastFailed, Escalation, Evaluate, Next;
    var c := s.failure;
    match e
    case StateFails => IdleCount(c, w);
    case Evaluation(input) => IdleEvaluate(s, w, input);
    case Step(pe) => StepSettles(w.current.value, pe);
    case Begin(_) =>
      LogMore(c, w.log, Began);
      ResetQuiet(c, w.log + [Began], w.failures, w.now);
    case _ =>
  }

  lemma {:induction false} RunIdle(s: Setup, now: int, run: seq<Event>)
    requires Degenerate(s.failure) && Legal(s, now, run)
    ensures Idle(s.failure, Replay(s, now, run))
  {
    if run != [] {
      var front := run[..|run| - 1];
      RunIdle(s, now, front);
      RunEscalation(s, now, front);
      IdleMove(s, Replay(s, now, front), run[|run| - 1]);
    }
  }

  lemma PatientWaits(s: Setup, now: int, run: seq<Event>)
    requires Patient(s.failure) && Legal(s, now, run)
    ensures Waited(s.failure, Replay(s, now, run).log)
  {
    var c, log := s.failure, Replay(s, now, run).log;
    if c.stablePeriod >= c.attemptDelay {
      forall i | 0 <= i < |log|
        ensures WaitedAt(c, log[..i], log[i])
      {
        Escalates(s, now, run, i);
      }
    } else {
      RunIdle(s, now, run);
    }
  }

  // ---- A run that does not wait -----------------------------------------------------------

  const SHUTDOWN := Demand(Some(Shutdown), 0, None, false, false)

  /** A reactor asked, throughout, to shut its controller down. */
  const SHUT := Input(true, SHUTDOWN, true, Actual(InUnknown, None, 0), None)

  lemma Then(s: Setup, now: int, run: seq<Event>, e: Event) returns (longer: seq<Event>, w: World)
    requires Legal(s, now, run) && Can(Replay(s, now, run), e)
    ensures longer == run + [e] && Legal(s, now, longer)
    ensures w == Replay(s, now, longer) == Move(Replay(s, now, run), s, e)
  {
    longer := run + [e];
    assert longer[..|run|] == run;
    w := Replay(s, now, longer);
  }

  lemma Steps(s: Setup, now: int, run: seq<Event>, p: Proc, e: ProcEvent)
      returns (longer: seq<Event>, w: World, q: Proc)
    requires Legal(s, now, run) && Replay(s, now, run).current == Some(p) && Enabled(p, e)
    ensures Legal(s, now, longer) && w == Replay(s, now, longer) && q == Next(p, e)
    ensures w == Replay(s, now, run).(current := Some(q), watched := w.watched)
  {
    longer, w := Then(s, now, run, Step(e));
    q := Next(p, e);
  }

  /** A shutdown has just been started, `k` failures having been counted. */
  ghost predicate ShuttingDown(c: Config, w: World, k: int) {
    && w.alive && w.current == Some(Fresh(Reach(Shutdown), SHUTDOWN)) && w.settleWait.None?
    && w.failures.failures == k && w.failures.attempts == 0 && !w.failures.error && w.failures.retryAt.None?
    && (k > 0 ==> w.failures.stableSince == Some(w.now))
  }

  ghost predicate Recovering(c: Config, w: World) {
    && w.alive && w.current == Some(Fresh(Recover(false), SHUTDOWN)) && w.settleWait.None?
    && w.failures.failures >= c.recoverAfter && w.failures.attempts == 0
    && !w.failures.error && w.failures.retryAt.None?
    && w.log != [] && w.log[|w.log| - 1] == Started(Recover(false), w.now)
  }

  ghost predicate Impatient(c: Config) {
    c.recoverAfter > 0 && 0 < c.stablePeriod < c.attemptDelay && c.recoveryAttempts > 1
  }

  lemma CountQuiet(w: World, c: Config)
    ensures LastFailed(CountFailure(w, c).log) == LastFailed(w.log)
  {
    var reset := ResetMark(c, w.failures, w.now);
    Appended(c, w.log, Reset(w.now));
    Appended(c, w.log + reset, Counted(w.now));
    assert w.log + [] == w.log;
  }

  /** How the lifecycle task of a procedure ended, and the fault its logic makes of that. */
  datatype BadEnd = BadEnd(outcome: CallOutcome, fault: Fault) {
    predicate Valid() {
      this == TASK_FAILED || this == TASK_REJECTED
    }
  }

  const TASK_FAILED := BadEnd(TaskFailed(false), ControllerFailure)
  const TASK_REJECTED := BadEnd(Rejected, OtherError)

  /** The logic of a procedure has sent its task, which ended badly, and has thrown: it is to stop gracefully. */
  function Thrown(kind: Kind, f: BadEnd): Proc {
    Proc(kind, SHUTDOWN, Control(Between, Stop, false), Work([], [Call(0, f.outcome)], {}),
         Status(false, false, false, false), Faults(Some(f.fault), None, None))
  }

  /** And has stopped. */
  function Stopped(kind: Kind, f: BadEnd): Proc {
    Thrown(kind, f).(control := Control(Done, Stop, false))
  }

  /** The procedure's task has ended badly and is no longer tracked. */
  function TaskOver(kind: Kind, f: BadEnd): Proc {
    Fresh(kind, SHUTDOWN).(control := Control(Logic, Uninterrupted, false), work := Work([], [Call(0, f.outcome)], {}))
  }

  lemma TaskEnds(s: Setup, now: int, run: seq<Event>, kind: Kind, f: BadEnd) returns (longer: seq<Event>, w: World)
    requires Legal(s, now, run) && Replay(s, now, run).current == Some(Fresh(kind, SHUTDOWN)) && f.Valid()
    ensures Legal(s, now, longer) && w == Replay(s, now, longer)
    ensures w == Replay(s, now, run).(current := Some(TaskOver(kind, f)), watched := w.watched)
  {
    hide Legal, Replay, SetsExpectation;
    var p;
    longer, w, p := Steps(s, now, run, Fresh(kind, SHUTDOWN), Start);
    longer, w, p := Steps(s, now, longer, p, Probe(true));
    longer, w, p := Steps(s, now, longer, p, Send(0));
    longer, w, p := Steps(s, now, longer, p, Settle(0, f.outcome));
    longer, w, p := Steps(s, now, longer, p, Release(0));
    assert p.work.calls == [] && p.work.released == [Call(0, f.outcome)];
  }

  lemma LogicFails(s: Setup, now: int, run: seq<Event>, kind: Kind, f: BadEnd) returns (longer: seq<Event>, w: World)
    requires Legal(s, now, run) && Replay(s, now, run).current == Some(Fresh(kind, SHUTDOWN)) && f.Valid()
    ensures Legal(s, now, longer) && w == Replay(s, now, longer)
    ensures w == Replay(s, now, run).(current := Some(Stopped(kind, f)), watched := w.watched)
  {
    hide Legal, Replay, SetsExpectation;
    longer, w := TaskEnds(s, now, run, kind, f);
    var p;
    longer, w, p := Steps(s, now, longer, TaskOver(kind, f), LogicEnds(Threw(f.fault)));
    assert p == Thrown(kind, f);
    hide TaskOver, Fresh;
    longer, w, p := Steps(s, now, longer, p, BeginStop);
    longer, w, p := Steps(s, now, longer, p, StopEnds(true));
    longer, w, p := Steps(s, now, longer, p, Finish);
  }

  /** The failed shutdown is counted, and started again or given up for recovery. */
  lemma ShutdownEnds(s: Setup, w: World, k: nat)
    requires Impatient(s.failure) && k < s.failure.recoverAfter
    requires w.alive && w.current == Some(Stopped(Reach(Shutdown), TASK_FAILED)) && w.settleWait.None?
    requires w.failures.failures == k && w.failures.attempts == 0 && !w.failures.error && w.failures.retryAt.None?
    requires k > 0 ==> w.failures.stableSince == Some(w.now)
    ensures var v, counted := Evaluate(w, s, SHUT), CountFailure(w, s.failure).log;
      && v.now == w.now
      && if k + 1 < s.failure.recoverAfter
         then ShuttingDown(s.failure, v, k + 1) && v.log == counted + [Started(Reach(Shutdown), w.now)]
         else Recovering(s.failure, v) && v.log == counted + [Started(Recover(false), w.now)]
  {
    var p, c := Stopped(Reach(Shutdown), TASK_FAILED), s.failure;
    assert p.Error() == Some(ControllerFailure);
    var v := Conclude(w, c, p);
    assert v == CountFailure(w.(current := None, past := w.past + [p]), c);
    assert v.failures.failures == k + 1 && v.failures.stableSince == Some(w.now);
    assert v.log + [] == v.log;
  }

  /** A shutdown that fails once more is started again, or gives way to recovery. */
  lemma FailOnce(s: Setup, now: int, run: seq<Event>, k: nat) returns (longer: seq<Event>, w: World)
    requires Impatient(s.failure) && Legal(s, now, run) && k < s.failure.recoverAfter
    requires ShuttingDown(s.failure, Replay(s, now, run), k)
    ensures Legal(s, now, longer) && w == Replay(s, now, longer) && w.now == Replay(s, now, run).now
    ensures if k + 1 < s.failure.recoverAfter
            then ShuttingDown(s.failure, w, k + 1) && LastFailed(w.log) == LastFailed(Replay(s, now, run).log)
            else Recovering(s.failure, w) && LastFailed(w.log[..|w.log| - 1]) == LastFailed(Replay(s, now, run).log)
  {
    hide Legal, Replay, LastFailed, Fresh, Evaluate, CountFailure;
    longer, w := LogicFails(s, now, run, Reach(Shutdown), TASK_FAILED);
    var counted := CountFailure(w, s.failure).log;
    CountQuiet(w, s.failure);
    ShutdownEnds(s, w, k);
    longer, w := Then(s, now, longer, Evaluation(SHUT));
    Appended(s.failure, counted, w.log[|w.log| - 1]);
  }

  lemma {:induction false} FailUntilRecovery(s: Setup, now: int, run: seq<Event>, k: nat)
      returns (longer: seq<Event>, w: World)
    requires Impatient(s.failure) && Legal(s, now, run) && k < s.failure.recoverAfter
    requires ShuttingDown(s.failure, Replay(s, now, run), k)
    ensures Legal(s, now, longer) && w == Replay(s, now, longer) && w.now == Replay(s, now, run).now
    ensures Recovering(s.failure, w) && LastFailed(w.log[..|w.log| - 1]) == LastFailed(Replay(s, now, run).log)
    decreases s.failure.recoverAfter - k
  {
    longer, w := FailOnce(s, now, run, k);
    if k + 1 < s.failure.recoverAfter {
      longer, w := FailUntilRecovery(s, now, longer, k + 1);
    }
  }

  /** A failed attempt has ended: the retry delay begins, and is still running. */
  lemma AttemptEnds(s: Setup, w: World)
    requires Impatient(s.failure) && w.alive && w.current == Some(Stopped(Recover(false), TASK_REJECTED))
    requires w.failures.failures >= s.failure.recoverAfter && w.failures.attempts == 0 && !w.failures.error
    ensures var v := Evaluate(w, s, SHUT);
      && v.now == w.now && v.alive && v.current.None? && v.settleWait == w.settleWait && !v.failures.error
      && v.failures.stableSince == Some(w.now) && v.log == w.log + [Attempted(w.now, false, false)]
  {
    var v := Conclude(w, s.failure, w.current.value);
    assert v.log == w.log + [Attempted(w.now, false, false)];
    assert v.log + [] == v.log;
  }

  /** The recovery attempt fails, and the next evaluation leaves the retry delay running. */
  lemma AttemptFails(s: Setup, now: int, run: seq<Event>) returns (longer: seq<Event>, w: World)
    requires Impatient(s.failure) && Legal(s, now, run) && Recovering(s.failure, Replay(s, now, run))
    ensures Legal(s, now, longer) && w == Replay(s, now, longer) && w.now == Replay(s, now, run).now
    ensures w.alive && w.current.None? && w.settleWait.None? && !w.failures.error
    ensures w.failures.stableSince == Some(w.now) && LastFailed(w.log) == Some(w.now)
  {
    hide Legal, Replay, LastFailed, Fresh, Evaluate;
    longer, w := LogicFails(s, now, run, Recover(false), TASK_REJECTED);
    var ended := w;
    AttemptEnds(s, w);
    longer, w := Then(s, now, longer, Evaluation(SHUT));
    Appended(s.failure, ended.log, Attempted(w.now, false, false));
  }

  /** The stable period passes before the delay does, and the shutdown starts over with all counts reset. */
  lemma CountsExpire(s: Setup, now: int, run: seq<Event>) returns (longer: seq<Event>, w: World)
    requires Impatient(s.failure) && Legal(s, now, run)
    requires var w := Replay(s, now, run);
      w.alive && w.current.None? && w.settleWait.None? && !w.failures.error && w.failures.stableSince == Some(w.now)
    ensures Legal(s, now, longer) && w == Replay(s, now, longer)
    ensures w.now == Replay(s, now, run).now + s.failure.stablePeriod
    ensures ShuttingDown(s.failure, w, 0) && LastFailed(w.log) == LastFailed(Replay(s, now, run).log)
  {
    var w0 := Replay(s, now, run);
    longer, w := Then(s, now, run, Tick(s.failure.stablePeriod));
    longer, w := Then(s, now, longer, Evaluation(SHUT));
    Appended(s.failure, w0.log, Reset(w.now));
    Appended(s.failure, w0.log + [Reset(w.now)], Started(Reach(Shutdown), w.now));
    assert w.log == w0.log + [Reset(w.now)] + [Started(Reach(Shutdown), w.now)];
  }

  /** Where the stable period is the shorter, some run recovers again before the delay has passed. */
  lemma ImpatientRecovers(s: Setup, now: int) returns (run: seq<Event>)
    requires Impatient(s.failure)
    ensures Legal(s, now, run) && !Waited(s.failure, Replay(s, now, run).log)
  {
    var w;
    run, w := Then(s, now, [], Begin(false));
    run, w := Then(s, now, run, Evaluation(SHUT));
    run, w := FailUntilRecovery(s, now, run, 0);
    run, w := AttemptFails(s, now, run);
    var failed := w.now;
    run, w := CountsExpire(s, now, run);
    run, w := FailUntilRecovery(s, now, run, 0);
    var n := |w.log| - 1;
    assert !WaitedAt(s.failure, w.log[..n], w.log[n]);
  }

  /** Every run waits out the delay exactly under a patient configuration. */
  lemma WaitsExactly(s: Setup, now: int)
    ensures (forall run :: Legal(s, now, run) ==> Waited(s.failure, Replay(s, now, run).log)) <==> Patient(s.failure)
  {
    if Patient(s.failure) {
      forall run | Legal(s, now, run)
        ensures Waited(s.failure, Replay(s, now, run).log)
      {
        PatientWaits(s, now, run);
      }
    } else {
      var run := ImpatientRecovers(s, now);
    }
  }
}
