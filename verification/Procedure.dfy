/** One lifecycle procedure: its stages, its interruption, and the controller tasks it answers for. */
module Procedure {
  import opened Prelude

  /** How a controller task call stands. */
  datatype CallOutcome = Pending | Succeeded | Rejected | TaskFailed(aborted: bool) | Unknown {
    /** Known to be over: the task was declined, or its end was reported. */
    predicate Definite() {
      Succeeded? || Rejected? || TaskFailed?
    }
  }

  datatype Call = Call(id: nat, outcome: CallOutcome)

  datatype Demanded = Operate | Standby | Shutdown

  /** A controller state, as reported or as expected. */
  datatype Reported = InState(state: Demanded) | InTransition | InError | InUnknown

  /** What is demanded; the interruption flags take no part in equality. */
  datatype Demand = Demand(
    state: Option<Demanded>, contexts: int, program: Option<int>, interrupt: bool, programInterrupt: bool)
  {
    predicate Same(other: Demand) {
      state == other.state && contexts == other.contexts && program == other.program
    }
  }

  datatype Kind = Reach(target: Demanded) | Recover(emergency: bool)

  datatype Level = Uninterrupted | Stop | Abort {
    function Rank(): nat {
      match this case Uninterrupted => 0 case Stop => 1 case Abort => 2
    }
  }

  datatype Fault = ControllerOffline | ControllerUnrecoverable | ControllerFailure | OtherError

  /** Where a procedure's task stands; `Between` and `Stopped` have no stage running. */
  datatype Phase = Created | Probing | Logic | Between | Stopping | Stopped | Aborting | Failing | Done

  /** The work a procedure answers for. */
  datatype Work = Work(
    calls: seq<Call>,            // tracked task calls
    released: seq<Call>,         // calls resolved and no longer tracked
    futures: set<nat>)           // registered cleanup futures still running
  {
    predicate Pending() {
      exists i :: 0 <= i < |calls| && calls[i].outcome.Pending?
    }

    predicate HasUnknown() {
      exists i :: 0 <= i < |calls| && calls[i].outcome.Unknown?
    }

    ghost predicate ReleasedDefinite() {
      forall i :: 0 <= i < |released| ==> released[i].outcome.Definite()
    }

    /** Every controller task dispatched has a definite outcome. */
    ghost predicate AllDefinite() {
      (forall i :: 0 <= i < |calls| ==> calls[i].outcome.Definite()) && ReleasedDefinite()
    }

    ghost predicate Tracks(id: nat) {
      (exists i :: 0 <= i < |calls| && calls[i].id == id) || (exists i :: 0 <= i < |released| && released[i].id == id)
    }
  }

  /** Where the procedure stands and how far it has been told to end. */
  datatype Control = Control(phase: Phase, interrupt: Level, cancelled: bool)

  /** What it has achieved, and what it must own up to. */
  datatype Status = Status(unresolved: bool, achieved: bool, commanded: bool, recovered: bool)

  datatype Faults = Faults(logic: Option<Fault>, tasking: Option<Fault>, cleanup: Option<Fault>)

  datatype Proc = Proc(kind: Kind, demand: Demand, control: Control, work: Work, status: Status, faults: Faults) {
    /** The failure a finished procedure reports, or None if it succeeded, was interrupted, or was cancelled. */
    function Error(): Option<Fault> {
      if control.cancelled then None
      else if faults.tasking.Some? then faults.tasking
      else if faults.logic.Some? then faults.logic
      else if CallsError(work.calls).Some? then CallsError(work.calls)
      else faults.cleanup
    }

    predicate IsDone() {
      control.phase == Done
    }
  }

  /** The first tracked call that was rejected, or that failed without an abort having been requested. */
  function CallsError(calls: seq<Call>): Option<Fault> {
    if calls == [] then None
    else match calls[0].outcome
      case Rejected => Some(OtherError)
      case TaskFailed(false) => Some(ControllerFailure)
      case _ => CallsError(calls[1..])
  }

  function Fresh(kind: Kind, demand: Demand): Proc {
    Proc(kind, demand, Control(Created, Uninterrupted, false), Work([], [], {}),
         Status(false, false, false, false), Faults(None, None, None))
  }

  datatype LogicResult = Returned | Threw(fault: Fault) | Interrupted

  /** The atomic steps of a procedure and of the work it waits for. */
  datatype ProcEvent =
    | Start
    | Probe(online: bool)
    | ProbeRaises                  // the lease cannot be read
    | Send(id: nat)
    | Settle(index: nat, outcome: CallOutcome)
    | Release(index: nat)
    | Achieve(own: bool)
    | Register(future: nat)
    | FutureEnds(future: nat)
    | Entangle                     // the program may be left tasking
    | TaskingFails(fault: Fault)
    | LogicEnds(result: LogicResult)
    | BeginStop
    | StopEnds(ok: bool)
    | BeginAbort
    | CleanupFails(fault: Fault)
    | Cancel
    | Finish

  function RaisedToStop(level: Level): Level {
    if level == Uninterrupted then Stop else level
  }

  function RequestStop(p: Proc): Proc {
    p.(control := p.control.(interrupt := RaisedToStop(p.control.interrupt)))
  }

  function RequestAbort(p: Proc): Proc {
    p.(control := p.control.(interrupt := Abort))
  }

  predicate WorkEnabled(w: Work, e: ProcEvent) {
    match e
    case Settle(i, outcome) => i < |w.calls| && w.calls[i].outcome.Pending? && !outcome.Pending?
    case Release(i) => i < |w.calls| && w.calls[i].outcome.Definite()
    case FutureEnds(f) => f in w.futures
    case _ => true
  }

  function WorkNext(w: Work, e: ProcEvent): Work
    requires WorkEnabled(w, e)
  {
    match e
    case Send(id) => w.(calls := w.calls + [Call(id, Pending)])
    case Settle(i, outcome) => w.(calls := w.calls[i := Call(w.calls[i].id, outcome)])
    case Release(i) => w.(calls := w.calls[..i] + w.calls[i + 1..], released := w.released + [w.calls[i]])
    case Register(f) => w.(futures := w.futures + {f})
    case FutureEnds(f) => w.(futures := w.futures - {f})
    case _ => w
  }

  ghost predicate ControlEnabled(c: Control, e: ProcEvent) {
    match e
    case Start => c.phase == Created && !c.cancelled
    case Probe(_) | ProbeRaises => c.phase == Probing && !c.cancelled
    case Send(_) => c.phase == Logic && c.interrupt == Uninterrupted
    case Release(_) | Achieve(_) | Register(_) => c.phase == Logic
    case Entangle | TaskingFails(_) | Cancel => c.phase != Done
    // Logic is also cut off, without any interruption, where unhealthy supervision forbids another operation.
    case LogicEnds(_) => c.phase == Logic
    case BeginStop => c.phase == Between && c.interrupt == Stop && !c.cancelled
    case StopEnds(_) => c.phase == Stopping
    case BeginAbort => (c.phase.Between? || c.phase.Stopped?) && c.interrupt == Abort && !c.cancelled
    case CleanupFails(_) => c.phase.Stopping? || c.phase.Aborting?
    case Finish =>
      || (c.cancelled && !c.phase.Logic? && !c.phase.Stopping? && !c.phase.Done?)
      || c.phase.Failing? || c.phase.Aborting?
      || (c.phase == Between && c.interrupt == Uninterrupted)
      || (c.phase == Stopped && c.interrupt == Stop)
    case _ => true
  }

  /** Which faults a kind of procedure can report where. */
  predicate FaultEnabled(kind: Kind, e: ProcEvent) {
    match e
    case Achieve(_) => kind.Reach?
    case TaskingFails(fault) => kind == Reach(Operate) && (fault.ControllerFailure? || fault.OtherError?)
    // Only an emergency shutdown ends as unrecoverable, and it never just returns.
    case LogicEnds(Threw(fault)) => fault.ControllerUnrecoverable? ==> kind == Recover(true)
    case LogicEnds(Returned) => kind != Recover(true)
    case CleanupFails(fault) => fault != ControllerUnrecoverable
    case _ => true
  }

  ghost predicate Enabled(p: Proc, e: ProcEvent) {
    ControlEnabled(p.control, e) && WorkEnabled(p.work, e) && FaultEnabled(p.kind, e)
  }

  ghost function ControlNext(c: Control, e: ProcEvent): Control {
    match e
    case Start => c.(phase := if c.interrupt == Uninterrupted then Probing else Between)
    case Probe(online) =>
      c.(phase := if !online then Failing else if c.interrupt == Uninterrupted then Logic else Between)
    case ProbeRaises => c.(phase := Failing)
    // A fault in the logic counts as a request to stop.
    case LogicEnds(Threw(_)) => c.(phase := Between, interrupt := RaisedToStop(c.interrupt))
    case LogicEnds(_) => c.(phase := Between)
    case BeginStop => c.(phase := Stopping)
    // A stop that leaves work behind turns into an abort.
    case StopEnds(ok) => c.(phase := Stopped, interrupt := if ok then c.interrupt else Abort)
    case BeginAbort => c.(phase := Aborting)
    case Cancel => c.(cancelled := true)
    case Finish => c.(phase := Done)
    case _ => c
  }

  /** At the end, tracked work still running or a task whose end is unknown leaves the procedure unresolved. */
  ghost function StatusNext(s: Status, kind: Kind, w: Work, e: ProcEvent): Status {
    match e
    case Entangle => s.(unresolved := true)
    case Achieve(own) => s.(achieved := true, commanded := s.commanded || own)
    case LogicEnds(Returned) => s.(recovered := s.recovered || kind == Recover(false))
    case Finish => s.(unresolved := s.unresolved || w.Pending() || w.futures != {} || w.HasUnknown())
    case _ => s
  }

  ghost function FaultsNext(f: Faults, e: ProcEvent): Faults {
    match e
    case Probe(online) => if online then f else f.(logic := Some(ControllerOffline))
    case ProbeRaises => f.(logic := Some(OtherError))
    case LogicEnds(Threw(fault)) => f.(logic := Some(fault))
    case TaskingFails(fault) => if f.tasking.Some? then f else f.(tasking := Some(fault))
    case CleanupFails(fault) => if f.cleanup.Some? then f else f.(cleanup := Some(fault))
    case _ => f
  }

  ghost function Next(p: Proc, e: ProcEvent): Proc
    requires Enabled(p, e)
  {
    Proc(p.kind, p.demand, ControlNext(p.control, e), WorkNext(p.work, e),
         StatusNext(p.status, p.kind, p.work, e), FaultsNext(p.faults, e))
  }

  /** Calls are dropped only once definite, and a finished procedure that owns up to nothing left nothing open. */
  ghost predicate CallsKept(p: Proc) {
    && p.work.ReleasedDefinite()
    && (p.IsDone() && !p.status.unresolved ==> p.work.AllDefinite() && p.work.futures == {})
  }

  /** Faults and recovery come only from the kinds of procedure that can have them. */
  ghost predicate FaultsFit(p: Proc) {
    && (p.status.recovered ==> p.kind == Recover(false))
    && (p.faults.logic == Some(ControllerUnrecoverable) ==> p.kind == Recover(true))
    && (p.faults.tasking.Some? ==>
          p.kind.Reach? && (p.faults.tasking.value.ControllerFailure? || p.faults.tasking.value.OtherError?))
    && p.faults.cleanup != Some(ControllerUnrecoverable)
  }

  ghost predicate Inv(p: Proc) {
    CallsKept(p) && FaultsFit(p)
  }

  lemma StepCalls(p: Proc, e: ProcEvent)
    requires CallsKept(p) && Enabled(p, e)
    ensures CallsKept(Next(p, e))
  {
    hide FaultEnabled, FaultsNext;
    if e.Finish? && !Next(p, e).status.unresolved {
      forall i | 0 <= i < |p.work.calls|
        ensures p.work.calls[i].outcome.Definite()
      {
        assert !p.work.calls[i].outcome.Pending? && !p.work.calls[i].outcome.Unknown?;
      }
    }
  }

  lemma StepFaults(p: Proc, e: ProcEvent)
    requires FaultsFit(p) && Enabled(p, e)
    ensures FaultsFit(Next(p, e))
  {
    hide WorkNext, WorkEnabled, ControlNext, ControlEnabled;
  }

  /** A procedure is never turned into another, its interruption only rises, and once done it stays as it ended. */
  lemma StepSettles(p: Proc, e: ProcEvent)
    requires Enabled(p, e)
    ensures Next(p, e).kind == p.kind && Next(p, e).demand == p.demand
    ensures p.control.interrupt.Rank() <= Next(p, e).control.interrupt.Rank()
    ensures p.IsDone() ==> Next(p, e).IsDone() && Next(p, e).status.unresolved == p.status.unresolved
  {
    hide WorkNext, WorkEnabled, FaultsNext, FaultEnabled;
  }

  lemma WorkKept(w: Work, e: ProcEvent, id: nat)
    requires WorkEnabled(w, e) && w.Tracks(id)
    ensures WorkNext(w, e).Tracks(id)
  {
    var v := WorkNext(w, e);
    if i :| 0 <= i < |w.calls| && w.calls[i].id == id {
      if e.Release? {
        if i == e.index {
          assert v.released[|w.released|].id == id;
        } else {
          assert v.calls[if i < e.index then i else i - 1].id == id;
        }
      } else {
        assert v.calls[i].id == id;
      }
    } else {
      var i :| 0 <= i < |w.released| && w.released[i].id == id;
      assert v.released[i].id == id;
    }
  }

  lemma WorkSent(w: Work, e: ProcEvent, id: nat)
    requires WorkEnabled(w, e) && WorkNext(w, e).Tracks(id)
    ensures w.Tracks(id) || e == Send(id)
  {
    var v := WorkNext(w, e);
    if i :| 0 <= i < |v.calls| && v.calls[i].id == id {
      if e.Release? {
        assert w.calls[if i < e.index then i else i + 1].id == id;
      } else if i < |w.calls| {
        assert w.calls[i].id == id;
      }
    } else {
      var i :| 0 <= i < |v.released| && v.released[i].id == id;
      if i < |w.released| {
        assert w.released[i].id == id;
      } else {
        assert w.calls[e.index].id == id;
      }
    }
  }

  /** A dispatched task is never lost track of, and an interrupted procedure dispatches none. */
  lemma Accountable(p: Proc, e: ProcEvent, id: nat)
    requires Enabled(p, e)
    ensures p.work.Tracks(id) ==> Next(p, e).work.Tracks(id)
    ensures Next(p, e).work.Tracks(id) && !p.work.Tracks(id) ==>
      p.control.phase == Logic && p.control.interrupt == Uninterrupted
  {
    hide WorkNext, ControlNext, FaultsNext, FaultEnabled;
    if p.work.Tracks(id) {
      WorkKept(p.work, e, id);
    } else if Next(p, e).work.Tracks(id) {
      WorkSent(p.work, e, id);
    }
  }

  /** An unrecoverable end is reported only by an emergency shutdown. */
  lemma UnrecoverableIsEmergency(p: Proc)
    requires FaultsFit(p) && p.Error() == Some(ControllerUnrecoverable)
    ensures p.kind == Recover(true)
  {
    CallsErrorMild(p.work.calls);
  }

  lemma {:induction false} CallsErrorMild(calls: seq<Call>)
    ensures var error := CallsError(calls); error.Some? ==> error.value.OtherError? || error.value.ControllerFailure?
  {
    if calls != [] {
      CallsErrorMild(calls[1..]);
    }
  }

  // ---- Whole runs of a procedure ----------------------------------------------------------

  /** What happens to a procedure: its own steps, and requests to end. */
  datatype Happening = Own(e: ProcEvent) | AskedToStop | AskedToAbort

  ghost predicate MayHappen(p: Proc, h: Happening) {
    h.Own? ==> Enabled(p, h.e)
  }

  ghost function After(p: Proc, h: Happening): Proc
    requires MayHappen(p, h)
  {
    match h
    case Own(e) => Next(p, e)
    case AskedToStop => RequestStop(p)
    case AskedToAbort => RequestAbort(p)
  }

  ghost predicate Lives(kind: Kind, demand: Demand, run: seq<Happening>)
    decreases |run|, 0
  {
    run == [] ||
    (Lives(kind, demand, run[..|run| - 1]) && MayHappen(Lived(kind, demand, run[..|run| - 1]), run[|run| - 1]))
  }

  ghost function Lived(kind: Kind, demand: Demand, run: seq<Happening>): Proc
    requires Lives(kind, demand, run)
    decreases |run|, 1
  {
    if run == [] then Fresh(kind, demand) else After(Lived(kind, demand, run[..|run| - 1]), run[|run| - 1])
  }

  ghost predicate LogicThrew(run: seq<Happening>) {
    exists i :: 0 <= i < |run| && run[i].Own? && run[i].e.LogicEnds? && run[i].e.result.Threw?
  }

  ghost predicate StopFailed(run: seq<Happening>) {
    Own(StopEnds(false)) in run
  }

  ghost predicate StopBegun(run: seq<Happening>) {
    Own(BeginStop) in run
  }

  ghost predicate AbortBegun(run: seq<Happening>) {
    Own(BeginAbort) in run
  }

  /** Where a procedure stands tells which cleanup it has begun, and what it must still do. */
  ghost predicate CleansUp(run: seq<Happening>, c: Control) {
    && (LogicThrew(run) ==> c.interrupt != Uninterrupted && c.phase !in {Created, Probing, Logic, Failing})
    && (StopFailed(run) ==> c.interrupt == Abort && c.phase in {Stopped, Aborting, Done})
    && (c.phase in {Stopping, Stopped} ==> StopBegun(run))
    && (c.phase == Aborting ==> AbortBegun(run))
    && (c.phase == Done && !c.cancelled ==>
          (LogicThrew(run) ==> StopBegun(run) || AbortBegun(run)) && (StopFailed(run) ==> AbortBegun(run)))
  }

  lemma HappeningCleansUp(run: seq<Happening>, p: Proc, h: Happening)
    requires CleansUp(run, p.control) && MayHappen(p, h)
    ensures CleansUp(run + [h], After(p, h).control)
  {
    var run' := run + [h];
    assert forall x :: x in run' <==> x in run || x == h;
    assert run'[|run|] == h && forall i :: 0 <= i < |run| ==> run'[i] == run[i];
    assert LogicThrew(run') <==> LogicThrew(run) || (h.Own? && h.e.LogicEnds? && h.e.result.Threw?);
  }

  /** A procedure whose logic threw has begun a stop or an abort before it is done, and one whose stop left work behind
      has begun an abort, unless it was itself cancelled. */
  lemma {:induction false} CleanupRuns(kind: Kind, demand: Demand, run: seq<Happening>)
    requires Lives(kind, demand, run)
    ensures CleansUp(run, Lived(kind, demand, run).control)
  {
    if run != [] {
      var front := run[..|run| - 1];
      CleanupRuns(kind, demand, front);
      HappeningCleansUp(front, Lived(kind, demand, front), run[|run| - 1]);
      assert front + [run[|run| - 1]] == run;
    }
  }

  /** The first fault of program tasking that was found. */
  ghost function TaskingFault(run: seq<Happening>): Option<Fault> {
    if run == [] then None
    else
      var before := TaskingFault(run[..|run| - 1]);
      if before.Some? then before
      else match run[|run| - 1]
        case Own(TaskingFails(fault)) => Some(fault)
        case _ => None
  }

  /** The first fault of a cleanup stage. */
  ghost function CleanupFault(run: seq<Happening>): Option<Fault> {
    if run == [] then None
    else
      var before := CleanupFault(run[..|run| - 1]);
      if before.Some? then before
      else match run[|run| - 1]
        case Own(CleanupFails(fault)) => Some(fault)
        case _ => None
  }

  /** Why there was no logic to run, or what it threw. */
  ghost function LogicFault(run: seq<Happening>): Option<Fault> {
    if run == [] then None
    else match run[|run| - 1]
      case Own(Probe(false)) => Some(ControllerOffline)
      case Own(ProbeRaises) => Some(OtherError)
      case Own(LogicEnds(Threw(fault))) => Some(fault)
      case _ => LogicFault(run[..|run| - 1])
  }

  /** What a procedure has to show is what has happened to it. */
  lemma {:induction false} HistoryShows(kind: Kind, demand: Demand, run: seq<Happening>)
    requires Lives(kind, demand, run)
    ensures var p := Lived(kind, demand, run);
      && p.kind == kind && p.demand == demand
      && p.faults == Faults(LogicFault(run), TaskingFault(run), CleanupFault(run))
      && (p.status.achieved <==> exists own :: Own(Achieve(own)) in run)
      && (p.status.commanded <==> Own(Achieve(true)) in run)
      && (p.status.recovered <==> kind == Recover(false) && Own(LogicEnds(Returned)) in run)
      && (p.control.cancelled <==> Own(Cancel) in run)
  {
    if run != [] {
      var front, h := run[..|run| - 1], run[|run| - 1];
      HistoryShows(kind, demand, front);
      assert front + [h] == run;
      assert forall x :: x in run <==> x in front || x == h;
      StatusShows(Lived(kind, demand, front), h);
      hide Enabled, Next;
    }
  }

  lemma StatusShows(p: Proc, h: Happening)
    requires MayHappen(p, h)
    ensures var q := After(p, h);
      && q.kind == p.kind && q.demand == p.demand
      && (q.status.achieved <==> p.status.achieved || (h.Own? && h.e.Achieve?))
      && (q.status.commanded <==> p.status.commanded || h == Own(Achieve(true)))
      && (q.status.recovered <==> p.status.recovered || (p.kind == Recover(false) && h == Own(LogicEnds(Returned))))
      && (q.control.cancelled <==> p.control.cancelled || h == Own(Cancel))
      && q.faults.tasking == (if p.faults.tasking.None? && h.Own? && h.e.TaskingFails? then Some(h.e.fault)
                              else p.faults.tasking)
      && q.faults.cleanup == (if p.faults.cleanup.None? && h.Own? && h.e.CleanupFails? then Some(h.e.fault)
                              else p.faults.cleanup)
      && q.faults.logic == match h
        case Own(Probe(false)) => Some(ControllerOffline)
        case Own(ProbeRaises) => Some(OtherError)
        case Own(LogicEnds(Threw(fault))) => Some(fault)
        case _ => p.faults.logic
  {
  }

  /** An end that is learned is that of one call, and a call is dropped alone, after all dropped before. */
  lemma OneCallAtATime(w: Work, i: nat, outcome: CallOutcome)
    requires i < |w.calls|
    ensures WorkEnabled(w, Settle(i, outcome)) ==>
      var v := WorkNext(w, Settle(i, outcome));
      && v.released == w.released && v.futures == w.futures && |v.calls| == |w.calls|
      && forall j :: 0 <= j < |w.calls| ==> v.calls[j] == if j == i then Call(w.calls[i].id, outcome) else w.calls[j]
    ensures WorkEnabled(w, Release(i)) ==>
      var v := WorkNext(w, Release(i));
      && v.released == w.released + [w.calls[i]] && v.futures == w.futures && |v.calls| == |w.calls| - 1
      && forall j :: 0 <= j < |v.calls| ==> v.calls[j] == w.calls[if j < i then j else j + 1]
  {
  }

  /** The call ended in a way its procedure must report. */
  predicate Blamed(call: Call) {
    call.outcome == Rejected || call.outcome == TaskFailed(false)
  }

  lemma {:induction false} FirstBlamed(calls: seq<Call>, k: nat)
    requires k <= |calls| && forall j :: 0 <= j < k ==> !Blamed(calls[j])
    ensures k == |calls| ==> CallsError(calls).None?
    ensures k < |calls| && Blamed(calls[k]) ==>
      CallsError(calls) == Some(if calls[k].outcome == Rejected then OtherError else ControllerFailure)
  {
    if k > 0 {
      assert !Blamed(calls[0]);
      FirstBlamed(calls[1..], k - 1);
    }
  }

  /** Where neither program tasking nor the logic has a fault, a procedure reports the first of its calls that was
      declined, or that failed although no abort was asked for; calls that ended in any other way report nothing. */
  lemma ErrorOfCalls(p: Proc, k: nat)
    requires !p.control.cancelled && p.faults.tasking.None? && p.faults.logic.None?
    requires k <= |p.work.calls| && forall j :: 0 <= j < k ==> !Blamed(p.work.calls[j])
    ensures k == |p.work.calls| ==> p.Error() == p.faults.cleanup
    ensures k < |p.work.calls| && p.work.calls[k].outcome == TaskFailed(false) ==> p.Error() == Some(ControllerFailure)
    ensures k < |p.work.calls| && p.work.calls[k].outcome == Rejected ==> p.Error() == Some(OtherError)
  {
    FirstBlamed(p.work.calls, k);
  }

  /** Faults of program tasking come before those of the logic, and a cancelled procedure reports none. */
  lemma ErrorOfLogic(p: Proc)
    ensures p.control.cancelled ==> p.Error().None?
    ensures !p.control.cancelled && p.faults.tasking.Some? ==> p.Error() == p.faults.tasking
    ensures !p.control.cancelled && p.faults.tasking.None? && p.faults.logic.Some? ==> p.Error() == p.faults.logic
  {
  }

  /** A lifecycle procedure as the reactor and its own task update it. */
  class LifecycleProcedure {
    const kind: Kind
    const demand: Demand
    var phase: Phase
    var interrupt: Level
    var calls: seq<Call>
    var futures: set<nat>
    var unresolved: bool
    var achieved: bool
    var commanded: bool
    var recovered: bool
    var logicError: Option<Fault>
    var taskingFault: Option<Fault>
    var cleanupError: Option<Fault>
    var cancelled: bool
    var released: seq<Call>

    function Now(): Proc
      reads this
    {
      Proc(kind, demand, Control(phase, interrupt, cancelled), Work(calls, released, futures),
           Status(unresolved, achieved, commanded, recovered), Faults(logicError, taskingFault, cleanupError))
    }

    constructor (k: Kind, d: Demand)
      ensures Now() == Fresh(k, d)
    {
      kind, demand, phase, interrupt := k, d, Created, Uninterrupted;
      calls, released, futures := [], [], {};
      unresolved, achieved, commanded, recovered, cancelled := false, false, false, false, false;
      logicError, taskingFault, cleanupError := None, None, None;
    }

    method AskStop()
      modifies this`interrupt
      ensures Now() == RequestStop(old(Now()))
      ensures interrupt == if old(interrupt) == Uninterrupted then Stop else old(interrupt)
    {
      if interrupt == Uninterrupted {
        interrupt := Stop;
      }
    }

    method AskAbort()
      modifies this`interrupt
      ensures Now() == RequestAbort(old(Now())) && interrupt == Abort
    {
      if interrupt != Abort {
        interrupt := Abort;
      }
    }

    /** Sends a lifecycle task unless interruption or unhealthy supervision forbids another operation. */
    method SendTask(id: nat, healthy: bool) returns (sent: bool)
      requires phase == Logic
      modifies this`calls
      ensures sent <==> interrupt == Uninterrupted && healthy
      ensures sent ==> Enabled(old(Now()), Send(id)) && Now() == Next(old(Now()), Send(id))
      ensures !sent ==> Now() == old(Now())
    {
      sent := interrupt == Uninterrupted && healthy;
      if sent {
        calls := calls + [Call(id, Pending)];
      }
    }

    /** Stops tracking a call, unless it is unfinished or its end is unknown. */
    method DropResolved(index: nat)
      requires phase == Logic && index < |calls|
      modifies this`calls, this`released
      ensures if old(calls[index]).outcome.Definite()
              then Enabled(old(Now()), Release(index)) && Now() == Next(old(Now()), Release(index))
              else Now() == old(Now())
    {
      var call := calls[index];
      if !call.outcome.Pending? && !call.outcome.Unknown? {
        calls, released := calls[..index] + calls[index + 1..], released + [call];
      }
    }

    /** The end of the procedure's task: whatever may still be active is owned up to. */
    method Close()
      requires Enabled(Now(), Finish)
      modifies this`phase, this`unresolved
      ensures Now() == Next(old(Now()), Finish) && phase == Done
      ensures var open := exists i :: 0 <= i < |calls| && (calls[i].outcome.Pending? || calls[i].outcome.Unknown?);
        unresolved <==> old(unresolved) || futures != {} || open
    {
      var active := futures != {};
      for i := 0 to |calls|
        invariant active ==
          (futures != {} || exists j :: 0 <= j < i && (calls[j].outcome.Pending? || calls[j].outcome.Unknown?))
        invariant unchanged(this)
      {
        active := active || calls[i].outcome.Pending? || calls[i].outcome.Unknown?;
      }
      unresolved := unresolved || active;
      phase := Done;
    }
  }
}
