/** Supervision: reports of a controller against what its procedures lead one to expect. */
module Supervisor {
  import opened Prelude
  import opened Procedure

  /** One operating state event; ids order events. */
  datatype Report = Report(id: nat, current: Reported, target: Option<Demanded>)

  /** What supervision has done, for proofs about its history. */
  datatype Mark =
    | Expected(state: Reported)
    | Compared(at: int, current: Reported)
    | FailedAt(at: int, inTransition: bool)

  datatype Watch = Watch(
    expected: Option<Reported>,
    deadline: Option<int>,
    observed: Option<Report>,
    failed: bool,
    ended: bool,
    log: seq<Mark>)

  datatype Event =
    | Expect(state: Reported)                      // a command, a confirmation, or an invalidation
    | Process(now: int, report: Option<Report>)    // a queued update, a fresh read, or a wakeup without a state
    | End

  function Expecting(w: Watch, state: Reported): Watch {
    w.(expected := Some(state), deadline := None, failed := w.failed && w.ended, log := w.log + [Expected(state)])
  }

  function Fails(w: Watch, now: int): Watch {
    w.(expected := Some(InUnknown), deadline := None, failed := true,
       log := w.log + [FailedAt(now, w.expected == Some(InTransition))])
  }

  /** Compares the latest report with the expectation. */
  function Comparing(w: Watch, grace: int, now: int): Watch
    requires w.observed.Some?
  {
    var actual := w.observed.value;
    var v := w.(log := w.log + [Compared(now, actual.current)]);
    match w.expected
    case None =>
      if actual.current.InState? && actual.target.None? then v.(expected := Some(actual.current)) else v
    case Some(InUnknown) => v
    case Some(InTransition) =>
      if actual.current == InTransition then v.(deadline := None)
      else if w.deadline.None? then v.(deadline := Some(now + grace))
      else if now >= w.deadline.value then Fails(v, now)
      else v
    case Some(expected) =>
      if actual.current != expected then Fails(v, now) else v.(deadline := None)
  }

  predicate Newer(w: Watch, report: Option<Report>) {
    report.Some? && (w.observed.None? || report.value.id > w.observed.value.id)
  }

  function Processing(w: Watch, grace: int, now: int, report: Option<Report>): Watch {
    var v := if Newer(w, report) then w.(observed := report) else w;
    if v.observed.None? then v else Comparing(v, grace, now)
  }

  function Move(w: Watch, grace: int, e: Event): Watch {
    match e
    case Expect(state) => Expecting(w, state)
    case Process(now, report) => Processing(w, grace, now, report)
    case End => w.(ended := true, failed := true)
  }

  const START := Watch(None, None, None, false, false, [])

  function Replay(grace: int, run: seq<Event>): Watch {
    if run == [] then START else Move(Replay(grace, run[..|run| - 1]), grace, run[|run| - 1])
  }

  /** Older reports never replace a newer processed one, in whatever order updates and fresh reads arrive. */
  lemma {:induction false} IdsRise(grace: int, run: seq<Event>, k: nat)
    requires k <= |run| && Replay(grace, run[..k]).observed.Some?
    ensures Replay(grace, run).observed.Some?
    ensures Replay(grace, run[..k]).observed.value.id <= Replay(grace, run).observed.value.id
    decreases |run|
  {
    hide Move;
    if k == |run| {
      assert run[..k] == run;
    } else {
      var front := run[..|run| - 1];
      assert front[..k] == run[..k];
      IdsRise(grace, front, k);
      MoveKeepsId(Replay(grace, front), grace, run[|run| - 1]);
    }
  }

  lemma MoveKeepsId(w: Watch, grace: int, e: Event)
    requires w.observed.Some?
    ensures Move(w, grace, e).observed.Some? && w.observed.value.id <= Move(w, grace, e).observed.value.id
  {
  }

  /** No expectation was set, and no transition report compared, in the log after `k`. */
  ghost predicate Undisturbed(log: seq<Mark>, k: int) {
    forall j :: 0 <= j < |log| && k < j ==> !log[j].Expected? && (log[j].Compared? ==> log[j].current != InTransition)
  }

  /** The grace period began `grace` before `due`, with a mismatch, and nothing has ended it since. */
  ghost predicate GraceBegan(log: seq<Mark>, grace: int, due: int, k: int) {
    && 0 <= k < |log| && log[k].Compared? && log[k].at == due - grace && log[k].current != InTransition
    && Undisturbed(log, k)
  }

  /** The mark at the end of `log` is justified by what came before. */
  ghost predicate Justified(log: seq<Mark>, grace: int) {
    log != [] && log[|log| - 1].FailedAt? ==>
      var before, failure := log[..|log| - 1], log[|log| - 1];
      && NoneFailedSince(before)
      && (failure.inTransition ==> exists due, k :: GraceBegan(before, grace, due, k) && due <= failure.at)
  }

  /** No failure has followed the latest expectation. */
  ghost predicate NoneFailedSince(log: seq<Mark>) {
    log == [] || log[|log| - 1].Expected? || (!log[|log| - 1].FailedAt? && NoneFailedSince(log[..|log| - 1]))
  }

  ghost predicate Sound(w: Watch, grace: int) {
    && (forall n :: 0 <= n <= |w.log| ==> Justified(w.log[..n], grace))
    && (w.expected != Some(InUnknown) ==> NoneFailedSince(w.log))
    && (w.deadline.Some? ==>
          w.expected == Some(InTransition) && exists k :: GraceBegan(w.log, grace, w.deadline.value, k))
  }

  lemma Append(w: Watch, grace: int, m: Mark)
    requires Sound(w, grace) && Justified(w.log + [m], grace)
    ensures forall n :: 0 <= n <= |w.log + [m]| ==> Justified((w.log + [m])[..n], grace)
    ensures NoneFailedSince(w.log + [m]) == (m.Expected? || (!m.FailedAt? && NoneFailedSince(w.log)))
  {
    var log := w.log + [m];
    assert log[..|w.log|] == w.log && log[..|log|] == log;
    assert forall n :: 0 <= n <= |w.log| ==> log[..n] == w.log[..n];
  }

  /** Another comparison that reports no transition leaves the grace period running. */
  lemma GraceRuns(w: Watch, grace: int, m: Mark)
    requires w.deadline.Some? && exists k :: GraceBegan(w.log, grace, w.deadline.value, k)
    requires m.Compared? && m.current != InTransition
    ensures exists k :: GraceBegan(w.log + [m], grace, w.deadline.value, k)
  {
    var k :| GraceBegan(w.log, grace, w.deadline.value, k);
    assert GraceBegan(w.log + [m], grace, w.deadline.value, k);
  }

  lemma FailSound(w: Watch, grace: int, now: int)
    requires Sound(w, grace) && w.expected != Some(InUnknown)
    requires w.expected == Some(InTransition) ==> w.deadline.Some? && w.deadline.value <= now
    ensures Sound(Fails(w, now), grace)
  {
    var m := FailedAt(now, w.expected == Some(InTransition));
    assert (w.log + [m])[..|w.log|] == w.log;
    Append(w, grace, m);
  }

  lemma CompareSound(w: Watch, grace: int, now: int)
    requires Sound(w, grace) && w.observed.Some?
    ensures Sound(Comparing(w, grace, now), grace)
  {
    var actual := w.observed.value;
    var m := Compared(now, actual.current);
    assert (w.log + [m])[..|w.log|] == w.log;
    Append(w, grace, m);
    var v := w.(log := w.log + [m]);
    if w.expected == Some(InTransition) && actual.current != InTransition {
      if w.deadline.None? {
        assert GraceBegan(v.log, grace, now + grace, |w.log|);
      } else {
        GraceRuns(w, grace, m);
        if now >= w.deadline.value {
          FailSound(v, grace, now);
        }
      }
    } else if w.expected.Some? && w.expected.value != InUnknown && w.expected.value != InTransition
              && actual.current != w.expected.value {
      FailSound(v.(deadline := None), grace, now);
    }
  }

  lemma MoveSound(w: Watch, grace: int, e: Event)
    requires Sound(w, grace)
    ensures Sound(Move(w, grace, e), grace)
  {
    match e
    case Expect(state) => Append(w, grace, Expected(state));
    case Process(now, report) =>
      var v := if Newer(w, report) then w.(observed := report) else w;
      if v.observed.Some? {
        CompareSound(v, grace, now);
      }
    case End =>
  }

  lemma {:induction false} RunSound(grace: int, run: seq<Event>)
    ensures Sound(Replay(grace, run), grace)
  {
    if run != [] {
      RunSound(grace, run[..|run| - 1]);
      MoveSound(Replay(grace, run[..|run| - 1]), grace, run[|run| - 1]);
    }
  }

  /** Each expectation causes at most one failure: between two failures a new one was set. */
  lemma OneFailurePerExpectation(grace: int, run: seq<Event>, i: nat, j: nat) returns (k: nat)
    requires var log := Replay(grace, run).log; i < j < |log| && log[i].FailedAt? && log[j].FailedAt?
    ensures i < k < j && Replay(grace, run).log[k].Expected?
  {
    var log := Replay(grace, run).log;
    RunSound(grace, run);
    assert Justified(log[..j + 1], grace);
    assert log[..j + 1][..j] == log[..j];
    k := ExpectedBetween(log[..j], i);
  }

  lemma {:induction false} ExpectedBetween(log: seq<Mark>, i: nat) returns (k: nat)
    requires i < |log| && log[i].FailedAt? && NoneFailedSince(log)
    ensures i < k < |log| && log[k].Expected?
  {
    k := |log| - 1;
    if !log[k].Expected? {
      k := ExpectedBetween(log[..k], i);
    }
  }

  /** A commanded transition fails only once the grace period has passed since a mismatch, with neither a
      transition report compared nor an expectation set in between. */
  lemma GracePeriodPassed(grace: int, run: seq<Event>, j: nat) returns (k: nat)
    requires var log := Replay(grace, run).log; j < |log| && log[j].FailedAt? && log[j].inTransition
    ensures var log := Replay(grace, run).log;
      && k < j && log[k].Compared? && log[k].current != InTransition
      && log[k].at + grace <= log[j].at
      && Undisturbed(log[..j], k)
  {
    var log := Replay(grace, run).log;
    RunSound(grace, run);
    assert Justified(log[..j + 1], grace);
    assert log[..j + 1][..j] == log[..j];
    var due, at :| due <= log[j].at && GraceBegan(log[..j], grace, due, at);
    k := at;
  }

  /** Under an unknown expectation no report counts as a failure. */
  lemma UnknownNeverFails(w: Watch, grace: int, now: int, report: Option<Report>)
    requires w.expected == Some(InUnknown)
    ensures Processing(w, grace, now, report).expected == Some(InUnknown)
    ensures var log := Processing(w, grace, now, report).log;
      forall i :: |w.log| <= i < |log| ==> log[i].Compared?
  {
  }

  class ControllerStateSupervisor {
    const grace: int
    var expected: Option<Reported>
    var deadline: Option<int>
    var observed: Option<Report>
    var failed: bool
    var ended: bool
    ghost var log: seq<Mark>

    ghost function Now(): Watch
      reads this
    {
      Watch(expected, deadline, observed, failed, ended, log)
    }

    constructor (transitionGrace: int)
      requires transitionGrace > 0
      ensures grace == transitionGrace && Now() == START
    {
      grace := transitionGrace;
      expected, deadline, observed, failed, ended := None, None, None, false, false;
      log := [];
    }

    method SetExpectation(state: Reported)
      modifies this
      ensures Now() == Expecting(old(Now()), state)
      // A new expectation ends any grace period and forgets a failure, but not that supervision has ended.
      ensures expected == Some(state) && deadline.None? && (failed <==> old(failed) && ended)
      ensures observed == old(observed) && log == old(log) + [Expected(state)]
    {
      expected := Some(state);
      deadline := None;
      log := log + [Expected(state)];
      if !ended {
        failed := false;
      }
    }

    method Fail(now: int)
      modifies this
      ensures Now() == Fails(old(Now()), now)
      ensures expected == Some(InUnknown) && deadline.None? && failed
      ensures log == old(log) + [FailedAt(now, old(expected) == Some(InTransition))]
    {
      log := log + [FailedAt(now, expected == Some(InTransition))];
      expected := Some(InUnknown);
      deadline := None;
      failed := true;
    }

    method Compare(now: int)
      requires observed.Some?
      modifies this
      ensures Now() == Comparing(old(Now()), grace, now)
      ensures observed == old(observed) && ended == old(ended)
      // A settled state that is expected and not reported is a failure, and leaves the expectation unknown.
      ensures var reported := observed.value.current;
        old(expected).Some? && old(expected.value) !in {InUnknown, InTransition, reported} ==>
          failed && expected == Some(InUnknown) && deadline.None?
          && log == old(log) + [Compared(now, reported), FailedAt(now, false)]
      // So is a commanded transition that is not reported once its grace period has run out.
      ensures var reported := observed.value.current;
        old(expected) == Some(InTransition) && reported != InTransition && old(deadline).Some?
        && old(deadline.value) <= now ==>
          failed && expected == Some(InUnknown) && deadline.None?
          && log == old(log) + [Compared(now, reported), FailedAt(now, true)]
      // Until then the period starts with the first mismatch and runs on.
      ensures var reported := observed.value.current;
        old(expected) == Some(InTransition) && reported != InTransition
        && (old(deadline).Some? ==> now < old(deadline.value)) ==>
          deadline == (if old(deadline).Some? then old(deadline) else Some(now + grace))
          && expected == old(expected) && failed == old(failed) && log == old(log) + [Compared(now, reported)]
      // A match ends it and fails nothing.
      ensures var reported := observed.value.current;
        reported != InUnknown && old(expected) == Some(reported) ==>
          deadline.None? && expected == old(expected) && failed == old(failed)
          && log == old(log) + [Compared(now, reported)]
      // Without an expectation the first settled state reported, with no target, is adopted; an unknown one stays.
      ensures var reported := observed.value.current;
        old(expected).None? || old(expected) == Some(InUnknown) ==>
          expected == (if old(expected).None? && reported.InState? && observed.value.target.None? then Some(reported)
                       else old(expected))
          && deadline == old(deadline) && failed == old(failed) && log == old(log) + [Compared(now, reported)]
    {
      var actual := observed.value;
      var matched;
      log := log + [Compared(now, actual.current)];
      match expected {
        case None =>
          if actual.current.InState? && actual.target.None? {
            expected := Some(actual.current);
          }
          return;
        case Some(InUnknown) =>
          return;
        case Some(InTransition) =>
          matched := actual.current == InTransition;
        case Some(state) =>
          if actual.current != state {
            Fail(now);
            return;
          }
          matched := true;
      }
      if matched {
        deadline := None;
      } else if deadline.None? {
        deadline := Some(now + grace);
      } else if now >= deadline.value {
        Fail(now);
      }
    }

    method ProcessState(now: int, report: Option<Report>)
      modifies this
      ensures Now() == Processing(old(Now()), grace, now, report)
      // Only a newer report replaces the processed one, and the latest is then compared.
      ensures observed == if Newer(old(Now()), report) then report else old(observed)
      ensures if observed.Some? then old(log) + [Compared(now, observed.value.current)] <= log else Now() == old(Now())
    {
      if report.Some? && (observed.None? || report.value.id > observed.value.id) {
        observed := report;
      }
      if observed.Some? {
        Compare(now);
      }
    }
  }
}
