/** Controller failure counts, retry deadlines and escalation. */
module Failure {
  import opened Prelude

  datatype Config = Config(
    recoverAfter: int, retryDelay: int, recoveryAttempts: nat, attemptDelay: int, cycleDelay: int, stablePeriod: int)

  /** Counters and deadlines; `error` says whether a failure was counted for the current procedure. */
  datatype Failures = Failures(
    failures: int, attempts: int, error: bool, retryAt: Option<int>, stableSince: Option<int>)
  {
    predicate RecoveryDue(c: Config) {
      failures >= c.recoverAfter
    }

    predicate EmergencyDue(c: Config) {
      RecoveryDue(c) && attempts >= c.recoveryAttempts
    }

    predicate Waiting(now: int) {
      retryAt.Some? && now < retryAt.value
    }

    predicate Stable(c: Config, now: int) {
      stableSince.Some? && now - stableSince.value >= c.stablePeriod
    }

    function Begun(): Failures {
      this.(error := false, retryAt := None)
    }

    function Expired(c: Config, now: int): Failures {
      if Stable(c, now) then this.(failures := 0, attempts := 0) else this
    }

    function InitialError(c: Config, now: int): Failures {
      var s := Expired(c, now).(stableSince := Some(now));
      if s.failures == 0 then s.(failures := 1) else s
    }

    /** Only the first failure of a procedure counts, and only a count short of recovery delays the retry. */
    function Failed(c: Config, now: int): Failures {
      if error then this
      else
        var e := Expired(c, now);
        var s := e.(error := true, stableSince := Some(now), failures := e.failures + 1);
        if s.RecoveryDue(c) then s else s.(retryAt := Some(now + c.retryDelay))
    }

    function RetryDelayed(c: Config, now: int): Failures {
      this.(retryAt := Some(now + c.retryDelay))
    }

    function Recovered(c: Config, now: int): Failures {
      this.(failures := 1, attempts := attempts + 1, stableSince := Some(now), retryAt := Some(now + c.retryDelay))
    }

    function AttemptFailed(c: Config, now: int): Failures {
      var s := this.(attempts := attempts + 1, stableSince := Some(now));
      if s.EmergencyDue(c) then s else s.(retryAt := Some(now + c.attemptDelay))
    }

    function EmergencyFailed(c: Config, now: int): Failures {
      this.(attempts := 0, stableSince := Some(now), retryAt := Some(now + c.cycleDelay))
    }

    function Cleared(): Failures {
      this.(failures := 0, attempts := 0, retryAt := None, stableSince := None)
    }
  }

  const FRESH := Failures(0, 0, false, None, None)

  class FailureState {
    const config: Config
    var failures: int
    var attempts: int
    var error: bool
    var retryAt: Option<int>
    var stableSince: Option<int>

    function Now(): Failures
      reads this
    {
      Failures(failures, attempts, error, retryAt, stableSince)
    }

    constructor (c: Config)
      ensures config == c && Now() == FRESH
    {
      config := c;
      failures, attempts, error, retryAt, stableSince := 0, 0, false, None, None;
    }

    method BeginProcedure()
      modifies this
      ensures Now() == old(Now()).Begun()
      ensures !error && retryAt.None? && failures == old(failures) && attempts == old(attempts)
      ensures stableSince == old(stableSince)
    {
      error := false;
      retryAt := None;
    }

    method Expire(now: int)
      modifies this
      ensures Now() == old(Now()).Expired(config, now)
      ensures var stable := stableSince.Some? && now - stableSince.value >= config.stablePeriod;
        failures == (if stable then 0 else old(failures)) && attempts == (if stable then 0 else old(attempts))
      ensures stableSince == old(stableSince) && retryAt == old(retryAt) && error == old(error)
    {
      if stableSince.Some? && now - stableSince.value >= config.stablePeriod {
        failures := 0;
        attempts := 0;
      }
    }

    method RecordInitialError(now: int)
      modifies this
      ensures Now() == old(Now()).InitialError(config, now)
      ensures stableSince == Some(now) && retryAt == old(retryAt) && error == old(error)
      ensures failures == if old(Now()).Stable(config, now) || old(failures) == 0 then 1 else old(failures)
    {
      Expire(now);
      stableSince := Some(now);
      if failures == 0 {
        failures := 1;
      }
    }

    method RecordFailure(now: int)
      modifies this
      ensures Now() == old(Now()).Failed(config, now)
      ensures old(error) ==> Now() == old(Now())
      ensures !old(error) ==> stableSince == Some(now) && error
      ensures !old(error) ==> failures == 1 + if old(Now()).Stable(config, now) then 0 else old(failures)
      ensures !old(error) && failures >= config.recoverAfter ==> retryAt == old(retryAt)
      ensures !old(error) && failures < config.recoverAfter ==> retryAt == Some(now + config.retryDelay)
    {
      if error {
        return;
      }
      Expire(now);
      error := true;
      stableSince := Some(now);
      failures := failures + 1;
      if !Now().RecoveryDue(config) {
        retryAt := Some(now + config.retryDelay);
      }
    }

    method DelayRetry(now: int)
      modifies this
      ensures Now() == old(Now()).RetryDelayed(config, now)
      ensures retryAt == Some(now + config.retryDelay) && failures == old(failures) && attempts == old(attempts)
    {
      retryAt := Some(now + config.retryDelay);
    }

    method RecordRecovery(now: int)
      modifies this
      ensures Now() == old(Now()).Recovered(config, now)
      ensures failures == 1 && attempts == old(attempts) + 1
      ensures stableSince == Some(now) && retryAt == Some(now + config.retryDelay)
    {
      failures := 1;
      attempts := attempts + 1;
      stableSince := Some(now);
      retryAt := Some(now + config.retryDelay);
    }

    method RecordFailedAttempt(now: int)
      modifies this
      ensures Now() == old(Now()).AttemptFailed(config, now)
      ensures attempts == old(attempts) + 1 && failures == old(failures) && stableSince == Some(now)
      ensures retryAt == if Now().EmergencyDue(config) then old(retryAt) else Some(now + config.attemptDelay)
    {
      attempts := attempts + 1;
      stableSince := Some(now);
      if !Now().EmergencyDue(config) {
        retryAt := Some(now + config.attemptDelay);
      }
    }

    method RecordFailedEmergency(now: int)
      modifies this
      ensures Now() == old(Now()).EmergencyFailed(config, now)
      ensures attempts == 0 && failures == old(failures)
      ensures stableSince == Some(now) && retryAt == Some(now + config.cycleDelay)
    {
      attempts := 0;
      stableSince := Some(now);
      retryAt := Some(now + config.cycleDelay);
    }

    method Clear()
      modifies this
      ensures Now() == old(Now()).Cleared()
      ensures failures == 0 && attempts == 0 && retryAt.None? && stableSince.None?
    {
      failures := 0;
      attempts := 0;
      retryAt := None;
      stableSince := None;
    }
  }
}
