/** One task call: sending it, following the execution it starts, and the verdict its future settles on. */
module TaskCall {
  import opened Procedure

  /** What comes back for the request. */
  datatype Reply = Accepted(execution: bool) | Declined(execution: bool) | Lost

  /** How a request to send ends: refused outright, settled by its reply, or followed by an execution. */
  datatype Sending = Refused | Settled | Executing

  /** How the execution's end is learned; `Dropped` is the cancellation of the follower itself. */
  datatype End = Success | Failure | EndLost | Dropped

  /** What the future of a call must say, from what the controller did. */
  ghost function Verdict(reply: Reply, abortsSeen: nat, end: End): CallOutcome {
    match reply
    case Declined(_) => Rejected
    case Lost => Unknown
    case Accepted(false) => Unknown
    case Accepted(true) =>
      (match end
       case Success => Succeeded
       case Failure => TaskFailed(abortsSeen > 0)
       case EndLost => Unknown
       case Dropped => Unknown)
  }

  /** A verdict is definite exactly when the controller declined the task or reported how its execution ended. */
  lemma DefiniteVerdict(reply: Reply, abortsSeen: nat, end: End)
    ensures var told := reply.Declined? || (reply == Accepted(true) && end in {Success, Failure});
      Verdict(reply, abortsSeen, end).Definite() <==> told
  {
  }

  /** A procedure may stop tracking a call exactly when its verdict is definite, and one it still tracks with any other
      verdict leaves the procedure unresolved. */
  lemma VerdictDecidesRelease(p: Proc, i: nat, reply: Reply, abortsSeen: nat, end: End)
    requires i < |p.work.calls| && p.work.calls[i].outcome.Pending?
    ensures var v := Verdict(reply, abortsSeen, end);
      && Enabled(p, Settle(i, v))
      && var q := Next(p, Settle(i, v));
      && (WorkEnabled(q.work, Release(i)) <==>
            reply.Declined? || (reply == Accepted(true) && end in {Success, Failure}))
      && (Enabled(q, Finish) && !v.Definite() ==> Next(q, Finish).status.unresolved)
  {
    DefiniteVerdict(reply, abortsSeen, end);
    var v := Verdict(reply, abortsSeen, end);
    assert Enabled(p, Settle(i, v));
    var q := Next(p, Settle(i, v));
    assert q.work.calls[i].outcome == v;
  }

  /** One send for each abort request seen, and none once the controller has taken one up. */
  ghost predicate RetriesUntilAccepted(accepts: seq<bool>, sends: nat) {
    && sends <= |accepts|
    && (forall k :: 0 <= k < sends - 1 ==> !accepts[k])
    && (sends < |accepts| ==> sends > 0 && accepts[sends - 1])
  }

  class Call {
    var sent: bool
    var outcome: CallOutcome
    var identified: bool
    var aborted: bool
    var sends: nat

    constructor ()
      ensures !sent && outcome == Pending && !identified && !aborted && sends == 0
    {
      sent, outcome, identified, aborted, sends := false, Pending, false, false, 0;
    }

    /** Completes the result future unless it is already complete. */
    method SettleOutcome(result: CallOutcome)
      requires !result.Pending?
      modifies this`outcome
      ensures outcome == if old(outcome).Pending? then result else old(outcome)
    {
      if outcome.Pending? {
        outcome := result;
      }
    }

    /** The request goes out at most once and only with events subscribed; only an accepted task with an execution
        leaves the result open. Even a declined task may come with an execution. */
    method Send(subscribed: bool, reply: Reply) returns (r: Sending)
      requires !sent ==> outcome.Pending?
      modifies this`sent, this`outcome, this`identified
      ensures r.Refused? <==> old(sent) || !subscribed
      ensures r.Refused? ==> sent == old(sent) && outcome == old(outcome) && identified == old(identified)
      ensures !r.Refused? ==> sent && (r.Executing? <==> reply == Accepted(true))
      ensures !r.Refused? && !reply.Lost? && reply.execution ==> identified
      ensures r.Executing? ==> outcome.Pending?
      ensures r.Settled? && reply.Declined? ==> outcome == Rejected
      ensures r.Settled? && !reply.Declined? ==> outcome == Unknown
      ensures r.Settled? ==> forall n: nat, end :: outcome == Verdict(reply, n, end)
    {
      if sent || !subscribed {
        return Refused;
      }
      sent := true;
      match reply {
        case Declined(has) =>
          if has {
            identified := true;
          }
          SettleOutcome(Rejected);
        case Lost => SettleOutcome(Unknown);
        case Accepted(has) =>
          if has {
            identified := true;
            return Executing;
          }
          SettleOutcome(Unknown);
      }
      return Settled;
    }

    /** Follows the execution: `accepts` says, for each abort request seen before the end, whether a send would be
        accepted. */
    method Follow(accepts: seq<bool>, end: End)
      requires sent && outcome.Pending? && identified && !aborted && sends == 0
      modifies this`outcome, this`aborted, this`sends
      ensures outcome == Verdict(Accepted(true), |accepts|, end)
      ensures end.Success? ==> outcome == Succeeded
      ensures end.Failure? ==> outcome == TaskFailed(accepts != [])
      ensures end.EndLost? || end.Dropped? ==> outcome == Unknown
      ensures RetriesUntilAccepted(accepts, sends)
    {
      var delivered := false;
      for k := 0 to |accepts|
        invariant outcome.Pending? && (aborted <==> k > 0)
        invariant delivered ==> 0 < sends <= k && accepts[sends - 1]
        invariant !delivered ==> sends == k
        invariant forall j :: 0 <= j < sends - 1 ==> !accepts[j]
        invariant !delivered ==> forall j :: 0 <= j < k ==> !accepts[j]
      {
        aborted := true;
        if !delivered {
          sends := sends + 1;
          delivered := accepts[k];
        }
      }
      match end {
        case Success => SettleOutcome(Succeeded);
        case Failure => SettleOutcome(TaskFailed(aborted));
        case EndLost => SettleOutcome(Unknown);
        case Dropped => SettleOutcome(Unknown);
      }
    }
  }
}
