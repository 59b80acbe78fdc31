/** Attribution of program events to tasking sessions. */
module SessionMonitor {
  import opened Prelude

  /** A program event; ids order events. A tasking state is tagged when it carries a loop state. */
  datatype Event =
    | Tagged(id: int, session: nat, fault: Option<int>, execution: int)
    | Untagged(id: int, execution: int)
    | Activated(id: int)
    | Stopping(id: int)
    | Inactive(id: int)

  datatype Report = Report(session: nat, fault: Option<int>)

  datatype Monitor = Monitor(
    loopState: Option<Report>, execution: Option<int>, ending: Option<int>, current: Option<nat>, currentAfter: int)
  {
    function Fault(): Option<int> {
      if loopState.Some? then loopState.value.fault else None
    }
  }

  const UNREAD := Monitor(None, None, None, None, 0)

  /** One event's effect on the monitor of `session`, and whether it is reported as that session's tasking state. */
  function Observe(m: Monitor, session: nat, e: Event): (Monitor, bool) {
    if m.ending.Some? then (m, false)
    else match e
      case Tagged(id, s, fault, execution) =>
        var n := m.(current := Some(s), currentAfter := id);
        if s != session then (n, false)
        else
          var loopState := if m.Fault().None? then Some(Report(s, fault)) else m.loopState;
          (n.(loopState := loopState, execution := Some(execution)), true)
      case Untagged(id, execution) =>
        if m.current == Some(session) && id > m.currentAfter then (m.(execution := Some(execution)), true)
        else (m, false)
      case Activated(id) =>
        if id > m.currentAfter then (m.(current := None, currentAfter := id), false) else (m, false)
      case Stopping(_) => (m, false)
      case Inactive(id) =>
        if m.current == Some(session) && id > m.currentAfter then (m.(ending := Some(id)), false) else (m, false)
  }

  /** The monitor bound with the snapshot, after the events. */
  function Read(session: nat, snapshot: Option<Event>, events: seq<Event>): Monitor {
    if events == [] then
      if snapshot.Some? then Observe(UNREAD, session, snapshot.value).0 else UNREAD
    else Observe(Read(session, snapshot, events[..|events| - 1]), session, events[|events| - 1]).0
  }

  ghost predicate Increasing(events: seq<Event>) {
    && (forall i :: 0 <= i < |events| ==> events[i].id > 0)
    && forall i, j :: 0 <= i < j < |events| ==> events[i].id < events[j].id
  }

  /** Buffering began before the snapshot was read: the snapshot is a tasking state older than all the events, or one of
      them, or still to come among them. */
  ghost predicate Placed(snapshot: Option<Event>, events: seq<Event>) {
    snapshot.Some? ==>
      var s := snapshot.value;
      && (s.Tagged? || s.Untagged?)
      && (forall e :: e in events && e.id == s.id ==> e == s)
      && forall a, b :: a in events && b in events && a.id <= s.id < b.id ==> s in events
  }

  /** It says which session events belong to until the next such event. */
  predicate IsMark(e: Event) {
    e.Tagged? || e.Activated?
  }

  ghost predicate Known(snapshot: Option<Event>, events: seq<Event>, e: Event) {
    e in events || snapshot == Some(e)
  }

  /** The latest tagged report or activation known from before `id` is a tagged report of the session. */
  ghost predicate Owns(session: nat, snapshot: Option<Event>, events: seq<Event>, id: int) {
    exists t ::
      Known(snapshot, events, t) && t.Tagged? && t.session == session && t.id < id && Latest(snapshot, events, t, id)
  }

  ghost predicate Latest(snapshot: Option<Event>, events: seq<Event>, t: Event, id: int) {
    forall u :: Known(snapshot, events, u) && IsMark(u) && u.id < id ==> u.id <= t.id
  }

  /** The first inactive event to arrive for the session. */
  ghost function EndingOf(session: nat, snapshot: Option<Event>, events: seq<Event>): Option<int> {
    if events == [] then None
    else
      var front, last := events[..|events| - 1], events[|events| - 1];
      if EndingOf(session, snapshot, front).Some? then EndingOf(session, snapshot, front)
      else if last.Inactive? && Owns(session, snapshot, front, last.id) then Some(last.id)
      else None
  }

  ghost function Reported(session: nat, e: Event): Option<int> {
    if e.Tagged? && e.session == session then e.fault else None
  }

  /** The first fault the session reported, in the snapshot or in an event before its ending. */
  ghost function FaultOf(session: nat, snapshot: Option<Event>, events: seq<Event>): Option<int> {
    if events == [] then
      if snapshot.Some? then Reported(session, snapshot.value) else None
    else
      var front, last := events[..|events| - 1], events[|events| - 1];
      var fault := FaultOf(session, snapshot, front);
      if fault.Some? || EndingOf(session, snapshot, front).Some? then fault else Reported(session, last)
  }

  /** What the monitor must show as the session's progress: its latest report, but the first with a fault for good. */
  ghost function ProgressOf(session: nat, snapshot: Option<Event>, events: seq<Event>): Option<Report>
    decreases |events|
  {
    if events == [] then
      if snapshot.Some? then Progress(None, session, snapshot.value) else None
    else
      var front, last := events[..|events| - 1], events[|events| - 1];
      var before := ProgressOf(session, snapshot, front);
      if EndingOf(session, snapshot, front).Some? then before else Progress(before, session, last)
  }

  ghost function Progress(before: Option<Report>, session: nat, e: Event): Option<Report> {
    if e.Tagged? && e.session == session && (before.Some? ==> before.value.fault.None?)
    then Some(Report(session, e.fault))
    else before
  }

  /** Before its ending the session is reported on: by a report tagged with it, or by an untagged one that is its own.
      */
  ghost predicate Belongs(session: nat, snapshot: Option<Event>, events: seq<Event>, e: Event) {
    EndingOf(session, snapshot, events).None? &&
    ((e.Tagged? && e.session == session) || (e.Untagged? && Owns(session, snapshot, events, e.id)))
  }

  // ---- The latest mark --------------------------------------------------------------------

  ghost function SessionOf(e: Event): Option<nat> {
    if e.Tagged? then Some(e.session) else None
  }

  ghost predicate LastMark(events: seq<Event>, k: int) {
    0 <= k < |events| && IsMark(events[k]) && forall j :: k < j < |events| ==> !IsMark(events[j])
  }

  /** The monitor stands by the snapshot, with only older activations since. */
  ghost predicate BySnapshot(m: Monitor, snapshot: Option<Event>, events: seq<Event>) {
    && snapshot.Some? && snapshot.value.Tagged?
    && m.current == Some(snapshot.value.session) && m.currentAfter == snapshot.value.id
    && forall u :: u in events && IsMark(u) ==> u.Activated? && u.id <= snapshot.value.id
  }

  /** It stands by the last mark among the events. */
  ghost predicate ByEvent(m: Monitor, events: seq<Event>, k: int) {
    LastMark(events, k) && m.current == SessionOf(events[k]) && m.currentAfter == events[k].id
  }

  /** It has seen no mark at all. */
  ghost predicate ByNone(m: Monitor, snapshot: Option<Event>, events: seq<Event>) {
    && !(snapshot.Some? && snapshot.value.Tagged?) && m.current.None? && m.currentAfter == 0
    && forall u :: u in events ==> !IsMark(u)
  }

  ghost predicate Marked(m: Monitor, snapshot: Option<Event>, events: seq<Event>) {
    BySnapshot(m, snapshot, events) || (exists k :: ByEvent(m, events, k)) || ByNone(m, snapshot, events)
  }

  lemma ObserveMarked(m: Monitor, session: nat, snapshot: Option<Event>, events: seq<Event>, e: Event)
    requires Increasing(events + [e]) && Marked(m, snapshot, events) && m.ending.None?
    ensures Marked(Observe(m, session, e).0, snapshot, events + [e])
  {
    var m', more := Observe(m, session, e).0, events + [e];
    assert more[|events|] == e;
    assert e.id > 0 && forall k :: 0 <= k < |events| ==> more[k] == events[k] && events[k].id < e.id;
    if e.Tagged? || (e.Activated? && e.id > m.currentAfter) {
      assert ByEvent(m', more, |events|);
    } else if k :| ByEvent(m, events, k) {
      assert ByEvent(m', more, k);
    }
  }

  /** The test the monitor makes before crediting an event decides exactly whether the session owns it. */
  lemma MarkedOwns(m: Monitor, session: nat, snapshot: Option<Event>, events: seq<Event>, e: Event)
    requires Increasing(events + [e]) && Placed(snapshot, events + [e]) && Marked(m, snapshot, events)
    ensures m.current == Some(session) && e.id > m.currentAfter <==> Owns(session, snapshot, events, e.id)
  {
    var more := events + [e];
    assert more[|events|] == e;
    assert forall k :: 0 <= k < |events| ==> more[k] == events[k] && events[k].id < e.id;
    if k :| ByEvent(m, events, k) {
      LastIsLatest(snapshot, events, e, k);
      assert Known(snapshot, events, events[k]);
    } else if BySnapshot(m, snapshot, events) {
      if e.id > snapshot.value.id {
        assert Latest(snapshot, events, snapshot.value, e.id);
      }
    }
  }

  lemma LastIsLatest(snapshot: Option<Event>, events: seq<Event>, e: Event, k: int)
    requires Increasing(events + [e]) && Placed(snapshot, events + [e]) && LastMark(events, k)
    ensures events[k].id < e.id && Latest(snapshot, events, events[k], e.id)
    ensures forall t ::
      Known(snapshot, events, t) && IsMark(t) && t.id < e.id && events[k].id <= t.id ==> t == events[k]
  {
    var more := events + [e];
    assert more[|events|] == e && events[k] in more && e in more;
    assert forall j :: 0 <= j < |events| ==> more[j] == events[j] && events[j].id < e.id;
    forall t | Known(snapshot, events, t) && IsMark(t) && t.id < e.id && events[k].id <= t.id
      ensures t == events[k]
    {
      if t !in events {
        assert false;
      }
      var j :| 0 <= j < |events| && events[j] == t;
    }
  }

  // ---- What the monitor reports -----------------------------------------------------------

  lemma PlacedFront(snapshot: Option<Event>, events: seq<Event>, k: nat)
    requires Increasing(events) && Placed(snapshot, events) && k <= |events|
    ensures Increasing(events[..k]) && Placed(snapshot, events[..k])
  {
    if snapshot.Some? {
      var s := snapshot.value;
      forall a, b | a in events[..k] && b in events[..k] && a.id <= s.id < b.id
        ensures s in events[..k]
      {
        var i :| 0 <= i < k && events[i] == b;
        var j :| 0 <= j < |events| && events[j] == s;
        assert j < i && events[..k][j] == s;
      }
    }
  }

  lemma StartMarked(session: nat, snapshot: Option<Event>)
    requires Placed(snapshot, [])
    ensures Marked(Read(session, snapshot, []), snapshot, [])
  {
  }

  /** The monitor computes exactly those meanings, by looking only at its own few fields. */
  lemma {:induction false} ReadMeaning(session: nat, snapshot: Option<Event>, events: seq<Event>)
    requires Increasing(events) && Placed(snapshot, events)
    ensures var m := Read(session, snapshot, events);
      && m.ending == EndingOf(session, snapshot, events)
      && m.Fault() == FaultOf(session, snapshot, events)
      && m.loopState == ProgressOf(session, snapshot, events)
      && (m.ending.None? ==> Marked(m, snapshot, events))
  {
    hide Increasing, Placed, Marked, Owns;
    if events == [] {
      StartMarked(session, snapshot);
    } else {
      var n := |events| - 1;
      var front, last := events[..n], events[n];
      assert front + [last] == events;
      PlacedFront(snapshot, events, n);
      ReadMeaning(session, snapshot, front);
      var m := Read(session, snapshot, front);
      if m.ending.None? {
        ObserveMarked(m, session, snapshot, front, last);
        MarkedOwns(m, session, snapshot, front, last);
      }
    }
  }

  /** Before its ending, an untagged report or an inactive event is credited to the session exactly when the latest
      tagged report or activation before it, the snapshot among them, is a tagged report of that session. */
  lemma Credited(session: nat, snapshot: Option<Event>, events: seq<Event>, e: Event)
    requires Increasing(events + [e]) && Placed(snapshot, events + [e])
    ensures var m := Read(session, snapshot, events); var (n, reported) := Observe(m, session, e);
      && (reported <==> Belongs(session, snapshot, events, e))
      && (reported ==> n.execution == Some(e.execution)) && (!reported ==> n.execution == m.execution)
      && (e.Inactive? && m.ending.None? ==> (n.ending == Some(e.id) <==> Owns(session, snapshot, events, e.id)))
  {
    assert (events + [e])[..|events|] == events;
    hide Increasing, Placed, Marked, Owns, EndingOf, Read;
    PlacedFront(snapshot, events + [e], |events|);
    ReadMeaning(session, snapshot, events);
    var m := Read(session, snapshot, events);
    if m.ending.None? {
      MarkedOwns(m, session, snapshot, events, e);
    }
  }

  /** Untagged history from before a tagged snapshot changes nothing; in particular it ends no session. */
  lemma {:induction false} StaleHistory(session: nat, snapshot: Event, events: seq<Event>)
    requires snapshot.Tagged? && forall e :: e in events ==> !e.Tagged? && e.id < snapshot.id
    ensures Read(session, Some(snapshot), events) == Read(session, Some(snapshot), [])
  {
    if events != [] {
      assert events[|events| - 1] in events;
      StaleHistory(session, snapshot, events[..|events| - 1]);
    }
  }

  /** Once set, the session's first fault and its ending never change. */
  lemma {:induction false} OutcomeKept(session: nat, snapshot: Option<Event>, events: seq<Event>, k: nat)
    requires k <= |events|
    ensures var then_, now := Read(session, snapshot, events[..k]), Read(session, snapshot, events);
      (then_.Fault().Some? ==> now.Fault() == then_.Fault()) && (then_.ending.Some? ==> now == then_)
    decreases |events|
  {
    if k == |events| {
      assert events[..k] == events;
    } else {
      var front := events[..|events| - 1];
      assert front[..k] == events[..k];
      OutcomeKept(session, snapshot, front, k);
    }
  }

  /** Those of the events that belong to the session where they stand, in their order. */
  ghost function Belonging(session: nat, snapshot: Option<Event>, seen: seq<Event>, events: seq<Event>): seq<Event> {
    if events == [] then []
    else
      var front, last := events[..|events| - 1], events[|events| - 1];
      Belonging(session, snapshot, seen, front) + if Belongs(session, snapshot, seen + front, last) then [last] else []
  }

  lemma OneMore(session: nat, snapshot: Option<Event>, seen: seq<Event>, buffered: seq<Event>, i: nat)
    requires i < |buffered| && Increasing(seen + buffered) && Placed(snapshot, seen + buffered)
    ensures var upTo := seen + buffered[..i];
      && Increasing(upTo + [buffered[i]]) && Placed(snapshot, upTo + [buffered[i]])
      && var n := Observe(Read(session, snapshot, upTo), session, buffered[i]).0;
      Read(session, snapshot, seen + buffered[..i + 1]) == n
  {
    var upTo := seen + buffered[..i];
    assert seen + buffered[..i + 1] == upTo + [buffered[i]] == (seen + buffered)[..|seen| + i + 1];
    PlacedFront(snapshot, seen + buffered, |seen| + i + 1);
    assert (upTo + [buffered[i]])[..|upTo|] == upTo;
  }

  class ProgramTaskingMonitor {
    var sessionId: Option<nat>
    var loopState: Option<Report>
    var execution: Option<int>
    var ending: Option<int>
    var current: Option<nat>
    var currentAfter: int

    function Now(): Monitor
      reads this
    {
      Monitor(loopState, execution, ending, current, currentAfter)
    }

    constructor ()
      ensures sessionId.None? && Now() == UNREAD
    {
      sessionId, loopState, execution, ending, current, currentAfter := None, None, None, None, None, 0;
    }

    /** False when a session was already selected, which stays selected. */
    method Bind(session: nat, initial: Option<Event>) returns (ok: bool)
      modifies this
      ensures ok == old(sessionId).None? && sessionId == if ok then Some(session) else old(sessionId)
      ensures Now() == if ok && initial.Some? then Observe(old(Now()), session, initial.value).0 else old(Now())
      ensures ok && old(Now()) == UNREAD ==> Now() == Read(session, initial, [])
    {
      if sessionId.Some? {
        return false;
      }
      ok := true;
      sessionId := Some(session);
      if initial.Some? {
        var reported := ObserveEvent(initial.value);
      }
    }

    method ObserveEvent(e: Event) returns (reported: bool)
      requires sessionId.Some?
      modifies this
      ensures sessionId == old(sessionId) && (Now(), reported) == Observe(old(Now()), sessionId.value, e)
    {
      if ending.Some? {
        return false;
      }
      match e {
        case Tagged(id, s, fault, report) =>
          current := Some(s);
          currentAfter := id;
          if s == sessionId.value {
            if loopState.None? || loopState.value.fault.None? {
              loopState := Some(Report(s, fault));
            }
            execution := Some(report);
            return true;
          }
        case Untagged(id, report) =>
          if current == sessionId && id > currentAfter {
            execution := Some(report);
            return true;
          }
        case Activated(id) =>
          if id > currentAfter {
            current := None;
            currentAfter := id;
          }
        case Stopping(_) =>
        case Inactive(id) =>
          if current == sessionId && id > currentAfter {
            ending := Some(id);
          }
      }
      return false;
    }

    /** Drains the buffered events, returning those that are the session's tasking states. */
    method ReadEvents(ghost snapshot: Option<Event>, ghost seen: seq<Event>, buffered: seq<Event>)
        returns (states: seq<Event>)
      requires sessionId.Some? && Increasing(seen + buffered) && Placed(snapshot, seen + buffered)
      requires Now() == Read(sessionId.value, snapshot, seen)
      modifies this
      ensures sessionId == old(sessionId) && Now() == Read(sessionId.value, snapshot, seen + buffered)
      ensures states == Belonging(sessionId.value, snapshot, seen, buffered)
    {
      hide Read, Observe, Belongs, Increasing, Placed;
      states := [];
      assert seen + buffered[..0] == seen;
      for i := 0 to |buffered|
        invariant sessionId == old(sessionId) && Now() == Read(sessionId.value, snapshot, seen + buffered[..i])
        invariant states == Belonging(sessionId.value, snapshot, seen, buffered[..i])
      {
        assert buffered[..i + 1][..i] == buffered[..i];
        OneMore(sessionId.value, snapshot, seen, buffered, i);
        Credited(sessionId.value, snapshot, seen + buffered[..i], buffered[i]);
        var reported := ObserveEvent(buffered[i]);
        if reported {
          states := states + [buffered[i]];
        }
      }
      assert buffered[..|buffered|] == buffered;
    }
  }
}
