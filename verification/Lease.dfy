/** Leases on one key of a revisioned store: clients, the store, and time to live, as interleaved atomic steps. */
module Lease {
  import opened Prelude

  datatype Value = Held(owner: nat) | Deleted

  datatype Entry = Entry(value: Value, revision: nat)

  /** The key's history, its time to live, and the revision the registered expirer would delete. */
  datatype Store = Store(history: seq<Entry>, ttl: Option<int>, expirer: Option<nat>) {
    predicate Defined() {
      history != []
    }

    function Latest(): Entry
      requires Defined()
    {
      history[|history| - 1]
    }

    predicate Live() {
      Defined() && Latest().value.Held?
    }
  }

  datatype Answer = Written(entry: Entry) | RevisionError | Nothing

  /** `_kv_do_update`: the revision must match if the key has ever been written. */
  function DoUpdate(s: Store, value: Value, revision: nat, ttl: Option<int>): (Store, Answer) {
    if s.Defined() && revision != s.Latest().revision then (s, RevisionError)
    else
      var entry := Entry(value, revision + 1);
      var kept := if ttl.Some? then ttl else s.ttl;
      // A zero time to live, or a deletion, registers no expirer.
      var expires := kept.Some? && kept.value != 0 && value.Held?;
      (Store(s.history + [entry], kept, if expires then Some(revision + 1) else None), Written(entry))
  }

  function KvCreate(s: Store, owner: nat, ttl: int): (Store, Answer) {
    var (s', answer) := DoUpdate(s, Held(owner), 0, Some(ttl));
    if answer.RevisionError? && s.Defined() && s.Latest().value.Deleted? then
      DoUpdate(s, Held(owner), s.Latest().revision, Some(ttl))
    else (s', answer)
  }

  /** The time to live passed to an update is not used; the one stored at creation stays in effect. */
  function KvUpdate(s: Store, owner: nat, revision: nat): (Store, Answer) {
    DoUpdate(s, Held(owner), revision, None)
  }

  function KvDelete(s: Store, revision: nat): (Store, Answer) {
    if !s.Live() then (s, Nothing) else DoUpdate(s, Deleted, revision, None)
  }

  /** A lease as its holder sees it: `reply` is the revision of a refresh the store has made but the holder has not
      yet recorded. */
  datatype Holder = Holder(revision: nat, reply: Option<nat>, expired: bool)

  datatype World = World(store: Store, holders: map<nat, Holder>)

  datatype Event =
    | Acquire(id: nat, ttl: int)   // the store side of an acquisition
    | Refresh(id: nat)             // the store side of a refresh
    | Record(id: nat)              // the holder stores the revision it was answered with
    | Expire(id: nat)              // the holder gives the lease up
    | Notice(id: nat)              // the holder's monitor finds the lease gone, or times out
    | TimeToLive                   // the registered expirer fires

  ghost predicate Can(w: World, e: Event) {
    match e
    case Acquire(id, _) => id !in w.holders
    case Refresh(id) => id in w.holders && w.holders[id].reply.None?
    case Record(id) => id in w.holders && w.holders[id].reply.Some?
    case Expire(id) => id in w.holders
    case Notice(id) => id in w.holders
    case TimeToLive => w.store.expirer.Some?
  }

  ghost function Move(w: World, e: Event): World
    requires Can(w, e)
  {
    match e
    case Acquire(id, ttl) =>
      var (store, answer) := KvCreate(w.store, id, ttl);
      if answer.Written? then World(store, w.holders[id := Holder(answer.entry.revision, None, false)])
      else w.(store := store)
    case Refresh(id) =>
      var h := w.holders[id];
      var (store, answer) := KvUpdate(w.store, id, h.revision);
      World(store, if answer.Written? then w.holders[id := h.(reply := Some(answer.entry.revision))] else w.holders)
    case Record(id) =>
      var h := w.holders[id];
      w.(holders := w.holders[id := h.(revision := h.reply.value, reply := None)])
    case Expire(id) =>
      var h := w.holders[id];
      if h.expired then w
      else
        var (store, answer) := KvDelete(w.store, h.revision);
        // A refused deletion raises and leaves the lease marked as held.
        World(store, if answer.RevisionError? then w.holders else w.holders[id := h.(expired := true)])
    case Notice(id) => w.(holders := w.holders[id := w.holders[id].(expired := true)])
    case TimeToLive =>
      var (store, answer) := KvDelete(w.store, w.store.expirer.value);
      w.(store := store.(expirer := if answer.Written? then store.expirer else None))
  }

  ghost predicate Legal(run: seq<Event>)
    decreases |run|, 0
  {
    run == [] || (Legal(run[..|run| - 1]) && Can(Replay(run[..|run| - 1]), run[|run| - 1]))
  }

  ghost function Replay(run: seq<Event>): World
    requires Legal(run)
    decreases |run|, 1
  {
    if run == [] then World(Store([], None, None), map[]) else Move(Replay(run[..|run| - 1]), run[|run| - 1])
  }

  /** The lease the entry belongs to, as seen from the holder: its recorded or its answered revision is the entry's. */
  ghost predicate Matches(w: World, id: nat) {
    id in w.holders && w.store.Live() &&
    (w.holders[id].revision == w.store.Latest().revision || w.holders[id].reply == Some(w.store.Latest().revision))
  }

  ghost predicate Rising(history: seq<Entry>) {
    forall i, j :: 0 <= i < j < |history| ==> history[i].revision < history[j].revision
  }

  ghost predicate StoreFenced(s: Store) {
    && Rising(s.history)
    && (s.Defined() ==> s.Latest().revision > 0)
    // A live entry with a nonzero time to live, and only that, has an expirer, which would delete just that revision.
    && (s.expirer.Some? <==> s.Live() && s.ttl.Some? && s.ttl.value != 0)
    && (s.expirer.Some? ==> s.expirer.value == s.Latest().revision)
  }

  /** A holder never knows a revision the store has not reached, and knows the latest only as the owner it names. */
  ghost predicate HolderFenced(s: Store, id: nat, h: Holder) {
    && s.Defined()
    && h.revision <= s.Latest().revision
    && (h.revision == s.Latest().revision ==> s.Latest().value == Held(id))
    && (h.reply.Some? ==> h.revision < h.reply.value <= s.Latest().revision)
    && (h.reply == Some(s.Latest().revision) ==> s.Latest().value == Held(id))
  }

  ghost predicate Fenced(w: World) {
    && StoreFenced(w.store)
    && (forall id :: id in w.holders ==> HolderFenced(w.store, id, w.holders[id]))
    && (w.store.Live() ==> w.store.Latest().value.owner in w.holders)
  }

  /** A write happens exactly when the revision given is the latest, and then outranks everything before it. */
  lemma WriteRises(s: Store, value: Value, revision: nat, ttl: Option<int>)
    requires StoreFenced(s) && (!s.Defined() ==> revision == 0)
    ensures var (s', answer) := DoUpdate(s, value, revision, ttl);
      if !s.Defined() || revision == s.Latest().revision
      then
        && StoreFenced(s') && answer == Written(Entry(value, revision + 1))
        && s'.history == s.history + [Entry(value, revision + 1)]
      else s' == s && answer.RevisionError?
  {
    if !s.Defined() || revision == s.Latest().revision {
      assert s.Defined() ==> forall i :: 0 <= i < |s.history| - 1 ==> s.history[i].revision < s.Latest().revision;
    }
  }

  /** A later write leaves every earlier holder behind. */
  lemma LeftBehind(s: Store, s': Store, value: Value, id: nat, h: Holder)
    requires HolderFenced(s, id, h) && s'.history == s.history + [Entry(value, s.Latest().revision + 1)]
    ensures HolderFenced(s', id, h)
  {
  }

  lemma AcquireFenced(w: World, id: nat, ttl: int)
    requires Fenced(w) && Can(w, Acquire(id, ttl))
    ensures Fenced(Move(w, Acquire(id, ttl)))
  {
    var s := w.store;
    var revision := if s.Defined() then s.Latest().revision else 0;
    WriteRises(s, Held(id), 0, Some(ttl));
    WriteRises(s, Held(id), revision, Some(ttl));
    var w' := Move(w, Acquire(id, ttl));
    forall other | other in w.holders && w'.store != s
      ensures HolderFenced(w'.store, other, w.holders[other])
    {
      LeftBehind(s, w'.store, Held(id), other, w.holders[other]);
    }
  }

  lemma RefreshFenced(w: World, id: nat)
    requires Fenced(w) && Can(w, Refresh(id))
    ensures Fenced(Move(w, Refresh(id)))
  {
    var s, h := w.store, w.holders[id];
    assert HolderFenced(s, id, h);
    WriteRises(s, Held(id), h.revision, None);
    var w' := Move(w, Refresh(id));
    forall other | other in w.holders && w'.store != s
      ensures HolderFenced(w'.store, other, w.holders[other])
    {
      LeftBehind(s, w'.store, Held(id), other, w.holders[other]);
    }
  }

  lemma DeleteFenced(w: World, revision: nat)
    requires Fenced(w)
    ensures var (s', answer) := KvDelete(w.store, revision);
      && Fenced(w.(store := s'))
      && (answer.Written? <==> w.store.Live() && revision == w.store.Latest().revision)
      && (answer.Written? ==> s'.expirer.None?)
      && (!answer.Written? ==> s' == w.store)
  {
    if w.store.Live() {
      WriteRises(w.store, Deleted, revision, None);
      var s' := KvDelete(w.store, revision).0;
      forall other | other in w.holders && s' != w.store
        ensures HolderFenced(s', other, w.holders[other])
      {
        LeftBehind(w.store, s', Deleted, other, w.holders[other]);
      }
    }
  }

  lemma MoveFenced(w: World, e: Event)
    requires Fenced(w) && Can(w, e)
    ensures Fenced(Move(w, e))
  {
    match e
    case Acquire(id, ttl) => AcquireFenced(w, id, ttl);
    case Refresh(id) => RefreshFenced(w, id);
    case Record(id) => assert HolderFenced(w.store, id, w.holders[id]);
    case Expire(id) =>
      DeleteFenced(w, w.holders[id].revision);
      assert HolderFenced(w.store, id, w.holders[id]);
    case Notice(id) => assert HolderFenced(w.store, id, w.holders[id]);
    case TimeToLive => DeleteFenced(w, w.store.expirer.value);
  }

  lemma {:induction false} RunFenced(run: seq<Event>)
    requires Legal(run)
    ensures Fenced(Replay(run))
  {
    if run != [] {
      RunFenced(run[..|run| - 1]);
      MoveFenced(Replay(run[..|run| - 1]), run[|run| - 1]);
    }
  }

  /** Over every interleaving, revisions strictly increase and at most one lease matches the live entry: its owner's. */
  lemma OneHolder(run: seq<Event>, a: nat, b: nat)
    requires Legal(run) && Matches(Replay(run), a) && Matches(Replay(run), b)
    ensures Rising(Replay(run).store.history)
    ensures a == b && Replay(run).store.Latest().value == Held(a)
  {
    RunFenced(run);
    assert HolderFenced(Replay(run).store, a, Replay(run).holders[a]);
    assert HolderFenced(Replay(run).store, b, Replay(run).holders[b]);
  }

  /** A lease that does not match the live entry can neither refresh nor delete it, and neither can its expiry. */
  lemma DisplacedIsPowerless(run: seq<Event>, id: nat)
    requires Legal(run) && id in Replay(run).holders && !Matches(Replay(run), id)
    ensures Can(Replay(run), Refresh(id)) ==> Move(Replay(run), Refresh(id)).store == Replay(run).store
    ensures Move(Replay(run), Expire(id)).store == Replay(run).store
    ensures !Matches(Move(Replay(run), Expire(id)), id)
  {
    RunFenced(run);
    var w := Replay(run);
    var h := w.holders[id];
    assert HolderFenced(w.store, id, h);
    WriteRises(w.store, Held(id), h.revision, None);
    DeleteFenced(w, h.revision);
  }

  /** Once displaced, always displaced: no later step lets a lease match the entry again. */
  lemma StaysDisplaced(run: seq<Event>, e: Event, id: nat)
    requires Legal(run) && Can(Replay(run), e) && id in Replay(run).holders && !Matches(Replay(run), id)
    ensures id in Move(Replay(run), e).holders && !Matches(Move(Replay(run), e), id)
  {
    RunFenced(run);
    var w := Replay(run);
    assert HolderFenced(w.store, id, w.holders[id]);
    match e
    case Acquire(other, ttl) =>
      WriteRises(w.store, Held(other), 0, Some(ttl));
      WriteRises(w.store, Held(other), if w.store.Defined() then w.store.Latest().revision else 0, Some(ttl));
    case Refresh(other) =>
      assert HolderFenced(w.store, other, w.holders[other]);
      WriteRises(w.store, Held(other), w.holders[other].revision, None);
    case Expire(other) => DeleteFenced(w, w.holders[other].revision);
    case TimeToLive => DeleteFenced(w, w.store.expirer.value);
    case _ =>
  }

  lemma {:induction false} DisplacedForever(run: seq<Event>, k: nat, id: nat)
    requires Legal(run) && k <= |run| && Legal(run[..k])
    requires id in Replay(run[..k]).holders && !Matches(Replay(run[..k]), id)
    ensures id in Replay(run).holders && !Matches(Replay(run), id)
    decreases |run|
  {
    if k == |run| {
      assert run[..k] == run;
    } else {
      var front := run[..|run| - 1];
      assert front[..k] == run[..k];
      DisplacedForever(front, k, id);
      StaysDisplaced(front, run[|run| - 1], id);
    }
  }

  /** The holder that matches, and has no answer outstanding, does refresh, and stays the match. */
  lemma OwnerRefreshes(run: seq<Event>, id: nat)
    requires Legal(run) && Matches(Replay(run), id) && Can(Replay(run), Refresh(id))
    ensures var w' := Move(Replay(run), Refresh(id));
      Matches(w', id) && |w'.store.history| == |Replay(run).store.history| + 1
  {
    RunFenced(run);
    var w := Replay(run);
    WriteRises(w.store, Held(id), w.holders[id].revision, None);
  }

  /** The lease that matches the entry goes on matching until it is given up or its time to live runs out, whatever the
      other clients do, and also when it records what a refresh was answered. */
  lemma StaysMatched(run: seq<Event>, e: Event, id: nat)
    requires Legal(run) && Can(Replay(run), e) && Matches(Replay(run), id) && e != Expire(id) && !e.TimeToLive?
    ensures Matches(Move(Replay(run), e), id)
  {
    RunFenced(run);
    var w := Replay(run);
    assert HolderFenced(w.store, id, w.holders[id]);
    match e
    case Acquire(other, ttl) => WriteRises(w.store, Held(other), 0, Some(ttl));
    case Refresh(other) =>
      assert HolderFenced(w.store, other, w.holders[other]);
      WriteRises(w.store, Held(other), w.holders[other].revision, None);
    case Expire(other) =>
      assert HolderFenced(w.store, other, w.holders[other]);
      DeleteFenced(w, w.holders[other].revision);
    case _ =>
  }

  /** An acquisition succeeds exactly when no lease holds the key, and what it writes expires on its own exactly if it
      has a nonzero time to live. */
  lemma AcquiresFree(run: seq<Event>, id: nat, ttl: int)
    requires Legal(run) && Can(Replay(run), Acquire(id, ttl))
    ensures var w, w' := Replay(run), Move(Replay(run), Acquire(id, ttl));
      && (id in w'.holders <==> !w.store.Live())
      && (id in w'.holders ==> Matches(w', id) && w'.store.Latest().value == Held(id))
      && (id in w'.holders ==> (w'.store.expirer.Some? <==> ttl != 0))
      && (id !in w'.holders ==> w' == w)
  {
    RunFenced(run);
    var s := Replay(run).store;
    WriteRises(s, Held(id), 0, Some(ttl));
    WriteRises(s, Held(id), if s.Defined() then s.Latest().revision else 0, Some(ttl));
  }

  /** The matching holder frees the key by giving its lease up, and the time to live frees it without. */
  lemma KeyIsFreed(run: seq<Event>, id: nat)
    requires Legal(run)
    ensures var w := Replay(run);
      && (id in w.holders && Matches(w, id) && w.holders[id].reply.None? && !w.holders[id].expired ==>
          !Move(w, Expire(id)).store.Live() && Move(w, Expire(id)).holders[id].expired)
      && (Can(w, TimeToLive) ==> !Move(w, TimeToLive).store.Live())
  {
    RunFenced(run);
    var w := Replay(run);
    if id in w.holders {
      DeleteFenced(w, w.holders[id].revision);
    }
    if Can(w, TimeToLive) {
      DeleteFenced(w, w.store.expirer.value);
    }
  }

  // ---- The store and lease objects --------------------------------------------------------

  class FakeStore {
    var history: seq<Entry>
    var ttl: Option<int>
    var expirer: Option<nat>

    function Now(): Store
      reads this
    {
      Store(history, ttl, expirer)
    }

    constructor ()
      ensures Now() == Store([], None, None)
    {
      history, ttl, expirer := [], None, None;
    }

    method Write(value: Value, revision: nat, newTtl: Option<int>) returns (answer: Answer)
      modifies this
      ensures (Now(), answer) == DoUpdate(old(Now()), value, revision, newTtl)
      // A key once written takes a write at its latest revision only. The write has the next revision, a time to live
      // that is not given stays, and a value that is not the mark of deletion expires if that is not zero.
      ensures answer.Written? <==> old(history) == [] || revision == old(history)[|old(history)| - 1].revision
      ensures answer.Written? ==> answer.entry == Entry(value, revision + 1) && history == old(history) + [answer.entry]
      ensures answer.Written? ==> ttl == if newTtl.Some? then newTtl else old(ttl)
      ensures answer.Written? ==> (expirer.Some? <==> value.Held? && ttl.Some? && ttl.value != 0)
      ensures answer.Written? && expirer.Some? ==> expirer.value == revision + 1
      ensures !answer.Written? ==> answer.RevisionError? && Now() == old(Now())
    {
      if history != [] && revision != history[|history| - 1].revision {
        return RevisionError;
      }
      if newTtl.Some? {
        ttl := newTtl;
      }
      expirer := None;
      if ttl.Some? && ttl.value != 0 && value.Held? {
        expirer := Some(revision + 1);
      }
      history := history + [Entry(value, revision + 1)];
      return Written(history[|history| - 1]);
    }

    method CreateKey(owner: nat, newTtl: int) returns (answer: Answer)
      modifies this
      ensures (Now(), answer) == KvCreate(old(Now()), owner, newTtl)
      ensures var refused := old(Now()).Live() && old(Now()).Latest().revision > 0;
        if refused then answer.RevisionError? && Now() == old(Now()) else answer.Written?
      ensures answer.Written? ==> answer.entry.value == Held(owner) && history == old(history) + [answer.entry]
      ensures answer.Written? ==> ttl == Some(newTtl) && (expirer.Some? <==> newTtl != 0)
    {
      answer := Write(Held(owner), 0, Some(newTtl));
      if answer.RevisionError? && history != [] && history[|history| - 1].value.Deleted? {
        answer := Write(Held(owner), history[|history| - 1].revision, Some(newTtl));
      }
    }

    method UpdateKey(owner: nat, revision: nat) returns (answer: Answer)
      modifies this
      ensures (Now(), answer) == KvUpdate(old(Now()), owner, revision)
      ensures answer.Written? <==> old(history) == [] || revision == old(history)[|old(history)| - 1].revision
      ensures answer.Written? ==> answer.entry == Entry(Held(owner), revision + 1) && ttl == old(ttl)
      ensures answer.Written? ==> history == old(history) + [answer.entry]
      ensures !answer.Written? ==> Now() == old(Now())
    {
      answer := Write(Held(owner), revision, None);
    }

    method DeleteKey(revision: nat) returns (answer: Answer)
      modifies this
      ensures (Now(), answer) == KvDelete(old(Now()), revision)
      ensures answer.Written? <==> old(Now()).Live() && old(Now()).Latest().revision == revision
      ensures answer.Written? ==> !Now().Live() && Now().expirer.None?
      ensures !answer.Written? ==> Now() == old(Now())
    {
      if history == [] || history[|history| - 1].value.Deleted? {
        return Nothing;
      }
      answer := Write(Deleted, revision, None);
    }
  }

  class LeaseClient {
    const id: nat
    const kv: FakeStore
    var revision: nat
    var reply: Option<nat>
    var expired: bool

    function Now(): Holder
      reads this
    {
      Holder(revision, reply, expired)
    }

    /** A lease over an entry its acquisition has written. */
    constructor (owner: nat, store: FakeStore, written: nat)
      ensures id == owner && kv == store && Now() == Holder(written, None, false)
    {
      id, kv, revision, reply, expired := owner, store, written, None, false;
    }

    /** Sends a refresh; the answered revision is kept until it is recorded. */
    method SendRefresh() returns (answer: Answer)
      requires reply.None?
      modifies this`reply, kv
      ensures (kv.Now(), answer) == KvUpdate(old(kv.Now()), id, revision)
      ensures reply == if answer.Written? then Some(answer.entry.revision) else None
    {
      answer := kv.UpdateKey(id, revision);
      if answer.Written? {
        reply := Some(answer.entry.revision);
      }
    }

    method RecordReply()
      requires reply.Some?
      modifies this`revision, this`reply
      ensures Now() == Holder(old(reply).value, None, expired)
    {
      revision := reply.value;
      reply := None;
    }

    /** Deletes the entry unless the lease already expired; a refused deletion leaves it held. */
    method GiveUp()
      modifies this`expired, kv
      ensures kv.Now() == if old(expired) then old(kv.Now()) else KvDelete(old(kv.Now()), revision).0
      ensures expired == (old(expired) || !KvDelete(old(kv.Now()), revision).1.RevisionError?)
      // It deletes its own revision; it stays held exactly if the key is live at another one.
      ensures !old(expired) && old(kv.Now()).Live() && old(kv.Now()).Latest().revision == revision ==>
        expired && !kv.Now().Live()
      ensures !old(expired) && old(kv.Now()).Live() && old(kv.Now()).Latest().revision != revision ==>
        !expired && kv.Now() == old(kv.Now())
      ensures !old(expired) && !old(kv.Now()).Live() ==> expired && kv.Now() == old(kv.Now())
    {
      if !expired {
        var answer := kv.DeleteKey(revision);
        expired := !answer.RevisionError?;
      }
    }
  }
}
