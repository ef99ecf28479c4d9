/** Presence: a status key that expires, and a last_seen key that does not. */
module Presence {
  import opened Model
  import opened TtlStore
  import opened RedisServer

  function MarkStatus(d: Directory, now: Time, u: UserId, st: Status, ttl: nat): Directory {
    d.(status := SetEx(d.status, now, u, st, ttl), lastSeen := Set(d.lastSeen, u, now))
  }

  function RefreshStatus(d: Directory, now: Time, u: UserId, ttl: nat): Directory {
    d.(status := Expire(d.status, now, u, ttl), lastSeen := Set(d.lastSeen, u, now))
  }

  function ClearStatus(d: Directory, u: UserId): Directory {
    d.(status := Del(d.status, u))
  }

  class PresenceStore {
    const redis: Redis

    constructor (redis: Redis)
      ensures this.redis == redis
    {
      this.redis := redis;
    }

    method SetOnline(u: UserId, ttl: nat)
      modifies redis
      ensures redis.state == old(redis.state).(directory :=
        MarkStatus(old(redis.state).directory, old(redis.state).now, u, Online, ttl))
    {
      var d := redis.state.directory;
      redis.state := redis.state.(directory := d.(status := SetEx(d.status, redis.state.now, u, Online, ttl)));
      TouchLastSeen(u);
    }

    method SetAway(u: UserId, ttl: nat)
      modifies redis
      ensures redis.state == old(redis.state).(directory :=
        MarkStatus(old(redis.state).directory, old(redis.state).now, u, Away, ttl))
    {
      var d := redis.state.directory;
      redis.state := redis.state.(directory := d.(status := SetEx(d.status, redis.state.now, u, Away, ttl)));
      TouchLastSeen(u);
    }

    method Refresh(u: UserId, ttl: nat)
      modifies redis
      ensures redis.state == old(redis.state).(directory :=
        RefreshStatus(old(redis.state).directory, old(redis.state).now, u, ttl))
    {
      var d := redis.state.directory;
      redis.state := redis.state.(directory := d.(status := Expire(d.status, redis.state.now, u, ttl)));
      TouchLastSeen(u);
    }

    method Clear(u: UserId)
      modifies redis
      ensures redis.state == old(redis.state).(directory := ClearStatus(old(redis.state).directory, u))
    {
      var d := redis.state.directory;
      redis.state := redis.state.(directory := d.(status := Del(d.status, u)));
    }

    /** None is the answer "offline". */
    method GetStatus(u: UserId) returns (status: Option<Status>)
      ensures status == Get(redis.state.directory.status, redis.state.now, u)
    {
      status := Get(redis.state.directory.status, redis.state.now, u);
    }

    method GetLastSeen(u: UserId) returns (at: Option<Time>)
      ensures at == Get(redis.state.directory.lastSeen, redis.state.now, u)
    {
      at := Get(redis.state.directory.lastSeen, redis.state.now, u);
    }

    method TouchLastSeen(u: UserId)
      modifies redis
      ensures redis.state == old(redis.state).(directory := old(redis.state).directory.(
        lastSeen := Set(old(redis.state).directory.lastSeen, u, old(redis.state).now)))
    {
      var d := redis.state.directory;
      redis.state := redis.state.(directory := d.(lastSeen := Set(d.lastSeen, u, redis.state.now)));
    }
  }

  /** `status` is None when the user is offline. */
  datatype PresenceInfo = PresenceInfo(user: UserId, status: Option<Status>, lastSeen: Option<Time>)

  class PresenceManager {
    const store: PresenceStore
    const ttl: nat

    constructor (store: PresenceStore, ttl: nat)
      ensures this.store == store && this.ttl == ttl
    {
      this.store, this.ttl := store, ttl;
    }

    method MarkOnline(u: UserId)
      modifies store.redis
      ensures store.redis.state == old(store.redis.state).(directory :=
        MarkStatus(old(store.redis.state).directory, old(store.redis.state).now, u, Online, ttl))
    {
      store.SetOnline(u, ttl);
    }

    method MarkAway(u: UserId)
      modifies store.redis
      ensures store.redis.state == old(store.redis.state).(directory :=
        MarkStatus(old(store.redis.state).directory, old(store.redis.state).now, u, Away, ttl))
    {
      store.SetAway(u, ttl);
    }

    method Heartbeat(u: UserId)
      modifies store.redis
      ensures store.redis.state == old(store.redis.state).(directory :=
        RefreshStatus(old(store.redis.state).directory, old(store.redis.state).now, u, ttl))
    {
      store.Refresh(u, ttl);
    }

    method MarkOffline(u: UserId)
      modifies store.redis
      ensures store.redis.state ==
        old(store.redis.state).(directory := ClearStatus(old(store.redis.state).directory, u))
    {
      store.Clear(u);
    }

    method Get(u: UserId) returns (info: PresenceInfo)
      ensures info.user == u
      ensures info.status == TtlStore.Get(store.redis.state.directory.status, store.redis.state.now, u)
      ensures info.lastSeen == TtlStore.Get(store.redis.state.directory.lastSeen, store.redis.state.now, u)
    {
      var status := store.GetStatus(u);
      var lastSeen := store.GetLastSeen(u);
      info := PresenceInfo(u, status, lastSeen);
    }
  }

  // ----- Presence as a function of the event log -----

  datatype Kind = Mark(status: Status) | Beat | Clear
  datatype Event = Event(at: Time, user: UserId, kind: Kind)

  ghost predicate Ordered(log: seq<Event>) {
    forall i, j :: 0 <= i < j < |log| ==> log[i].at <= log[j].at
  }

  const NOBODY := Directory(map[], map[], map[])

  ghost function Happen(ttl: nat, d: Directory, e: Event): Directory {
    match e.kind
    case Mark(st) => MarkStatus(d, e.at, e.user, st, ttl)
    case Beat => RefreshStatus(d, e.at, e.user, ttl)
    case Clear => ClearStatus(d, e.user)
  }

  ghost function Replay(ttl: nat, log: seq<Event>): Directory {
    if log == [] then NOBODY else Happen(ttl, Replay(ttl, log[..|log| - 1]), log[|log| - 1])
  }

  /** Some event of `u` with index in [i, j) is less than a TTL older than `t`. */
  ghost predicate Fresh(ttl: nat, log: seq<Event>, u: UserId, i: nat, j: nat, t: Time)
    requires j <= |log|
  {
    exists k :: i <= k < j && log[k].user == u && t < log[k].at + ttl
  }

  /** `i` is the last online/away event of `u`, with no clear after it. */
  ghost predicate IsLastMark(log: seq<Event>, u: UserId, i: nat) {
    && i < |log| && log[i].user == u && log[i].kind.Mark?
    && forall j :: i < j < |log| && log[j].user == u ==> log[j].kind.Beat?
  }

  /** No heartbeat since event `i` came a TTL or more after everything before it. */
  ghost predicate Unbroken(ttl: nat, log: seq<Event>, u: UserId, i: nat) {
    forall j :: i < j < |log| && log[j].user == u ==> Fresh(ttl, log, u, i, j, log[j].at)
  }

  /** What the log alone says: event `i` set the status that `u` still has at `now`. */
  ghost predicate Supports(ttl: nat, log: seq<Event>, u: UserId, i: nat, now: Time) {
    IsLastMark(log, u, i) && Unbroken(ttl, log, u, i) && Fresh(ttl, log, u, i, |log|, now)
  }

  ghost predicate CellMeans(ttl: nat, log: seq<Event>, u: UserId, c: Option<Cell<Status>>) {
    if c.Some? then exists i: nat :: IsLastMark(log, u, i) && CellFrom(ttl, log, u, i, c.value)
    else forall i: nat :: !IsLastMark(log, u, i)
  }

  /** The cell carries the status of mark `i`; its expiry is a TTL after the user's last event while the
      chain is unbroken, and already past once it broke. */
  ghost predicate CellFrom(ttl: nat, log: seq<Event>, u: UserId, i: nat, c: Cell<Status>)
    requires IsLastMark(log, u, i)
  {
    && c.value == log[i].kind.status
    && c.expiry.Some?
    && (Unbroken(ttl, log, u, i) ==> exists k: nat :: IsLastOf(log, u, k) && c.expiry.value == log[k].at + ttl)
    && (!Unbroken(ttl, log, u, i) ==> c.expiry.value <= log[|log| - 1].at)
  }

  ghost predicate IsLastOf(log: seq<Event>, u: UserId, k: nat) {
    k < |log| && log[k].user == u && forall j :: k < j < |log| ==> log[j].user != u
  }

  lemma FreshMeansBeforeExpiry(ttl: nat, log: seq<Event>, u: UserId, i: nat, k: nat, t: Time)
    requires Ordered(log) && IsLastOf(log, u, k) && i <= k
    ensures Fresh(ttl, log, u, i, |log|, t) <==> t < log[k].at + ttl
  {}

  lemma FreshInPrefix(ttl: nat, log: seq<Event>, e: Event, u: UserId, i: nat, j: nat, t: Time)
    requires j <= |log|
    ensures Fresh(ttl, log + [e], u, i, j, t) <==> Fresh(ttl, log, u, i, j, t)
  {
    assert forall k :: 0 <= k < j ==> (log + [e])[k] == log[k];
  }

  lemma UnbrokenExtends(ttl: nat, log: seq<Event>, e: Event, u: UserId, i: nat)
    requires i < |log|
    ensures Unbroken(ttl, log + [e], u, i) <==>
            Unbroken(ttl, log, u, i) && (e.user == u ==> Fresh(ttl, log, u, i, |log|, e.at))
  {
    var all := log + [e];
    forall j | i < j < |all| && all[j].user == u
      ensures Fresh(ttl, all, u, i, j, all[j].at) <==> Fresh(ttl, log, u, i, j, all[j].at)
    {
      FreshInPrefix(ttl, log, e, u, i, j, all[j].at);
    }
    assert all[|log|] == e && forall j :: 0 <= j < |log| ==> all[j] == log[j];
  }

  lemma {:induction false} CellMeaning(ttl: nat, log: seq<Event>, u: UserId)
    requires Ordered(log)
    ensures CellMeans(ttl, log, u, Find(Replay(ttl, log).status, u))
  {
    if log == [] { return; }
    var n := |log| - 1;
    CellMeaning(ttl, log[..n], u);
    assert log == log[..n] + [log[n]];
    hide Happen, CellMeans, Ordered;
    CellStep(ttl, log[..n], log[n], u, Replay(ttl, log[..n]));
  }

  lemma CellStep(ttl: nat, log: seq<Event>, e: Event, u: UserId, d: Directory)
    requires Ordered(log + [e]) && CellMeans(ttl, log, u, Find(d.status, u))
    ensures CellMeans(ttl, log + [e], u, Find(Happen(ttl, d, e).status, u))
  {
    var all := log + [e];
    if e.user == u && e.kind.Mark? {
      assert IsLastMark(all, u, |log|) && IsLastOf(all, u, |log|);
      assert Unbroken(ttl, all, u, |log|);
    } else if e.user == u && e.kind.Clear? {
    } else if u in d.status {
      var i: nat :| IsLastMark(log, u, i) && CellFrom(ttl, log, u, i, d.status[u]);
      CellKept(ttl, log, e, u, i, d.status[u]);
    } else {
      assert all[|log|] == e && forall j :: 0 <= j < |log| ==> all[j] == log[j];
      forall i: nat ensures !IsLastMark(all, u, i) {
        assert !IsLastMark(log, u, i);
      }
    }
  }

  lemma CellKept(ttl: nat, log: seq<Event>, e: Event, u: UserId, i: nat, c: Cell<Status>)
    requires Ordered(log + [e]) && IsLastMark(log, u, i) && CellFrom(ttl, log, u, i, c)
    requires e.user == u ==> e.kind.Beat?
    ensures IsLastMark(log + [e], u, i)
    ensures CellFrom(ttl, log + [e], u, i,
                     if e.user == u && Live(c, e.at) then Cell(c.value, Some(e.at + ttl)) else c)
  {
    var all := log + [e];
    assert all[|log|] == e && forall j :: 0 <= j < |log| ==> all[j] == log[j] && log[j].at <= e.at;
    UnbrokenExtends(ttl, log, e, u, i);
    if Unbroken(ttl, log, u, i) {
      var k: nat :| IsLastOf(log, u, k) && c.expiry.value == log[k].at + ttl;
      assert Ordered(log);
      FreshMeansBeforeExpiry(ttl, log, u, i, k, e.at);
      assert IsLastOf(all, u, if e.user == u then |log| else k);
    }
  }

  /** The status shown for any user at any time is the one the event log supports, and offline when it supports none. */
  lemma StatusAgreesWithHistory(ttl: nat, log: seq<Event>, u: UserId, now: Time, st: Status)
    requires Ordered(log) && (log != [] ==> log[|log| - 1].at <= now)
    ensures Get(Replay(ttl, log).status, now, u) == Some(st) <==>
            exists i: nat :: Supports(ttl, log, u, i, now) && log[i].kind.status == st
  {
    CellMeaning(ttl, log, u);
    var status := Replay(ttl, log).status;
    if u in status {
      var i: nat :| IsLastMark(log, u, i) && CellFrom(ttl, log, u, i, status[u]);
      assert forall k: nat :: IsLastMark(log, u, k) ==> k == i;
      if Unbroken(ttl, log, u, i) {
        var k: nat :| IsLastOf(log, u, k) && status[u].expiry.value == log[k].at + ttl;
        FreshMeansBeforeExpiry(ttl, log, u, i, k, now);
      }
      assert Supports(ttl, log, u, i, now) <==> Live(status[u], now);
    }
  }

  /** `i` is the last online, away or heartbeat event of `u`. */
  ghost predicate IsLastTouch(log: seq<Event>, u: UserId, i: nat) {
    i < |log| && log[i].user == u && !log[i].kind.Clear? &&
    forall j :: i < j < |log| && log[j].user == u ==> log[j].kind.Clear?
  }

  ghost predicate LastSeenFrom(log: seq<Event>, u: UserId, c: Option<Cell<Time>>) {
    if c.Some? then exists i: nat :: IsLastTouch(log, u, i) && c.value == Cell(log[i].at, None)
    else forall i: nat :: !IsLastTouch(log, u, i)
  }

  /** last_seen is the time of the user's last online, away or heartbeat event, whatever lapsed or was cleared since. */
  lemma {:induction false} LastSeenAgreesWithHistory(ttl: nat, log: seq<Event>, u: UserId)
    ensures LastSeenFrom(log, u, Find(Replay(ttl, log).lastSeen, u))
  {
    if log != [] {
      var n := |log| - 1;
      LastSeenAgreesWithHistory(ttl, log[..n], u);
      assert log == log[..n] + [log[n]];
      LastSeenStep(log[..n], log[n], u, Find(Replay(ttl, log[..n]).lastSeen, u));
      HappenLastSeen(ttl, Replay(ttl, log[..n]), log[n], u);
    }
  }

  lemma HappenLastSeen(ttl: nat, s: Directory, e: Event, u: UserId)
    ensures Find(Happen(ttl, s, e).lastSeen, u) ==
            if e.user == u && !e.kind.Clear? then Some(Cell(e.at, None)) else Find(s.lastSeen, u)
  {
    assert Happen(ttl, s, e).lastSeen == if e.kind.Clear? then s.lastSeen else Set(s.lastSeen, e.user, e.at);
  }

  lemma LastSeenStep(log: seq<Event>, e: Event, u: UserId, c: Option<Cell<Time>>)
    requires LastSeenFrom(log, u, c)
    ensures LastSeenFrom(log + [e], u, if e.user == u && !e.kind.Clear? then Some(Cell(e.at, None)) else c)
  {
    if e.user == u && !e.kind.Clear? {
      assert IsLastTouch(log + [e], u, |log|);
    } else {
      SameLastTouch(log, e, u);
    }
  }

  lemma SameLastTouch(log: seq<Event>, e: Event, u: UserId)
    requires e.user != u || e.kind.Clear?
    ensures forall i: nat :: IsLastTouch(log + [e], u, i) <==> IsLastTouch(log, u, i)
  {
    forall i: nat ensures IsLastTouch(log + [e], u, i) <==> IsLastTouch(log, u, i) {
      assert forall j :: 0 <= j < |log| ==> (log + [e])[j] == log[j];
    }
  }

  ghost function HappenAll(ttl: nat, d: Directory, more: seq<Event>): Directory {
    if more == [] then d else Happen(ttl, HappenAll(ttl, d, more[..|more| - 1]), more[|more| - 1])
  }

  /** Once offline at `since`, a user stays offline through any later events of anyone that do not set the status
      anew. */
  lemma {:induction false} HeartbeatsNeverRevive(
    ttl: nat, d: Directory, u: UserId, since: Time, more: seq<Event>, now: Time)
    requires Get(d.status, since, u).None? && since <= now
    requires Ordered(more) && (more != [] ==> since <= more[0].at && more[|more| - 1].at <= now)
    requires forall k :: 0 <= k < |more| && more[k].user == u ==> !more[k].kind.Mark?
    ensures Get(HappenAll(ttl, d, more).status, now, u).None?
  {
    if more != [] {
      var n := |more| - 1;
      HeartbeatsNeverRevive(ttl, d, u, since, more[..n], more[n].at);
      StaysOffline(ttl, HappenAll(ttl, d, more[..n]), u, more[n], now);
    }
  }

  lemma StaysOffline(ttl: nat, d: Directory, u: UserId, e: Event, now: Time)
    requires Get(d.status, e.at, u).None? && e.at <= now && (e.user == u ==> !e.kind.Mark?)
    ensures Get(Happen(ttl, d, e).status, now, u).None?
  {
    match e.kind
    case Mark(st) =>
    case Beat => assert Happen(ttl, d, e).status == Expire(d.status, e.at, e.user, ttl);
    case Clear => assert Happen(ttl, d, e).status == Del(d.status, e.user);
  }
}
