/** Graceful shutdown of one instance: every local socket is closed and its user's keys are cleared at once. */
module Lifespan {
  import opened Model
  import opened TtlStore
  import opened RedisServer
  import opened Registry
  import opened Connections
  import opened Protocol
  import D = Delivery
  import O = Ordering
  import P = Presence

  /** The directory without these users, other than what it remembers of when they were last seen. */
  ghost function Cleared(d: Directory, users: set<UserId>): Directory {
    d.(registry := d.registry - users, status := d.status - users)
  }

  class Application {
    const manager: ConnectionManager
    const registry: InstanceRegistry
    const presence: P.PresenceManager

    constructor (manager: ConnectionManager, registry: InstanceRegistry, presence: P.PresenceManager)
      ensures this.manager == manager && this.registry == registry && this.presence == presence
    {
      this.manager, this.registry, this.presence := manager, registry, presence;
    }

    method Shutdown()
      requires presence.store.redis == registry.redis
      modifies manager, registry.redis
      ensures manager.connections == map[] && manager.sent == old(manager.sent)
      ensures registry.redis.state == old(registry.redis.state).(
        directory := Cleared(old(registry.redis.state).directory, old(manager.connections).Keys))
    {
      var users, closed := manager.CloseAll([]);
      assert Taken(users, 0) == {};
      var k := 0;
      while k < |users|
        invariant 0 <= k <= |users|
        invariant manager.connections == map[] && manager.sent == old(manager.sent)
        invariant registry.redis.state == old(registry.redis.state).(
          directory := Cleared(old(registry.redis.state).directory, Taken(users, k)))
      {
        assert Taken(users, k + 1) == Taken(users, k) + {users[k]};
        registry.Unregister(users[k]);
        presence.MarkOffline(users[k]);
        ClearedOneMore(old(registry.redis.state).directory, Taken(users, k), users[k]);
        k := k + 1;
      }
      assert Taken(users, k) == old(manager.connections).Keys;
    }
  }

  lemma ClearedOneMore(d: Directory, users: set<UserId>, u: UserId)
    ensures P.ClearStatus(DropEntry(Cleared(d, users), u), u) == Cleared(d, users + {u})
  {}

  // ----- The shutdown inside the whole system -----

  /** The two deletions for each of the first `k` users. */
  ghost function TearDowns(i: InstanceId, users: seq<UserId>, k: nat): seq<Step>
    requires k <= |users|
  {
    if k == 0 then []
    else TearDowns(i, users, k - 1) + [TearDownEntry(i, users[k - 1])] + [TearDownStatus(i, users[k - 1])]
  }

  /** The state with instance `i` stopping, the keys of `done` cleared and those of `left` still to be cleared. */
  ghost function Stopped(s: State, i: InstanceId, done: set<UserId>, left: set<UserId>): State
    requires i in s.instances
  {
    s.(redis := s.redis.(directory := Cleared(s.redis.directory, done)),
       instances := s.instances[i := s.instances[i].(phase := Stopping(left, left), conns := map[])])
  }

  lemma BeginIsStopped(c: Config, s: State, i: InstanceId)
    requires IsRunning(s, i)
    ensures Apply(c, s, BeginShutdown(i)) == Stopped(s, i, {}, s.instances[i].conns.Keys)
  {
    assert Cleared(s.redis.directory, {}) == s.redis.directory;
  }

  lemma OneTornDown(c: Config, s: State, i: InstanceId, done: set<UserId>, left: set<UserId>, u: UserId)
    requires i in s.instances && u in left
    ensures Apply(c, Apply(c, Stopped(s, i, done, left), TearDownEntry(i, u)), TearDownStatus(i, u))
         == Stopped(s, i, done + {u}, left - {u})
  {
    var t := Stopped(s, i, done, left);
    var half := Apply(c, t, TearDownEntry(i, u));
    assert half == t.(redis := t.redis.(directory := DropEntry(t.redis.directory, u)),
                      instances :=
                        s.instances[i := s.instances[i].(phase := Stopping(left - {u}, left), conns := map[])]);
    ClearedOneMore(s.redis.directory, done, u);
    hide Cleared, DropEntry, P.ClearStatus;
  }

  lemma TearDownsNext(i: InstanceId, users: seq<UserId>, k: nat)
    requires 0 < k <= |users|
    ensures TearDowns(i, users, k) ==
      TearDowns(i, users, k - 1) + [TearDownEntry(i, users[k - 1])] + [TearDownStatus(i, users[k - 1])]
  {}

  lemma TakenNext(users: seq<UserId>, k: nat, keys: set<UserId>)
    requires k < |users| && Each(users, keys)
    ensures users[k] in keys - Taken(users, k)
    ensures Taken(users, k + 1) == Taken(users, k) + {users[k]}
    ensures keys - Taken(users, k + 1) == keys - Taken(users, k) - {users[k]}
  {}

  /** Where the first `k` tear-downs lead. */
  ghost predicate DownTo(c: Config, s: State, i: InstanceId, users: seq<UserId>, k: nat)
    requires i in s.instances && k <= |users|
  {
    var keys := s.instances[i].conns.Keys;
    Exec(c, Stopped(s, i, {}, keys), TearDowns(i, users, k)) == Stopped(s, i, Taken(users, k), keys - Taken(users, k))
  }

  lemma NoneDown(c: Config, s: State, i: InstanceId, users: seq<UserId>)
    requires i in s.instances
    ensures DownTo(c, s, i, users, 0)
  {
    var keys := s.instances[i].conns.Keys;
    assert Taken(users, 0) == {} && keys - {} == keys;
    hide Stopped;
  }

  lemma OneMoreDown(c: Config, s: State, i: InstanceId, users: seq<UserId>, k: nat)
    requires i in s.instances && k < |users| && Each(users, s.instances[i].conns.Keys) && DownTo(c, s, i, users, k)
    ensures DownTo(c, s, i, users, k + 1)
  {
    var keys := s.instances[i].conns.Keys;
    var u, start, steps := users[k], Stopped(s, i, {}, keys), TearDowns(i, users, k);
    var done, left := Taken(users, k), keys - Taken(users, k);
    TearDownsNext(i, users, k + 1);
    TakenNext(users, k, keys);
    hide Exec, Apply, Stopped, TearDowns, Taken, Each;
    D.ExecSplit(c, start, steps, TearDownEntry(i, u));
    D.ExecSplit(c, start, steps + [TearDownEntry(i, u)], TearDownStatus(i, u));
    OneTornDown(c, s, i, done, left, u);
  }

  lemma {:induction false} TornDown(c: Config, s: State, i: InstanceId, users: seq<UserId>, k: nat)
    requires i in s.instances && k <= |users| && Each(users, s.instances[i].conns.Keys)
    ensures DownTo(c, s, i, users, k)
  {
    hide *;
    if k == 0 {
      NoneDown(c, s, i, users);
    } else {
      TornDown(c, s, i, users, k - 1);
      OneMoreDown(c, s, i, users, k - 1);
    }
  }

  /** From any state of the system in which instance `i` runs: its shutdown steps, in whatever order of users and with
      nothing in between, do what the method does. Everyone whose socket was there ends neither routable nor present,
      everyone else keeps entry and status, and nothing but these keys and the instance itself has changed. */
  lemma ShutdownRunsInSystem(c: Config, s: State, i: InstanceId, users: seq<UserId>)
    requires IsRunning(s, i) && Each(users, s.instances[i].conns.Keys)
    ensures var keys := s.instances[i].conns.Keys;
      var t := Exec(c, s, [BeginShutdown(i)] + TearDowns(i, users, |users|));
      && t == Stopped(s, i, keys, {})
      && forall u ::
           if u in keys then Lookup(t.redis, u).None? && Get(t.redis.directory.status, t.redis.now, u).None?
           else Find(t.redis.directory.registry, u) == Find(s.redis.directory.registry, u)
                && Find(t.redis.directory.status, u) == Find(s.redis.directory.status, u)
  {
    var keys := s.instances[i].conns.Keys;
    BeginIsStopped(c, s, i);
    TornDown(c, s, i, users, |users|);
    assert DownTo(c, s, i, users, |users|);
    O.ExecFirst(c, s, BeginShutdown(i), TearDowns(i, users, |users|));
    assert Taken(users, |users|) == keys && keys - keys == {};
    hide Exec, Apply, TearDowns, Each, Taken, IsRunning;
  }
}
