/** The joint refresh of presence and registry on a client heartbeat, and the instance liveness loop. */
module Heartbeat {
  import opened Model
  import opened TtlStore
  import opened RedisServer
  import opened Registry
  import P = Presence

  class HeartbeatHandler {
    const presence: P.PresenceManager
    const registry: InstanceRegistry
    const ttl: nat

    constructor (presence: P.PresenceManager, registry: InstanceRegistry, ttl: nat)
      ensures this.presence == presence && this.registry == registry && this.ttl == ttl
    {
      this.presence, this.registry, this.ttl := presence, registry, ttl;
    }

    method Handle(u: UserId)
      requires presence.store.redis == registry.redis
      modifies registry.redis
      ensures registry.redis.state == old(registry.redis.state).(directory :=
        RefreshEntry(
          P.RefreshStatus(old(registry.redis.state).directory, old(registry.redis.state).now, u, presence.ttl),
          old(registry.redis.state).now, u, ttl))
    {
      presence.Heartbeat(u);
      registry.Refresh(u, ttl);
    }
  }

  // ----- Routable implies present -----

  /** An event of the presence log whose commands run together with those for the registry entry; a connect is an online
      mark that registers `via` an instance, an update one that registers nothing. */
  datatype Event = Event(seen: P.Event, via: Option<InstanceId>)

  ghost function Seen(log: seq<Event>): (r: seq<P.Event>)
    ensures |r| == |log|
  {
    seq(|log|, k requires 0 <= k < |log| => log[k].seen)
  }

  ghost function RouteAfter(ttl: nat, registry: Store<UserId, InstanceId>, e: Event): Store<UserId, InstanceId> {
    match e.seen.kind
    case Mark(_) => if e.via.Some? then SetEx(registry, e.seen.at, e.seen.user, e.via.value, ttl) else registry
    case Beat => Expire(registry, e.seen.at, e.seen.user, ttl)
    case Clear => Del(registry, e.seen.user)
  }

  ghost function Routes(ttl: nat, log: seq<Event>): Store<UserId, InstanceId> {
    if log == [] then map[] else RouteAfter(ttl, Routes(ttl, log[..|log| - 1]), log[|log| - 1])
  }

  ghost function Statuses(ttl: nat, log: seq<Event>): Store<UserId, Status> {
    P.Replay(ttl, Seen(log)).status
  }

  /** Of one user, by `now`: a registry entry comes with a status that lasts at least as long. */
  ghost predicate Covered(
    registry: Store<UserId, InstanceId>, status: Store<UserId, Status>, now: Time, u: UserId, registryTtl: nat)
  {
    u in registry ==>
      && u in status && registry[u].expiry.Some? && status[u].expiry.Some?
      && registry[u].expiry.value <= status[u].expiry.value
      && registry[u].expiry.value <= now + registryTtl
  }

  lemma CoveredStep(
    presenceTtl: nat, registryTtl: nat, registry: Store<UserId, InstanceId>, d: Directory, now: Time, e: Event,
    u: UserId)
    requires registryTtl <= presenceTtl && Covered(registry, d.status, now, u, registryTtl) && now <= e.seen.at
    ensures Covered(
      RouteAfter(registryTtl, registry, e), P.Happen(presenceTtl, d, e.seen).status, e.seen.at, u, registryTtl)
  {
    match e.seen.kind
    case Mark(_) =>
    case Beat =>
    case Clear =>
  }

  ghost function LastTime(log: seq<Event>): Time {
    if log == [] then 0 else log[|log| - 1].seen.at
  }

  lemma {:induction false} CoveredAlways(presenceTtl: nat, registryTtl: nat, log: seq<Event>, u: UserId)
    requires registryTtl <= presenceTtl && P.Ordered(Seen(log))
    ensures Covered(Routes(registryTtl, log), Statuses(presenceTtl, log), LastTime(log), u, registryTtl)
  {
    if log == [] { return; }
    var n := |log| - 1;
    var before := log[..n];
    assert Seen(log)[..n] == Seen(before);
    assert P.Ordered(Seen(before)) && LastTime(before) <= log[n].seen.at by {
      assert forall k :: 0 <= k < n ==> Seen(before)[k] == Seen(log)[k];
      if n > 0 { assert Seen(log)[n - 1].at <= Seen(log)[n].at; }
    }
    CoveredAlways(presenceTtl, registryTtl, before, u);
    CoveredStep(presenceTtl, registryTtl, Routes(registryTtl, before), P.Replay(presenceTtl, Seen(before)),
      LastTime(before), log[n], u);
    hide RouteAfter, P.Happen, P.Ordered, Covered;
  }

  /** In every run and at every moment, a routable user is present. */
  ghost predicate RoutableImpliesPresent(presenceTtl: nat, registryTtl: nat) {
    forall log: seq<Event>, now: Time, u: UserId ::
      P.Ordered(Seen(log)) && LastTime(log) <= now && Get(Routes(registryTtl, log), now, u).Some? ==>
        Get(Statuses(presenceTtl, log), now, u).Some?
  }

  /** When the commands of each event run together, with any number of overlapping sessions, this holds exactly when
      presence is kept as long as the registry entry; the application wires one TTL for both. */
  lemma RoutableImpliesPresentIff(presenceTtl: nat, registryTtl: nat)
    ensures RoutableImpliesPresent(presenceTtl, registryTtl) <==> registryTtl <= presenceTtl
  {
    if registryTtl <= presenceTtl {
      forall log: seq<Event>, now: Time, u: UserId | P.Ordered(Seen(log)) && Get(Routes(registryTtl, log), now, u).Some?
        ensures Get(Statuses(presenceTtl, log), now, u).Some?
      {
        CoveredAlways(presenceTtl, registryTtl, log, u);
      }
    } else {
      var e := Event(P.Event(0, "u", P.Mark(Online)), Some("i"));
      assert [e][..0] == [] && Seen([e]) == [e.seen] && [e.seen][..0] == [];
      assert Routes(registryTtl, [e]) == RouteAfter(registryTtl, map[], e);
      assert P.Replay(presenceTtl, [e.seen]) == P.Happen(presenceTtl, P.NOBODY, e.seen);
      assert Get(Routes(registryTtl, [e]), presenceTtl, "u") == Some("i");
      assert Get(Statuses(presenceTtl, [e]), presenceTtl, "u").None?;
      assert P.Ordered(Seen([e]));
    }
  }

  // ----- The liveness loop -----

  /** max(1, ttl // 3) */
  function Interval(ttl: nat): nat {
    if ttl / 3 < 1 then 1 else ttl / 3
  }

  /** How many intervals after the start the last successful refresh was; the start itself is refresh 0. */
  function LastSuccess(attempts: seq<bool>): (k: nat)
    ensures k <= |attempts|
  {
    if attempts == [] then 0
    else if attempts[|attempts| - 1] then |attempts|
    else LastSuccess(attempts[..|attempts| - 1])
  }

  /** The liveness key after a start at `start` and these attempts. */
  function KeyAfter(ttl: nat, start: Time, attempts: seq<bool>): Cell<string> {
    Cell("1", Some(start + LastSuccess(attempts) * Interval(ttl) + ttl))
  }

  lemma OneMoreAttempt(ttl: nat, start: Time, attempts: seq<bool>, k: nat)
    requires k < |attempts|
    ensures start + k * Interval(ttl) + Interval(ttl) == start + (k + 1) * Interval(ttl)
    ensures KeyAfter(ttl, start, attempts[..k + 1]) ==
      if attempts[k] then Cell("1", Some(start + (k + 1) * Interval(ttl) + ttl))
        else KeyAfter(ttl, start, attempts[..k])
  {
    assert attempts[..k + 1][..k] == attempts[..k];
    hide Interval;
  }

  class InstanceLivenessLoop {
    const registry: InstanceRegistry
    const id: InstanceId
    const ttl: nat
    const interval: nat

    constructor (registry: InstanceRegistry, id: InstanceId, ttl: nat)
      ensures this.registry == registry && this.id == id && this.ttl == ttl && this.interval == Interval(ttl)
    {
      this.registry, this.id, this.ttl := registry, id, ttl;
      this.interval := if ttl / 3 < 1 then 1 else ttl / 3;
    }

    /** The mark at the start, then one attempt per interval; `attempts` says which refreshes reach Redis. */
    method Run(attempts: seq<bool>)
      requires interval == Interval(ttl)
      modifies registry.redis
      ensures registry.redis.state == old(registry.redis.state).(
        now := old(registry.redis.state).now + |attempts| * interval,
        liveness := old(registry.redis.state).liveness[id := KeyAfter(ttl, old(registry.redis.state).now, attempts)])
    {
      var redis := registry.redis;
      registry.MarkAlive(id, ttl);
      var k := 0;
      while k < |attempts|
        invariant 0 <= k <= |attempts|
        invariant redis.state == old(redis.state).(
          now := old(redis.state).now + k * interval,
          liveness := old(redis.state).liveness[id := KeyAfter(ttl, old(redis.state).now, attempts[..k])])
      {
        OneMoreAttempt(ttl, old(redis.state).now, attempts, k);
        hide KeyAfter, Interval;
        redis.state := redis.state.(now := redis.state.now + interval);
        if attempts[k] {
          registry.MarkAlive(id, ttl);
        }
        k := k + 1;
      }
      assert attempts[..k] == attempts;
    }
  }

  /** Never more than `m` misses in a row. */
  ghost predicate AtMostMisses(attempts: seq<bool>, m: nat) {
    forall n :: 0 <= n <= |attempts| ==> n - LastSuccess(attempts[..n]) <= m
  }

  /** `t` lies between attempt `n` and attempt `n + 1`, both moments included. */
  ghost predicate Between(ttl: nat, n: nat, t: Time) {
    n * Interval(ttl) <= t <= (n + 1) * Interval(ttl)
  }

  /** From a start at 0 until the attempt after the last one is due, the key is visible at every moment. */
  ghost predicate NeverLapses(ttl: nat, attempts: seq<bool>) {
    forall n: nat, t: Time :: n <= |attempts| && Between(ttl, n, t) ==> Live(KeyAfter(ttl, 0, attempts[..n]), t)
  }

  lemma TimesAtMost(a: nat, b: nat, k: nat)
    requires a <= b
    ensures a * k <= b * k
  {}

  /** The loop rides out any pattern of at most `m` consecutive misses exactly when m + 1 intervals are shorter than
      the TTL. */
  lemma MissesToleratedIff(ttl: nat, m: nat)
    ensures (forall attempts :: AtMostMisses(attempts, m) ==> NeverLapses(ttl, attempts))
            <==> (m + 1) * Interval(ttl) < ttl
  {
    var step := Interval(ttl);
    if (m + 1) * step < ttl {
      forall attempts, n: nat, t: Time | AtMostMisses(attempts, m) && n <= |attempts| && Between(ttl, n, t)
        ensures Live(KeyAfter(ttl, 0, attempts[..n]), t)
      {
        var k := LastSuccess(attempts[..n]);
        TimesAtMost(n + 1, k + m + 1, step);
        assert (k + m + 1) * step == k * step + (m + 1) * step;
      }
    } else {
      var attempts := seq(m, _ => false);
      AllMissed(attempts);
      assert AtMostMisses(attempts, m);
      assert attempts[..m] == attempts;
      TimesAtMost(m, m + 1, step);
      assert Between(ttl, m, (m + 1) * step);
      assert !Live(KeyAfter(ttl, 0, attempts[..m]), (m + 1) * step);
      assert !NeverLapses(ttl, attempts);
    }
  }

  lemma {:induction false} AllMissed(attempts: seq<bool>)
    requires forall k :: 0 <= k < |attempts| ==> !attempts[k]
    ensures LastSuccess(attempts) == 0
    ensures forall n :: 0 <= n <= |attempts| ==> LastSuccess(attempts[..n]) == 0
  {
    if attempts != [] {
      var last := |attempts| - 1;
      AllMissed(attempts[..last]);
      forall n | 0 <= n <= |attempts| ensures LastSuccess(attempts[..n]) == 0 {
        if n <= last {
          assert attempts[..last][..n] == attempts[..n];
        } else {
          assert attempts[..n] == attempts;
        }
      }
    }
  }

  /** On-time refreshes suffice from a TTL of 2 on, a single miss is ridden out from 3 on, and two in a row
      exactly when 3 does not divide a TTL of at least 4. */
  lemma RefreshSlack(ttl: nat)
    ensures 1 * Interval(ttl) < ttl <==> ttl >= 2
    ensures 2 * Interval(ttl) < ttl <==> ttl >= 3
    ensures 3 * Interval(ttl) < ttl <==> ttl >= 4 && ttl % 3 != 0
  {}
}
