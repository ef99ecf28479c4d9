/** Instance liveness and subscriptions in every run, and how fast a crash is detected. */
module Liveness {
  import opened Model
  import opened TtlStore
  import opened RedisServer
  import opened Registry
  import opened Protocol
  import opened Frames
  import opened Effects

  /** The liveness key of an instance lasts exactly a TTL from its last refresh; exactly
      the instances that are up are subscribed. */
  ghost predicate Tracked(
    now: Time, liveness: Store<InstanceId, string>, subscribers: map<InstanceId, nat>, ttl: nat,
    instances: map<InstanceId, Instance>)
  {
    && (forall i :: i in liveness ==>
          i in instances && instances[i].aliveAt.Some? && liveness[i].expiry == Some(instances[i].aliveAt.value + ttl))
    && (forall i :: i in instances && instances[i].aliveAt.Some? ==> i in liveness && instances[i].aliveAt.value <= now)
    && (forall i ::
       i in instances && !instances[i].phase.Down? ==> i in subscribers && subscribers[i] == instances[i].epoch)
    && (forall i :: i in subscribers ==> i in instances && !instances[i].phase.Down?)
  }

  ghost predicate Inv(c: Config, s: State) {
    Tracked(s.redis.now, s.redis.liveness, s.redis.channels.subscribers, c.livenessTtl, s.instances)
  }

  lemma SameCoreKeeps(c: Config, s: State, t: State)
    requires Inv(c, s) && SameCore(s.instances, t.instances) && s.redis.now <= t.redis.now
    requires t.redis.liveness == s.redis.liveness && t.redis.channels.subscribers == s.redis.channels.subscribers
    ensures Inv(c, t)
  {}

  lemma SameCoreItself(instances: map<InstanceId, Instance>)
    ensures SameCore(instances, instances)
  {}

  lemma BootKeeps(c: Config, s: State, i: InstanceId)
    requires Inv(c, s)
    ensures Inv(c, Booted(s, i))
  {}

  lemma CrashKeeps(c: Config, s: State, i: InstanceId)
    requires Inv(c, s) && i in s.instances
    ensures Inv(c, Crashed(s, i))
  {}

  lemma RefreshKeeps(c: Config, s: State, i: InstanceId)
    requires Inv(c, s)
    ensures Inv(c, Apply(c, s, KeepInstanceAlive(i)))
  {
    if i in s.instances && !s.instances[i].phase.Down? {
      Refreshed(s.redis.now, s.redis.liveness, s.redis.channels.subscribers, c.livenessTtl, s.instances, i);
    }
    hide Tracked, SetEx;
  }

  lemma Refreshed(
    now: Time, liveness: Store<InstanceId, string>, subscribers: map<InstanceId, nat>, ttl: nat,
    instances: map<InstanceId, Instance>, i: InstanceId)
    requires Tracked(now, liveness, subscribers, ttl, instances) && i in instances
    ensures Tracked(
      now, SetEx(liveness, now, i, "1", ttl), subscribers, ttl, instances[i := instances[i].(aliveAt := Some(now))])
  {}

  lemma StepKeeps(c: Config, s: State, step: Step)
    requires Inv(c, s)
    ensures Inv(c, Apply(c, s, step))
  {
    var t := Apply(c, s, step);
    hide Inv;
    match step
    case Advance(r, stamp) =>
      if RequestLive(s, r) { AdvanceFrame(c, s, r, stamp); hide Advanced; SameCoreKeeps(c, s, t); }
    case Act(x, input) =>
      if SessionLive(s, x) {
        ActFrame(c, s, x, input);
        ActCore(c, s, x, input);
        hide Acted, SameCore;
        SameCoreKeeps(c, s, t);
      }
    case Boot(i) => if !(i in s.instances && !s.instances[i].phase.Down?) { BootKeeps(c, s, i); hide Booted; }
    case Crash(i) => if i in s.instances { CrashKeeps(c, s, i); hide Crashed; }
    case KeepInstanceAlive(i) => RefreshKeeps(c, s, i); hide Apply;
    case _ => RestKeeps(c, s, step); hide Apply;
  }

  lemma RestKeeps(c: Config, s: State, step: Step)
    requires Inv(c, s) && !step.Advance? && !step.Act? && !step.Boot? && !step.Crash? && !step.KeepInstanceAlive?
    ensures Inv(c, Apply(c, s, step))
  {
    hide Inv, SameCore;
    if OfWire(step) {
      WireFrame(c, s, step);
      WireCore(c, s, step);
      hide Apply;
      SameCoreKeeps(c, s, Apply(c, s, step));
      return;
    }
    if OfInstance(step) {
      ShutdownCore(c, s, step);
      ShutdownRedis(c, s, step);
      hide Apply;
    } else {
      SameCoreItself(s.instances);
    }
    SameCoreKeeps(c, s, Apply(c, s, step));
  }

  lemma {:induction false} Always(c: Config, steps: seq<Step>)
    ensures Inv(c, Exec(c, INIT, steps))
  {
    if steps != [] {
      Always(c, steps[..|steps| - 1]);
      StepKeeps(c, Exec(c, INIT, steps[..|steps| - 1]), steps[|steps| - 1]);
    }
  }

  /** An instance passes the publisher's check exactly while its last refresh is less than a TTL old. */
  lemma AliveIff(c: Config, s: State, i: InstanceId)
    requires Reachable(c, s)
    ensures
      IsAlive(s.redis, i) <==>
      i in s.instances && s.instances[i].aliveAt.Some? && s.redis.now < s.instances[i].aliveAt.value + c.livenessTtl
  {
    var steps :| s == Exec(c, INIT, steps);
    Always(c, steps);
  }

  /** In every run a message for an instance is handed to its process, at the end of what waits there, if the instance
      is up, and is lost at once if it is not: a process that comes back later does not get it. */
  lemma HandedOrLost(c: Config, s: State, i: InstanceId, u: UserId, note: Envelope)
    requires Reachable(c, s)
    ensures var (ch, ch', up) :=
        (s.redis.channels, Publish(s.redis.channels, i, u, note), i in s.instances && !s.instances[i].phase.Down?);
      var p := Packet(i, if up then s.instances[i].epoch else 0, u, note);
      && ch'.published == ch.published + [p] && ch'.subscribers == ch.subscribers
      && ch'.wire == (if up then ch.wire + [p] else ch.wire) && ch'.lost == (if up then ch.lost else ch.lost + [p])
  {
    var steps :| s == Exec(c, INIT, steps);
    Always(c, steps);
    hide Exec;
  }

  // ----- Crash detection -----

  lemma StaysDown(c: Config, s: State, step: Step, i: InstanceId)
    requires i in s.instances && s.instances[i].phase.Down? && step != Boot(i)
    ensures var t := Apply(c, s, step);
      i in t.instances && t.instances[i].phase.Down? && t.instances[i].aliveAt == s.instances[i].aliveAt
  {
    match step
    case Advance(r, stamp) => if RequestLive(s, r) { AdvanceFrame(c, s, r, stamp); hide Advanced; }
    case Act(x, input) => if SessionLive(s, x) { ActCore(c, s, x, input); hide Acted; }
    case _ =>
      if OfWire(step) { WireCore(c, s, step); hide Apply; }
      else if OfInstance(step) { StaysDownOther(c, s, step, i); hide Apply; }
  }

  lemma StaysDownOther(c: Config, s: State, step: Step, i: InstanceId)
    requires i in s.instances && s.instances[i].phase.Down? && step != Boot(i) && OfInstance(step)
    ensures var t := Apply(c, s, step);
      i in t.instances && t.instances[i].phase.Down? && t.instances[i].aliveAt == s.instances[i].aliveAt
  {
    if step.BeginShutdown? || step.TearDownEntry? || step.TearDownStatus? {
      ShutdownCore(c, s, step);
      hide Apply;
    }
  }

  lemma {:induction false} DownUntilBoot(c: Config, s: State, more: seq<Step>, i: InstanceId)
    requires i in s.instances && s.instances[i].phase.Down?
    requires Boot(i) !in more
    ensures var t := Exec(c, s, more);
      i in t.instances && t.instances[i].phase.Down? && t.instances[i].aliveAt == s.instances[i].aliveAt
  {
    if more == [] { return; }
    var n := |more| - 1;
    DownUntilBoot(c, s, more[..n], i);
    assert Exec(c, s, more) == Apply(c, Exec(c, s, more[..n]), more[n]);
    hide Exec, Apply;
    StaysDown(c, Exec(c, s, more[..n]), more[n], i);
  }

  lemma {:induction false} StaysReachable(c: Config, s: State, more: seq<Step>)
    requires Reachable(c, s)
    ensures Reachable(c, Exec(c, s, more))
  {
    if more == [] { return; }
    var n := |more| - 1;
    StaysReachable(c, s, more[..n]);
    var steps :| Exec(c, s, more[..n]) == Exec(c, INIT, steps);
    assert (steps + [more[n]])[..|steps|] == steps;
    assert Exec(c, INIT, steps + [more[n]]) == Apply(c, Exec(c, INIT, steps), more[n]);
    assert Exec(c, s, more) == Apply(c, Exec(c, s, more[..n]), more[n]);
    hide Exec, Apply;
  }

  /** Once an instance is down and not restarted, no liveness check succeeds from one TTL later on, whatever else
      happens. */
  lemma CrashIsDetected(c: Config, s: State, more: seq<Step>, t: State, i: InstanceId)
    requires Reachable(c, s) && i in s.instances && s.instances[i].phase.Down?
    requires t == Exec(c, s, more) && Boot(i) !in more
    requires s.redis.now + c.livenessTtl <= t.redis.now
    ensures !IsAlive(t.redis, i)
  {
    var steps :| s == Exec(c, INIT, steps);
    Always(c, steps);
    StaysReachable(c, s, more);
    AliveIff(c, t, i);
    DownUntilBoot(c, s, more, i);
    hide Exec, IsAlive;
  }
}
