/** The presence log of a run, and that Redis holds at every moment exactly what this log says. */
module PresenceLog {
  import opened Model
  import opened TtlStore
  import opened RedisServer
  import opened Repository
  import opened Protocol
  import opened Frames
  import opened Effects
  import O = Overlap
  import P = Presence

  /** What a session's next command tells presence about user `u`. */
  ghost function Told(now: Time, pc: SessionPc, u: UserId): seq<P.Event> {
    match pc
    case GoingOnline => [P.Event(now, u, P.Mark(Online))]
    case Updating(st) => [P.Event(now, u, P.Mark(st))]
    case Beating => [P.Event(now, u, P.Beat)]
    case GoingOffline => [P.Event(now, u, P.Clear)]
    case _ => []
  }

  /** The user's status is next to be cleared by this stopping instance. */
  ghost predicate TearsDown(s: State, i: InstanceId, u: UserId) {
    i in s.instances && s.instances[i].phase.Stopping? && u in s.instances[i].phase.offline
      && u !in s.instances[i].phase.unregister
  }

  /** The events of one step: those of sessions, and the clears of a shutdown. */
  ghost function Logged(s: State, step: Step): seq<P.Event> {
    match step
    case Act(x, input) =>
      if SessionLive(s, x) && Goes(s.sessions[x], input)
      then Told(s.redis.now, s.sessions[x].pc, s.sessions[x].who.value) else []
    case TearDownStatus(i, u) => if TearsDown(s, i, u) then [P.Event(s.redis.now, u, P.Clear)] else []
    case _ => []
  }

  ghost function LogOf(c: Config, steps: seq<Step>): seq<P.Event> {
    if steps == [] then []
    else LogOf(c, steps[..|steps| - 1]) + Logged(Exec(c, INIT, steps[..|steps| - 1]), steps[|steps| - 1])
  }

  /** Presence is all but the registry. */
  ghost predicate SamePresence(d: Directory, d': Directory) {
    d'.status == d.status && d'.lastSeen == d.lastSeen
  }

  lemma NothingHappens(ttl: nat, d: Directory)
    ensures P.HappenAll(ttl, d, []) == d
  {}

  lemma OneHappens(ttl: nat, d: Directory, e: P.Event)
    ensures P.HappenAll(ttl, d, [e]) == P.Happen(ttl, d, e)
  {
    assert [e][..0] == [];
    hide P.Happen;
  }

  lemma GoTells(c: Config, now: Time, d: Directory, db: Database, conns: Conns, x: SessionId, q: Session, u: UserId)
    ensures SamePresence(P.HappenAll(c.presenceTtl, d, Told(now, q.pc, u)), GoStep(c, now, d, db, conns, x, q, u).0)
  {
    PcCases(q.pc);
    NothingHappens(c.presenceTtl, d);
    if |Told(now, q.pc, u)| == 1 { OneHappens(c.presenceTtl, d, Told(now, q.pc, u)[0]); }
    hide P.HappenAll, SetEx, Expire, Del, Set;
  }

  lemma ActTells(c: Config, s: State, x: SessionId, input: Input)
    requires SessionLive(s, x)
    ensures SamePresence(
      P.HappenAll(c.presenceTtl, s.redis.directory, Logged(s, Act(x, input))), Acted(c, s, x, input).redis.directory)
  {
    var q := s.sessions[x];
    var conns := s.instances[q.inst].conns;
    if Goes(q, input) {
      GoTells(c, s.redis.now, s.redis.directory, s.db, conns, x, q, q.who.value);
      hide GoStep, Told, P.HappenAll, SamePresence;
    } else {
      NothingHappens(c.presenceTtl, s.redis.directory);
      SessionStepDirectory(c, s.redis, s.db, conns, x, q, input);
      hide SessionStep, P.HappenAll;
    }
  }

  lemma EntryTellsNothing(c: Config, s: State, i: InstanceId, u: UserId)
    ensures SamePresence(s.redis.directory, Apply(c, s, TearDownEntry(i, u)).redis.directory)
  {}

  lemma StatusDirectory(c: Config, s: State, i: InstanceId, u: UserId)
    ensures Apply(c, s, TearDownStatus(i, u)).redis.directory ==
            if TearsDown(s, i, u) then P.ClearStatus(s.redis.directory, u) else s.redis.directory
  {
    hide P.ClearStatus;
  }

  lemma ShutdownTells(c: Config, s: State, step: Step)
    requires step.TearDownEntry? || step.TearDownStatus?
    ensures SamePresence(
      P.HappenAll(c.presenceTtl, s.redis.directory, Logged(s, step)), Apply(c, s, step).redis.directory)
  {
    NothingHappens(c.presenceTtl, s.redis.directory);
    if step.TearDownEntry? {
      EntryTellsNothing(c, s, step.inst, step.user);
      hide SamePresence;
    } else {
      StatusDirectory(c, s, step.inst, step.user);
      OneHappens(c.presenceTtl, s.redis.directory, P.Event(s.redis.now, step.user, P.Clear));
      hide TearsDown;
    }
    hide P.HappenAll, Apply;
  }

  lemma StepTells(c: Config, s: State, step: Step)
    ensures SamePresence(
      P.HappenAll(c.presenceTtl, s.redis.directory, Logged(s, step)), Apply(c, s, step).redis.directory)
  {
    NothingHappens(c.presenceTtl, s.redis.directory);
    if step.Act? {
      ApplyAct(c, s, step.x, step.input);
      hide Apply;
      if SessionLive(s, step.x) { ActTells(c, s, step.x, step.input); hide Logged; }
      hide Acted, P.HappenAll;
    } else if step.TearDownEntry? || step.TearDownStatus? {
      ShutdownTells(c, s, step);
      hide Apply, Logged, SamePresence;
    } else if !step.Tick? {
      O.SameDirectory(c, s, step);
      hide Apply, P.HappenAll;
    }
  }

  lemma {:induction false} HappenAllSplit(ttl: nat, d: Directory, log: seq<P.Event>, more: seq<P.Event>)
    ensures P.HappenAll(ttl, d, log + more) == P.HappenAll(ttl, P.HappenAll(ttl, d, log), more)
    decreases |more|
  {
    hide P.Happen;
    if more == [] {
      assert log + more == log;
    } else {
      var n := |more| - 1;
      HappenAllSplit(ttl, d, log, more[..n]);
      assert (log + more)[..|log| + n] == log + more[..n];
    }
  }

  lemma SameHappens(ttl: nat, d: Directory, d': Directory, e: P.Event)
    requires SamePresence(d, d')
    ensures SamePresence(P.Happen(ttl, d, e), P.Happen(ttl, d', e))
  {}

  lemma {:induction false} SameHappenAll(ttl: nat, d: Directory, d': Directory, log: seq<P.Event>)
    requires SamePresence(d, d')
    ensures SamePresence(P.HappenAll(ttl, d, log), P.HappenAll(ttl, d', log))
  {
    hide P.Happen, SamePresence;
    if log != [] {
      var n := |log| - 1;
      SameHappenAll(ttl, d, d', log[..n]);
      SameHappens(ttl, P.HappenAll(ttl, d, log[..n]), P.HappenAll(ttl, d', log[..n]), log[n]);
    }
  }

  lemma {:induction false} ReplayIs(ttl: nat, log: seq<P.Event>)
    ensures P.Replay(ttl, log) == P.HappenAll(ttl, P.NOBODY, log)
  {
    if log != [] { ReplayIs(ttl, log[..|log| - 1]); }
  }

  /** The log is in order and ends by now. */
  ghost predicate Past(log: seq<P.Event>, now: Time) {
    P.Ordered(log) && forall k :: 0 <= k < |log| ==> log[k].at <= now
  }

  lemma LoggedNow(s: State, step: Step)
    ensures forall k :: 0 <= k < |Logged(s, step)| ==> Logged(s, step)[k].at == s.redis.now
    ensures |Logged(s, step)| <= 1
  {}

  lemma TimeGoesOn(c: Config, s: State, step: Step)
    ensures s.redis.now <= Apply(c, s, step).redis.now
  {
    if step.Act? {
      ApplyAct(c, s, step.x, step.input);
      hide Apply;
      if SessionLive(s, step.x) { ActFrame(c, s, step.x, step.input); }
      hide Acted;
    } else if !step.Tick? && !step.TearDownEntry? && !step.TearDownStatus? {
      O.SameDirectory(c, s, step);
      hide Apply;
    }
  }

  /** In every run the statuses and last_seen times in Redis are those of the run's own log. */
  lemma {:induction false} Always(c: Config, steps: seq<Step>)
    ensures var s := Exec(c, INIT, steps);
      Past(LogOf(c, steps), s.redis.now) && SamePresence(P.Replay(c.presenceTtl, LogOf(c, steps)), s.redis.directory)
  {
    if steps == [] { return; }
    var before, step := steps[..|steps| - 1], steps[|steps| - 1];
    Always(c, before);
    var s, log := Exec(c, INIT, before), LogOf(c, before);
    var more := Logged(s, step);
    assert LogOf(c, steps) == log + more && Exec(c, INIT, steps) == Apply(c, s, step);
    LoggedNow(s, step);
    TimeGoesOn(c, s, step);
    hide Exec, Apply, LogOf, Logged;
    assert Past(log + more, Apply(c, s, step).redis.now);
    hide Past;
    ReplayIs(c.presenceTtl, log);
    ReplayIs(c.presenceTtl, log + more);
    HappenAllSplit(c.presenceTtl, P.NOBODY, log, more);
    SameHappenAll(c.presenceTtl, P.HappenAll(c.presenceTtl, P.NOBODY, log), s.redis.directory, more);
    StepTells(c, s, step);
    hide P.HappenAll, P.Replay;
  }

  /** In every run the status shown for a user at the end is `st` exactly when the run's log supports it: its last
      online or away event, none of the user's clears since, and no gap of a TTL from there to now. */
  lemma StatusInRuns(c: Config, steps: seq<Step>, u: UserId, st: Status)
    ensures var s, log := Exec(c, INIT, steps), LogOf(c, steps);
      Get(s.redis.directory.status, s.redis.now, u) == Some(st) <==>
      exists i: nat :: P.Supports(c.presenceTtl, log, u, i, s.redis.now) && log[i].kind.status == st
  {
    Always(c, steps);
    P.StatusAgreesWithHistory(c.presenceTtl, LogOf(c, steps), u, Exec(c, INIT, steps).redis.now, st);
    hide Exec, LogOf, P.Replay, P.Supports;
  }

  /** And last_seen is the time of the user's last online, away or heartbeat event in the run. */
  lemma LastSeenInRuns(c: Config, steps: seq<Step>, u: UserId)
    ensures P.LastSeenFrom(LogOf(c, steps), u, Find(Exec(c, INIT, steps).redis.directory.lastSeen, u))
  {
    Always(c, steps);
    P.LastSeenAgreesWithHistory(c.presenceTtl, LogOf(c, steps), u);
    hide Exec, LogOf, P.Replay, P.LastSeenFrom;
  }
}
