/** What one step does to the pieces of state the session theorems speak about: where a session goes next and which
    records it keeps of its own commands, what that does to the directory, and which parts of an instance a delivery
    or a shutdown can change. Proved once here and cited by every invariant. */
module Effects {
  import opened Model
  import opened TtlStore
  import opened RedisServer
  import opened Repository
  import opened Protocol
  import opened Frames

  /** From the registration until the session's own unregister ran. */
  ghost predicate Registered(pc: SessionPc) {
    match pc
    case GoingOnline | Snapshotting | SendingBacklog | Serving | Beating | Refreshing | Updating(_) | Receipting(_, _)
       | Removing | Unregistering => true
    case _ => false
  }

  /** From the first status until the session's own clear ran. */
  ghost predicate Kept(pc: SessionPc) {
    match pc
    case Snapshotting | SendingBacklog | Serving | Beating | Refreshing | Updating(_) | Receipting(_, _)
       | Removing | Unregistering | GoingOffline => true
    case _ => false
  }

  /** From the add until the session's own remove ran. */
  ghost predicate Attached(pc: SessionPc) {
    match pc
    case Registering | GoingOnline | Snapshotting | SendingBacklog | Serving | Beating | Refreshing | Updating(_)
       | Receipting(_, _)
       | Removing => true
    case _ => false
  }

  /** From the accepted ticket until the cleanup finished. */
  ghost predicate Engaged(pc: SessionPc) {
    match pc
    case Redeeming | Rejected | Ended | Aborted(_) => false
    case _ => true
  }

  ghost function PcAfterGo(pc: SessionPc): SessionPc {
    match pc
    case Adding => Registering
    case Registering => GoingOnline
    case GoingOnline => Snapshotting
    case SendingBacklog => Serving
    case Beating => Refreshing
    case Refreshing => Serving
    case Updating(_) => Serving
    case Receipting(_, _) => Serving
    case Removing => Unregistering
    case Unregistering => GoingOffline
    case GoingOffline => Ended
    case _ => pc
  }

  /** What the session records of the keys it sets and refreshes; a refresh of an invisible key is none. */
  ghost predicate RecordsGo(
    now: Time, registry: Store<UserId, InstanceId>, status: Store<UserId, Status>, q: Session, q': Session, u: UserId)
  {
    && q'.registeredAt ==
       (if q.pc.Registering? || (q.pc.Refreshing? && Exists(registry, now, u)) then now else q.registeredAt)
    && q'.keptAt ==
       (if q.pc.GoingOnline? || q.pc.Updating? || (q.pc.Beating? && Exists(status, now, u)) then now else q.keptAt)
    && q'.leftover == (if q.pc.Registering? then Find(status, u) else q.leftover)
    && q'.beats == (if q.pc.Registering? then [now] else q.beats)
    && q'.sent == (q.sent || q.pc.SendingBacklog?)
  }

  lemma GoStepPc(c: Config, now: Time, d: Directory, db: Database, conns: Conns, x: SessionId, q: Session, u: UserId)
    ensures var q' := GoStep(c, now, d, db, conns, x, q, u).3;
      && q'.pc == PcAfterGo(q.pc) && q'.calls == q.calls && q'.snapshot == q.snapshot && q'.backlog == q.backlog
      && RecordsGo(now, d.registry, d.status, q, q', u)
  {
    PcCases(q.pc);
  }

  ghost function RegistryAfterGo(
    c: Config, now: Time, registry: Store<UserId, InstanceId>, q: Session, u: UserId): Store<UserId, InstanceId>
  {
    if q.pc.Registering? then SetEx(registry, now, u, q.inst, c.presenceTtl)
    else if q.pc.Refreshing? then Expire(registry, now, u, c.presenceTtl)
    else if q.pc.Unregistering? then Del(registry, u)
    else registry
  }

  ghost function StatusAfterGo(
    c: Config, now: Time, status: Store<UserId, Status>, q: Session, u: UserId): Store<UserId, Status>
  {
    if q.pc.GoingOnline? then SetEx(status, now, u, Online, c.presenceTtl)
    else if q.pc.Updating? then SetEx(status, now, u, q.pc.status, c.presenceTtl)
    else if q.pc.Beating? then Expire(status, now, u, c.presenceTtl)
    else if q.pc.GoingOffline? then Del(status, u)
    else status
  }

  lemma GoStepDirectory(
    c: Config, now: Time, d: Directory, db: Database, conns: Conns, x: SessionId, q: Session, u: UserId)
    ensures GoStep(c, now, d, db, conns, x, q, u).0.registry == RegistryAfterGo(c, now, d.registry, q, u)
    ensures GoStep(c, now, d, db, conns, x, q, u).0.status == StatusAfterGo(c, now, d.status, q, u)
  {
    hide SetEx, Expire, Del;
    PcCases(q.pc);
  }

  /** The step is a session's own next command, past the redemption. */
  ghost predicate Goes(q: Session, input: Input) {
    input.Go? && !q.pc.Redeeming? && q.who.Some?
  }

  /** Only a session's own commands touch the directory, and only at its own user. */
  lemma SessionStepDirectory(
    c: Config, redis: RedisState, db: Database, conns: Conns, x: SessionId, q: Session, input: Input)
    ensures var d' := SessionStep(c, redis, db, conns, x, q, input).0.directory;
      if Goes(q, input) then
        && d'.registry == RegistryAfterGo(c, redis.now, redis.directory.registry, q, q.who.value)
        && d'.status == StatusAfterGo(c, redis.now, redis.directory.status, q, q.who.value)
      else d' == redis.directory
  {
    if Goes(q, input) {
      GoStepDirectory(c, redis.now, redis.directory, db, conns, x, q, q.who.value);
      hide GoStep, RegistryAfterGo, StatusAfterGo;
    }
  }

  /** Where the session goes, whatever drives it. */
  ghost predicate Moves(
    c: Config, redis: RedisState, db: Database, x: SessionId, q: Session, input: Input, q': Session)
  {
    match input
    case Break => q' == q.(pc := AfterBreak(q.pc))
    case Go =>
      if q.pc.Redeeming? then q' == Redeem(redis, q).1
      else if q.who.Some? then
        && q'.pc == PcAfterGo(q.pc) && q'.calls == q.calls && q'.snapshot == q.snapshot && q'.backlog == q.backlog
        && RecordsGo(redis.now, redis.directory.registry, redis.directory.status, q, q', q.who.value)
      else q' == q
    case Page(rows) =>
      q' == q || (q.pc.Snapshotting? && q.who.Some?
        && IsPage(true, rows, UnreadOf(db.rows, q.who.value), c.backlogLimit)
                  && q' == q.(pc := SendingBacklog, snapshot := Some(db.rows), backlog := rows))
    case Receive(message) => if q.pc.Serving? then q' == TakeMessage(c, redis, x, q, message).1 else q' == q
    case HangUp => q' == (if q.pc.Serving? then q.(pc := Removing) else q)
  }

  lemma SessionStepMoves(
    c: Config, redis: RedisState, db: Database, conns: Conns, x: SessionId, q: Session, input: Input)
    ensures Moves(c, redis, db, x, q, input, SessionStep(c, redis, db, conns, x, q, input).3)
  {
    hide AfterBreak, Redeem, TakeMessage, IsPage, UnreadOf;
    if Goes(q, input) {
      GoStepPc(c, redis.now, redis.directory, db, conns, x, q, q.who.value);
      hide GoStep, PcAfterGo;
    }
  }

  /** The whole step of session `x` as the session theorems see it. */
  lemma ActEffects(c: Config, s: State, x: SessionId, input: Input)
    requires SessionLive(s, x)
    ensures var q, t := s.sessions[x], Acted(c, s, x, input);
      && x in t.sessions && t.sessions == s.sessions[x := t.sessions[x]]
      && Moves(c, s.redis, s.db, x, q, input, t.sessions[x])
      && (if Goes(q, input) then
            && t.redis.directory.registry == RegistryAfterGo(c, s.redis.now, s.redis.directory.registry, q, q.who.value)
            && t.redis.directory.status == StatusAfterGo(c, s.redis.now, s.redis.directory.status, q, q.who.value)
          else t.redis.directory == s.redis.directory)
  {
    var q := s.sessions[x];
    SessionStepDirectory(c, s.redis, s.db, s.instances[q.inst].conns, x, q, input);
    SessionStepMoves(c, s.redis, s.db, s.instances[q.inst].conns, x, q, input);
    hide SessionStep, Moves, RegistryAfterGo, StatusAfterGo;
  }

  /** A session's step leaves every instance's epoch and liveness record alone, and none goes up or down. */
  lemma ActCore(c: Config, s: State, x: SessionId, input: Input)
    requires SessionLive(s, x)
    ensures SameCore(s.instances, Acted(c, s, x, input).instances)
  {
    hide SessionStep;
  }

  ghost predicate SameCore(before: map<InstanceId, Instance>, after: map<InstanceId, Instance>) {
    && before.Keys == after.Keys
    && forall i :: i in before ==>
         after[i].epoch == before[i].epoch && after[i].phase.Down? == before[i].phase.Down?
           && after[i].aliveAt == before[i].aliveAt
  }

  lemma WireCore(c: Config, s: State, step: Step)
    requires OfWire(step)
    ensures SameCore(s.instances, Apply(c, s, step).instances)
  {
    match step
    case PickUp(k) => if CanPickUp(s, k) { PickUpFrame(s, k); hide PickedUp, CanPickUp; }
    case Complete(k, ok) => CompleteCore(c, s, k, ok); hide Apply;
    case LoseWire(_) =>
    case LoseSending(_) =>
  }

  lemma OneInstance(instances: map<InstanceId, Instance>, i: InstanceId, after: Instance)
    requires i in instances && after.epoch == instances[i].epoch && after.aliveAt == instances[i].aliveAt
    requires after.phase.Down? == instances[i].phase.Down?
    ensures SameCore(instances, instances[i := after])
  {}

  lemma CompleteCore(c: Config, s: State, k: nat, ok: bool)
    ensures SameCore(s.instances, Apply(c, s, Complete(k, ok)).instances)
  {
    hide Without;
    if !ok && k < |s.sending| && Up(s, s.sending[k].packet.inst, s.sending[k].packet.epoch) {
      var p := s.sending[k].packet;
      var i := s.instances[p.inst];
      var after := i.(conns := i.conns - {p.user}, drops := i.drops + {p.user});
      assert Completed(s, k, ok).instances == s.instances[p.inst := after];
      OneInstance(s.instances, p.inst, after);
      hide Completed, SameCore;
    }
  }

  lemma ShutdownCore(c: Config, s: State, step: Step)
    requires step.BeginShutdown? || step.TearDownEntry? || step.TearDownStatus?
    ensures SameCore(s.instances, Apply(c, s, step).instances)
  {
    var i := step.inst;
    if i !in s.instances || s.instances[i].phase.Down? { return; }
    if step.BeginShutdown? { BeginInstances(c, s, i); } else { TearDownInstances(c, s, step); }
    assert i in Apply(c, s, step).instances && s.instances[i := s.instances[i]] == s.instances;
    OneInstance(s.instances, i, Apply(c, s, step).instances[i]);
    hide Apply, SameCore;
  }

  lemma BeginInstances(c: Config, s: State, i: InstanceId)
    requires i in s.instances && !s.instances[i].phase.Down?
    ensures var m := Apply(c, s, BeginShutdown(i)).instances;
      && i in m && m == s.instances[i := m[i]] && !m[i].phase.Down?
      && m[i].epoch == s.instances[i].epoch && m[i].aliveAt == s.instances[i].aliveAt
  {
    assert s.instances[i := s.instances[i]] == s.instances;
  }

  lemma TearDownInstances(c: Config, s: State, step: Step)
    requires step.TearDownEntry? || step.TearDownStatus?
    requires step.inst in s.instances && !s.instances[step.inst].phase.Down?
    ensures var m, i := Apply(c, s, step).instances, step.inst;
      && i in m && m == s.instances[i := m[i]] && !m[i].phase.Down?
      && m[i].epoch == s.instances[i].epoch && m[i].aliveAt == s.instances[i].aliveAt
  {
    assert s.instances[step.inst := s.instances[step.inst]] == s.instances;
  }

  lemma ShutdownRedis(c: Config, s: State, step: Step)
    requires step.BeginShutdown? || step.TearDownEntry? || step.TearDownStatus?
    ensures Apply(c, s, step).redis == s.redis.(directory := Apply(c, s, step).redis.directory)
  {
    match step
    case BeginShutdown(_) =>
    case TearDownEntry(_, _) =>
    case TearDownStatus(_, _) =>
  }
}
