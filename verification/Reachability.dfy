/** One session of a user at a time: what its keys and its socket are, exactly, whatever the rest of the platform does
    and however late its refreshes come. */
module Reachability {
  import opened Model
  import opened TtlStore
  import opened RedisServer
  import opened Registry
  import opened Protocol
  import opened Frames
  import opened Effects
  import opened Processes
  import I = Isolation
  import R = Repository
  import S = Snapshots
  import T = Tickets
  import O = Ownership

  /** No other session of `u` is under way on a live process, and no stopping instance is about to clear the user's
      keys. */
  ghost predicate Alone(s: State, x: SessionId, u: UserId) {
    && (forall y ::
       y in s.sessions && y != x && SessionLive(s, y) && s.sessions[y].who == Some(u) ==> !Engaged(s.sessions[y].pc))
    && (forall i :: i in s.instances && s.instances[i].phase.Stopping? ==>
          u !in s.instances[i].phase.unregister && u !in s.instances[i].phase.offline)
  }

  /** `x` does not overlap with another session of `u`, as long as it lasts. */
  ghost predicate NoOverlap(s: State, x: SessionId, u: UserId) {
    SessionLive(s, x) && s.sessions[x].who == Some(u) && Engaged(s.sessions[x].pc) ==> Alone(s, x, u)
  }

  /** ... at every moment of a run. */
  ghost predicate NoOverlapRun(c: Config, steps: seq<Step>, x: SessionId, u: UserId) {
    forall k :: 0 <= k <= |steps| ==> NoOverlap(At(c, steps, k), x, u)
  }

  /** The state comes at the end of such a run. */
  ghost predicate ReachedAlone(c: Config, s: State, x: SessionId, u: UserId) {
    exists steps :: s == Exec(c, INIT, steps) && NoOverlapRun(c, steps, x, u)
  }

  /** Registered and not yet on its way out. */
  ghost predicate Connected(pc: SessionPc) {
    Registered(pc) && !pc.Removing? && !pc.Unregistering?
  }

  // ----- What the session holds -----

  ghost predicate EntryOk(c: Config, registry: Store<UserId, InstanceId>, q: Session, u: UserId) {
    Registered(q.pc) ==> u in registry && registry[u] == Cell(q.inst, Some(q.registeredAt + c.presenceTtl))
  }

  /** Before its first status the session finds what an earlier one left. */
  ghost predicate StatusOk(c: Config, status: Store<UserId, Status>, q: Session, u: UserId) {
    && (Kept(q.pc) ==> u in status && status[u].expiry == Some(q.keptAt + c.presenceTtl))
    && (q.pc.GoingOnline? ==> Find(status, u) == q.leftover)
  }

  /** The instance's map leads to the session, unless a failed send dropped the user. */
  ghost predicate SocketOk(instances: map<InstanceId, Instance>, i: InstanceId, x: SessionId, u: UserId) {
    && i in instances
    && (u in instances[i].drops || (u in instances[i].conns && instances[i].conns[u] == x))
  }

  ghost predicate Held(c: Config, s: State, x: SessionId, u: UserId) {
    SessionLive(s, x) && s.sessions[x].who == Some(u) ==>
      && EntryOk(c, s.redis.directory.registry, s.sessions[x], u)
      && StatusOk(c, s.redis.directory.status, s.sessions[x], u)
      && (Attached(s.sessions[x].pc) && IsRunning(s, s.sessions[x].inst) ==>
         SocketOk(s.instances, s.sessions[x].inst, x, u))
  }

  // ----- The session's own steps -----

  lemma OwnEntry(c: Config, s: State, x: SessionId, input: Input, u: UserId)
    requires SessionLive(s, x) && s.sessions[x].who == Some(u) && !T.Redeems(s.sessions[x], input)
    requires EntryOk(c, s.redis.directory.registry, s.sessions[x], u)
    ensures var t := Acted(c, s, x, input); x in t.sessions && EntryOk(c, t.redis.directory.registry, t.sessions[x], u)
  {
    ActEffects(c, s, x, input);
    T.ActIdentity(c, s, x, input);
    EntryMoves(c, s.redis, s.db, x, s.sessions[x], input, Acted(c, s, x, input).sessions[x], u);
    hide Acted, Moves, EntryOk, RegistryAfterGo, StatusAfterGo;
  }

  lemma EntryMoves(
    c: Config, redis: RedisState, db: R.Database, x: SessionId, q: Session, input: Input, q': Session, u: UserId)
    requires Moves(c, redis, db, x, q, input, q') && T.SameIdentity(q, q') && !T.Redeems(q, input)
    requires q.who == Some(u) && EntryOk(c, redis.directory.registry, q, u)
    ensures EntryOk(c, if Goes(q, input) then RegistryAfterGo(c, redis.now, redis.directory.registry, q, u)
                       else redis.directory.registry, q', u)
  {
    match input
    case Break =>
    case Go =>
      PcCases(q.pc);
    case Page(_) =>
    case Receive(message) =>
      match message {
      case HeartbeatMessage =>
      case PresenceMessage(_) =>
      case ReceiptMessage(_) =>
      case OtherMessage =>
      }
    case HangUp =>
  }

  lemma OwnStatus(c: Config, s: State, x: SessionId, input: Input, u: UserId)
    requires SessionLive(s, x) && s.sessions[x].who == Some(u) && !T.Redeems(s.sessions[x], input)
    requires StatusOk(c, s.redis.directory.status, s.sessions[x], u)
    ensures var t := Acted(c, s, x, input); x in t.sessions && StatusOk(c, t.redis.directory.status, t.sessions[x], u)
  {
    ActEffects(c, s, x, input);
    T.ActIdentity(c, s, x, input);
    StatusMoves(c, s.redis, s.db, x, s.sessions[x], input, Acted(c, s, x, input).sessions[x], u);
    hide Acted, Moves, StatusOk, RegistryAfterGo, StatusAfterGo;
  }

  lemma StatusMoves(
    c: Config, redis: RedisState, db: R.Database, x: SessionId, q: Session, input: Input, q': Session, u: UserId)
    requires Moves(c, redis, db, x, q, input, q') && T.SameIdentity(q, q') && !T.Redeems(q, input)
    requires q.who == Some(u) && StatusOk(c, redis.directory.status, q, u)
    ensures StatusOk(c, if Goes(q, input) then StatusAfterGo(c, redis.now, redis.directory.status, q, u)
                       else redis.directory.status, q', u)
  {
    match input
    case Break =>
    case Go =>
      PcCases(q.pc);
    case Page(_) =>
    case Receive(message) =>
      match message {
      case HeartbeatMessage =>
      case PresenceMessage(_) =>
      case ReceiptMessage(_) =>
      case OtherMessage =>
      }
    case HangUp =>
  }

  /** What a step of session `y` does to the sockets of its own instance. */
  lemma ActSockets(c: Config, s: State, y: SessionId, input: Input)
    requires SessionLive(s, y)
    ensures var q, t := s.sessions[y], Acted(c, s, y, input);
      && q.inst in t.instances && t.instances == s.instances[q.inst := t.instances[q.inst]]
      && var i, i' := s.instances[q.inst], t.instances[q.inst];
         if Goes(q, input) && q.pc.Adding? then
           i'.conns == i.conns[q.who.value := y] && i'.drops == i.drops - {q.who.value}
         else
           i'.drops == i.drops && i'.conns == if Goes(q, input) && q.pc.Removing? then i.conns - {q.who.value}
             else i.conns
  {
    var q := s.sessions[y];
    StepSockets(c, s.redis, s.db, s.instances[q.inst].conns, y, q, input);
    hide SessionStep;
  }

  lemma StepSockets(c: Config, redis: RedisState, db: R.Database, conns: Conns, x: SessionId, q: Session, input: Input)
    ensures var (_, _, conns', q') := SessionStep(c, redis, db, conns, x, q, input);
      && conns' == (if Goes(q, input) && q.pc.Adding? then conns[q.who.value := x]
                    else if Goes(q, input) && q.pc.Removing? then conns - {q.who.value} else conns)
      && ((q.pc.Adding? && q'.pc.Registering? && q.who.Some?) <==> (Goes(q, input) && q.pc.Adding?))
  {
    if Goes(q, input) {
      I.GoStepConns(c, redis.now, redis.directory, db, conns, x, q, q.who.value);
      GoStepPc(c, redis.now, redis.directory, db, conns, x, q, q.who.value);
      hide GoStep;
    }
    hide AfterMessage;
  }

  lemma OwnSocket(c: Config, s: State, x: SessionId, input: Input, u: UserId)
    requires SessionLive(s, x) && s.sessions[x].who == Some(u) && !T.Redeems(s.sessions[x], input)
    requires Attached(s.sessions[x].pc) ==> SocketOk(s.instances, s.sessions[x].inst, x, u)
    ensures var t := Acted(c, s, x, input);
      x in t.sessions && (Attached(t.sessions[x].pc) ==> SocketOk(t.instances, t.sessions[x].inst, x, u))
  {
    ActEffects(c, s, x, input);
    ActSockets(c, s, x, input);
    T.ActIdentity(c, s, x, input);
    var q, q' := s.sessions[x], Acted(c, s, x, input).sessions[x];
    AttachedMoves(c, s.redis, s.db, x, q, input, q');
    hide Acted, Moves, Attached, RegistryAfterGo, StatusAfterGo;
  }

  lemma AttachedMoves(c: Config, redis: RedisState, db: R.Database, x: SessionId, q: Session, input: Input, q': Session)
    requires Moves(c, redis, db, x, q, input, q') && !T.Redeems(q, input)
    ensures Attached(q'.pc) ==>
      (Attached(q.pc) && !(Goes(q, input) && q.pc.Removing?)) || (Goes(q, input) && q.pc.Adding?)
  {
    match input
    case Break =>
    case Go =>
      PcCases(q.pc);
    case Page(_) =>
    case Receive(_) =>
    case HangUp =>
  }

  lemma ActLiveBefore(c: Config, s: State, y: SessionId, input: Input, x: SessionId)
    requires SessionLive(s, y) && Placed(s.sessions, s.instances) && x in s.sessions
    ensures var t := Acted(c, s, y, input);
      && x in t.sessions && t.sessions[x].inst == s.sessions[x].inst && t.sessions[x].epoch == s.sessions[x].epoch
      && (SessionLive(t, x) ==>
            SessionLive(s, x) && (IsRunning(t, s.sessions[x].inst) ==> IsRunning(s, s.sessions[x].inst)))
  {
    LiveBefore(c, s, Act(y, input), x);
    ApplyAct(c, s, y, input);
    hide Acted, Apply, Placed;
  }

  lemma OwnStep(c: Config, s: State, x: SessionId, input: Input, u: UserId)
    requires SessionLive(s, x) && Held(c, s, x, u) && Placed(s.sessions, s.instances)
    ensures Held(c, Acted(c, s, x, input), x, u)
  {
    var q := s.sessions[x];
    ActLiveBefore(c, s, x, input, x);
    if T.Redeems(q, input) {
      ActEffects(c, s, x, input);
    } else {
      T.ActIdentity(c, s, x, input);
      if q.who == Some(u) {
        OwnEntry(c, s, x, input, u);
        OwnStatus(c, s, x, input, u);
        if IsRunning(s, q.inst) { OwnSocket(c, s, x, input, u); }
      }
    }
    hide Acted, EntryOk, StatusOk, SocketOk;
  }

  // ----- Steps of other sessions -----

  /** The command at hand is of another user, or of a session with nothing left to do. */
  ghost predicate Elsewhere(q: Session, u: UserId) {
    q.who != Some(u) || !Engaged(q.pc)
  }

  lemma EntryElsewhere(c: Config, now: Time, registry: Store<UserId, InstanceId>, other: Session, q: Session, u: UserId)
    requires EntryOk(c, registry, q, u) && other.who.Some? && Elsewhere(other, u)
    ensures EntryOk(c, RegistryAfterGo(c, now, registry, other, other.who.value), q, u)
  {
    hide Registered;
  }

  lemma StatusElsewhere(c: Config, now: Time, status: Store<UserId, Status>, other: Session, q: Session, u: UserId)
    requires StatusOk(c, status, q, u) && other.who.Some? && Elsewhere(other, u)
    ensures StatusOk(c, StatusAfterGo(c, now, status, other, other.who.value), q, u)
  {
    hide Kept;
  }

  lemma SocketElsewhere(c: Config, s: State, y: SessionId, input: Input, i: InstanceId, x: SessionId, u: UserId)
    requires SessionLive(s, y) && Elsewhere(s.sessions[y], u) && SocketOk(s.instances, i, x, u)
    ensures SocketOk(Acted(c, s, y, input).instances, i, x, u)
  {
    ActSockets(c, s, y, input);
    hide Acted;
  }

  lemma OtherStep(c: Config, s: State, y: SessionId, input: Input, x: SessionId, u: UserId)
    requires SessionLive(s, y) && y != x && Held(c, s, x, u) && NoOverlap(s, x, u)
    requires Placed(s.sessions, s.instances) && x in s.sessions
    ensures Held(c, Acted(c, s, y, input), x, u)
  {
    ActLiveBefore(c, s, y, input, x);
    var t, other := Acted(c, s, y, input), s.sessions[y];
    ActFrame(c, s, y, input);
    if !SessionLive(t, x) || s.sessions[x].who != Some(u) || !Engaged(s.sessions[x].pc) { return; }
    var q := s.sessions[x];
    assert Elsewhere(other, u);
    ActEffects(c, s, y, input);
    hide Acted, Moves, Elsewhere, RegistryAfterGo, StatusAfterGo, EntryOk, StatusOk, SocketOk, NoOverlap;
    if Goes(other, input) {
      EntryElsewhere(c, s.redis.now, s.redis.directory.registry, other, q, u);
      StatusElsewhere(c, s.redis.now, s.redis.directory.status, other, q, u);
    }
    if Attached(q.pc) && IsRunning(s, q.inst) { SocketElsewhere(c, s, y, input, q.inst, x, u); }
  }

  // ----- Steps of instances and of the network -----

  /** Nothing the session holds moves. */
  lemma SameKeeps(c: Config, s: State, t: State, x: SessionId, u: UserId)
    requires Held(c, s, x, u) && t.sessions == s.sessions
    requires t.redis.directory.registry == s.redis.directory.registry
      && t.redis.directory.status == s.redis.directory.status
    requires SessionLive(t, x) ==>
      SessionLive(s, x) && (IsRunning(t, s.sessions[x].inst) ==> IsRunning(s, s.sessions[x].inst))
    requires x in s.sessions && SocketOk(s.instances, s.sessions[x].inst, x, u) ==>
      SocketOk(t.instances, s.sessions[x].inst, x, u)
    ensures Held(c, t, x, u)
  {
    hide EntryOk, StatusOk, SocketOk;
  }

  lemma WireSockets(c: Config, s: State, step: Step, i: InstanceId, x: SessionId, u: UserId)
    requires OfWire(step) && SocketOk(s.instances, i, x, u)
    ensures SocketOk(Apply(c, s, step).instances, i, x, u)
  {
    match step
    case PickUp(k) => if CanPickUp(s, k) { PickUpFrame(s, k); hide PickedUp, CanPickUp; }
    case Complete(k, ok) => CompleteSockets(c, s, k, ok, i, x, u); hide Apply;
    case LoseWire(_) =>
    case LoseSending(_) =>
  }

  /** A failed send leaves the dropped user on record. */
  lemma CompleteSockets(c: Config, s: State, k: nat, ok: bool, i: InstanceId, x: SessionId, u: UserId)
    requires SocketOk(s.instances, i, x, u)
    ensures SocketOk(Apply(c, s, Complete(k, ok)).instances, i, x, u)
  {
    hide Without;
  }

  /** The keys of a user whose only session this is are not cleared by an instance, and the instance of a live session
      neither starts nor stops. */
  lemma InstanceSockets(c: Config, s: State, step: Step, x: SessionId, u: UserId)
    requires OfInstance(step) && x in s.sessions && SocketOk(s.instances, s.sessions[x].inst, x, u)
    requires IsRunning(s, s.sessions[x].inst) && IsRunning(Apply(c, s, step), s.sessions[x].inst)
    ensures SocketOk(Apply(c, s, step).instances, s.sessions[x].inst, x, u)
  {
    match step
    case Boot(_) =>
    case Crash(_) =>
    case KeepInstanceAlive(_) =>
    case BeginShutdown(_) =>
    case TearDownEntry(_, _) =>
    case TearDownStatus(_, _) =>
  }

  lemma InstanceEntry(c: Config, s: State, step: Step, x: SessionId, q: Session, u: UserId)
    requires OfInstance(step) && EntryOk(c, s.redis.directory.registry, q, u) && Alone(s, x, u)
    ensures EntryOk(c, Apply(c, s, step).redis.directory.registry, q, u)
  {
    O.InstanceRegistry(c, s, step);
    if step == TearDownEntry(step.inst, u) { TearDownIdle(c, s, step, x, u); }
    hide Apply, Alone, Registered;
  }

  /** The tear-down of a user whose session is alone is not enabled. */
  lemma TearDownIdle(c: Config, s: State, step: Step, x: SessionId, u: UserId)
    requires Alone(s, x, u) && step.TearDownEntry? && step.user == u
    ensures Apply(c, s, step) == s
  {}

  lemma InstanceStatus(c: Config, s: State, step: Step, x: SessionId, q: Session, u: UserId)
    requires OfInstance(step) && StatusOk(c, s.redis.directory.status, q, u) && Alone(s, x, u)
    ensures StatusOk(c, Apply(c, s, step).redis.directory.status, q, u)
  {
    StatusOfInstance(c, s, step, x, u);
    hide Apply, Alone, Kept;
  }

  lemma StatusOfInstance(c: Config, s: State, step: Step, x: SessionId, u: UserId)
    requires OfInstance(step) && Alone(s, x, u)
    ensures Find(Apply(c, s, step).redis.directory.status, u) == Find(s.redis.directory.status, u)
  {
    match step
    case Boot(_) =>
    case Crash(_) =>
    case KeepInstanceAlive(_) =>
    case BeginShutdown(_) =>
    case TearDownEntry(_, _) =>
    case TearDownStatus(_, _) =>
  }

  lemma NothingHeld(c: Config, s: State, x: SessionId, u: UserId)
    requires x in s.sessions && !Engaged(s.sessions[x].pc)
    ensures Held(c, s, x, u)
  {
    PcCases(s.sessions[x].pc);
  }

  lemma InstanceStep(c: Config, s: State, step: Step, x: SessionId, u: UserId)
    requires OfInstance(step) && Held(c, s, x, u) && NoOverlap(s, x, u)
    requires Placed(s.sessions, s.instances) && x in s.sessions
    ensures Held(c, Apply(c, s, step), x, u)
  {
    LiveBefore(c, s, step, x);
    InstanceFrame(c, s, step);
    var t := Apply(c, s, step);
    var q := s.sessions[x];
    assert t.sessions == s.sessions;
    hide Apply, OnlyInstances, EntryOk, StatusOk, SocketOk, IsRunning, Placed, Engaged, Attached;
    if !Engaged(q.pc) { NothingHeld(c, t, x, u); }
    if !SessionLive(t, x) || q.who != Some(u) || !Engaged(q.pc) { return; }
    assert Alone(s, x, u);
    hide NoOverlap, Alone, SessionLive;
    InstanceEntry(c, s, step, x, q, u);
    InstanceStatus(c, s, step, x, q, u);
    if Attached(q.pc) && IsRunning(t, q.inst) { InstanceSockets(c, s, step, x, u); }
  }

  lemma StepKeeps(c: Config, s: State, step: Step, x: SessionId, u: UserId)
    requires Held(c, s, x, u) && NoOverlap(s, x, u) && Placed(s.sessions, s.instances)
    ensures Held(c, Apply(c, s, step), x, u)
  {
    if x !in s.sessions { S.SessionsMove(c, s, step); return; }
    LiveBefore(c, s, step, x);
    if step.Advance? && RequestLive(s, step.r) { AdvanceFrame(c, s, step.r, step.stamp); }
    hide Held, NoOverlap, Apply, Advanced, Acted;
    match step
    case Advance(r, stamp) =>
      ApplyAdvance(c, s, r, stamp);
      if RequestLive(s, r) { SameKeeps(c, s, Advanced(c, s, r, stamp), x, u); }
    case Act(y, input) =>
      ApplyAct(c, s, y, input);
      if SessionLive(s, y) {
        if y == x { OwnStep(c, s, x, input, u); } else { OtherStep(c, s, y, input, x, u); }
      }
    case Connect(y, i, ticket) => ConnectKeeps(c, s, step, x, u);
    case _ => RestKeeps(c, s, step, x, u);
  }

  lemma ConnectKeeps(c: Config, s: State, step: Step, x: SessionId, u: UserId)
    requires step.Connect? && Held(c, s, x, u) && x in s.sessions
    ensures Held(c, Apply(c, s, step), x, u)
  {
    hide EntryOk, StatusOk, SocketOk;
  }

  lemma RestKeeps(c: Config, s: State, step: Step, x: SessionId, u: UserId)
    requires Held(c, s, x, u) && NoOverlap(s, x, u) && x in s.sessions
    requires !step.Advance? && !step.Act? && !step.Connect? && Placed(s.sessions, s.instances)
    ensures Held(c, Apply(c, s, step), x, u)
  {
    var t := Apply(c, s, step);
    LiveBefore(c, s, step, x);
    hide Held, NoOverlap, SocketOk;
    if OfInstance(step) {
      InstanceStep(c, s, step, x, u);
      hide Apply;
    } else {
      if OfWire(step) {
        WireFrame(c, s, step);
        if SocketOk(s.instances, s.sessions[x].inst, x, u) {
          WireSockets(c, s, step, s.sessions[x].inst, x, u);
        }
        hide Apply;
      }
      SameKeeps(c, s, t, x, u);
    }
  }

  lemma {:induction false} Always(c: Config, steps: seq<Step>, x: SessionId, u: UserId)
    requires NoOverlapRun(c, steps, x, u)
    ensures Held(c, Exec(c, INIT, steps), x, u)
  {
    if steps == [] { return; }
    var n := |steps| - 1;
    var before := steps[..n];
    AloneBefore(c, steps, x, u);
    Always(c, before, x, u);
    AloneAtEnd(c, before, x, u);
    Processes.Always(c, before);
    assert Exec(c, INIT, steps) == Apply(c, Exec(c, INIT, before), steps[n]);
    hide Exec, Apply, NoOverlap, Held;
    StepKeeps(c, Exec(c, INIT, before), steps[n], x, u);
  }

  lemma AloneBefore(c: Config, steps: seq<Step>, x: SessionId, u: UserId)
    requires NoOverlapRun(c, steps, x, u) && steps != []
    ensures NoOverlapRun(c, steps[..|steps| - 1], x, u)
  {
    var before := steps[..|steps| - 1];
    forall k | 0 <= k <= |before| ensures NoOverlap(At(c, before, k), x, u) {
      assert steps[..k] == before[..k];
      assert NoOverlap(At(c, steps, k), x, u);
    }
  }

  lemma AloneAtEnd(c: Config, steps: seq<Step>, x: SessionId, u: UserId)
    requires NoOverlapRun(c, steps, x, u)
    ensures NoOverlap(Exec(c, INIT, steps), x, u)
  {
    assert steps[..|steps|] == steps;
    assert NoOverlap(At(c, steps, |steps|), x, u);
  }

  // ----- What the user gets -----

  /** Whether the session's own status, or before it one left by an earlier session, is visible. */
  ghost predicate StatusVisible(c: Config, now: Time, q: Session) {
    if q.pc.GoingOnline? then q.leftover.Some? && Live(q.leftover.value, now) else now < q.keptAt + c.presenceTtl
  }

  /** While its only session is connected, a user is routable, to that session's instance, exactly while the session's
      last refresh of the entry is less than a TTL old, and present exactly while its last refresh of the status is. */
  lemma RoutableAndPresentIff(c: Config, s: State, x: SessionId, u: UserId)
    requires ReachedAlone(c, s, x, u)
    requires SessionLive(s, x) && s.sessions[x].who == Some(u) && Connected(s.sessions[x].pc)
    ensures var q := s.sessions[x];
      && Lookup(s.redis, u) == (if s.redis.now < q.registeredAt + c.presenceTtl then Some(q.inst) else None)
      && (Get(s.redis.directory.status, s.redis.now, u).Some? <==> StatusVisible(c, s.redis.now, q))
  {
    var steps :| s == Exec(c, INIT, steps) && NoOverlapRun(c, steps, x, u);
    Always(c, steps, x, u);
    hide Exec;
  }

  /** So such a user is routable and yet shown offline in exactly two windows: after the registration and before the
      first status, unless an earlier session left one; and when the two refreshes of a heartbeat were taken at
      different times, between the two expiries. */
  lemma RoutableYetOfflineIff(c: Config, s: State, x: SessionId, u: UserId)
    requires ReachedAlone(c, s, x, u)
    requires SessionLive(s, x) && s.sessions[x].who == Some(u) && Connected(s.sessions[x].pc)
    ensures var q, now := s.sessions[x], s.redis.now;
      Lookup(s.redis, u).Some? && Get(s.redis.directory.status, now, u).None? <==>
        && now < q.registeredAt + c.presenceTtl
        && if q.pc.GoingOnline? then q.leftover.None? || !Live(q.leftover.value, now)
           else q.keptAt + c.presenceTtl <= now
  {
    RoutableAndPresentIff(c, s, x, u);
    hide ReachedAlone;
  }

  /** However late the refreshes come: the map of a running instance leads to the user's only session, unless a send
      failed. */
  lemma SocketsLeadToSessions(c: Config, s: State, x: SessionId, u: UserId)
    requires ReachedAlone(c, s, x, u)
    requires SessionLive(s, x) && s.sessions[x].who == Some(u) && Attached(s.sessions[x].pc)
      && IsRunning(s, s.sessions[x].inst)
    ensures SocketOk(s.instances, s.sessions[x].inst, x, u)
  {
    var steps :| s == Exec(c, INIT, steps) && NoOverlapRun(c, steps, x, u);
    Always(c, steps, x, u);
    hide Exec;
  }
}
