/** What a registry entry says, in every run: the user's latest registered session is on that instance, and is either
    not yet cleaned up or ended without cleanup. */
module Ownership {
  import opened Model
  import opened TtlStore
  import opened RedisServer
  import opened Registry
  import opened Protocol
  import opened Frames
  import opened Effects
  import T = Tickets

  /** Registered and not unregistered since, or aborted between the two; a crash leaves the session where it was. */
  ghost predicate Uncleaned(pc: SessionPc) {
    Registered(pc) || (pc.Aborted? && pc.registered)
  }

  ghost predicate OwnedBy(entry: Cell<InstanceId>, sessions: map<SessionId, Session>, x: SessionId, u: UserId) {
    && x in sessions && sessions[x].who == Some(u) && sessions[x].inst == entry.value && Uncleaned(sessions[x].pc)
  }

  ghost predicate Inv(s: State) {
    forall u :: u in s.redis.directory.registry ==>
      u in s.latest && OwnedBy(s.redis.directory.registry[u], s.sessions, s.latest[u], u)
  }

  lemma ActLatest(c: Config, s: State, x: SessionId, input: Input)
    requires SessionLive(s, x)
    ensures var q, t := s.sessions[x], Acted(c, s, x, input);
      t.latest == if Goes(q, input) && q.pc.Registering? then s.latest[q.who.value := x] else s.latest
  {
    ActEffects(c, s, x, input);
    hide SessionStep, RegistryAfterGo, StatusAfterGo;
  }

  lemma UncleanedStays(c: Config, s: State, x: SessionId, input: Input)
    requires SessionLive(s, x) && Uncleaned(s.sessions[x].pc) && s.sessions[x].who.Some?
    ensures Uncleaned(Acted(c, s, x, input).sessions[x].pc) ||
      (Goes(s.sessions[x], input) && s.sessions[x].pc.Unregistering?)
  {
    ActEffects(c, s, x, input);
    hide Acted, RegistryAfterGo, StatusAfterGo;
  }

  /** How the entry of any user looks after a step of session `x`. */
  lemma ActEntry(c: Config, s: State, x: SessionId, input: Input, u: UserId)
    requires SessionLive(s, x)
    ensures var q, t := s.sessions[x], Acted(c, s, x, input);
      u in t.redis.directory.registry ==>
        if Goes(q, input) && u == q.who.value && q.pc.Registering? then t.redis.directory.registry[u].value == q.inst
        else u in s.redis.directory.registry
             && t.redis.directory.registry[u].value == s.redis.directory.registry[u].value
             && !(Goes(q, input) && u == q.who.value && q.pc.Unregistering?)
  {
    ActEffects(c, s, x, input);
    hide Acted, Moves, StatusAfterGo;
  }

  lemma ActKeeps(c: Config, s: State, x: SessionId, input: Input)
    requires Inv(s) && T.Inv(c, s) && SessionLive(s, x)
    ensures Inv(Acted(c, s, x, input))
  {
    var q, t := s.sessions[x], Acted(c, s, x, input);
    assert T.Accepted(s.redis.tickets, s.issued, c.ticketTtl, q);
    ActFrame(c, s, x, input);
    ActLatest(c, s, x, input);
    if !T.Redeems(q, input) { T.ActIdentity(c, s, x, input); }
    if Uncleaned(q.pc) && q.who.Some? { UncleanedStays(c, s, x, input); }
    if Goes(q, input) && q.pc.Registering? { RegistersNow(c, s, x); }
    hide Acted, T.Inv, T.Accepted;
    forall u | u in t.redis.directory.registry
      ensures u in t.latest && OwnedBy(t.redis.directory.registry[u], t.sessions, t.latest[u], u)
    {
      ActEntry(c, s, x, input, u);
      if u in s.redis.directory.registry {
        assert OwnedBy(s.redis.directory.registry[u], s.sessions, s.latest[u], u);
      }
    }
  }

  lemma RegistersNow(c: Config, s: State, x: SessionId)
    requires SessionLive(s, x) && s.sessions[x].pc.Registering? && s.sessions[x].who.Some?
    ensures Acted(c, s, x, Go).sessions[x].pc.GoingOnline?
  {}

  lemma RegistryShrinks(s: State, t: State)
    requires Inv(s) && t.sessions == s.sessions && t.latest == s.latest
    requires forall u :: u in t.redis.directory.registry ==>
      u in s.redis.directory.registry && t.redis.directory.registry[u] == s.redis.directory.registry[u]
    ensures Inv(t)
  {}

  lemma InstanceRegistry(c: Config, s: State, step: Step)
    requires OfInstance(step)
    ensures var t := Apply(c, s, step);
      t.redis.directory.registry == s.redis.directory.registry ||
      (step.TearDownEntry? && t.redis.directory.registry == Del(s.redis.directory.registry, step.user))
  {
    match step
    case Boot(_) =>
    case Crash(_) =>
    case KeepInstanceAlive(_) =>
    case BeginShutdown(_) =>
    case TearDownEntry(_, _) =>
    case TearDownStatus(_, _) =>
  }

  lemma ConnectKeeps(s: State, x: SessionId, q: Session)
    requires Inv(s) && x !in s.sessions
    ensures Inv(s.(sessions := s.sessions[x := q]))
  {}

  lemma StepKeeps(c: Config, s: State, step: Step)
    requires Inv(s) && T.Inv(c, s)
    ensures Inv(Apply(c, s, step))
  {
    var t := Apply(c, s, step);
    hide T.Inv, Inv;
    match step
    case Advance(r, stamp) =>
      if RequestLive(s, r) { AdvanceFrame(c, s, r, stamp); hide Advanced; RegistryShrinks(s, t); }
    case Act(x, input) => if SessionLive(s, x) { ActKeeps(c, s, x, input); hide Acted; }
    case Connect(x, i, ticket) =>
      if x !in s.sessions && IsRunning(s, i) { ConnectKeeps(s, x, NewSession(i, s.instances[i].epoch, ticket)); }
    case _ => RestKeeps(c, s, step); hide Apply;
  }

  lemma RestKeeps(c: Config, s: State, step: Step)
    requires Inv(s) && !step.Advance? && !step.Act? && !step.Connect?
    ensures Inv(Apply(c, s, step))
  {
    if OfWire(step) {
      WireFrame(c, s, step);
      hide Apply;
    } else if OfInstance(step) {
      InstanceFrame(c, s, step);
      InstanceRegistry(c, s, step);
      hide Apply;
    }
    hide Inv;
    RegistryShrinks(s, Apply(c, s, step));
  }

  lemma {:induction false} Always(c: Config, steps: seq<Step>)
    ensures Inv(Exec(c, INIT, steps))
  {
    if steps != [] {
      Always(c, steps[..|steps| - 1]);
      T.Always(c, steps[..|steps| - 1]);
      StepKeeps(c, Exec(c, INIT, steps[..|steps| - 1]), steps[|steps| - 1]);
    }
  }

  /** Overlapping or not, crashed or not: a lookup that answers `i` means the last session to register for the user did
      so on `i` and has not unregistered. */
  lemma LookupNamesLatestSession(c: Config, s: State, u: UserId, i: InstanceId)
    requires Reachable(c, s) && Lookup(s.redis, u) == Some(i)
    ensures
      && u in s.latest && s.latest[u] in s.sessions
      && var q := s.sessions[s.latest[u]];
         q.who == Some(u) && q.inst == i && Uncleaned(q.pc)
  {
    var steps :| s == Exec(c, INIT, steps);
    Always(c, steps);
    hide Exec;
    assert OwnedBy(s.redis.directory.registry[u], s.sessions, s.latest[u], u);
  }
}
