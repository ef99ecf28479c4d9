/** What each kind of step leaves alone: which parts of the state a session's command, a request's command, a
    delivery, a shutdown or a tick can change at all. Stated once here, so that no invariant has to look into a step
    that cannot disturb it. */
module Frames {
  import opened Model
  import opened RedisServer
  import opened Presence
  import opened Registry
  import opened Repository
  import opened Protocol

  // ----- A session's step -----

  /** Where a session can stand; makes the verifier look at each place on its own. */
  lemma PcCases(pc: SessionPc)
    ensures pc.Redeeming? || pc.Rejected? || pc.Adding? || pc.Registering? || pc.GoingOnline? || pc.Snapshotting?
      || pc.SendingBacklog? || pc.Serving?
      || pc.Beating? || pc.Refreshing? || pc.Updating? || pc.Receipting? || pc.Removing? || pc.Unregistering? ||
         pc.GoingOffline?
      || pc.Ended? || pc.Aborted?
  {}

  /** A session touches the database only by recording a read. */
  ghost predicate OnlyReads(before: Database, after: Database) {
    after == before || exists n, u, at :: after == RecordRead(before, n, u, at)
  }

  /** What a session's commands never touch. */
  ghost predicate SameBesides(redis: RedisState, redis': RedisState) {
    && redis'.dedup == redis.dedup && redis'.channels == redis.channels
    && redis'.liveness == redis.liveness && redis'.now == redis.now
  }

  lemma GoStepDatabase(
    c: Config, now: Time, d: Directory, db: Database, conns: Conns, x: SessionId, q: Session, u: UserId)
    ensures GoStep(c, now, d, db, conns, x, q, u).1 ==
            if q.pc.Receipting? then RecordRead(db, q.pc.nid, u, q.pc.at) else db
  {}

  lemma SessionStepFrame(
    c: Config, redis: RedisState, db: Database, conns: Conns, x: SessionId, q: Session, input: Input)
    ensures SameBesides(redis, SessionStep(c, redis, db, conns, x, q, input).0)
    ensures OnlyReads(db, SessionStep(c, redis, db, conns, x, q, input).1)
  {
    if input.Go? && !q.pc.Redeeming? && q.who.Some? {
      GoStepDatabase(c, redis.now, redis.directory, db, conns, x, q, q.who.value);
      hide GoStep;
    }
  }

  lemma ActFrame(c: Config, s: State, x: SessionId, input: Input)
    requires SessionLive(s, x)
    ensures var t := Acted(c, s, x, input);
      && t.requests == s.requests && t.sending == s.sending && t.frames == s.frames && t.issued == s.issued
      && OnlyReads(s.db, t.db) && SameBesides(s.redis, t.redis)
      && x in t.sessions && t.sessions == s.sessions[x := t.sessions[x]]
  {
    var q := s.sessions[x];
    SessionStepFrame(c, s.redis, s.db, s.instances[q.inst].conns, x, q, input);
    hide SessionStep, OnlyReads, SameBesides;
  }

  lemma ApplyAct(c: Config, s: State, x: SessionId, input: Input)
    ensures Apply(c, s, Act(x, input)) == if SessionLive(s, x) then Acted(c, s, x, input) else s
    ensures SessionLive(s, x) ==> x in s.sessions
  {
    hide Acted;
  }

  // ----- A request's step -----

  lemma ApplyAdvance(c: Config, s: State, r: RequestId, stamp: Time)
    ensures Apply(c, s, Advance(r, stamp)) == if RequestLive(s, r) then Advanced(c, s, r, stamp) else s
    ensures RequestLive(s, r) ==> r in s.requests
  {
    hide Advanced;
  }

  lemma AdvanceFrame(c: Config, s: State, r: RequestId, stamp: Time)
    requires r in s.requests
    ensures var t := Advanced(c, s, r, stamp);
      && t.sessions == s.sessions && t.instances == s.instances && t.sending == s.sending && t.frames == s.frames
      && t.issued == s.issued && t.latest == s.latest
      && t.redis == s.redis.(counters := t.redis.counters, dedup := t.redis.dedup, channels := t.redis.channels)
      && t.redis.channels.subscribers == s.redis.channels.subscribers
  {
    match s.requests[r].pc
    case Rating =>
    case Checking =>
    case Inserting =>
    case Marking(_) =>
    case Looking(_) =>
    case Probing(_, _) =>
    case Publishing(_, _) =>
    case Flagging(_, _) =>
    case Replied(_) =>
    case Failed =>
  }

  // ----- The listener and the network -----

  ghost predicate OfWire(step: Step) {
    step.PickUp? || step.Complete? || step.LoseWire? || step.LoseSending?
  }

  /** Delivery moves messages and may drop sockets, nothing else. */
  ghost predicate OnlyWire(s: State, t: State) {
    && t.db == s.db && t.requests == s.requests && t.sessions == s.sessions && t.issued == s.issued
       && t.latest == s.latest
    && t.redis == s.redis.(channels := t.redis.channels)
    && t.redis.channels.published == s.redis.channels.published
    && t.redis.channels.subscribers == s.redis.channels.subscribers
  }

  lemma PickUpFrame(s: State, k: nat)
    requires CanPickUp(s, k)
    ensures OnlyWire(s, PickedUp(s, k)) && PickedUp(s, k).instances == s.instances
  {
    hide CanPickUp;
  }

  lemma CompleteFrame(s: State, k: nat, ok: bool)
    requires k < |s.sending| && Up(s, s.sending[k].packet.inst, s.sending[k].packet.epoch)
    ensures OnlyWire(s, Completed(s, k, ok))
  {}

  lemma WireFrame(c: Config, s: State, step: Step)
    requires OfWire(step)
    ensures OnlyWire(s, Apply(c, s, step))
  {
    match step
    case PickUp(k) => if CanPickUp(s, k) { PickUpFrame(s, k); hide PickedUp, CanPickUp, OnlyWire; }
    case Complete(k, ok) =>
      if k < |s.sending| && Up(s, s.sending[k].packet.inst, s.sending[k].packet.epoch) {
        CompleteFrame(s, k, ok);
        hide Completed, OnlyWire;
      }
    case LoseWire(_) =>
    case LoseSending(_) =>
  }

  // ----- The life of an instance -----

  ghost predicate OfInstance(step: Step) {
    step.Boot? || step.Crash? || step.KeepInstanceAlive? || step.BeginShutdown? || step.TearDownEntry? ||
      step.TearDownStatus?
  }

  /** Starting, stopping and refreshing instances touches no row, request, session, ticket, counter, dedup key or
      message. */
  ghost predicate OnlyInstances(s: State, t: State) {
    && t.db == s.db && t.requests == s.requests && t.sessions == s.sessions && t.issued == s.issued
       && t.latest == s.latest
    && t.sending == s.sending && t.frames == s.frames
    && t.redis == s.redis.(directory := t.redis.directory, liveness := t.redis.liveness, channels := t.redis.channels)
    && t.redis.channels == s.redis.channels.(subscribers := t.redis.channels.subscribers)
  }

  lemma LifeFrame(c: Config, s: State, step: Step)
    requires step.Boot? || step.Crash? || step.KeepInstanceAlive?
    ensures OnlyInstances(s, Apply(c, s, step))
  {
    match step
    case Boot(_) =>
    case Crash(_) =>
    case KeepInstanceAlive(_) =>
  }

  lemma ShutdownFrame(c: Config, s: State, step: Step)
    requires step.BeginShutdown? || step.TearDownEntry? || step.TearDownStatus?
    ensures OnlyInstances(s, Apply(c, s, step))
  {
    match step
    case BeginShutdown(_) =>
    case TearDownEntry(_, _) => TearDownFrame(c, s, step); hide Apply;
    case TearDownStatus(_, _) => TearDownFrame(c, s, step); hide Apply;
  }

  lemma TearDownFrame(c: Config, s: State, step: Step)
    requires step.TearDownEntry? || step.TearDownStatus?
    ensures OnlyInstances(s, Apply(c, s, step))
  {
    hide DropEntry, ClearStatus;
  }

  lemma InstanceFrame(c: Config, s: State, step: Step)
    requires OfInstance(step)
    ensures OnlyInstances(s, Apply(c, s, step))
  {
    if step.Boot? || step.Crash? || step.KeepInstanceAlive? {
      LifeFrame(c, s, step);
    } else {
      ShutdownFrame(c, s, step);
    }
    hide Apply, OnlyInstances;
  }

  /** All steps but those of requests and sessions keep rows, requests, dedup keys and the record of publishes. */
  lemma RestFrame(c: Config, s: State, step: Step)
    requires step.Tick? || step.IssueTicket? || step.Connect? || OfWire(step) || OfInstance(step)
    ensures var t := Apply(c, s, step);
      && t.db == s.db && t.requests == s.requests && t.redis.dedup == s.redis.dedup
      && t.redis.channels.published == s.redis.channels.published
  {
    if OfInstance(step) {
      InstanceFrame(c, s, step);
      hide Apply;
    } else if OfWire(step) {
      WireFrame(c, s, step);
      hide Apply;
    }
  }
}
