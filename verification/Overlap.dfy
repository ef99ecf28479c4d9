/** What a user's route and status depend on, exactly, whoever runs; and what goes wrong when two sessions of one user
    overlap, because cleanup deletes by user. */
module Overlap {
  import opened Model
  import opened TtlStore
  import opened RedisServer
  import opened Registry
  import opened Repository
  import opened Protocol
  import opened Frames
  import opened Effects
  import opened Reachability
  import opened Scenes
  import C = Coverage
  import D = Delivery
  import I = Isolation
  import L = Liveness
  import Lim = Limits
  import O = Ordering
  import R = RateLimiting
  import S = Snapshots
  import T = Tickets

  // ----- When a route is lost -----

  /** The step lets the entry lapse, points it elsewhere, or deletes it: any session of the user does, old or new. */
  ghost predicate Displaces(s: State, step: Step, u: UserId, i: InstanceId)
    requires u in s.redis.directory.registry
  {
    match step
    case Tick(d) => !Live(s.redis.directory.registry[u], s.redis.now + d)
    case Act(y, input) =>
      SessionLive(s, y) && Goes(s.sessions[y], input) && s.sessions[y].who == Some(u) &&
      (s.sessions[y].pc.Unregistering? || (s.sessions[y].pc.Registering? && s.sessions[y].inst != i))
    case TearDownEntry(j, v) => v == u && j in s.instances && s.instances[j].phase.Stopping?
      && u in s.instances[j].phase.unregister
    case _ => false
  }

  lemma ActRoute(c: Config, s: State, y: SessionId, input: Input, u: UserId, i: InstanceId)
    requires c.presenceTtl > 0 && Lookup(s.redis, u) == Some(i) && SessionLive(s, y)
    ensures Lookup(Acted(c, s, y, input).redis, u) == Some(i) <==> !Displaces(s, Act(y, input), u, i)
  {
    ActEffects(c, s, y, input);
    ActFrame(c, s, y, input);
    hide Acted, Moves, StatusAfterGo, OnlyReads;
  }

  /** In any state, a step takes a routable user's route away exactly when it displaces it. */
  lemma RouteLostIff(c: Config, s: State, step: Step, u: UserId, i: InstanceId)
    requires c.presenceTtl > 0 && Lookup(s.redis, u) == Some(i)
    ensures Lookup(Apply(c, s, step).redis, u) == Some(i) <==> !Displaces(s, step, u, i)
  {
    match step
    case Act(y, input) =>
      ApplyAct(c, s, y, input);
      hide Apply;
      if SessionLive(s, y) { ActRoute(c, s, y, input, u, i); }
      hide Acted;
    case Tick(_) =>
    case TearDownEntry(_, _) =>
    case TearDownStatus(_, _) =>
    case _ => SameDirectory(c, s, step); hide Apply;
  }

  lemma SameDirectory(c: Config, s: State, step: Step)
    requires !step.Act? && !step.Tick? && !step.TearDownEntry? && !step.TearDownStatus?
    ensures var t := Apply(c, s, step); t.redis.directory == s.redis.directory && t.redis.now == s.redis.now
  {
    if step.Advance? {
      ApplyAdvance(c, s, step.r, step.stamp);
      hide Apply;
      if RequestLive(s, step.r) { AdvanceFrame(c, s, step.r, step.stamp); }
      hide Advanced;
    } else if OfWire(step) {
      WireFrame(c, s, step);
      hide Apply;
    } else if OfInstance(step) {
      InstanceFrame(c, s, step);
      InstanceRoute(c, s, step);
      hide Apply;
    }
  }

  lemma InstanceRoute(c: Config, s: State, step: Step)
    requires OfInstance(step) && !step.TearDownEntry? && !step.TearDownStatus?
    ensures Apply(c, s, step).redis.directory == s.redis.directory
  {
    match step
    case Boot(_) =>
    case Crash(_) =>
    case KeepInstanceAlive(_) =>
    case BeginShutdown(_) =>
  }

  // ----- When a status is lost and when it comes back -----

  /** The step lets the status lapse or deletes it: any session of the user does at the end of its cleanup, old or
      new. */
  ghost predicate Silences(s: State, step: Step, u: UserId)
    requires u in s.redis.directory.status
  {
    match step
    case Tick(d) => !Live(s.redis.directory.status[u], s.redis.now + d)
    case Act(y, input) =>
      SessionLive(s, y) && Goes(s.sessions[y], input) && s.sessions[y].who == Some(u) && s.sessions[y].pc.GoingOffline?
    case TearDownStatus(j, v) =>
      v == u && j in s.instances && s.instances[j].phase.Stopping? &&
      u in s.instances[j].phase.offline && u !in s.instances[j].phase.unregister
    case _ => false
  }

  /** The step sets the status anew; no heartbeat does. */
  ghost predicate Announces(s: State, step: Step, u: UserId) {
    step.Act? && SessionLive(s, step.x) && Goes(s.sessions[step.x], step.input) && s.sessions[step.x].who == Some(u) &&
    (s.sessions[step.x].pc.GoingOnline? || s.sessions[step.x].pc.Updating?)
  }

  lemma ActStatus(c: Config, s: State, y: SessionId, input: Input, u: UserId)
    requires c.presenceTtl > 0 && SessionLive(s, y)
    ensures var t := Acted(c, s, y, input);
      var was, now := Get(s.redis.directory.status, s.redis.now, u), Get(t.redis.directory.status, t.redis.now, u);
      && (was.Some? ==> (now.None? <==> Silences(s, Act(y, input), u)))
      && (was.None? ==> (now.Some? <==> Announces(s, Act(y, input), u)))
  {
    ActEffects(c, s, y, input);
    ActFrame(c, s, y, input);
    hide Acted, Moves, RegistryAfterGo, OnlyReads;
  }

  /** In any state, a step takes a visible status away exactly when it silences the user, and brings an invisible one
      back exactly when it announces the user: a status that an older session's cleanup deleted stays away through any
      number of heartbeats of the newer one. */
  lemma StatusChangesIff(c: Config, s: State, step: Step, u: UserId)
    requires c.presenceTtl > 0
    ensures var t := Apply(c, s, step);
      var was, now := Get(s.redis.directory.status, s.redis.now, u), Get(t.redis.directory.status, t.redis.now, u);
      && (was.Some? ==> (now.None? <==> Silences(s, step, u)))
      && (was.None? ==> (now.Some? <==> Announces(s, step, u)))
  {
    match step
    case Act(y, input) =>
      ApplyAct(c, s, y, input);
      hide Apply;
      if SessionLive(s, y) { ActStatus(c, s, y, input, u); }
      hide Acted;
    case Tick(_) =>
    case TearDownEntry(_, _) =>
    case TearDownStatus(_, _) =>
    case _ => SameDirectory(c, s, step); hide Apply;
  }

  // ----- A notification that falls through -----

  /** What NoGap promises for session `x` of `u` and request `r`. */
  ghost predicate Delivered(s: State, x: SessionId, r: RequestId)
    requires x in s.sessions && s.sessions[x].snapshot.Some? && r in s.requests
  {
    var q, n := s.sessions[x], s.requests[r].body.nid;
    C.SentTo(s.redis.channels.published, n, q.inst, q.epoch) || HasRow(q.snapshot.value, n)
  }

  /** The hypothesis that sessions of a user do not overlap is needed: whatever the configuration, some run gives
      session 2 everything else it needs at every moment, and yet, while it is served, a notification for its user is
      created and answered without being in what the session saw or published to it. */
  lemma OverlapLosesNotifications(c: Config)
    requires Workable(c)
    ensures exists steps :: AlwaysTimely(c, steps) && var s := Exec(c, INIT, steps);
      && SessionLive(s, 2) && s.sessions[2].who == Some(USER) && C.Watching(s.sessions[2])
      && 0 in s.requests && s.requests[0].body.user == USER && D.PersistedReply(s.requests[0], LOST.nid)
      && !Delivered(s, 2, 0)
  {
    var before := NewerUnregistered(c);
    var steps := Created(c, before, GoingOffline, Serving);
    hide Exec, AlwaysTimely;
    var s := Exec(c, INIT, steps);
    assert s.redis.channels.published == [];
    assert !HasRow([], LOST.nid);
  }

  // ----- A live frame before the backlog -----

  /** Session 1 is registered, its socket is in the map, and it has not asked for its backlog. */
  lemma RegisteredEarly(c: Config) returns (steps: seq<Step>)
    requires Workable(c)
    ensures Reached(c, steps, GoingOnline, Adding)
    ensures var s := Exec(c, INIT, steps);
      && O.Awaiting(s, 1, USER) && s.sessions[1].snapshot.None? && Lookup(s.redis, USER) == Some(HOST)
      && Find(s.redis.directory.registry, USER) == Some(Cell(HOST, Some(c.presenceTtl)))
      && Get(s.redis.directory.status, s.redis.now, USER).None?
  {
    var before := BothRedeemed(c);
    var s := Exec(c, INIT, before);
    var middle := GoOn(c, before, 1, Adding, Adding);
    var t := Exec(c, INIT, middle);
    ActSockets(c, s, 1, Go);
    steps := GoOn(c, middle, 1, Registering, Adding);
    ActSockets(c, t, 1, Go);
    S.Always(c, steps);
    var q := Exec(c, INIT, steps).sessions[1];
    assert S.SentOk(q) && S.SnapshotOk(c, Exec(c, INIT, steps).db.rows, q);
    hide Exec, Acted, AlwaysTimely, S.Inv;
  }

  /** Session 1 waits for its backlog and its user is routable: a notification is created, published,
      and shown to it. */
  lemma EarlyFrame(c: Config, before: seq<Step>, older: SessionPc, newer: SessionPc) returns (t: State)
    requires Reached(c, before, older, newer)
    requires var s := Exec(c, INIT, before); O.Awaiting(s, 1, USER) && Lookup(s.redis, USER) == Some(HOST)
    ensures Reachable(c, t) && t.sessions == Exec(c, INIT, before).sessions
    ensures exists k :: 0 <= k < |t.frames| && t.frames[k].x == 1
  {
    var steps := CreatedPending(c, before, older, newer);
    var s := Exec(c, INIT, steps);
    assert Reachable(c, s);
    O.Always(c, steps);
    hide Exec, Reachable, O.Awaiting, O.Pending, O.Inv;
    var more := O.PendingCanBeShown(c, s, 1, USER);
    L.StaysReachable(c, s, more);
    t := Exec(c, s, more);
    ShownSomewhere(t.frames, 1);
  }

  lemma CreatedPending(c: Config, before: seq<Step>, older: SessionPc, newer: SessionPc) returns (steps: seq<Step>)
    requires Reached(c, before, older, newer)
    requires var s := Exec(c, INIT, before); O.Awaiting(s, 1, USER) && Lookup(s.redis, USER) == Some(HOST)
    ensures var s := Exec(c, INIT, steps);
      s.sessions == Exec(c, INIT, before).sessions && O.Awaiting(s, 1, USER) && O.Pending(s, 1, USER)
  {
    var s0 := Exec(c, INIT, before);
    steps := Created(c, before, older, newer);
    var s := Exec(c, INIT, steps);
    L.AliveIff(c, s0, HOST);
    L.Always(c, before);
    hide Exec, AlwaysTimely, L.Inv;
    var wire, p := s.redis.channels.wire, Packet(HOST, 0, USER, NoteOf(LOST, 0));
    assert wire[|wire| - 1] == p;
    assert p in wire && O.For(p, HOST, 0, USER);
  }

  /** The code adds and registers the socket before it queries: in some run the first frame of a session is a live
      one. */
  lemma LiveFrameBeforeBacklog(c: Config)
    requires Workable(c)
    ensures exists s :: Reachable(c, s) && exists k ::
      0 <= k < |s.frames| && s.frames[k].x in s.sessions && s.sessions[s.frames[k].x].snapshot.None?
  {
    var before := RegisteredEarly(c);
    assert Exec(c, INIT, before).sessions[1].snapshot.None?;
    var t := EarlyFrame(c, before, GoingOnline, Adding);
  }

  /** Session 1 has asked for its backlog, and the backlog frame is still to be written. */
  lemma AskedEarly(c: Config) returns (steps: seq<Step>)
    requires Workable(c)
    ensures Reached(c, steps, SendingBacklog, Adding)
    ensures var s := Exec(c, INIT, steps);
      O.Awaiting(s, 1, USER) && Lookup(s.redis, USER) == Some(HOST) && s.sessions[1].snapshot == Some([])
  {
    var early := RegisteredEarly(c);
    var s := Exec(c, INIT, early);
    var online := GoOn(c, early, 1, GoingOnline, Adding);
    var t := Exec(c, INIT, online);
    ActSockets(c, s, 1, Go);
    steps := Asks(c, online, 1, Snapshotting, Adding);
    ActSockets(c, t, 1, Page([]));
    S.Always(c, steps);
    assert S.SentOk(Exec(c, INIT, steps).sessions[1]);
    hide Exec, Acted, AlwaysTimely, S.Inv;
  }

  /** The query answers, and the frame that carries the answer is written later: in some run a live frame comes in
      between. It is on the socket first, and its row is in the table but not in what the query saw. */
  lemma UnseenFrameBeforeBacklog(c: Config)
    requires Workable(c)
    ensures exists s :: Reachable(c, s) && exists k :: 0 <= k < |s.frames| && UnseenFirst(s, s.frames[k])
  {
    var before := AskedEarly(c);
    var t := EarlyFrame(c, before, SendingBacklog, Adding);
    var k: nat :| k < |t.frames| && t.frames[k].x == 1;
    I.FramesAreFaithfulAndIsolated(c, t, k);
    assert UnseenFirst(t, t.frames[k]);
  }

  /** A live frame on a socket whose backlog frame is still to be written, of a row the backlog query did not see. */
  ghost predicate UnseenFirst(s: State, f: Frame) {
    && D.HasNote(s.db.rows, f.note) && f.x in s.sessions
    && var q := s.sessions[f.x];
       q.pc.SendingBacklog? && !q.sent && q.snapshot.Some? && !D.HasNote(q.snapshot.value, f.note)
  }

  lemma {:induction false} ShownSomewhere(frames: seq<Frame>, x: SessionId)
    requires O.Shown(frames, x) > 0
    ensures exists k :: 0 <= k < |frames| && frames[k].x == x
  {
    var n := |frames| - 1;
    if frames[n].x != x {
      ShownSomewhere(frames[..n], x);
      var k :| 0 <= k < n && frames[..n][k].x == x;
      assert frames[k].x == x;
    }
  }

  // ----- Routable and offline -----

  /** Registration and first status are two commands: between them a user can be routable and shown offline. */
  lemma RoutableBeforePresent(c: Config)
    requires Workable(c)
    ensures exists s ::
      Reachable(c, s) && Lookup(s.redis, USER) == Some(HOST) && Get(s.redis.directory.status, s.redis.now, USER).None?
  {
    var steps := RegisteredEarly(c);
    hide Exec, AlwaysTimely;
    assert Reachable(c, Exec(c, INIT, steps));
  }

  /** A step of a session that is not its redemption. */
  lemma Steps(c: Config, s: State, x: SessionId, input: Input)
    requires SessionLive(s, x) && !T.Redeems(s.sessions[x], input)
    ensures var t, q := Apply(c, s, Act(x, input)), s.sessions[x];
      && SessionLive(t, x) && T.SameIdentity(q, t.sessions[x]) && t.redis.now == s.redis.now
      && Moves(c, s.redis, s.db, x, q, input, t.sessions[x])
      && t.redis.directory.registry ==
         (if Goes(q, input) then RegistryAfterGo(c, s.redis.now, s.redis.directory.registry, q, q.who.value)
           else s.redis.directory.registry)
      && t.redis.directory.status ==
         (if Goes(q, input) then StatusAfterGo(c, s.redis.now, s.redis.directory.status, q, q.who.value)
           else s.redis.directory.status)
  {
    ActFrame(c, s, x, input);
    ActEffects(c, s, x, input);
    T.ActIdentity(c, s, x, input);
    HostedPhase(c, s, x, input);
    ActSockets(c, s, x, input);
    hide Acted, Moves, RegistryAfterGo, StatusAfterGo, OnlyReads, T.SameIdentity;
    assert T.SameIdentity(s.sessions[x], Acted(c, s, x, input).sessions[x]);
  }

  /** The older session unregisters, the newer one registers and goes online, and then the older one's mark_offline
      runs. */
  lemma ServedOffline(c: Config) returns (steps: seq<Step>)
    requires Workable(c)
    ensures Reached(c, steps, Ended, Serving)
    ensures var s := Exec(c, INIT, steps);
      2 in s.sessions && |s.sessions[2].beats| == 1
      && Find(s.redis.directory.registry, USER) == Some(Cell(HOST, Some(c.presenceTtl)))
         && USER !in s.redis.directory.status
  {
    steps := NewerComesBack(c);
    hide Exec, AlwaysTimely, Hosted;
    steps := GoOn(c, steps, 1, GoingOffline, Snapshotting);
    steps := Serves(c, steps, 2, Ended, Snapshotting);
  }

  lemma NewerComesBack(c: Config) returns (steps: seq<Step>)
    requires Workable(c)
    ensures Reached(c, steps, GoingOffline, Snapshotting)
    ensures Find(Exec(c, INIT, steps).redis.directory.registry, USER) == Some(Cell(HOST, Some(c.presenceTtl)))
    ensures 2 in Exec(c, INIT, steps).sessions && |Exec(c, INIT, steps).sessions[2].beats| == 1
  {
    steps := OlderGone(c);
    hide Exec, AlwaysTimely, Hosted;
    steps := GoOn(c, steps, 2, GoingOffline, Registering);
    steps := GoOn(c, steps, 2, GoingOffline, GoingOnline);
  }

  lemma OlderGone(c: Config) returns (steps: seq<Step>)
    requires Workable(c)
    ensures Reached(c, steps, GoingOffline, Registering)
  {
    steps := OlderBreaksOff(c);
    hide Exec, AlwaysTimely, Hosted;
    steps := GoOn(c, steps, 1, Unregistering, Adding);
    steps := GoOn(c, steps, 2, GoingOffline, Adding);
  }

  /** Session 2 is being served, its entry was refreshed just now, and its user has no status. */
  ghost predicate Forgotten(c: Config, s: State) {
    && SessionLive(s, 2) && s.sessions[2].who == Some(USER) && s.sessions[2].inst == HOST && s.sessions[2].pc.Serving?
    && Find(s.redis.directory.registry, USER) == Some(Cell(HOST, Some(s.redis.now + c.presenceTtl)))
    && USER !in s.redis.directory.status
  }

  /** A message that comes a whole window after the last one is admitted. */
  lemma AdmittedAfterAWindow(c: Config, s: State, x: SessionId, later: Time)
    requires Lim.Inv(c, s) && x in s.sessions && s.redis.now + c.ws.window <= later && c.ws.limit > 0
    ensures R.Admits(c.ws, Find(s.redis.counters, Connection(x)), later)
  {
    var q := s.sessions[x];
    assert Lim.CallsOk(c, s.redis.now, s.redis.counters, x, q);
    R.CounterExpires(c.ws, q.calls);
    hide R.After, R.Ordered;
  }

  lemma BeatTaken(c: Config, s: State)
    requires SessionLive(s, 2) && s.sessions[2].who == Some(USER) && s.sessions[2].inst == HOST
      && s.sessions[2].pc.Serving?
    requires R.Admits(c.ws, Find(s.redis.counters, Connection(2)), s.redis.now)
    ensures var t := Apply(c, s, Act(2, Receive(HeartbeatMessage)));
      && SessionLive(t, 2) && t.sessions[2].who == Some(USER) && t.sessions[2].inst == HOST && t.sessions[2].pc.Beating?
      && t.sessions[2].beats == s.sessions[2].beats + [s.redis.now]
      && t.redis.directory == s.redis.directory && t.redis.now == s.redis.now
  {
    Steps(c, s, 2, Receive(HeartbeatMessage));
    ActEffects(c, s, 2, Receive(HeartbeatMessage));
    hide Acted, R.Admits, R.Bump;
  }

  lemma BeatHandled(c: Config, s: State)
    requires SessionLive(s, 2) && s.sessions[2].who == Some(USER) && s.sessions[2].inst == HOST
      && s.sessions[2].pc.Beating?
    requires Get(s.redis.directory.registry, s.redis.now, USER) == Some(HOST) && USER !in s.redis.directory.status
    ensures var t := Apply(c, Apply(c, s, Act(2, Go)), Act(2, Go));
      Forgotten(c, t) && t.sessions[2].beats == s.sessions[2].beats
  {
    Steps(c, s, 2, Go);
    var t := Apply(c, s, Act(2, Go));
    Steps(c, t, 2, Go);
    hide Apply;
  }

  /** One heartbeat later everything is as it was. */
  lemma OneMoreBeat(c: Config, s: State) returns (t: State)
    requires Reachable(c, s) && Forgotten(c, s) && c.ws.limit > 0 && c.ws.window < c.presenceTtl
    ensures Reachable(c, t) && Forgotten(c, t) && |t.sessions[2].beats| == |s.sessions[2].beats| + 1
  {
    var steps :| s == Exec(c, INIT, steps);
    Lim.Always(c, steps);
    var s1 := Apply(c, s, Tick(c.ws.window));
    AdmittedAfterAWindow(c, s, 2, s1.redis.now);
    O.NextReachable(c, s, Tick(c.ws.window));
    assert s1.sessions == s.sessions && s1.instances == s.instances && s1.redis.directory == s.redis.directory;
    assert SessionLive(s1, 2);
    var s2 := Apply(c, s1, Act(2, Receive(HeartbeatMessage)));
    BeatTaken(c, s1);
    O.NextReachable(c, s1, Act(2, Receive(HeartbeatMessage)));
    hide Apply, Exec, Reachable, Lim.Inv;
    BeatHandled(c, s2);
    var s3 := Apply(c, s2, Act(2, Go));
    t := Apply(c, s3, Act(2, Go));
    O.NextReachable(c, s2, Act(2, Go));
    O.NextReachable(c, s3, Act(2, Go));
  }

  /** Cleanup after the newer session has announced its user: for any number of heartbeats, all taken and answered by a
      refresh of the entry, some run ends with the user routable, connected and served, and shown offline. */
  lemma {:induction false} HeartbeatsDoNotHelp(c: Config, n: nat) returns (s: State)
    requires Workable(c) && c.ws.limit > 0 && c.ws.window < c.presenceTtl
    ensures Reachable(c, s) && Forgotten(c, s) && |s.sessions[2].beats| == n + 1
    ensures Lookup(s.redis, USER) == Some(HOST) && Get(s.redis.directory.status, s.redis.now, USER).None?
  {
    if n == 0 {
      var steps := ServedOffline(c);
      s := Exec(c, INIT, steps);
      assert Reachable(c, s);
      hide Exec, AlwaysTimely, Reachable;
    } else {
      var before := HeartbeatsDoNotHelp(c, n - 1);
      s := OneMoreBeat(c, before);
      hide Reachable;
    }
  }

  // ----- A heartbeat cut in two -----

  /** Session 1 is in the state given; the entry and the status expire at these times. */
  ghost predicate Known(s: State, pc: SessionPc, entry: Time, status: Time) {
    && SessionLive(s, 1) && s.sessions[1].who == Some(USER) && s.sessions[1].pc == pc
    && Find(s.redis.directory.registry, USER) == Some(Cell(HOST, Some(entry)))
    && USER in s.redis.directory.status && s.redis.directory.status[USER].expiry == Some(status)
  }

  lemma KnownServing(c: Config) returns (s: State)
    requires Workable(c)
    ensures Reachable(c, s) && Known(s, Serving, c.presenceTtl, c.presenceTtl) && s.redis.now == 0
  {
    var online := OnlineEarly(c);
    var steps := Serves(c, online, 1, Snapshotting, Adding);
    s := Exec(c, INIT, steps);
    assert Reachable(c, s);
    hide Exec, AlwaysTimely, Reachable;
  }

  lemma OnlineEarly(c: Config) returns (steps: seq<Step>)
    requires Workable(c)
    ensures Reached(c, steps, Snapshotting, Adding)
    ensures var d := Exec(c, INIT, steps).redis.directory;
      && Find(d.registry, USER) == Some(Cell(HOST, Some(c.presenceTtl)))
      && USER in d.status && d.status[USER].expiry == Some(c.presenceTtl)
  {
    var early := RegisteredEarly(c);
    hide O.Awaiting, Acted, Exec, AlwaysTimely;
    steps := GoOn(c, early, 1, GoingOnline, Adding);
  }

  lemma LaterKnown(c: Config, s: State, pc: SessionPc, entry: Time, status: Time, d: nat)
    requires Known(s, pc, entry, status)
    ensures var t := Apply(c, s, Tick(d)); Known(t, pc, entry, status) && t.redis.now == s.redis.now + d
  {}

  lemma TakenKnown(c: Config, s: State, entry: Time, status: Time)
    requires Known(s, Serving, entry, status) && R.Admits(c.ws, Find(s.redis.counters, Connection(1)), s.redis.now)
    ensures var t := Apply(c, s, Act(1, Receive(HeartbeatMessage)));
      Known(t, Beating, entry, status) && t.redis.now == s.redis.now
  {
    Steps(c, s, 1, Receive(HeartbeatMessage));
    ActEffects(c, s, 1, Receive(HeartbeatMessage));
    hide Apply, Acted, R.Admits, R.Bump;
  }

  /** The next command of session 1, and what it does to its keys. */
  lemma NextCommand(c: Config, s: State, pc: SessionPc, entry: Time, status: Time)
    requires Known(s, pc, entry, status) && !pc.Redeeming?
    ensures var t := Apply(c, s, Act(1, Go));
      && t.redis.now == s.redis.now
      && SessionLive(t, 1) && t.sessions[1].who == Some(USER) && t.sessions[1].pc == PcAfterGo(pc)
      && t.redis.directory.registry == RegistryAfterGo(c, s.redis.now, s.redis.directory.registry, s.sessions[1], USER)
      && t.redis.directory.status == StatusAfterGo(c, s.redis.now, s.redis.directory.status, s.sessions[1], USER)
  {
    Steps(c, s, 1, Go);
    hide Apply, RegistryAfterGo, StatusAfterGo, PcAfterGo, RecordsGo;
  }

  lemma StatusRefreshed(c: Config, s: State, entry: Time, status: Time)
    requires Known(s, Beating, entry, status) && s.redis.now < status
    ensures var t := Apply(c, s, Act(1, Go));
      Known(t, Refreshing, entry, s.redis.now + c.presenceTtl) && t.redis.now == s.redis.now
  {
    NextCommand(c, s, Beating, entry, status);
    hide Apply;
  }

  lemma EntryRefreshed(c: Config, s: State, entry: Time, status: Time)
    requires Known(s, Refreshing, entry, status) && s.redis.now < entry
    ensures var t := Apply(c, s, Act(1, Go));
      Known(t, Serving, s.redis.now + c.presenceTtl, status) && t.redis.now == s.redis.now
  {
    NextCommand(c, s, Refreshing, entry, status);
    hide Apply;
  }

  /** Session 1 a window later, when its next message will be admitted. */
  lemma KnownLater(c: Config) returns (s: State)
    requires Workable(c) && c.ws.limit > 0
    ensures Reachable(c, s) && Known(s, Serving, c.presenceTtl, c.presenceTtl) && s.redis.now == c.ws.window
    ensures R.Admits(c.ws, Find(s.redis.counters, Connection(1)), s.redis.now)
  {
    var start := KnownServing(c);
    var steps :| start == Exec(c, INIT, steps);
    Lim.Always(c, steps);
    AdmittedAfterAWindow(c, start, 1, c.ws.window);
    s := Apply(c, start, Tick(c.ws.window));
    assert s.redis.counters == start.redis.counters;
    LaterKnown(c, start, Serving, c.presenceTtl, c.presenceTtl, c.ws.window);
    O.NextReachable(c, start, Tick(c.ws.window));
    hide *;
  }

  /** The first half of a heartbeat that arrives a window after the session opened. */
  lemma HalfABeat(c: Config) returns (s: State)
    requires Workable(c) && c.ws.limit > 0 && c.ws.window < c.presenceTtl
    ensures Reachable(c, s) && s.redis.now == c.ws.window
    ensures Known(s, Refreshing, c.presenceTtl, c.ws.window + c.presenceTtl)
  {
    var later := KnownLater(c);
    hide *;
    TakenKnown(c, later, c.presenceTtl, c.presenceTtl);
    O.NextReachable(c, later, Act(1, Receive(HeartbeatMessage)));
    var taken := Apply(c, later, Act(1, Receive(HeartbeatMessage)));
    StatusRefreshed(c, taken, c.presenceTtl, c.presenceTtl);
    O.NextReachable(c, taken, Act(1, Go));
    s := Apply(c, taken, Act(1, Go));
  }

  /** The second half, one tick later. */
  lemma WholeBeat(c: Config) returns (s: State)
    requires Workable(c) && c.ws.limit > 0 && c.ws.window + 1 < c.presenceTtl
    ensures Reachable(c, s) && s.redis.now == c.ws.window + 1
    ensures Known(s, Serving, c.ws.window + 1 + c.presenceTtl, c.ws.window + c.presenceTtl)
  {
    var w, ttl := c.ws.window, c.presenceTtl;
    var half := HalfABeat(c);
    hide *;
    LaterKnown(c, half, Refreshing, ttl, w + ttl, 1);
    O.NextReachable(c, half, Tick(1));
    var later := Apply(c, half, Tick(1));
    EntryRefreshed(c, later, ttl, w + ttl);
    O.NextReachable(c, later, Act(1, Go));
    s := Apply(c, later, Act(1, Go));
  }

  /** No overlap is needed: when time passes between the two refreshes of one heartbeat, the status lapses first. */
  lemma SplitHeartbeat(c: Config) returns (s: State)
    requires Workable(c) && c.ws.limit > 0 && c.ws.window + 1 < c.presenceTtl
    ensures Reachable(c, s) && SessionLive(s, 1) && s.sessions[1].pc.Serving?
    ensures Lookup(s.redis, USER) == Some(HOST) && Get(s.redis.directory.status, s.redis.now, USER).None?
  {
    var w, ttl := c.ws.window, c.presenceTtl;
    var whole := WholeBeat(c);
    hide *;
    LaterKnown(c, whole, Serving, w + 1 + ttl, w + ttl, ttl - 1);
    O.NextReachable(c, whole, Tick(ttl - 1));
    s := Apply(c, whole, Tick(ttl - 1));
    KnownMeans(s, Serving, w + 1 + ttl, w + ttl);
  }

  lemma KnownMeans(s: State, pc: SessionPc, entry: Time, status: Time)
    requires Known(s, pc, entry, status)
    ensures SessionLive(s, 1) && s.sessions[1].pc == pc
    ensures Lookup(s.redis, USER) == (if s.redis.now < entry then Some(HOST) else None)
    ensures Get(s.redis.directory.status, s.redis.now, USER).Some? <==> s.redis.now < status
  {}
}
