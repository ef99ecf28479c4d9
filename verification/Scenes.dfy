/** Runs that start from nothing: one instance, a user with two sessions, a notification. Built step by step, so that
    the theorems about what can go wrong have concrete runs to point at. The host, the user and the notification have
    their names here, for every scene. */
module Scenes {
  import opened Model
  import opened TtlStore
  import opened RedisServer
  import opened Registry
  import opened Repository
  import opened Protocol
  import opened Frames
  import opened Effects
  import opened Reachability
  import C = Coverage
  import D = Delivery
  import Lim = Limits
  import N = Notifications
  import P = Presence
  import T = Tickets
  import V = Vetting

  // ----- Two sessions -----

  const HOST := "gateway-1"
  const USER := "user-1"

  /** A session of `USER` on the only instance, all within the first moment of the run. */
  ghost predicate Here(q: Session, pc: SessionPc) {
    q.inst == HOST && q.epoch == 0 && q.who == Some(USER) && q.registeredAt == 0 && q.keptAt == 0 && q.pc == pc
  }

  ghost predicate Hosted(now: Time, instances: map<InstanceId, Instance>) {
    && now == 0 && HOST in instances && instances[HOST].epoch == 0 && instances[HOST].phase.Running?
       && instances[HOST].aliveAt == Some(0)
  }

  /** The older session 1 and the newer session 2 of `USER`, before any notification. */
  ghost predicate Scene(s: State, older: SessionPc, newer: SessionPc) {
    && Hosted(s.redis.now, s.instances)
    && 1 in s.sessions && 2 in s.sessions && Here(s.sessions[1], older) && Here(s.sessions[2], newer)
    && s.db.rows == [] && s.requests == map[] && s.redis.channels.published == [] && s.redis.dedup == map[]
    && Caller("api") !in s.redis.counters
  }

  /** Session 2 has everything the coverage theorem asks for at this moment, but for being alone. */
  ghost predicate Timely(c: Config, s: State) {
    C.Findable(c, s, 2, USER)
  }

  ghost predicate AlwaysTimely(c: Config, steps: seq<Step>) {
    forall k :: 0 <= k <= |steps| ==> Timely(c, At(c, steps, k))
  }

  lemma Grow(c: Config, steps: seq<Step>, step: Step)
    requires AlwaysTimely(c, steps) && Timely(c, Apply(c, Exec(c, INIT, steps), step))
    ensures AlwaysTimely(c, steps + [step])
    ensures Exec(c, INIT, steps + [step]) == Apply(c, Exec(c, INIT, steps), step)
  {
    var all := steps + [step];
    D.ExecSplit(c, INIT, steps, step);
    hide Timely, Apply;
    forall k | 0 <= k <= |all| ensures Timely(c, At(c, all, k)) {
      if k <= |steps| {
        assert all[..k] == steps[..k];
        assert Timely(c, At(c, steps, k));
      } else {
        assert all[..k] == all;
      }
    }
  }

  ghost predicate Workable(c: Config) {
    c.presenceTtl > 0 && c.livenessTtl > 0 && c.ticketTtl > 0 && c.api.limit > 0
  }

  ghost predicate Reached(c: Config, steps: seq<Step>, older: SessionPc, newer: SessionPc) {
    Workable(c) && AlwaysTimely(c, steps) && Scene(Exec(c, INIT, steps), older, newer)
  }

  lemma SceneTimely(c: Config, s: State, older: SessionPc, newer: SessionPc)
    requires Workable(c) && Scene(s, older, newer)
    ensures Timely(c, s)
  {}

  /** A step of one of the two sessions that is neither a redemption nor a receipt. */
  lemma SessionMoves(c: Config, s: State, x: SessionId, input: Input, older: SessionPc, newer: SessionPc)
    requires Scene(s, older, newer) && (x == 1 || x == 2) && !T.Redeems(s.sessions[x], input) && !input.Receive?
    ensures SessionLive(s, x)
    ensures var t := Acted(c, s, x, input);
      && x in t.sessions
         && Scene(t, if x == 1 then t.sessions[1].pc else older, if x == 2 then t.sessions[2].pc else newer)
      && Moves(c, s.redis, s.db, x, s.sessions[x], input, t.sessions[x])
  {
    ActFrame(c, s, x, input);
    ActEffects(c, s, x, input);
    T.ActIdentity(c, s, x, input);
    Lim.ActCounts(c, s, x, input);
    var t := Acted(c, s, x, input);
    HostedStill(c, s, x, input);
    assert t.db.rows == [] by { NothingRead(s.db, t.db); }
    HereStill(c, s.redis, s.db, x, s.sessions[x], input, t.sessions[x]);
    hide Acted, Moves, OnlyReads, Hosted, RegistryAfterGo, StatusAfterGo;
  }

  lemma NothingRead(before: Database, after: Database)
    requires before.rows == [] && OnlyReads(before, after)
    ensures after.rows == []
  {}

  lemma HereStill(c: Config, redis: RedisState, db: Database, x: SessionId, q: Session, input: Input, q': Session)
    requires Moves(c, redis, db, x, q, input, q') && T.SameIdentity(q, q') && !T.Redeems(q, input) && !input.Receive?
    requires Here(q, q.pc) && redis.now == 0
    ensures Here(q', q'.pc)
  {
    hide AfterBreak, PcAfterGo, IsPage, UnreadOf;
  }

  lemma HostedStill(c: Config, s: State, x: SessionId, input: Input)
    requires SessionLive(s, x) && Hosted(s.redis.now, s.instances)
    ensures var t := Acted(c, s, x, input); Hosted(t.redis.now, t.instances)
  {
    ActSockets(c, s, x, input);
    ActFrame(c, s, x, input);
    HostedPhase(c, s, x, input);
    hide Acted, OnlyReads;
  }

  lemma HostedPhase(c: Config, s: State, x: SessionId, input: Input)
    requires SessionLive(s, x)
    ensures var t, i := Acted(c, s, x, input), s.sessions[x].inst;
      i in t.instances && t.instances[i].phase == s.instances[i].phase && t.instances[i].epoch == s.instances[i].epoch
      && t.instances[i].aliveAt == s.instances[i].aliveAt
  {
    hide SessionStep;
  }

  /** One of the two sessions takes a step. */
  lemma Takes(c: Config, steps: seq<Step>, x: SessionId, input: Input, older: SessionPc, newer: SessionPc)
    returns (more: seq<Step>)
    requires Reached(c, steps, older, newer) && (x == 1 || x == 2)
    requires !T.Redeems(Exec(c, INIT, steps).sessions[x], input) && !input.Receive?
    ensures var s, t := Exec(c, INIT, steps), Exec(c, INIT, more);
      && 1 in t.sessions && 2 in t.sessions
      && Reached(c, more, if x == 1 then t.sessions[1].pc else older, if x == 2 then t.sessions[2].pc else newer)
      && SessionLive(s, x) && t == Acted(c, s, x, input)
      && Moves(c, s.redis, s.db, x, s.sessions[x], input, t.sessions[x])
      && t.sessions == s.sessions[x := t.sessions[x]]
  {
    var s := Exec(c, INIT, steps);
    var t := Acted(c, s, x, input);
    SessionMoves(c, s, x, input, older, newer);
    ActFrame(c, s, x, input);
    hide Exec, Acted, OnlyReads, Moves;
    SceneTimely(c, t, if x == 1 then t.sessions[1].pc else older, if x == 2 then t.sessions[2].pc else newer);
    Grow(c, steps, Act(x, input));
    more := steps + [Act(x, input)];
  }

  lemma GoOn(c: Config, steps: seq<Step>, x: SessionId, older: SessionPc, newer: SessionPc) returns (more: seq<Step>)
    requires Reached(c, steps, older, newer) && (x == 1 || x == 2)
    requires var pc := if x == 1 then older else newer; !pc.Redeeming?
    ensures Reached(c, more, if x == 1 then PcAfterGo(older) else older, if x == 2 then PcAfterGo(newer) else newer)
    ensures var s, t := Exec(c, INIT, steps), Exec(c, INIT, more);
      && x in s.sessions && x in t.sessions && t.sessions == s.sessions[x := t.sessions[x]]
      && t.sessions[x].snapshot == s.sessions[x].snapshot
      && t.sessions[x].beats == (if s.sessions[x].pc.Registering? then [0] else s.sessions[x].beats)
      && t.redis.directory.registry == RegistryAfterGo(c, 0, s.redis.directory.registry, s.sessions[x], USER)
      && t.redis.directory.status == StatusAfterGo(c, 0, s.redis.directory.status, s.sessions[x], USER)
      && SessionLive(s, x) && t == Acted(c, s, x, Go)
  {
    var s := Exec(c, INIT, steps);
    more := Takes(c, steps, x, Go, older, newer);
    ActEffects(c, s, x, Go);
    hide Exec, Acted, PcAfterGo, RegistryAfterGo, StatusAfterGo, AlwaysTimely;
  }

  lemma OlderGoes(c: Config, steps: seq<Step>, older: SessionPc, newer: SessionPc) returns (more: seq<Step>)
    requires Reached(c, steps, older, newer) && !older.Redeeming?
    ensures Reached(c, more, PcAfterGo(older), newer)
  {
    more := GoOn(c, steps, 1, older, newer);
    hide Exec, Reached, PcAfterGo;
  }

  lemma NewerGoes(c: Config, steps: seq<Step>, older: SessionPc, newer: SessionPc) returns (more: seq<Step>)
    requires Reached(c, steps, older, newer) && !newer.Redeeming?
    ensures Reached(c, more, older, PcAfterGo(newer))
  {
    more := GoOn(c, steps, 2, older, newer);
    hide Exec, Reached, PcAfterGo;
  }

  // ----- The run -----

  ghost predicate Start(c: Config, s: State) {
    && Hosted(s.redis.now, s.instances)
    && s.redis.tickets == map["a" := Cell(USER, Some(c.ticketTtl)), "b" := Cell(USER, Some(c.ticketTtl))]
    && s.sessions == map[1 := NewSession(HOST, 0, "a"), 2 := NewSession(HOST, 0, "b")]
    && s.db.rows == [] && s.requests == map[] && s.redis.channels.published == [] && s.redis.dedup == map[]
    && s.redis.counters == map[] && s.redis.directory == P.NOBODY
  }

  lemma InstanceUp(c: Config) returns (steps: seq<Step>)
    ensures AlwaysTimely(c, steps)
    ensures var s := Exec(c, INIT, steps);
      && Hosted(s.redis.now, s.instances)
      && s == INIT.(redis := s.redis, instances := s.instances)
      && s.redis == EMPTY.(liveness := s.redis.liveness, channels := s.redis.channels)
      && s.redis.channels.published == []
  {
    assert AlwaysTimely(c, []);
    assert Exec(c, INIT, []) == INIT;
    Grow(c, [], Boot(HOST));
    var s := Exec(c, INIT, [Boot(HOST)]);
    assert [] + [Boot(HOST)] == [Boot(HOST)];
    assert s == Booted(INIT, HOST);
    Grow(c, [Boot(HOST)], KeepInstanceAlive(HOST));
    steps := [Boot(HOST)] + [KeepInstanceAlive(HOST)];
  }

  lemma Ticketed(c: Config) returns (steps: seq<Step>)
    ensures AlwaysTimely(c, steps)
    ensures var s := Exec(c, INIT, steps);
      && Hosted(s.redis.now, s.instances)
      && s.sessions == map[] && s.requests == map[] && s.db.rows == [] && s.redis.channels.published == []
      && s.redis.tickets == map["a" := Cell(USER, Some(c.ticketTtl)), "b" := Cell(USER, Some(c.ticketTtl))]
      && s.redis.dedup == map[] && s.redis.counters == map[] && s.redis.directory == P.NOBODY
  {
    steps := InstanceUp(c);
    var s := Exec(c, INIT, steps);
    hide Exec, Hosted, AlwaysTimely;
    Grow(c, steps, IssueTicket("a", USER));
    steps := steps + [IssueTicket("a", USER)];
    Grow(c, steps, IssueTicket("b", USER));
    steps := steps + [IssueTicket("b", USER)];
  }

  lemma Started(c: Config) returns (steps: seq<Step>)
    ensures AlwaysTimely(c, steps) && Start(c, Exec(c, INIT, steps))
  {
    steps := Ticketed(c);
    hide Exec, AlwaysTimely;
    Grow(c, steps, Connect(1, HOST, "a"));
    steps := steps + [Connect(1, HOST, "a")];
    Grow(c, steps, Connect(2, HOST, "b"));
    steps := steps + [Connect(2, HOST, "b")];
  }

  /** The redemption of one of the two fresh tickets. */
  lemma RedeemedNow(c: Config, s: State, x: SessionId)
    requires SessionLive(s, x) && s.sessions[x] == NewSession(HOST, 0, s.sessions[x].ticket)
    requires Get(s.redis.tickets, s.redis.now, s.sessions[x].ticket) == Some(USER) && Hosted(s.redis.now, s.instances)
    ensures var t := Acted(c, s, x, Go);
      && Hosted(t.redis.now, t.instances) && x in t.sessions && t.sessions == s.sessions[x := t.sessions[x]]
      && Here(t.sessions[x], Adding)
      && t.db == s.db && t.requests == s.requests
         && t.redis == s.redis.(tickets := Del(s.redis.tickets, s.sessions[x].ticket))
  {
    HostedStill(c, s, x, Go);
    hide Hosted;
  }

  lemma BothRedeemed(c: Config) returns (steps: seq<Step>)
    requires Workable(c)
    ensures Reached(c, steps, Adding, Adding) && Exec(c, INIT, steps).redis.directory == P.NOBODY
  {
    steps := Started(c);
    var s := Exec(c, INIT, steps);
    RedeemedNow(c, s, 1);
    var t := Acted(c, s, 1, Go);
    RedeemedNow(c, t, 2);
    hide Exec, AlwaysTimely, Acted;
    Grow(c, steps, Act(1, Go));
    steps := steps + [Act(1, Go)];
    var end := Acted(c, t, 2, Go);
    assert Scene(end, Adding, Adding);
    SceneTimely(c, end, Adding, Adding);
    Grow(c, steps, Act(2, Go));
    steps := steps + [Act(2, Go)];
  }

  lemma PageTaken(c: Config, s: State, x: SessionId)
    requires SessionLive(s, x) && s.sessions[x].pc.Snapshotting? && s.sessions[x].who.Some? && s.db.rows == []
    ensures Acted(c, s, x, Page([])).sessions[x] ==
      s.sessions[x].(pc := SendingBacklog, snapshot := Some([]), backlog := [])
  {
    assert UnreadOf(s.db.rows, s.sessions[x].who.value) == {};
    assert IsPage(true, [], {}, c.backlogLimit);
  }

  /** One of the two sessions queries its backlog, and there is nothing in the table. */
  lemma Asks(c: Config, steps: seq<Step>, x: SessionId, older: SessionPc, newer: SessionPc) returns (more: seq<Step>)
    requires Reached(c, steps, older, newer) && (x == 1 || x == 2) && (if x == 1 then older else newer).Snapshotting?
    ensures Reached(c, more, if x == 1 then SendingBacklog else older, if x == 2 then SendingBacklog else newer)
    ensures var s, t := Exec(c, INIT, steps), Exec(c, INIT, more);
      && x in s.sessions
      && t.sessions == s.sessions[x := s.sessions[x].(pc := SendingBacklog, snapshot := Some([]), backlog := [])]
      && t.redis.directory == s.redis.directory && SessionLive(s, x) && t == Acted(c, s, x, Page([]))
  {
    var s := Exec(c, INIT, steps);
    more := Takes(c, steps, x, Page([]), older, newer);
    PageTaken(c, s, x);
    ActEffects(c, s, x, Page([]));
    hide Exec, AlwaysTimely, Acted, Moves;
  }

  /** The backlog frame is written, and the session waits for its client. */
  lemma Serves(c: Config, steps: seq<Step>, x: SessionId, older: SessionPc, newer: SessionPc) returns (more: seq<Step>)
    requires Reached(c, steps, older, newer) && (x == 1 || x == 2) && (if x == 1 then older else newer).Snapshotting?
    ensures Reached(c, more, if x == 1 then Serving else older, if x == 2 then Serving else newer)
    ensures var s, t := Exec(c, INIT, steps), Exec(c, INIT, more);
      && x in s.sessions && x in t.sessions && t.redis.directory == s.redis.directory
      && t.sessions[x].snapshot == Some([]) && t.sessions[x].beats == s.sessions[x].beats
  {
    var asked := Asks(c, steps, x, older, newer);
    more := GoOn(c, asked, x, if x == 1 then SendingBacklog else older, if x == 2 then SendingBacklog else newer);
    hide Exec, AlwaysTimely, Acted, Hosted;
  }

  lemma OlderBreaksOff(c: Config) returns (steps: seq<Step>)
    requires Workable(c)
    ensures Reached(c, steps, Unregistering, Adding)
  {
    steps := OlderRegisters(c);
    hide Exec, Reached, Workable;
    steps := OlderGoes(c, steps, GoingOnline, Adding);
    steps := BreaksOff(c, steps);
    steps := OlderGoes(c, steps, Removing, Adding);
  }

  lemma OlderRegisters(c: Config) returns (steps: seq<Step>)
    requires Workable(c)
    ensures Reached(c, steps, GoingOnline, Adding)
  {
    steps := BothRedeemed(c);
    hide Exec, Reached, Workable;
    steps := OlderGoes(c, steps, Adding, Adding);
    steps := OlderGoes(c, steps, Registering, Adding);
  }

  /** The newer session is being served; the older one's cleanup has just unregistered the user. */
  lemma NewerUnregistered(c: Config) returns (steps: seq<Step>)
    requires Workable(c)
    ensures Reached(c, steps, GoingOffline, Serving)
    ensures var s := Exec(c, INIT, steps);
      2 in s.sessions && s.sessions[2].snapshot == Some([]) && USER !in s.redis.directory.registry
  {
    steps := NewerGoesOnline(c);
    hide *;
    steps := Serves(c, steps, 2, Unregistering, Snapshotting);
    steps := OlderUnregisters(c, steps);
  }

  lemma OlderUnregisters(c: Config, steps: seq<Step>) returns (more: seq<Step>)
    requires Reached(c, steps, Unregistering, Serving)
    requires var s := Exec(c, INIT, steps); 2 in s.sessions && s.sessions[2].snapshot == Some([])
    ensures Reached(c, more, GoingOffline, Serving)
    ensures var s := Exec(c, INIT, more);
      2 in s.sessions && s.sessions[2].snapshot == Some([]) && USER !in s.redis.directory.registry
  {
    more := GoOn(c, steps, 1, Unregistering, Serving);
    assert PcAfterGo(Unregistering) == GoingOffline;
    hide *;
  }

  lemma NewerGoesOnline(c: Config) returns (steps: seq<Step>)
    requires Workable(c)
    ensures Reached(c, steps, Unregistering, Snapshotting)
  {
    steps := OlderBreaksOff(c);
    hide Exec, Reached, Workable;
    steps := NewerGoes(c, steps, Unregistering, Adding);
    steps := NewerGoes(c, steps, Unregistering, Registering);
    steps := NewerGoes(c, steps, Unregistering, GoingOnline);
  }

  lemma BreaksOff(c: Config, steps: seq<Step>) returns (more: seq<Step>)
    requires Reached(c, steps, Snapshotting, Adding)
    ensures Reached(c, more, Removing, Adding)
  {
    more := Takes(c, steps, 1, Break, Snapshotting, Adding);
    hide Exec, AlwaysTimely;
  }

  // ----- A notification for the user -----

  const LOST := Body(7, USER, "type", "payload")

  /** All its commands, one after the other. */
  lemma {:induction false} AdvancesKeep(c: Config, s: State, r: RequestId, stamp: Time, n: nat)
    requires r in s.requests
    ensures var t := Exec(c, s, N.Advances(r, stamp, n));
      && t.sessions == s.sessions && t.instances == s.instances && t.sending == s.sending && t.frames == s.frames
      && t.redis.now == s.redis.now && t.redis.directory == s.redis.directory
      && r in t.requests && t.requests[r].body == s.requests[r].body
  {
    if n == 0 { return; }
    AdvancesKeep(c, s, r, stamp, n - 1);
    var t := Exec(c, s, N.Advances(r, stamp, n - 1));
    assert N.Advances(r, stamp, n)[..n - 1] == N.Advances(r, stamp, n - 1);
    assert Exec(c, s, N.Advances(r, stamp, n)) == Apply(c, t, Advance(r, stamp));
    hide Exec, N.Advances;
    if RequestLive(t, r) {
      AdvanceFrame(c, t, r, stamp);
      V.OwnerMoves(c, t, r, stamp);
    }
    hide Advanced;
  }

  lemma {:induction false} AdvancesTimely(c: Config, steps: seq<Step>, n: nat)
    requires AlwaysTimely(c, steps) && 0 in Exec(c, INIT, steps).requests && Timely(c, Exec(c, INIT, steps))
    ensures AlwaysTimely(c, steps + N.Advances(0, 0, n))
  {
    var s := Exec(c, INIT, steps);
    if n == 0 {
      assert steps + N.Advances(0, 0, 0) == steps;
      return;
    }
    AdvancesTimely(c, steps, n - 1);
    AdvancesKeep(c, s, 0, 0, n - 1);
    AdvancesKeep(c, s, 0, 0, n);
    D.ExecJoin(c, INIT, steps, N.Advances(0, 0, n - 1));
    var t := Exec(c, s, N.Advances(0, 0, n - 1));
    assert N.Advances(0, 0, n)[..n - 1] == N.Advances(0, 0, n - 1);
    assert Exec(c, s, N.Advances(0, 0, n)) == Apply(c, t, Advance(0, 0));
    assert steps + N.Advances(0, 0, n) == steps + N.Advances(0, 0, n - 1) + [Advance(0, 0)];
    hide Exec, AlwaysTimely, Apply, N.Advances;
    SameTimely(c, s, Apply(c, t, Advance(0, 0)));
    Grow(c, steps + N.Advances(0, 0, n - 1), Advance(0, 0));
  }

  lemma SameTimely(c: Config, s: State, t: State)
    requires Timely(c, s) && t.sessions == s.sessions && t.instances == s.instances && t.redis.now == s.redis.now
    ensures Timely(c, t)
  {}

  /** The request that creates the notification arrives. */
  lemma Posted(c: Config, steps: seq<Step>, older: SessionPc, newer: SessionPc) returns (more: seq<Step>)
    requires Reached(c, steps, older, newer)
    ensures AlwaysTimely(c, more) && Timely(c, Exec(c, INIT, more))
    ensures var s, t := Exec(c, INIT, steps), Exec(c, INIT, more);
      t == s.(requests := map[0 := Request(HOST, 0, "api", LOST, Rating, false)])
  {
    var s := Exec(c, INIT, steps);
    var step := Post(0, HOST, "api", LOST);
    var t := Apply(c, s, step);
    assert t == s.(requests := map[0 := Request(HOST, 0, "api", LOST, Rating, false)]);
    SceneTimely(c, s, older, newer);
    SameTimely(c, s, t);
    hide Exec, AlwaysTimely, Apply;
    Grow(c, steps, step);
    more := steps + [step];
  }

  /** The request runs to its end with nothing in between: it creates the row, and publishes iff the user has a live
      route. */
  lemma Created(c: Config, steps: seq<Step>, older: SessionPc, newer: SessionPc) returns (more: seq<Step>)
    requires Reached(c, steps, older, newer)
    ensures AlwaysTimely(c, more)
    ensures var s, t := Exec(c, INIT, steps), Exec(c, INIT, more); var owner := Lookup(s.redis, USER);
      var routed := owner.Some? && IsAlive(s.redis, owner.value);
      && t.sessions == s.sessions && t.instances == s.instances && t.sending == s.sending && t.frames == s.frames
      && t.redis.now == s.redis.now && t.redis.directory == s.redis.directory
      && 0 in t.requests && t.requests[0].body == LOST && t.requests[0].pc == Replied(Reply(true, routed))
      && t.redis.channels ==
         (if routed then Publish(s.redis.channels, owner.value, USER, NoteOf(LOST, 0)) else s.redis.channels)
  {
    var s := Exec(c, INIT, steps);
    var posted := Posted(c, steps, older, newer);
    var t := Exec(c, INIT, posted);
    more := posted + N.Advances(0, 0, N.COMMANDS);
    assert Hosted(t.redis.now, t.instances) && RequestLive(t, 0);
    AdvancesTimely(c, posted, N.COMMANDS);
    D.ExecJoin(c, INIT, posted, N.Advances(0, 0, N.COMMANDS));
    AdvancesKeep(c, t, 0, 0, N.COMMANDS);
    N.RequestRunsInSystem(c, t, 0, 0, N.COMMANDS);
    var p := N.ProgressOf(t, 0);
    N.UninterruptedRequest(c, p, 0);
    assert N.Allowed(c, p) && N.New(p);
    hide Exec, AlwaysTimely, N.Run, N.Advances;
  }
}
