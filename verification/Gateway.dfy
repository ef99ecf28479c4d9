/** WS /ws and the message router, as one session that is not interrupted: a run of the session's steps. */
module Gateway {
  import opened Model
  import opened TtlStore
  import opened RedisServer
  import opened RateLimiting
  import opened Registry
  import opened Repository
  import opened Protocol
  import opened Frames
  import opened Processes
  import opened Heartbeat
  import opened Connections
  import opened Credentials
  import Lim = Limits
  import P = Presence

  // ----- One session's own run -----

  /** What a session's steps act on. */
  datatype View = View(redis: RedisState, db: Database, conns: Conns, session: Session)

  ghost function StepView(c: Config, v: View, x: SessionId, input: Input): View {
    var (redis, db, conns, q) := SessionStep(c, v.redis, v.db, v.conns, x, v.session, input);
    View(redis, db, conns, q)
  }

  ghost function RunSession(c: Config, v: View, x: SessionId, inputs: seq<Input>): View {
    if inputs == [] then v else StepView(c, RunSession(c, v, x, inputs[..|inputs| - 1]), x, inputs[|inputs| - 1])
  }

  lemma RunMore(c: Config, v: View, x: SessionId, inputs: seq<Input>, input: Input)
    ensures RunSession(c, v, x, inputs + [input]) == StepView(c, RunSession(c, v, x, inputs), x, input)
  {
    assert (inputs + [input])[..|inputs|] == inputs;
  }

  // ----- The router -----

  datatype Response = Nothing | RateLimited | Error

  function Responds(c: Config, redis: RedisState, x: SessionId, m: ClientMessage): Response {
    if !Admits(c.ws, Find(redis.counters, Connection(x)), redis.now) then RateLimited
    else if m.OtherMessage? then Error else Nothing
  }

  /** What handling an admitted message does to what is kept about its user. */
  function Handled(c: Config, now: Time, d: Directory, u: UserId, m: ClientMessage): Directory {
    match m
    case HeartbeatMessage => RefreshEntry(P.RefreshStatus(d, now, u, c.presenceTtl), now, u, c.presenceTtl)
    case PresenceMessage(st) => P.MarkStatus(d, now, u, st, c.presenceTtl)
    case ReceiptMessage(_) => d
    case OtherMessage => d
  }

  function Routed(c: Config, redis: RedisState, x: SessionId, u: UserId, m: ClientMessage): RedisState {
    var b := Find(redis.counters, Connection(x));
    redis.(counters := redis.counters[Connection(x) := Bump(c.ws, b, redis.now)],
           directory := if Admits(c.ws, b, redis.now) then Handled(c, redis.now, redis.directory, u, m)
             else redis.directory)
  }

  function Recorded(c: Config, redis: RedisState, db: Database, x: SessionId, u: UserId, m: ClientMessage): Database {
    if Admits(c.ws, Find(redis.counters, Connection(x)), redis.now) && m.ReceiptMessage?
    then RecordRead(db, m.nid, u, redis.now) else db
  }

  datatype Exchange = Exchange(redis: RedisState, db: Database, responses: seq<Response>)

  /** The messages of one session routed one after the other. */
  function RoutedAll(
    c: Config, redis: RedisState, db: Database, x: SessionId, u: UserId, messages: seq<ClientMessage>): Exchange
  {
    if messages == [] then Exchange(redis, db, [])
    else
      var n := |messages| - 1;
      var e := RoutedAll(c, redis, db, x, u, messages[..n]);
      Exchange(Routed(c, e.redis, x, u, messages[n]), Recorded(c, e.redis, e.db, x, u, messages[n]),
               e.responses + [Responds(c, e.redis, x, messages[n])])
  }

  /** How the client's messages are answered when its earlier ones came at `calls` and these all come at `now`: limited
      exactly if not admitted in that sequence, an error exactly if admitted and malformed, and otherwise nothing. */
  ghost predicate AnsweredBy(
    p: Policy, calls: seq<Time>, now: Time, messages: seq<ClientMessage>, responses: seq<Response>)
  {
    && |responses| == |messages|
    && var times := calls + Burst(now, |messages|);
       |times| == |calls| + |messages| &&
       forall k :: 0 <= k < |messages| ==> AnswerIs(p, times, |calls| + k, messages[k], responses[k])
  }

  ghost predicate AnswerIs(p: Policy, times: seq<Time>, i: nat, m: ClientMessage, response: Response)
    requires i < |times|
  {
    && (response == RateLimited <==> !Admitted(p, times, i))
    && (response == Error <==> Admitted(p, times, i) && m.OtherMessage?)
  }

  /** One more message at the same time. */
  lemma OneMoreAnswer(
    p: Policy, calls: seq<Time>, now: Time, messages: seq<ClientMessage>, responses: seq<Response>, m: ClientMessage,
    response: Response)
    requires AnsweredBy(p, calls, now, messages, responses)
    requires var b := After(p, calls + Burst(now, |messages|));
      && (response == RateLimited <==> !Admits(p, b, now))
      && (response == Error <==> Admits(p, b, now) && m.OtherMessage?)
    ensures AnsweredBy(p, calls, now, messages + [m], responses + [response])
  {
    var n := |messages|;
    hide After, Admits, Burst, AnswerIs;
    var times := calls + Burst(now, n);
    BurstGrows(calls, now, n + 1);
    MoreAnswers(p, times, now, |calls|, messages, responses, m, response);
  }

  lemma MoreAnswers(
    p: Policy, times: seq<Time>, t: Time, first: nat, messages: seq<ClientMessage>, responses: seq<Response>,
    m: ClientMessage, response: Response)
    requires |responses| == |messages| && |times| == first + |messages|
    requires forall k :: 0 <= k < |messages| ==> AnswerIs(p, times, first + k, messages[k], responses[k])
    requires var admits := Admits(p, After(p, times), t);
      (response == RateLimited <==> !admits) && (response == Error <==> admits && m.OtherMessage?)
    ensures forall k :: 0 <= k < |messages| + 1 ==>
      AnswerIs(p, times + [t], first + k, (messages + [m])[k], (responses + [response])[k])
  {
    LastAnswer(p, times, t, m, response);
    hide After, Admits, AnswerIs;
    forall k | 0 <= k < |messages|
      ensures AnswerIs(p, times + [t], first + k, (messages + [m])[k], (responses + [response])[k])
    {
      EarlierAnswer(p, times, t, first + k, messages[k], responses[k]);
    }
  }

  lemma EarlierAnswer(p: Policy, times: seq<Time>, t: Time, i: nat, m: ClientMessage, response: Response)
    requires i < |times| && AnswerIs(p, times, i, m, response)
    ensures AnswerIs(p, times + [t], i, m, response)
  {
    assert (times + [t])[..i] == times[..i];
    hide After, Admits;
  }

  lemma LastAnswer(p: Policy, times: seq<Time>, t: Time, m: ClientMessage, response: Response)
    requires var admits := Admits(p, After(p, times), t);
      (response == RateLimited <==> !admits) && (response == Error <==> admits && m.OtherMessage?)
    ensures AnswerIs(p, times + [t], |times|, m, response)
  {
    assert (times + [t])[..|times|] == times;
    hide After, Admits;
  }

  /** The responses and the counter, in terms of the times of the connection's messages. */
  lemma {:induction false} RoutedAnswers(
    c: Config, redis: RedisState, db: Database, x: SessionId, u: UserId, messages: seq<ClientMessage>, calls: seq<Time>)
    requires Find(redis.counters, Connection(x)) == After(c.ws, calls)
    ensures var e := RoutedAll(c, redis, db, x, u, messages);
      && AnsweredBy(c.ws, calls, redis.now, messages, e.responses) && e.redis.now == redis.now
      && Find(e.redis.counters, Connection(x)) == After(c.ws, calls + Burst(redis.now, |messages|))
  {
    if messages == [] {
      assert calls + Burst(redis.now, 0) == calls;
      return;
    }
    var n := |messages| - 1;
    RoutedAnswers(c, redis, db, x, u, messages[..n], calls);
    var e := RoutedAll(c, redis, db, x, u, messages[..n]);
    OneMoreAnswer(c.ws, calls, redis.now, messages[..n], e.responses, messages[n],
      Responds(c, e.redis, x, messages[n]));
    assert messages[..n] + [messages[n]] == messages;
    BurstGrows(calls, redis.now, n + 1);
    OneMoreCall(c.ws, calls + Burst(redis.now, n), redis.now, 0, 0);
    hide AnsweredBy, After, Burst, Bump, Admits, Handled, Recorded;
  }

  /** What a message does, kind by kind: nothing but its own effect, and nothing at all when it is not admitted. */
  ghost predicate Effect(
    c: Config, redis: RedisState, db: Database, u: UserId, m: ClientMessage, admitted: bool, redis': RedisState,
    db': Database)
  {
    var (d, d', later) := (redis.directory, redis'.directory, Some(redis.now + c.presenceTtl));
    && redis' == redis.(counters := redis'.counters, directory := d')
    && if !admitted || m.OtherMessage? then d' == d && db' == db
       else if m.ReceiptMessage? then d' == d && ReadBy(db, db', m.nid, u, redis.now)
       else if m.PresenceMessage? then
         && db' == db && d'.registry == d.registry
         && d'.status == d.status[u := Cell(m.status, later)] && d'.lastSeen == d.lastSeen[u := Cell(redis.now, None)]
       else
         && db' == db && d'.lastSeen == d.lastSeen[u := Cell(redis.now, None)]
         && d'.registry == (if Exists(d.registry, redis.now, u) then d.registry[u := Cell(d.registry[u].value, later)]
                            else d.registry)
         && d'.status == (if Exists(d.status, redis.now, u) then d.status[u := Cell(d.status[u].value, later)]
                          else d.status)
  }

  lemma MessageTakesEffect(c: Config, redis: RedisState, db: Database, x: SessionId, u: UserId, m: ClientMessage)
    ensures Effect(c, redis, db, u, m, Admits(c.ws, Find(redis.counters, Connection(x)), redis.now),
                   Routed(c, redis, x, u, m), Recorded(c, redis, db, x, u, m))
  {
    if m.ReceiptMessage? { ReadsOwnRowsOnly(db, m.nid, u, redis.now); }
    hide Bump, Admits, RecordRead, ReadBy;
  }

  class MessageRouter {
    const heartbeat: HeartbeatHandler
    const presence: P.PresenceManager
    const limiter: RateLimiter
    const repository: NotificationRepository

    constructor (
      heartbeat: HeartbeatHandler, presence: P.PresenceManager, limiter: RateLimiter,
      repository: NotificationRepository)
      ensures this.heartbeat == heartbeat && this.presence == presence
      ensures this.limiter == limiter && this.repository == repository
    {
      this.heartbeat, this.presence, this.limiter, this.repository := heartbeat, presence, limiter, repository;
    }

    ghost predicate Wired(c: Config, redis: Redis)
      reads {}
    {
      && limiter.redis == redis && presence.store.redis == redis
      && heartbeat.registry.redis == redis && heartbeat.presence.store.redis == redis
      && limiter.policy == c.ws && presence.ttl == c.presenceTtl
      && heartbeat.presence.ttl == c.presenceTtl && heartbeat.ttl == c.presenceTtl
    }

    /** Every message counts, malformed ones too; only an admitted one is dispatched. */
    method Route(ghost c: Config, redis: Redis, u: UserId, x: SessionId, m: ClientMessage) returns (response: Response)
      requires Wired(c, redis)
      modifies redis, repository.session
      ensures redis.state == Routed(c, old(redis.state), x, u, m)
      ensures repository.session.db == Recorded(c, old(redis.state), old(repository.session.db), x, u, m)
      ensures response == Responds(c, old(redis.state), x, m)
      ensures var admitted := Admits(c.ws, Find(old(redis.state).counters, Connection(x)), old(redis.state).now);
        && (response == RateLimited <==> !admitted) && (response == Error <==> admitted && m.OtherMessage?)
        && Effect(c, old(redis.state), old(repository.session.db), u, m, admitted, redis.state, repository.session.db)
    {
      MessageTakesEffect(c, redis.state, repository.session.db, x, u, m);
      hide Effect;
      var allowed := limiter.Allow(Connection(x));
      if !allowed {
        return RateLimited;
      }
      match m {
        case HeartbeatMessage =>
          heartbeat.Handle(u);
          return Nothing;
        case PresenceMessage(status) =>
          if status == Online {
            presence.MarkOnline(u);
          } else {
            presence.MarkAway(u);
          }
          return Nothing;
        case ReceiptMessage(n) =>
          var _ := repository.MarkRead(n, u, redis.state.now);
          return Nothing;
        case OtherMessage =>
          return Error;
      }
    }
  }

  /** The commands a message leads to. */
  function Commands(c: Config, redis: RedisState, x: SessionId, m: ClientMessage): seq<Input> {
    if !Admits(c.ws, Find(redis.counters, Connection(x)), redis.now) then []
    else match m
         case HeartbeatMessage => [Go, Go]
         case PresenceMessage(_) => [Go]
         case ReceiptMessage(_) => [Go]
         case OtherMessage => []
  }

  /** The messages of one session and the commands they lead to, in order. */
  function InputsFor(
    c: Config, redis: RedisState, db: Database, x: SessionId, u: UserId, messages: seq<ClientMessage>): seq<Input>
  {
    if messages == [] then []
    else
      var n := |messages| - 1;
      InputsFor(c, redis, db, x, u, messages[..n])
      + ([Receive(messages[n])] + Commands(c, RoutedAll(c, redis, db, x, u, messages[..n]).redis, x, messages[n]))
  }

  const OPENING := [Go, Go, Go]

  /** The commands of a session that opens: add, register, mark online, the query that answers with `rows`, and the
      frame that carries them. */
  function Opening(rows: seq<Row>): seq<Input> {
    OPENING + [Page(rows)] + [Go]
  }

  const CLOSING := [HangUp] + [Go, Go, Go]

  ghost predicate ServingAs(v: View, u: UserId) {
    v.session.pc.Serving? && v.session.who == Some(u) && v.session.sent
  }

  /** Routing a message is the session's taking it and running its commands. */
  lemma RouteIsSteps(c: Config, v: View, x: SessionId, u: UserId, m: ClientMessage)
    requires ServingAs(v, u)
    ensures var w := RunSession(c, v, x, [Receive(m)] + Commands(c, v.redis, x, m));
      && ServingAs(w, u) && w.conns == v.conns && w.session.backlog == v.session.backlog
      && w.redis == Routed(c, v.redis, x, u, m) && w.db == Recorded(c, v.redis, v.db, x, u, m)
      && Effect(c, v.redis, v.db, u, m, Admits(c.ws, Find(v.redis.counters, Connection(x)), v.redis.now), w.redis, w.db)
  {
    MessageTakesEffect(c, v.redis, v.db, x, u, m);
    hide Effect;
    var commands := Commands(c, v.redis, x, m);
    RunMore(c, v, x, [], Receive(m));
    assert [] + [Receive(m)] == [Receive(m)];
    var taken := StepView(c, v, x, Receive(m));
    assert RunSession(c, v, x, [Receive(m)]) == taken;
    if commands == [] {
      assert [Receive(m)] + commands == [Receive(m)];
    } else {
      RunMore(c, v, x, [Receive(m)], Go);
      if |commands| == 1 {
        assert [Receive(m)] + commands == [Receive(m)] + [Go];
      } else {
        RunMore(c, v, x, [Receive(m)] + [Go], Go);
        assert [Receive(m)] + commands == [Receive(m)] + [Go] + [Go];
      }
    }
    RouteCases(c, v, x, u, m);
    hide RunSession, StepView, Routed, Recorded, Bump, Admits;
  }

  /** The same, command by command. */
  lemma RouteCases(c: Config, v: View, x: SessionId, u: UserId, m: ClientMessage)
    requires ServingAs(v, u)
    ensures var t, n := StepView(c, v, x, Receive(m)), |Commands(c, v.redis, x, m)|;
      var w := if n == 0 then t else if n == 1 then StepView(c, t, x, Go)
        else StepView(c, StepView(c, t, x, Go), x, Go);
      && ServingAs(w, u) && w.conns == v.conns && w.session.backlog == v.session.backlog
      && w.redis == Routed(c, v.redis, x, u, m) && w.db == Recorded(c, v.redis, v.db, x, u, m)
  {
    hide Bump, Admits;
    match m
    case HeartbeatMessage =>
    case PresenceMessage(_) =>
    case ReceiptMessage(_) =>
    case OtherMessage =>
  }

  lemma {:induction false} RunSplit(c: Config, v: View, x: SessionId, inputs: seq<Input>, more: seq<Input>)
    ensures RunSession(c, v, x, inputs + more) == RunSession(c, RunSession(c, v, x, inputs), x, more)
    decreases |more|
  {
    hide StepView;
    if more == [] {
      assert inputs + more == inputs;
    } else {
      var n := |more| - 1;
      RunSplit(c, v, x, inputs, more[..n]);
      RunMore(c, v, x, inputs + more[..n], more[n]);
      RunMore(c, RunSession(c, v, x, inputs), x, more[..n], more[n]);
      assert inputs + more == inputs + more[..n] + [more[n]];
      assert more == more[..n] + [more[n]];
    }
  }

  ghost function GoView(c: Config, v: View, x: SessionId): View {
    StepView(c, v, x, Go)
  }

  /** Three commands in a row. */
  lemma ThreeGo(c: Config, v: View, x: SessionId)
    ensures RunSession(c, v, x, [Go, Go, Go]) == GoView(c, GoView(c, GoView(c, v, x), x), x)
  {
    hide StepView;
    assert [] + [Go] == [Go] && [Go] + [Go] == [Go, Go] && [Go, Go] + [Go] == [Go, Go, Go];
    RunMore(c, v, x, [], Go);
    RunMore(c, v, x, [Go], Go);
    RunMore(c, v, x, [Go, Go], Go);
  }

  lemma OpeningIsSteps(c: Config, v: View, x: SessionId, u: UserId, rows: seq<Row>)
    requires v.session.pc.Adding? && v.session.who == Some(u)
    requires IsPage(true, rows, UnreadOf(v.db.rows, u), c.backlogLimit)
    ensures var w := RunSession(c, v, x, Opening(rows));
      && ServingAs(w, u) && w.session.backlog == rows && w.db == v.db && w.conns == v.conns[u := x]
      && w.redis == v.redis.(directory := P.MarkStatus(
           PutEntry(v.redis.directory, v.redis.now, u, v.session.inst, c.presenceTtl), v.redis.now, u, Online,
             c.presenceTtl))
  {
    RunMore(c, v, x, OPENING + [Page(rows)], Go);
    RunMore(c, v, x, OPENING, Page(rows));
    ThreeGo(c, v, x);
    hide RunSession, IsPage, UnreadOf, PutEntry, P.MarkStatus;
    var v1 := GoView(c, v, x);
    assert v1 == v.(conns := v.conns[u := x], session := v1.session) && v1.session.pc.Registering?
      && v1.session.who == Some(u);
    var v2 := GoView(c, v1, x);
    assert v2.session.pc.GoingOnline? && v2.session.who == Some(u);
    var v3 := GoView(c, v2, x);
    assert v3.session.pc.Snapshotting? && v3.session.who == Some(u);
    var v4 := StepView(c, v3, x, Page(rows));
    assert v4 == v3.(session := v4.session) && v4.session.pc.SendingBacklog? && v4.session.who == Some(u);
  }

  /** What registering and going online leave, key by key. */
  ghost function Entered(d: Directory, now: Time, u: UserId, inst: InstanceId, ttl: nat): Directory {
    var later := Some(now + ttl);
    d.(registry := d.registry[u := Cell(inst, later)], status := d.status[u := Cell(Online, later)],
       lastSeen := d.lastSeen[u := Cell(now, None)])
  }

  lemma EnteredMeans(d: Directory, now: Time, u: UserId, inst: InstanceId, ttl: nat)
    ensures P.MarkStatus(PutEntry(d, now, u, inst, ttl), now, u, Online, ttl) == Entered(d, now, u, inst, ttl)
  {}

  /** The three commands of the cleanup. */
  lemma CleanupIsSteps(c: Config, v: View, x: SessionId, u: UserId)
    requires v.session.pc.Removing? && v.session.who == Some(u)
    ensures var w := GoView(c, GoView(c, GoView(c, v, x), x), x);
      && w.session.pc.Ended? && w.session.who == Some(u) && w.session.backlog == v.session.backlog
      && w.session.sent == v.session.sent
      && w.db == v.db && w.conns == v.conns - {u}
      && w.redis == v.redis.(directory := P.ClearStatus(DropEntry(v.redis.directory, u), u))
  {
    hide DropEntry, P.ClearStatus;
    var v1 := GoView(c, v, x);
    assert v1 == v.(conns := v.conns - {u}, session := v.session.(pc := Unregistering));
    var v2 := GoView(c, v1, x);
    assert v2 ==
      v1.(redis := v1.redis.(directory := DropEntry(v1.redis.directory, u)), session := v.session.(pc := GoingOffline));
  }

  /** The cleanup: remove, unregister, mark offline. */
  lemma ClosingIsSteps(c: Config, v: View, x: SessionId, u: UserId)
    requires ServingAs(v, u)
    ensures var w := RunSession(c, v, x, CLOSING);
      && w.session.pc.Ended? && w.session.who == Some(u) && w.session.backlog == v.session.backlog
      && w.session.sent == v.session.sent
      && w.db == v.db && w.conns == v.conns - {u}
      && w.redis == v.redis.(directory := P.ClearStatus(DropEntry(v.redis.directory, u), u))
  {
    RunMore(c, v, x, [], HangUp);
    assert [] + [HangUp] == [HangUp];
    var v0 := StepView(c, v, x, HangUp);
    assert v0 == v.(session := v.session.(pc := Removing));
    assert RunSession(c, v, x, [HangUp]) == v0;
    hide RunSession, StepView, GoView, DropEntry, P.ClearStatus;
    RunSplit(c, v, x, [HangUp], [Go, Go, Go]);
    ThreeGo(c, v0, x);
    CleanupIsSteps(c, v0, x, u);
  }

  /** One more message routed. */
  lemma RoutedOneMore(
    c: Config, redis: RedisState, db: Database, x: SessionId, u: UserId, messages: seq<ClientMessage>, k: nat)
    requires k < |messages|
    ensures var e, m := RoutedAll(c, redis, db, x, u, messages[..k]), messages[k];
      && RoutedAll(c, redis, db, x, u, messages[..k + 1]) ==
         Exchange(Routed(c, e.redis, x, u, m), Recorded(c, e.redis, e.db, x, u, m),
           e.responses + [Responds(c, e.redis, x, m)])
      && InputsFor(c, redis, db, x, u, messages[..k + 1]) ==
         InputsFor(c, redis, db, x, u, messages[..k]) + ([Receive(m)] + Commands(c, e.redis, x, m))
  {
    assert messages[..k + 1][..k] == messages[..k];
  }

  /** After these messages: the session is being served, its steps so far are `inputs`, and the stores and the responses
      are what routing the messages one after the other gives. */
  ghost predicate Round(c: Config, start: View, before: seq<Input>, x: SessionId, u: UserId, done: seq<ClientMessage>,
                        inputs: seq<Input>, first: Exchange, now: Exchange, conns: Conns)
  {
    var v := RunSession(c, start, x, inputs);
    && v == View(now.redis, now.db, conns, v.session) && ServingAs(v, u)
    && v.session.backlog == RunSession(c, start, x, before).session.backlog
    && inputs == before + InputsFor(c, first.redis, first.db, x, u, done)
    && now == RoutedAll(c, first.redis, first.db, x, u, done)
  }

  lemma RoundsStart(c: Config, start: View, before: seq<Input>, x: SessionId, u: UserId, first: Exchange, conns: Conns)
    requires first.responses == []
    requires var v := RunSession(c, start, x, before);
      v == View(first.redis, first.db, conns, v.session) && ServingAs(v, u)
    ensures Round(c, start, before, x, u, [], before, first, first, conns)
  {
    assert before + [] == before;
  }

  lemma RoundMeans(c: Config, start: View, before: seq<Input>, x: SessionId, u: UserId, done: seq<ClientMessage>,
                   inputs: seq<Input>, first: Exchange, now: Exchange, conns: Conns)
    requires Round(c, start, before, x, u, done, inputs, first, now, conns)
    ensures var v := RunSession(c, start, x, inputs);
      && v == View(now.redis, now.db, conns, v.session) && ServingAs(v, u)
      && v.session.backlog == RunSession(c, start, x, before).session.backlog
      && inputs == before + InputsFor(c, first.redis, first.db, x, u, done)
      && now == RoutedAll(c, first.redis, first.db, x, u, done)
  {}

  lemma RoundGoesOn(
    c: Config, start: View, before: seq<Input>, x: SessionId, u: UserId, messages: seq<ClientMessage>, k: nat,
    inputs: seq<Input>, first: Exchange, now: Exchange, conns: Conns)
    requires k < |messages| && Round(c, start, before, x, u, messages[..k], inputs, first, now, conns)
    ensures var m := messages[k];
      Round(c, start, before, x, u, messages[..k + 1], inputs + ([Receive(m)] + Commands(c, now.redis, x, m)), first,
            Exchange(Routed(c, now.redis, x, u, m), Recorded(c, now.redis, now.db, x, u, m),
                     now.responses + [Responds(c, now.redis, x, m)]), conns)
  {
    hide RunSession, RoutedAll, InputsFor, Commands, Routed, Recorded, Responds, ServingAs;
    OneMoreTaken(c, start, x, u, inputs, messages[k]);
    RoutedOneMore(c, first.redis, first.db, x, u, messages, k);
    Appended(before, InputsFor(c, first.redis, first.db, x, u, messages[..k]),
             [Receive(messages[k])] + Commands(c, now.redis, x, messages[k]));
  }

  lemma Appended(a: seq<Input>, b: seq<Input>, more: seq<Input>)
    ensures a + b + more == a + (b + more)
  {}

  /** The session goes from one message to the next. */
  lemma OneMoreTaken(c: Config, start: View, x: SessionId, u: UserId, inputs: seq<Input>, m: ClientMessage)
    requires ServingAs(RunSession(c, start, x, inputs), u)
    ensures var v := RunSession(c, start, x, inputs);
      var w := RunSession(c, start, x, inputs + ([Receive(m)] + Commands(c, v.redis, x, m)));
      && ServingAs(w, u) && w.conns == v.conns && w.session.backlog == v.session.backlog
      && w.redis == Routed(c, v.redis, x, u, m) && w.db == Recorded(c, v.redis, v.db, x, u, m)
  {
    hide *;
    var v := RunSession(c, start, x, inputs);
    RouteIsSteps(c, v, x, u, m);
    RunSplit(c, start, x, inputs, [Receive(m)] + Commands(c, v.redis, x, m));
  }

  // ----- The endpoint -----

  lemma ServedAnswers(
    c: Config, redis: RedisState, db: Database, x: SessionId, u: UserId, messages: seq<ClientMessage>)
    ensures forall calls :: Find(redis.counters, Connection(x)) == After(c.ws, calls) ==>
      AnsweredBy(c.ws, calls, redis.now, messages, RoutedAll(c, redis, db, x, u, messages).responses)
  {
    hide After, AnsweredBy, RoutedAll;
    forall calls | Find(redis.counters, Connection(x)) == After(c.ws, calls)
      ensures AnsweredBy(c.ws, calls, redis.now, messages, RoutedAll(c, redis, db, x, u, messages).responses)
    {
      RoutedAnswers(c, redis, db, x, u, messages, calls);
    }
  }

  class WebsocketGateway {
    const config: Config
    const inst: InstanceId
    const redis: Redis
    const auth: WSTicketAuth
    const manager: ConnectionManager
    const registry: InstanceRegistry
    const presence: P.PresenceManager
    const router: MessageRouter
    const repository: NotificationRepository

    ghost predicate Wired()
      reads {}
    {
      && auth.redis == redis && registry.redis == redis && presence.store.redis == redis
      && presence.ttl == config.presenceTtl && auth.ttl == config.ticketTtl
      && router.Wired(config, redis) && router.repository == repository
    }

    constructor (config: Config, inst: InstanceId, redis: Redis, manager: ConnectionManager, session: Postgres)
      ensures this.config == config && this.inst == inst && this.redis == redis && this.manager == manager
      ensures repository.session == session && Wired()
    {
      this.config, this.inst, this.redis, this.manager := config, inst, redis, manager;
      var auth' := new WSTicketAuth(redis, config.ticketTtl);
      var registry' := new InstanceRegistry(redis);
      var store := new P.PresenceStore(redis);
      var presence' := new P.PresenceManager(store, config.presenceTtl);
      var limiter := new RateLimiter(redis, config.ws);
      var heartbeat := new HeartbeatHandler(presence', registry', config.presenceTtl);
      var repository' := new NotificationRepository(session);
      var router' := new MessageRouter(heartbeat, presence', limiter, repository');
      auth, registry, presence, router, repository := auth', registry', presence', router', repository';
    }

    ghost function Now(session: Session): View
      reads redis, repository.session, manager
    {
      View(redis.state, repository.session.db, manager.connections, session)
    }

    /** A client that connects with `ticket`, sends `messages` and disconnects. */
    method WebsocketEndpoint(x: SessionId, ticket: Ticket, messages: seq<ClientMessage>, ghost epoch: nat)
      returns (who: Option<UserId>, backlog: seq<Row>, responses: seq<Response>, ghost inputs: seq<Input>)
      requires Wired()
      modifies redis, repository.session, manager
      ensures var end := RunSession(config, old(Now(NewSession(inst, epoch, ticket))), x, inputs);
        && Now(end.session) == end && end.session.who == who
        && end.session.pc == (if who.Some? then Ended else Rejected)
        && (who.Some? ==> end.session.backlog == backlog && end.session.sent)
      ensures who.None? ==> responses == [] && inputs == [Go]
      ensures who.Some? ==>
        var ready := RunSession(config, old(Now(NewSession(inst, epoch, ticket))), x, [Go] + Opening(backlog));
        && responses == RoutedAll(config, ready.redis, ready.db, x, who.value, messages).responses
        && inputs == [Go] + Opening(backlog)
             + InputsFor(config, ready.redis, ready.db, x, who.value, messages) + CLOSING
      ensures who.Some? && Connection(x) !in old(redis.state).counters ==>
        AnsweredBy(config.ws, [], old(redis.state).now, messages, responses)
      ensures who.Some? ==>
        && PageOfBacklog(old(repository.session.db).rows, who.value, config.backlogLimit, backlog)
        && who.value !in manager.connections
        && who.value !in redis.state.directory.registry && who.value !in redis.state.directory.status
    {
      ghost var start := Now(NewSession(inst, epoch, ticket));
      backlog, responses, inputs := [], [], [];
      ghost var v := start;
      RunMore(config, start, x, inputs, Go);
      who := auth.RedeemTicket(ticket);
      inputs := inputs + [Go];
      v := StepView(config, v, x, Go);
      if who.None? {
        return;
      }
      backlog, inputs := Open(x, who.value, start, inputs);
      responses, inputs := Serve(x, who.value, messages, start, inputs);
      inputs := Close(x, who.value, start, inputs);
    }

    /** Add, register, mark online, send the backlog. */
    method Open(x: SessionId, u: UserId, ghost start: View, ghost before: seq<Input>)
      returns (backlog: seq<Row>, ghost inputs: seq<Input>)
      requires Wired()
      requires var v := RunSession(config, start, x, before);
        v == Now(v.session) && v.session.pc.Adding? && v.session.who == Some(u) && v.session.inst == inst
      modifies redis, repository.session, manager
      ensures var v := RunSession(config, start, x, inputs);
        v == Now(v.session) && ServingAs(v, u) && v.session.backlog == backlog
      ensures inputs == before + Opening(backlog)
      ensures PageOfBacklog(repository.session.db.rows, u, config.backlogLimit, backlog)
      ensures manager.connections == old(manager.connections)[u := x]
      ensures repository.session.db == old(repository.session.db)
      ensures redis.state == old(redis.state).(
        directory := Entered(old(redis.state).directory, old(redis.state).now, u, inst, config.presenceTtl))
    {
      ghost var v := RunSession(config, start, x, before);
      manager.Add(u, x);
      registry.Register(u, inst, config.presenceTtl);
      presence.MarkOnline(u);
      backlog := repository.GetUnreadBacklog(u, config.backlogLimit);
      EnteredMeans(old(redis.state).directory, old(redis.state).now, u, inst, config.presenceTtl);
      inputs := before + Opening(backlog);
      OpeningIsSteps(config, v, x, u, backlog);
      RunSplit(config, start, x, before, Opening(backlog));
      hide RunSession, IsPage, UnreadOf, PutEntry, P.MarkStatus, Entered, PageOfBacklog, Opening;
    }

    /** The message loop, until the client disconnects. */
    method Serve(x: SessionId, u: UserId, messages: seq<ClientMessage>, ghost start: View, ghost before: seq<Input>)
      returns (responses: seq<Response>, ghost inputs: seq<Input>)
      requires Wired()
      requires var v := RunSession(config, start, x, before); v == Now(v.session) && ServingAs(v, u)
      modifies redis, repository.session
      ensures var v := RunSession(config, start, x, inputs);
        && v == Now(v.session) && ServingAs(v, u)
        && v.session.backlog == RunSession(config, start, x, before).session.backlog
      ensures Exchange(redis.state, repository.session.db, responses) ==
        RoutedAll(config, old(redis.state), old(repository.session.db), x, u, messages)
      ensures inputs == before + InputsFor(config, old(redis.state), old(repository.session.db), x, u, messages)
      ensures forall calls :: Find(old(redis.state).counters, Connection(x)) == After(config.ws, calls) ==>
        AnsweredBy(config.ws, calls, old(redis.state).now, messages, responses)
    {
      ServedAnswers(config, redis.state, repository.session.db, x, u, messages);
      responses, inputs := [], before;
      var k := 0;
      ghost var first := Exchange(redis.state, repository.session.db, []);
      RoundsStart(config, start, before, x, u, first, manager.connections);
      assert messages[..0] == [];
      hide Round, Routed, Recorded, Responds, Commands;
      while k < |messages|
        invariant 0 <= k <= |messages|
        invariant Round(config, start, before, x, u, messages[..k], inputs, first,
                        Exchange(redis.state, repository.session.db, responses), manager.connections)
      {
        RoundGoesOn(config, start, before, x, u, messages, k, inputs, first,
                    Exchange(redis.state, repository.session.db, responses), manager.connections);
        inputs := inputs + ([Receive(messages[k])] + Commands(config, redis.state, x, messages[k]));
        var response := router.Route(config, redis, u, x, messages[k]);
        responses := responses + [response];
        k := k + 1;
      }
      assert messages[..k] == messages;
      RoundMeans(config, start, before, x, u, messages, inputs, first,
                 Exchange(redis.state, repository.session.db, responses), manager.connections);
    }

    /** The cleanup after the disconnect. */
    method Close(x: SessionId, u: UserId, ghost start: View, ghost before: seq<Input>)
      returns (ghost inputs: seq<Input>)
      requires Wired()
      requires var v := RunSession(config, start, x, before); v == Now(v.session) && ServingAs(v, u)
      modifies redis, manager
      ensures var v := RunSession(config, start, x, inputs);
        && v == Now(v.session) && v.session.pc.Ended? && v.session.who == Some(u) && v.session.sent
        && v.session.backlog == RunSession(config, start, x, before).session.backlog
      ensures u !in manager.connections
      ensures u !in redis.state.directory.registry && u !in redis.state.directory.status
      ensures manager.connections == old(manager.connections) - {u}
      ensures var (s, t) := (old(redis.state), redis.state); var d := s.directory;
        t == s.(directory := d.(registry := d.registry - {u}, status := d.status - {u}))
      ensures inputs == before + CLOSING
    {
      ghost var v := RunSession(config, start, x, before);
      manager.Remove(u);
      registry.Unregister(u);
      presence.MarkOffline(u);
      inputs := before + CLOSING;
      ClosingIsSteps(config, v, x, u);
      RunSplit(config, start, x, before, CLOSING);
      assert u !in redis.state.directory.registry && u !in redis.state.directory.status;
      hide RunSession, DropEntry, P.ClearStatus;
    }
  }

  // ----- The endpoint inside the whole system -----

  ghost function ViewOf(s: State, x: SessionId): View
    requires SessionLive(s, x)
  {
    View(s.redis, s.db, s.instances[s.sessions[x].inst].conns, s.sessions[x])
  }

  lemma ActIsStep(c: Config, s: State, x: SessionId, input: Input)
    requires SessionLive(s, x)
    ensures SessionLive(Acted(c, s, x, input), x)
    ensures ViewOf(Acted(c, s, x, input), x) == StepView(c, ViewOf(s, x), x, input)
  {
    StepPlace(c, s.redis, s.db, s.instances[s.sessions[x].inst].conns, x, s.sessions[x], input);
    hide SessionStep;
  }

  ghost function Acts(x: SessionId, inputs: seq<Input>): seq<Step> {
    seq(|inputs|, k requires 0 <= k < |inputs| => Act(x, inputs[k]))
  }

  /** From any state of the system, the session's steps with nothing in between do to the stores, to the instance's
      sockets and to the session what the endpoint does. */
  lemma {:induction false} SessionRunsInSystem(c: Config, s: State, x: SessionId, inputs: seq<Input>)
    requires SessionLive(s, x)
    ensures var t := Exec(c, s, Acts(x, inputs));
      SessionLive(t, x) && ViewOf(t, x) == RunSession(c, ViewOf(s, x), x, inputs)
  {
    if inputs == [] { return; }
    var n := |inputs| - 1;
    SessionRunsInSystem(c, s, x, inputs[..n]);
    var t := Exec(c, s, Acts(x, inputs[..n]));
    assert Acts(x, inputs)[..n] == Acts(x, inputs[..n]);
    assert Exec(c, s, Acts(x, inputs)) == Apply(c, t, Act(x, inputs[n]));
    assert RunSession(c, ViewOf(s, x), x, inputs) ==
      StepView(c, RunSession(c, ViewOf(s, x), x, inputs[..n]), x, inputs[n]);
    hide Acted, StepView, Exec, SessionLive, RunSession, Acts, Apply, ViewOf;
    ApplyAct(c, t, x, inputs[n]);
    ActIsStep(c, t, x, inputs[n]);
  }

  /** In every run, whatever else happens in between: the router limits a message exactly when it is not admitted in the
      sequence of the session's own messages, and answers an error exactly when it is admitted and malformed. */
  lemma AnswersInRuns(c: Config, s: State, x: SessionId, m: ClientMessage)
    requires Reachable(c, s) && x in s.sessions
    ensures var q, response := s.sessions[x], Responds(c, s.redis, x, m);
      var admitted := Admitted(c.ws, q.calls + [s.redis.now], |q.calls|);
      && Ordered(q.calls + [s.redis.now])
      && (response == RateLimited <==> !admitted) && (response == Error <==> admitted && m.OtherMessage?)
  {
    var steps :| s == Exec(c, INIT, steps);
    var q := s.sessions[x];
    Lim.Always(c, steps);
    hide Exec;
    assert Lim.CallsOk(c, s.redis.now, s.redis.counters, x, q);
    assert (q.calls + [s.redis.now])[..|q.calls|] == q.calls;
    hide After, Bump;
  }
}
