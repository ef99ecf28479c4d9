/** POST /notifications, as one uninterrupted request. */
module Notifications {
  import opened Model
  import opened TtlStore
  import opened RedisServer
  import opened RateLimiting
  import opened Registry
  import opened Repository
  import opened Protocol
  import opened Credentials
  import opened Messaging

  /** Where a request and the stores stand. */
  datatype Progress = Progress(redis: RedisState, db: Database, request: Request)

  function Next(c: Config, p: Progress, stamp: Time): Progress {
    var (redis, db, q) := PostStep(c, p.redis, p.db, p.request, stamp);
    Progress(redis, db, q)
  }

  /** `n` commands of the request in a row, nothing else in between. */
  function Run(c: Config, p: Progress, stamp: Time, n: nat): Progress {
    if n == 0 then p else Next(c, Run(c, p, stamp, n - 1), stamp)
  }

  /** The longest path is the one that publishes. */
  const COMMANDS := 8

  lemma RepliedStays(c: Config, p: Progress, stamp: Time)
    requires p.request.pc.Replied?
    ensures Next(c, p, stamp) == p
  {}

  lemma {:induction false} RunFinished(c: Config, p: Progress, stamp: Time, k: nat, n: nat)
    requires k <= n && Run(c, p, stamp, k).request.pc.Replied?
    ensures Run(c, p, stamp, n) == Run(c, p, stamp, k)
    decreases n
  {
    hide Next;
    if k < n {
      RunFinished(c, p, stamp, k, n - 1);
      RepliedStays(c, Run(c, p, stamp, n - 1), stamp);
    }
  }

  class NotificationsApi {
    const config: Config
    const redis: Redis
    const limiter: RateLimiter
    const guard: IdempotencyGuard
    const repository: NotificationRepository
    const registry: InstanceRegistry
    const publisher: Publisher

    ghost predicate Wired()
      reads {}
    {
      && limiter.redis == redis && guard.redis == redis && registry.redis == redis && publisher.redis == redis
      && limiter.policy == config.api && guard.ttl == config.dedupTtl
    }

    constructor (config: Config, redis: Redis, session: Postgres)
      ensures this.config == config && this.redis == redis && repository.session == session && Wired()
    {
      this.config, this.redis := config, redis;
      limiter := new RateLimiter(redis, config.api);
      guard := new IdempotencyGuard(redis, config.dedupTtl);
      repository := new NotificationRepository(session);
      registry := new InstanceRegistry(redis);
      publisher := new Publisher(redis);
    }

    /** `stamp` is the created_at the database gives the row. */
    method CreateNotification(body: Body, caller: string, stamp: Time, ghost q: Request) returns (reply: Reply)
      requires Wired() && q.pc.Rating? && q.body == body && q.caller == caller
      modifies redis, repository.session
      ensures var done := Run(config, Progress(old(redis.state), old(repository.session.db), q), stamp, COMMANDS);
        && redis.state == done.redis && repository.session.db == done.db && done.request.pc == Replied(reply)
      ensures !q.won ==>
        var p := Progress(old(redis.state), old(repository.session.db), q);
        && reply == Expected(config, p)
        && redis.state.counters == Counted(config, p) && redis.state.dedup == Remembered(config, p)
        && repository.session.db ==
           if Allowed(config, p) && New(p) then p.db.(rows := p.db.rows + [Written(p, stamp)]) else p.db
    {
      ghost var start := Progress(redis.state, repository.session.db, q);
      if !q.won { UninterruptedRequest(config, start, stamp); }
      hide Counted, Remembered, Written, Expected, New, Allowed;
      var allowed := limiter.Allow(Caller(caller));
      if !allowed {
        RunFinished(config, start, stamp, 1, COMMANDS);
        return TooManyRequests;
      }
      var seen := guard.HasSeen(body.nid);
      ghost var checking := Progress(redis.state, repository.session.db, q.(pc := Checking));
      assert Run(config, start, stamp, 1) == Next(config, start, stamp) == checking;
      assert Run(config, start, stamp, 2) == Next(config, checking, stamp) ==
        Progress(redis.state, repository.session.db,
          q.(pc := if seen then Replied(Reply(false, false)) else Inserting));
      if seen {
        RunFinished(config, start, stamp, 2, COMMANDS);
        return Reply(false, false);
      }
      var row := repository.Create(NoteOf(body, stamp));
      guard.MarkSeen(body.nid);
      ghost var p := Run(config, start, stamp, 2);
      assert Next(config, p, stamp).request.pc == Marking(row);
      assert Run(config, start, stamp, 4) == Next(config, Next(config, p, stamp), stamp);
      assert Run(config, start, stamp, 4).request.pc == if row.None? then Replied(Reply(false, false))
        else Looking(row.value);
      if row.None? {
        RunFinished(config, start, stamp, 4, COMMANDS);
        return Reply(false, false);
      }
      var live := Deliver(body.user, row.value, stamp, start);
      reply := Reply(true, live);
    }

    /** The second half: look the owner up, check it is alive, publish, and flag the row. */
    method Deliver(u: UserId, row: Envelope, stamp: Time, ghost start: Progress) returns (live: bool)
      requires Wired()
      requires var p := Run(config, start, stamp, 4);
        && p.redis == redis.state && p.db == repository.session.db && p.request.pc == Looking(row)
           && p.request.body.user == u
      modifies redis, repository.session
      ensures var done := Run(config, start, stamp, COMMANDS);
        && redis.state == done.redis && repository.session.db == done.db
           && done.request.pc == Replied(Reply(true, live))
    {
      ghost var p := Run(config, start, stamp, 4);
      live := false;
      var owner := Lookup(redis.state, u);
      assert Run(config, start, stamp, 5) == Next(config, p, stamp);
      assert owner.None? ==>
        Run(config, start, stamp, 5) == p.(request := p.request.(pc := Replied(Reply(true, false))));
      if owner.None? {
        RunFinished(config, start, stamp, 5, COMMANDS);
      }
      if owner.Some? {
        var alive := IsAlive(redis.state, owner.value);
        assert Run(config, start, stamp, 6) == Next(config, Next(config, p, stamp), stamp);
        if !alive {
          assert Run(config, start, stamp, 6) == p.(request := p.request.(pc := Replied(Reply(true, false))));
          RunFinished(config, start, stamp, 6, COMMANDS);
          owner := None;
        }
      }
      if owner.Some? {
        ghost var q := Run(config, start, stamp, 6);
        assert q == p.(request := p.request.(pc := Publishing(row, owner.value)));
        publisher.PublishToInstance(owner.value, u, row);
        repository.MarkDeliveredLive(row.nid);
        live := true;
        assert Run(config, start, stamp, 8) == Next(config, Next(config, q, stamp), stamp);
      }
    }
  }

  // ----- What an uninterrupted request comes to -----

  /** The caller is within its limit. */
  predicate Allowed(c: Config, p: Progress) {
    Admits(c.api, Find(p.redis.counters, Caller(p.request.caller)), p.redis.now)
  }

  /** Neither the cache nor the table knows the id. */
  predicate New(p: Progress) {
    !Exists(p.redis.dedup, p.redis.now, p.request.body.nid) && !HasRow(p.db.rows, p.request.body.nid)
  }

  /** The user's instance, when there is one and it is alive. */
  function Route(p: Progress): Option<InstanceId> {
    var owner := Lookup(p.redis, p.request.body.user);
    if owner.Some? && IsAlive(p.redis, owner.value) then owner else None
  }

  function Expected(c: Config, p: Progress): Reply {
    if !Allowed(c, p) then TooManyRequests else Reply(New(p), New(p) && Route(p).Some?)
  }

  /** The row of a notification that is new, as the request leaves it. */
  function Written(p: Progress, stamp: Time): Row {
    var b := p.request.body;
    Row(Envelope(b.nid, b.user, b.kind, b.payload, stamp), Route(p).Some?, None)
  }

  /** The counters afterwards: the caller has one call more, whatever it is answered. */
  function Counted(c: Config, p: Progress): Store<LimitKey, nat> {
    var key := Caller(p.request.caller);
    p.redis.counters[key := Bump(c.api, Find(p.redis.counters, key), p.redis.now)]
  }

  /** The dedup keys afterwards: an id that was let through and not seen is seen, for a TTL. */
  function Remembered(c: Config, p: Progress): Store<NotificationId, string> {
    var n := p.request.body.nid;
    if Allowed(c, p) && !Exists(p.redis.dedup, p.redis.now, n)
    then p.redis.dedup[n := Cell("1", Some(p.redis.now + c.dedupTtl))] else p.redis.dedup
  }

  lemma FlagLast(rows: seq<Row>, note: Envelope)
    requires !HasRow(rows, note.nid)
    ensures SetLive(rows + [Row(note, false, None)], note.nid) == rows + [Row(note, true, None)]
  {
    var after := SetLive(rows + [Row(note, false, None)], note.nid);
    forall k | 0 <= k < |rows| ensures after[k] == rows[k] {
      assert rows[k].note.nid != note.nid;
    }
  }

  lemma FirstHalf(c: Config, p: Progress, stamp: Time)
    requires p.request.pc.Rating? && !p.request.won && Allowed(c, p)
    ensures var h, note := Run(c, p, stamp, 4), NoteOf(p.request.body, stamp);
      && h.redis == p.redis.(counters := Counted(c, p), dedup := Remembered(c, p))
      && h.db == (if New(p) then p.db.(rows := p.db.rows + [Row(note, false, None)]) else p.db)
      && h.request == p.request.(pc := if New(p) then Looking(note) else Replied(Reply(false, false)), won := New(p))
  {
    var p1 := Next(c, p, stamp);
    assert p1 == p.(redis := p1.redis, request := p.request.(pc := Checking));
    var p2 := Next(c, p1, stamp);
    var p3 := Next(c, p2, stamp);
    assert Run(c, p, stamp, 1) == p1;
    assert Run(c, p, stamp, 2) == p2;
    assert Run(c, p, stamp, 3) == p3;
    if Exists(p.redis.dedup, p.redis.now, p.request.body.nid) {
      RunFinished(c, p, stamp, 2, 4);
    } else {
      assert Run(c, p, stamp, 4) == Next(c, p3, stamp);
    }
    hide Bump, Admits;
  }

  lemma SecondHalf(c: Config, p: Progress, stamp: Time, row: Envelope)
    requires p.request.pc == Looking(row)
    ensures var d, route := Run(c, p, stamp, 4), Route(p);
      && d.request.pc == Replied(Reply(true, route.Some?))
      && d.db == (if route.Some? then MarkLive(p.db, row.nid) else p.db)
      && d.redis == if route.Some?
           then p.redis.(channels := Publish(p.redis.channels, route.value, p.request.body.user, row)) else p.redis
  {
    var p1 := Next(c, p, stamp);
    assert Run(c, p, stamp, 1) == p1;
    if p1.request.pc.Replied? {
      RunFinished(c, p, stamp, 1, 4);
    } else {
      var p2 := Next(c, p1, stamp);
      assert Run(c, p, stamp, 2) == p2;
      if p2.request.pc.Replied? {
        RunFinished(c, p, stamp, 2, 4);
      } else {
        assert Run(c, p, stamp, 4) == Next(c, Next(c, p2, stamp), stamp);
      }
    }
    hide Publish, MarkLive;
  }

  lemma {:induction false} RunSplit(c: Config, p: Progress, stamp: Time, m: nat, n: nat)
    ensures Run(c, p, stamp, m + n) == Run(c, Run(c, p, stamp, m), stamp, n)
    decreases n
  {
    hide Next;
    if n > 0 {
      RunSplit(c, p, stamp, m, n - 1);
      assert m + n - 1 == m + (n - 1);
    }
  }

  /** The reply, the table and everything in Redis after a request nobody interrupts, from what was there before it. */
  lemma UninterruptedRequest(c: Config, p: Progress, stamp: Time)
    requires p.request.pc.Rating? && !p.request.won
    ensures var done, inserted := Run(c, p, stamp, COMMANDS), Allowed(c, p) && New(p);
      && done.request.pc == Replied(Expected(c, p))
      && done.db == (if inserted then p.db.(rows := p.db.rows + [Written(p, stamp)]) else p.db)
      && done.redis ==
         p.redis.(counters := Counted(c, p), dedup := Remembered(c, p), channels := done.redis.channels)
      && done.redis.channels ==
           if inserted && Route(p).Some?
           then Publish(p.redis.channels, Route(p).value, p.request.body.user, Written(p, stamp).note)
           else p.redis.channels
  {
    if !Allowed(c, p) {
      var p1 := Next(c, p, stamp);
      assert Run(c, p, stamp, 1) == p1 && p1 == p.(redis := p1.redis, request := p1.request)
        && p1.redis.channels == p.redis.channels;
      RunFinished(c, p, stamp, 1, COMMANDS);
      return;
    }
    FirstHalf(c, p, stamp);
    var h := Run(c, p, stamp, 4);
    hide Run, Next, Publish, Allowed;
    if New(p) {
      RunSplit(c, p, stamp, 4, 4);
      SecondHalf(c, h, stamp, h.request.pc.row0);
      assert Route(h) == Route(p);
      FlagLast(p.db.rows, NoteOf(p.request.body, stamp));
    } else {
      RunFinished(c, p, stamp, 4, COMMANDS);
    }
  }

  /** Once a request was answered, and not with 429, a retry changes no row and publishes nothing, whenever it comes and
      whatever was inserted, flagged or read in between; the cache need only be honest about the id. */
  lemma RetryIsNoOp(c: Config, p: Progress, stamp: Time, retry: Progress, stamp': Time)
    requires p.request.pc.Rating? && !p.request.won && retry.request.pc.Rating? && !retry.request.won
    requires retry.request.body.nid == p.request.body.nid
    requires var done := Run(c, p, stamp, COMMANDS);
      Expected(c, p).Reply? && Preserves(done.db.rows, retry.db.rows)
        && (New(p) || HasRow(p.db.rows, p.request.body.nid))
    ensures var again := Run(c, retry, stamp', COMMANDS);
      && again.request.pc in {Replied(TooManyRequests), Replied(Reply(false, false))}
      && again.db == retry.db && again.redis.channels == retry.redis.channels
  {
    UninterruptedRequest(c, p, stamp);
    UninterruptedRequest(c, retry, stamp');
    var rows, n := Run(c, p, stamp, COMMANDS).db.rows, p.request.body.nid;
    hide Run, Publish, Route, Allowed;
    if New(p) { assert rows[|p.db.rows|].note.nid == n; }
    assert HasRow(rows, n);
    var k :| 0 <= k < |rows| && rows[k].note.nid == n;
    assert retry.db.rows[k].note.nid == n;
  }

  // ----- The endpoint inside the whole system -----

  ghost function ProgressOf(s: State, r: RequestId): Progress
    requires r in s.requests
  {
    Progress(s.redis, s.db, s.requests[r])
  }

  lemma AdvanceIsNext(c: Config, s: State, r: RequestId, stamp: Time)
    requires RequestLive(s, r)
    ensures RequestLive(Advanced(c, s, r, stamp), r)
    ensures ProgressOf(Advanced(c, s, r, stamp), r) == Next(c, ProgressOf(s, r), stamp)
  {
    SameProcess(c, s.redis, s.db, s.requests[r], stamp);
    hide PostStep;
  }

  lemma SameProcess(c: Config, redis: RedisState, db: Database, q: Request, stamp: Time)
    ensures var q' := PostStep(c, redis, db, q, stamp).2; q'.inst == q.inst && q'.epoch == q.epoch
  {
    hide Insert, MarkLive, Publish, Bump, Admits;
    match q.pc
    case Rating =>
    case Checking =>
    case Inserting =>
    case Marking(_) =>
    case Looking(_) =>
    case Probing(_, _) =>
    case Publishing(_, _) =>
    case Flagging(_, _) =>
    case Replied(_) =>
    case Failed =>
  }

  ghost function Advances(r: RequestId, stamp: Time, n: nat): seq<Step> {
    seq(n, _ => Advance(r, stamp))
  }

  /** From any state of the system, the request's steps with nothing in between do to the stores what the endpoint
      does. */
  lemma {:induction false} RequestRunsInSystem(c: Config, s: State, r: RequestId, stamp: Time, n: nat)
    requires RequestLive(s, r)
    ensures var t := Exec(c, s, Advances(r, stamp, n));
      RequestLive(t, r) && ProgressOf(t, r) == Run(c, ProgressOf(s, r), stamp, n)
  {
    if n == 0 { return; }
    RequestRunsInSystem(c, s, r, stamp, n - 1);
    var t := Exec(c, s, Advances(r, stamp, n - 1));
    assert Advances(r, stamp, n)[..n - 1] == Advances(r, stamp, n - 1);
    assert Exec(c, s, Advances(r, stamp, n)) == Apply(c, t, Advance(r, stamp));
    AdvanceIsNext(c, t, r, stamp);
    hide Advanced, Next, Exec, RequestLive;
  }
}
