/** The notification platform as interleaved steps. One Redis command or one committed transaction is one step.
    A step that is not enabled changes nothing, so every sequence of steps is a run. */
module Protocol {
  import opened Model
  import opened TtlStore
  import opened RedisServer
  import opened RateLimiting
  import opened Registry
  import opened Repository
  import P = Presence

  datatype Config = Config(
    presenceTtl: nat, livenessTtl: nat, ticketTtl: nat, dedupTtl: nat, backlogLimit: nat, api: Policy, ws: Policy)

  // ----- POST /notifications -----

  datatype Body = Body(nid: NotificationId, user: UserId, kind: string, payload: string)

  datatype Reply = TooManyRequests | Reply(persisted: bool, live: bool)

  /** Where a request stands: the name of the command it runs next. */
  datatype PostPc =
    | Rating
    | Checking
    | Inserting
    | Marking(row: Option<Envelope>)
    | Looking(row0: Envelope)
    | Probing(row1: Envelope, owner1: InstanceId)
    | Publishing(row2: Envelope, owner2: InstanceId)
    | Flagging(row3: Envelope, owner3: InstanceId)
    | Replied(reply: Reply)
    | Failed

  /** `won` records that this request inserted the row; it stays set when the request fails later. */
  datatype Request = Request(inst: InstanceId, epoch: nat, caller: string, body: Body, pc: PostPc, won: bool)

  function NoteOf(b: Body, stamp: Time): Envelope {
    Envelope(b.nid, b.user, b.kind, b.payload, stamp)
  }

  /** One command of a request; `stamp` is the created_at the database would choose. */
  function PostStep(c: Config, redis: RedisState, db: Database, q: Request, stamp: Time)
    : (RedisState, Database, Request)
  {
    match q.pc
    case Rating =>
      var b := Find(redis.counters, Caller(q.caller));
      (redis.(counters := redis.counters[Caller(q.caller) := Bump(c.api, b, redis.now)]), db,
       q.(pc := if Admits(c.api, b, redis.now) then Checking else Replied(TooManyRequests)))
    case Checking =>
      (redis, db,
        q.(pc := if Exists(redis.dedup, redis.now, q.body.nid) then Replied(Reply(false, false)) else Inserting))
    case Inserting =>
      var (db', row) := Insert(db, NoteOf(q.body, stamp));
      (redis, db', q.(pc := Marking(row), won := row.Some?))
    case Marking(row) =>
      (redis.(dedup := SetEx(redis.dedup, redis.now, q.body.nid, "1", c.dedupTtl)), db,
       q.(pc := if row.None? then Replied(Reply(false, false)) else Looking(row.value)))
    case Looking(row) =>
      var owner := Lookup(redis, q.body.user);
      (redis, db, q.(pc := if owner.None? then Replied(Reply(true, false)) else Probing(row, owner.value)))
    case Probing(row, owner) =>
      (redis, db, q.(pc := if IsAlive(redis, owner) then Publishing(row, owner) else Replied(Reply(true, false))))
    case Publishing(row, owner) =>
      (redis.(channels := Publish(redis.channels, owner, q.body.user, row)), db, q.(pc := Flagging(row, owner)))
    case Flagging(row, owner) =>
      (redis, MarkLive(db, row.nid), q.(pc := Replied(Reply(true, true))))
    case Replied(_) => (redis, db, q)
    case Failed => (redis, db, q)
  }

  // ----- WS /ws -----

  datatype ClientMessage =
    | HeartbeatMessage
    | PresenceMessage(status: Status)
    | ReceiptMessage(nid: NotificationId)
    | OtherMessage

  /** What drives a session: its own next command, the backlog rows the database chose, a client message,
      a disconnect, or an exception in the command at hand. */
  datatype Input = Go | Page(rows: seq<Row>) | Receive(message: ClientMessage) | HangUp | Break

  datatype SessionPc =
    | Redeeming
    | Rejected
    | Adding
    | Registering
    | GoingOnline
    | Snapshotting
    | SendingBacklog
    | Serving
    | Beating
    | Refreshing
    | Updating(status: Status)
    | Receipting(nid: NotificationId, at: Time)
    | Removing
    | Unregistering
    | GoingOffline
    | Ended
    | Aborted(registered: bool)

  /** `who` is the redeemed user. The rest are records of the run: when the ticket was redeemed; when the session last
      set or refreshed the registry entry and the status, a refresh of a lapsed key being none; the status cell an
      earlier session had left when this one registered; the times of its rate-limited messages; the time it
      registered followed by those of its heartbeat messages; the table at its backlog query, and the backlog; whether
      the backlog frame was written. */
  datatype Session = Session(
    inst: InstanceId, epoch: nat, ticket: Ticket, pc: SessionPc, who: Option<UserId>,
    redeemedAt: Time, registeredAt: Time, keptAt: Time, leftover: Option<Cell<Status>>,
    calls: seq<Time>, beats: seq<Time>, snapshot: Option<seq<Row>>, backlog: seq<Row>, sent: bool)

  function NewSession(inst: InstanceId, epoch: nat, ticket: Ticket): Session {
    Session(inst, epoch, ticket, Redeeming, None, 0, 0, 0, None, [], [], None, [], false)
  }

  type Conns = map<UserId, SessionId>

  /** What an exception does: before the try block it ends the session with no cleanup, inside it the cleanup runs,
      and inside the cleanup it skips the rest. An aborted session may or may not have left its registry entry. */
  function AfterBreak(pc: SessionPc): SessionPc {
    match pc
    case Snapshotting | SendingBacklog | Serving | Beating | Refreshing | Updating(_) | Receipting(_, _) => Removing
    case Removing => Aborted(true)
    case GoingOnline | Unregistering => Aborted(true)
    case Redeeming | Adding | Registering | GoingOffline => Aborted(false)
    case Rejected | Ended | Aborted(_) => pc
  }

  function AfterMessage(message: ClientMessage, now: Time): SessionPc {
    match message
    case HeartbeatMessage => Beating
    case PresenceMessage(st) => Updating(st)
    case ReceiptMessage(n) => Receipting(n, now)
    case OtherMessage => Serving
  }

  /** The command a session of user `u` runs next, when it needs nothing from the client or the database. */
  function GoStep(c: Config, now: Time, d: Directory, db: Database, conns: Conns, x: SessionId, q: Session, u: UserId)
    : (Directory, Database, Conns, Session)
  {
    match q.pc
    case Adding => (d, db, conns[u := x], q.(pc := Registering))
    case Registering => (PutEntry(d, now, u, q.inst, c.presenceTtl), db, conns,
      q.(pc := GoingOnline, registeredAt := now, leftover := Find(d.status, u), beats := [now]))
    case GoingOnline => (P.MarkStatus(d, now, u, Online, c.presenceTtl), db, conns,
      q.(pc := Snapshotting, keptAt := now))
    case SendingBacklog => (d, db, conns, q.(pc := Serving, sent := true))
    case Beating => (P.RefreshStatus(d, now, u, c.presenceTtl), db, conns,
      q.(pc := Refreshing, keptAt := if Exists(d.status, now, u) then now else q.keptAt))
    case Refreshing => (RefreshEntry(d, now, u, c.presenceTtl), db, conns,
      q.(pc := Serving, registeredAt := if Exists(d.registry, now, u) then now else q.registeredAt))
    case Updating(st) => (P.MarkStatus(d, now, u, st, c.presenceTtl), db, conns, q.(pc := Serving, keptAt := now))
    case Receipting(n, at) => (d, RecordRead(db, n, u, at), conns, q.(pc := Serving))
    case Removing => (d, db, conns - {u}, q.(pc := Unregistering))
    case Unregistering => (DropEntry(d, u), db, conns, q.(pc := GoingOffline))
    case GoingOffline => (P.ClearStatus(d, u), db, conns, q.(pc := Ended))
    case _ => (d, db, conns, q)
  }

  function Redeem(redis: RedisState, q: Session): (RedisState, Session) {
    var who := Get(redis.tickets, redis.now, q.ticket);
    (redis.(tickets := Del(redis.tickets, q.ticket)),
     q.(who := who, redeemedAt := redis.now, pc := if who.None? then Rejected else Adding))
  }

  /** Every client message is counted first; a message over the limit is dropped. */
  function TakeMessage(c: Config, redis: RedisState, x: SessionId, q: Session, message: ClientMessage)
    : (RedisState, Session)
  {
    var b := Find(redis.counters, Connection(x));
    (redis.(counters := redis.counters[Connection(x) := Bump(c.ws, b, redis.now)]),
     q.(calls := q.calls + [redis.now],
        beats := if message.HeartbeatMessage? then q.beats + [redis.now] else q.beats,
        pc := if Admits(c.ws, b, redis.now) then AfterMessage(message, redis.now) else Serving))
  }

  ghost function SessionStep(
    c: Config, redis: RedisState, db: Database, conns: Conns, x: SessionId, q: Session, input: Input)
    : (RedisState, Database, Conns, Session)
  {
    match input
    case Break => (redis, db, conns, q.(pc := AfterBreak(q.pc)))
    case Go =>
      if q.pc.Redeeming? then
        var (redis', q') := Redeem(redis, q);
        (redis', db, conns, q')
      else if q.who.Some? then
        var (d, db', conns', q') := GoStep(c, redis.now, redis.directory, db, conns, x, q, q.who.value);
        (redis.(directory := d), db', conns', q')
      else (redis, db, conns, q)
    case Page(rows) =>
      if q.pc.Snapshotting? && q.who.Some? && IsPage(true, rows, UnreadOf(db.rows, q.who.value), c.backlogLimit)
      then (redis, db, conns, q.(pc := SendingBacklog, snapshot := Some(db.rows), backlog := rows))
      else (redis, db, conns, q)
    case Receive(message) =>
      if q.pc.Serving? then
        var (redis', q') := TakeMessage(c, redis, x, q, message);
        (redis', db, conns, q')
      else (redis, db, conns, q)
    case HangUp => (redis, db, conns, if q.pc.Serving? then q.(pc := Removing) else q)
  }

  // ----- The whole system -----

  /** `unregister` and `offline` are the closed users whose keys a stopping instance has yet to clear. */
  datatype Phase = Down | Running | Stopping(unregister: set<UserId>, offline: set<UserId>)

  /** `drops` records users whose socket here was dropped by a failed send, `aliveAt` the last liveness refresh. */
  datatype Instance = Instance(epoch: nat, phase: Phase, conns: Conns, drops: set<UserId>, aliveAt: Option<Time>)

  /** A message picked up by the listener and being written to the socket of session `x`. */
  datatype Delivery = Delivery(packet: Packet, x: SessionId)

  /** A live `notification` frame that reached the socket of session `x`. */
  datatype Frame = Frame(x: SessionId, note: Envelope)

  datatype Issue = Issue(user: UserId, at: Time)

  /** `frames`, `issued` and `latest` (the last session to register per user) are records of the run. */
  datatype State = State(
    redis: RedisState, db: Database,
    requests: map<RequestId, Request>, sessions: map<SessionId, Session>, instances: map<InstanceId, Instance>,
    sending: seq<Delivery>, frames: seq<Frame>, issued: map<Ticket, Issue>, latest: map<UserId, SessionId>)

  const INIT := State(EMPTY, Database([], []), map[], map[], map[], [], [], map[], map[])

  datatype Step =
    | Tick(elapsed: nat)
    | IssueTicket(ticket: Ticket, user: UserId)
    | Post(r: RequestId, inst: InstanceId, caller: string, body: Body)
    | Advance(r: RequestId, stamp: Time)
    | FailRequest(r: RequestId)
    | Connect(x: SessionId, inst: InstanceId, ticket: Ticket)
    | Act(x: SessionId, input: Input)
    | PickUp(k: nat)
    | Complete(k: nat, ok: bool)
    | LoseWire(k: nat)
    | LoseSending(k: nat)
    | Boot(inst: InstanceId)
    | Crash(inst: InstanceId)
    | KeepInstanceAlive(inst: InstanceId)
    | BeginShutdown(inst: InstanceId)
    | TearDownEntry(inst: InstanceId, user: UserId)
    | TearDownStatus(inst: InstanceId, user: UserId)

  predicate Up(s: State, i: InstanceId, epoch: nat) {
    i in s.instances && s.instances[i].epoch == epoch && !s.instances[i].phase.Down?
  }

  predicate RequestLive(s: State, r: RequestId) {
    r in s.requests && Up(s, s.requests[r].inst, s.requests[r].epoch)
  }

  predicate SessionLive(s: State, x: SessionId) {
    x in s.sessions && Up(s, s.sessions[x].inst, s.sessions[x].epoch)
  }

  predicate IsRunning(s: State, i: InstanceId) {
    i in s.instances && s.instances[i].phase.Running?
  }

  function Without<T>(xs: seq<T>, k: nat): seq<T>
    requires k < |xs|
  {
    xs[..k] + xs[k + 1..]
  }

  function Advanced(c: Config, s: State, r: RequestId, stamp: Time): State
    requires r in s.requests
  {
    var (redis, db, q) := PostStep(c, s.redis, s.db, s.requests[r], stamp);
    s.(redis := redis, db := db, requests := s.requests[r := q])
  }

  ghost function Acted(c: Config, s: State, x: SessionId, input: Input): State
    requires SessionLive(s, x)
  {
    var q := s.sessions[x];
    var i := s.instances[q.inst];
    var (redis, db, conns, q') := SessionStep(c, s.redis, s.db, i.conns, x, q, input);
    s.(redis := redis, db := db, sessions := s.sessions[x := q'],
       instances := s.instances[q.inst := i.(conns := conns,
         drops := if q.pc.Adding? && q'.pc.Registering? && q.who.Some? then i.drops - {q.who.value} else i.drops)],
       latest := if q.pc.Registering? && q'.pc.GoingOnline? && q.who.Some? then s.latest[q.who.value := x]
         else s.latest)
  }

  /** The listener takes the oldest message of its own subscription, one at a time. */
  predicate CanPickUp(s: State, k: nat) {
    && k < |s.redis.channels.wire|
    && var p := s.redis.channels.wire[k];
    && Up(s, p.inst, p.epoch)
    && (forall j :: 0 <= j < k ==> s.redis.channels.wire[j].inst != p.inst || s.redis.channels.wire[j].epoch != p.epoch)
    && (forall j :: 0 <= j < |s.sending| ==> s.sending[j].packet.inst != p.inst || s.sending[j].packet.epoch != p.epoch)
  }

  /** The user is not connected here: the message is dropped. */
  function PickedUp(s: State, k: nat): State
    requires CanPickUp(s, k)
  {
    var ch := s.redis.channels;
    var p := ch.wire[k];
    var conns := s.instances[p.inst].conns;
    if p.user in conns then
      s.(redis := s.redis.(channels := ch.(wire := Without(ch.wire, k))),
        sending := s.sending + [Delivery(p, conns[p.user])])
    else
      s.(redis := s.redis.(channels := ch.(wire := Without(ch.wire, k), lost := ch.lost + [p])))
  }

  /** A failed send drops whatever socket the user has here by now. */
  function Completed(s: State, k: nat, ok: bool): State
    requires k < |s.sending| && Up(s, s.sending[k].packet.inst, s.sending[k].packet.epoch)
  {
    var d := s.sending[k];
    var ch := s.redis.channels;
    if ok then
      s.(sending := Without(s.sending, k), frames := s.frames + [Frame(d.x, d.packet.note)])
    else
      var i := s.instances[d.packet.inst];
      s.(sending := Without(s.sending, k), redis := s.redis.(channels := ch.(lost := ch.lost + [d.packet])),
         instances := s.instances[d.packet.inst := i.(
           conns := i.conns - {d.packet.user}, drops := i.drops + {d.packet.user})])
  }

  function Booted(s: State, i: InstanceId): State {
    var inst := if i in s.instances
      then Instance(s.instances[i].epoch + 1, Running, map[], {}, s.instances[i].aliveAt)
      else Instance(0, Running, map[], {}, None);
    s.(instances := s.instances[i := inst],
       redis := s.redis.(channels := s.redis.channels.(subscribers := s.redis.channels.subscribers[i := inst.epoch])))
  }

  function Crashed(s: State, i: InstanceId): State
    requires i in s.instances
  {
    s.(instances := s.instances[i := s.instances[i].(phase := Down, conns := map[])],
       redis := s.redis.(channels := s.redis.channels.(subscribers := s.redis.channels.subscribers - {i})))
  }

  ghost function Apply(c: Config, s: State, step: Step): State {
    match step
    case Tick(d) => s.(redis := s.redis.(now := s.redis.now + d))
    case IssueTicket(t, u) =>
      if t in s.issued then s
      else s.(redis := s.redis.(tickets := SetEx(s.redis.tickets, s.redis.now, t, u, c.ticketTtl)),
              issued := s.issued[t := Issue(u, s.redis.now)])
    case Post(r, i, caller, body) =>
      if r in s.requests || !IsRunning(s, i) then s
      else s.(requests := s.requests[r := Request(i, s.instances[i].epoch, caller, body, Rating, false)])
    case Advance(r, stamp) => if RequestLive(s, r) then Advanced(c, s, r, stamp) else s
    case FailRequest(r) =>
      if r in s.requests && !s.requests[r].pc.Replied?
        then s.(requests := s.requests[r := s.requests[r].(pc := Failed)]) else s
    case Connect(x, i, t) =>
      if x in s.sessions || !IsRunning(s, i) then s
      else s.(sessions := s.sessions[x := NewSession(i, s.instances[i].epoch, t)])
    case Act(x, input) => if SessionLive(s, x) then Acted(c, s, x, input) else s
    case PickUp(k) => if CanPickUp(s, k) then PickedUp(s, k) else s
    case Complete(k, ok) =>
      if k < |s.sending| && Up(s, s.sending[k].packet.inst, s.sending[k].packet.epoch) then Completed(s, k, ok) else s
    case LoseWire(k) =>
      var ch := s.redis.channels;
      if k < |ch.wire|
      then s.(redis := s.redis.(channels := ch.(wire := Without(ch.wire, k), lost := ch.lost + [ch.wire[k]]))) else s
    case LoseSending(k) =>
      var ch := s.redis.channels;
      if k < |s.sending| && !Up(s, s.sending[k].packet.inst, s.sending[k].packet.epoch)
      then s.(sending := Without(s.sending, k),
        redis := s.redis.(channels := ch.(lost := ch.lost + [s.sending[k].packet]))) else s
    case Boot(i) => if i in s.instances && !s.instances[i].phase.Down? then s else Booted(s, i)
    case Crash(i) => if i in s.instances then Crashed(s, i) else s
    case KeepInstanceAlive(i) =>
      if i in s.instances && !s.instances[i].phase.Down?
      then s.(redis := KeepAlive(s.redis, i, c.livenessTtl),
              instances := s.instances[i := s.instances[i].(aliveAt := Some(s.redis.now))]) else s
    case BeginShutdown(i) =>
      if IsRunning(s, i)
      then s.(instances := s.instances[i := s.instances[i].(
                phase := Stopping(s.instances[i].conns.Keys, s.instances[i].conns.Keys), conns := map[])]) else s
    case TearDownEntry(i, u) =>
      if i in s.instances && s.instances[i].phase.Stopping? && u in s.instances[i].phase.unregister
      then s.(redis := s.redis.(directory := DropEntry(s.redis.directory, u)),
        instances := s.instances[i := s.instances[i].(
                phase := s.instances[i].phase.(unregister := s.instances[i].phase.unregister - {u}))]) else s
    case TearDownStatus(i, u) =>
      if i in s.instances && s.instances[i].phase.Stopping? && u in s.instances[i].phase.offline &&
         u !in s.instances[i].phase.unregister
      then s.(redis := s.redis.(directory := P.ClearStatus(s.redis.directory, u)),
        instances := s.instances[i := s.instances[i].(
                phase := s.instances[i].phase.(offline := s.instances[i].phase.offline - {u}))]) else s
  }

  ghost function Exec(c: Config, s: State, steps: seq<Step>): State {
    if steps == [] then s else Apply(c, Exec(c, s, steps[..|steps| - 1]), steps[|steps| - 1])
  }

  /** Some run from the start leads to this state. */
  ghost predicate Reachable(c: Config, s: State) {
    exists steps :: s == Exec(c, INIT, steps)
  }

  /** The state after the first `k` steps of a run from the start. */
  ghost function At(c: Config, steps: seq<Step>, k: nat): State
    requires k <= |steps|
  {
    Exec(c, INIT, steps[..k])
  }
}
