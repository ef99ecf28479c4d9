/** No gap between backlog and live: every completed notification reaches a session one way or the other. */
module Coverage {
  import opened Model
  import opened TtlStore
  import opened RedisServer
  import opened RateLimiting
  import opened Registry
  import opened Repository
  import opened Protocol
  import opened Frames
  import opened Effects
  import opened Processes
  import opened Reachability
  import opened Snapshots
  import D = Delivery
  import L = Liveness
  import T = Tickets

  /** Past the backlog query and not yet on its way out. */
  ghost predicate Watching(q: Session) {
    q.snapshot.Some? && Connected(q.pc)
  }

  /** A message for `n` was published to this subscription of this instance. */
  ghost predicate SentTo(published: seq<Packet>, n: NotificationId, i: InstanceId, epoch: nat) {
    exists k ::
      0 <= k < |published| && published[k].note.nid == n && published[k].inst == i && published[k].epoch == epoch
  }

  /** A request that committed its row after the session looked is on its way to the session's instance or got there. */
  ghost predicate Reaches(published: seq<Packet>, q: Session, r: Request) {
    match r.pc
    case Marking(row) => row.Some?
    case Looking(_) => true
    case Probing(_, owner) => owner == q.inst
    case Publishing(_, owner) => owner == q.inst
    case Flagging(_, _) => SentTo(published, r.body.nid, q.inst, q.epoch)
    case Replied(_) => SentTo(published, r.body.nid, q.inst, q.epoch)
    case Failed => true
    case _ => false
  }

  ghost predicate CoveredRequest(published: seq<Packet>, q: Session, r: Request) {
    q.snapshot.Some? && (HasRow(q.snapshot.value, r.body.nid) || Reaches(published, q, r))
  }

  ghost predicate AllCovered(published: seq<Packet>, requests: map<RequestId, Request>, q: Session, u: UserId) {
    forall r ::
      r in requests && requests[r].won && requests[r].body.user == u ==> CoveredRequest(published, q, requests[r])
  }

  ghost predicate Inv(s: State, x: SessionId, u: UserId) {
    SessionLive(s, x) && s.sessions[x].who == Some(u) && Watching(s.sessions[x]) ==>
      AllCovered(s.redis.channels.published, s.requests, s.sessions[x], u)
  }

  /** While the session is being served, its entry and its process's liveness key were refreshed less than a TTL ago. */
  ghost predicate Findable(c: Config, s: State, x: SessionId, u: UserId) {
    SessionLive(s, x) && s.sessions[x].who == Some(u) && Watching(s.sessions[x]) ==>
      var q := s.sessions[x]; var alive := s.instances[q.inst].aliveAt;
      && s.redis.now < q.registeredAt + c.presenceTtl
      && alive.Some? && s.redis.now < alive.value + c.livenessTtl
  }

  /** Never overlapping, and findable while served, at every moment of a run to this state. */
  ghost predicate ReachedFindable(c: Config, s: State, x: SessionId, u: UserId) {
    exists steps :: s == Exec(c, INIT, steps) && FindableRun(c, steps, x, u)
  }

  ghost predicate FindableRun(c: Config, steps: seq<Step>, x: SessionId, u: UserId) {
    NoOverlapRun(c, steps, x, u) && forall k :: 0 <= k <= |steps| ==> Findable(c, At(c, steps, k), x, u)
  }

  // ----- A request's step -----

  /** What the session's being found and alive makes of the lookup, the check and the publish. */
  ghost predicate Found(s: State, q: Session, u: UserId) {
    && Lookup(s.redis, u) == Some(q.inst) && IsAlive(s.redis, q.inst)
    && q.inst in s.redis.channels.subscribers && s.redis.channels.subscribers[q.inst] == q.epoch
  }

  lemma AdvanceReaches(c: Config, s: State, r: RequestId, stamp: Time, q: Session, u: UserId)
    requires r in s.requests && s.requests[r].body.user == u && Found(s, q, u) && q.snapshot.Some?
    requires D.RequestOk(s.db.rows, s.redis.channels.published, s.requests[r])
    requires s.requests[r].won ==> CoveredRequest(s.redis.channels.published, q, s.requests[r])
    ensures var t := Advanced(c, s, r, stamp);
      r in t.requests && (t.requests[r].won ==> CoveredRequest(t.redis.channels.published, q, t.requests[r]))
  {
    PublishedGrows(c, s, r, stamp);
    if !HasRow(q.snapshot.value, s.requests[r].body.nid) {
      NextReaches(c, s, s.requests[r], stamp, q, u);
    }
    hide PostStep, HasRow, Reaches, Found, D.RequestOk;
  }

  /** The request's next command takes it towards the session's channel, never to a reply that skips the publish. */
  lemma NextReaches(c: Config, s: State, r: Request, stamp: Time, q: Session, u: UserId)
    requires r.body.user == u && Found(s, q, u)
    requires D.RequestOk(s.db.rows, s.redis.channels.published, r)
    requires r.won ==> Reaches(s.redis.channels.published, q, r)
    ensures var (redis', db', r') := PostStep(c, s.redis, s.db, r, stamp);
      r'.won ==> Reaches(redis'.channels.published, q, r')
  {
    hide Admits, Bump, MarkLive, HasRow, D.RowIs, D.PublishedTo, D.Unpublished;
    match r.pc
    case Rating =>
    case Checking =>
    case Inserting =>
    case Marking(_) =>
    case Looking(_) =>
    case Probing(_, _) =>
    case Publishing(row, owner) =>
      var ch := s.redis.channels;
      assert Publish(ch, owner, u, row).published[|ch.published|] == Packet(owner, q.epoch, u, row);
    case Flagging(_, _) =>
    case Replied(_) =>
    case Failed =>
  }

  lemma StaysCovered(published: seq<Packet>, more: seq<Packet>, q: Session, r: Request)
    requires CoveredRequest(published, q, r) && published <= more
    ensures CoveredRequest(more, q, r)
  {
    assert forall k :: 0 <= k < |published| ==> more[k] == published[k];
  }

  lemma PublishedGrows(c: Config, s: State, r: RequestId, stamp: Time)
    requires r in s.requests
    ensures s.redis.channels.published <= Advanced(c, s, r, stamp).redis.channels.published
    ensures var t := Advanced(c, s, r, stamp);
      r in t.requests && t.requests == s.requests[r := t.requests[r]] && t.requests[r].body == s.requests[r].body
  {
    PostGrows(c, s.redis, s.db, s.requests[r], stamp);
    hide PostStep;
  }

  lemma PostGrows(c: Config, redis: RedisState, db: Database, r: Request, stamp: Time)
    ensures var (redis', db', r') := PostStep(c, redis, db, r, stamp);
      redis.channels.published <= redis'.channels.published && r'.body == r.body
  {
    hide Admits, Bump, MarkLive, Insert, Lookup, IsAlive;
    match r.pc
    case Rating =>
    case Checking =>
    case Inserting =>
    case Marking(_) =>
    case Looking(_) =>
    case Probing(_, _) =>
    case Publishing(_, _) =>
    case Flagging(_, _) =>
    case Replied(_) =>
    case Failed =>
  }

  lemma FoundNow(c: Config, s: State, x: SessionId, u: UserId)
    requires Held(c, s, x, u) && Findable(c, s, x, u) && L.Inv(c, s)
    requires SessionLive(s, x) && s.sessions[x].who == Some(u) && Watching(s.sessions[x])
    ensures Found(s, s.sessions[x], u)
  {
    hide StatusOk, SocketOk;
  }

  lemma AdvanceKeeps(c: Config, s: State, r: RequestId, stamp: Time, x: SessionId, u: UserId)
    requires Inv(s, x, u) && D.Inv(s) && Held(c, s, x, u) && Findable(c, s, x, u) && L.Inv(c, s) && r in s.requests
    ensures Inv(Advanced(c, s, r, stamp), x, u)
  {
    var t := Advanced(c, s, r, stamp);
    AdvanceFrame(c, s, r, stamp);
    if !SessionLive(t, x) || s.sessions[x].who != Some(u) || !Watching(s.sessions[x]) { return; }
    var q := s.sessions[x];
    FoundNow(c, s, x, u);
    assert D.RequestOk(s.db.rows, s.redis.channels.published, s.requests[r]);
    PublishedGrows(c, s, r, stamp);
    hide Advanced, D.Inv, D.RequestOk, Held, Findable, L.Inv, Connected, Found, CoveredRequest;
    forall r' | r' in t.requests && t.requests[r'].won && t.requests[r'].body.user == u
      ensures CoveredRequest(t.redis.channels.published, q, t.requests[r'])
    {
      if r' == r {
        AdvanceReaches(c, s, r, stamp, q, u);
      } else {
        StaysCovered(s.redis.channels.published, t.redis.channels.published, q, s.requests[r']);
      }
    }
  }

  // ----- A session's step -----

  /** The query sees every row committed so far. */
  lemma LookingCovers(s: State, q: Session, u: UserId)
    requires D.Inv(s) && q.snapshot == Some(s.db.rows)
    ensures AllCovered(s.redis.channels.published, s.requests, q, u)
  {
    hide D.RequestOk, Reaches, HasRow;
    forall r | r in s.requests && s.requests[r].won && s.requests[r].body.user == u
      ensures CoveredRequest(s.redis.channels.published, q, s.requests[r])
    {
      D.WinnerHasRow(s.db.rows, s.redis.channels.published, s.requests[r]);
    }
  }

  lemma WatchingMoves(c: Config, redis: RedisState, db: Database, x: SessionId, q: Session, input: Input, q': Session)
    requires Moves(c, redis, db, x, q, input, q') && !T.Redeems(q, input) && Watching(q')
    requires q.snapshot.Some? ==> !Early(q.pc)
    ensures (q'.snapshot == q.snapshot && Watching(q)) || q'.snapshot == Some(db.rows)
  {
    match input
    case Break =>
    case Go =>
      PcCases(q.pc);
    case Page(_) =>
    case Receive(_) =>
    case HangUp =>
  }

  /** Coverage depends on what the session saw and where its socket is, nothing else. */
  lemma SameView(published: seq<Packet>, requests: map<RequestId, Request>, q: Session, q': Session, u: UserId)
    requires AllCovered(published, requests, q, u)
    requires q'.snapshot == q.snapshot && q'.inst == q.inst && q'.epoch == q.epoch
    ensures AllCovered(published, requests, q', u)
  {
    hide HasRow, SentTo;
    forall r | r in requests && requests[r].won && requests[r].body.user == u
      ensures CoveredRequest(published, q', requests[r])
    {
      assert CoveredRequest(published, q, requests[r]);
    }
  }

  lemma OwnStep(c: Config, s: State, x: SessionId, input: Input, u: UserId)
    requires Inv(s, x, u) && D.Inv(s) && SessionLive(s, x) && SnapshotOk(c, s.db.rows, s.sessions[x])
    ensures Inv(Acted(c, s, x, input), x, u)
  {
    var q, t := s.sessions[x], Acted(c, s, x, input);
    ActFrame(c, s, x, input);
    ActEffects(c, s, x, input);
    var q' := t.sessions[x];
    if T.Redeems(q, input) { assert q'.snapshot.None?; return; }
    T.ActIdentity(c, s, x, input);
    hide Acted, AllCovered, Connected, D.Inv;
    if !Watching(q') { return; }
    WatchingMoves(c, s.redis, s.db, x, q, input, q');
    hide Moves;
    if q'.snapshot == Some(s.db.rows) {
      LookingCovers(s, q', u);
    } else if q'.who == Some(u) {
      SameView(s.redis.channels.published, s.requests, q, q', u);
    }
  }

  // ----- Every step -----

  /** A request that is new, has failed or is untouched cannot break coverage. */
  lemma QuietKeeps(s: State, t: State, x: SessionId, u: UserId)
    requires Inv(s, x, u)
    requires SessionLive(t, x) && t.sessions[x].snapshot.Some? ==> SessionLive(s, x) && t.sessions[x] == s.sessions[x]
    requires t.redis.channels.published == s.redis.channels.published
    requires forall r :: r in t.requests && t.requests[r].won ==>
      r in s.requests && (t.requests[r] == s.requests[r] || t.requests[r] == s.requests[r].(pc := Failed))
    ensures Inv(t, x, u)
  {
    hide HasRow, SentTo, Connected;
  }

  lemma RestMoves(c: Config, s: State, step: Step)
    requires !step.Advance?
    ensures var t := Apply(c, s, step);
      && t.redis.channels.published == s.redis.channels.published
      && (forall r :: r in t.requests && t.requests[r].won ==>
            r in s.requests && (t.requests[r] == s.requests[r] || t.requests[r] == s.requests[r].(pc := Failed)))
  {
    match step
    case Act(x, input) => if SessionLive(s, x) { ActFrame(c, s, x, input); } hide Acted;
    case Post(_, _, _, _) =>
    case FailRequest(_) =>
    case _ => RestFrame(c, s, step); hide Apply;
  }

  lemma StepKeeps(c: Config, s: State, step: Step, x: SessionId, u: UserId)
    requires Inv(s, x, u) && D.Inv(s) && Held(c, s, x, u) && Findable(c, s, x, u) && L.Inv(c, s) && Snapshots.Inv(c, s)
    requires Placed(s.sessions, s.instances)
    ensures Inv(Apply(c, s, step), x, u)
  {
    assert x in s.sessions ==> SnapshotOk(c, s.db.rows, s.sessions[x]);
    hide *;
    match step
    case Advance(r, stamp) =>
      ApplyAdvance(c, s, r, stamp);
      if RequestLive(s, r) { AdvanceKeeps(c, s, r, stamp, x, u); }
    case Act(y, input) =>
      ApplyAct(c, s, y, input);
      if SessionLive(s, y) && y == x { OwnStep(c, s, x, input, u); } else { OtherMoves(c, s, step, x, u); }
    case _ => OtherMoves(c, s, step, x, u);
  }

  lemma OtherMoves(c: Config, s: State, step: Step, x: SessionId, u: UserId)
    requires Inv(s, x, u) && Placed(s.sessions, s.instances)
    requires !step.Advance? && !(step.Act? && step.x == x && SessionLive(s, x))
    ensures Inv(Apply(c, s, step), x, u)
  {
    if x in s.sessions { LiveBefore(c, s, step, x); }
    SessionsMove(c, s, step);
    RestMoves(c, s, step);
    var t := Apply(c, s, step);
    assert SessionLive(t, x) && t.sessions[x].snapshot.Some? ==> x in s.sessions;
    hide *;
    QuietKeeps(s, t, x, u);
  }

  lemma {:induction false} Always(c: Config, steps: seq<Step>, x: SessionId, u: UserId)
    requires FindableRun(c, steps, x, u)
    ensures Inv(Exec(c, INIT, steps), x, u)
  {
    if steps == [] { return; }
    var n := |steps| - 1;
    var before := steps[..n];
    FindableBefore(c, steps, x, u);
    Always(c, before, x, u);
    Reachability.Always(c, before, x, u);
    Processes.Always(c, before);
    D.Always(c, before);
    L.Always(c, before);
    Snapshots.Always(c, before);
    assert Exec(c, INIT, steps) == Apply(c, Exec(c, INIT, before), steps[n]);
    hide Exec, Apply, FindableRun, Findable, Placed, Held, Inv, D.Inv, L.Inv, Snapshots.Inv;
    StepKeeps(c, Exec(c, INIT, before), steps[n], x, u);
  }

  lemma FindableBefore(c: Config, steps: seq<Step>, x: SessionId, u: UserId)
    requires FindableRun(c, steps, x, u) && steps != []
    ensures FindableRun(c, steps[..|steps| - 1], x, u)
    ensures Findable(c, Exec(c, INIT, steps[..|steps| - 1]), x, u)
  {
    var before := steps[..|steps| - 1];
    AloneBefore(c, steps, x, u);
    forall k | 0 <= k <= |before| ensures Findable(c, At(c, before, k), x, u) {
      assert steps[..k] == before[..k];
      assert Findable(c, At(c, steps, k), x, u);
    }
    assert before[..|before|] == before;
    assert Findable(c, At(c, before, |before|), x, u);
  }

  // ----- The theorem -----

  /** The row of a completed request, as the session saw it: already read, in the backlog, or crowded out by `limit`
      rows at least as old. */
  ghost predicate SeenIn(c: Config, q: Session, k: nat)
    requires q.snapshot.Some? && k < |q.snapshot.value|
  {
    var row := q.snapshot.value[k];
    || row.readAt.Some?
    || row in q.backlog
    || (|q.backlog| == c.backlogLimit && forall j ::
       0 <= j < |q.backlog| ==> q.backlog[j].note.createdAt <= row.note.createdAt)
  }

  /** Whatever else runs: while the only session of `u` is connected and past its query, every notification for `u`
      whose creating request has completed was published to the channel the session's process listens on, or was in
      the table when the session looked and so is in its backlog, already read, or younger than a full backlog. */
  lemma NoGap(c: Config, s: State, x: SessionId, u: UserId, r: RequestId)
    requires ReachedFindable(c, s, x, u)
    requires
      && SessionLive(s, x) && s.sessions[x].who == Some(u) && Watching(s.sessions[x])
      && r in s.requests && s.requests[r].body.user == u && D.PersistedReply(s.requests[r], s.requests[r].body.nid)
    ensures var q, body := s.sessions[x], s.requests[r].body;
      || SentTo(s.redis.channels.published, body.nid, q.inst, q.epoch)
      || exists k: nat ::
         k < |q.snapshot.value| && D.Carries(s.requests[r], q.snapshot.value[k].note) && SeenIn(c, q, k)
  {
    var steps :| s == Exec(c, INIT, steps) && FindableRun(c, steps, x, u);
    var q, req := s.sessions[x], s.requests[r];
    Always(c, steps, x, u);
    D.Always(c, steps);
    Snapshots.Always(c, steps);
    assert SnapshotOk(c, s.db.rows, q);
    hide Exec, FindableRun;
    assert D.RequestOk(s.db.rows, s.redis.channels.published, req);
    assert CoveredRequest(s.redis.channels.published, q, req);
    if !SentTo(s.redis.channels.published, req.body.nid, q.inst, q.epoch) {
      var rows := q.snapshot.value;
      var k: nat :| k < |rows| && rows[k].note.nid == req.body.nid;
      SameNote(rows, s.db.rows, k, req, s.redis.channels.published);
      if rows[k].readAt.None? && rows[k] !in q.backlog {
        CrowdedOut(q.backlog, UnreadOf(rows, u), c.backlogLimit, rows[k]);
      }
      assert SeenIn(c, q, k);
    }
  }

  /** Ids are unique, so the row seen under the id is the request's own. */
  lemma SameNote(before: seq<Row>, after: seq<Row>, k: nat, req: Request, published: seq<Packet>)
    requires Preserves(before, after) && DistinctIds(after) && D.RequestOk(after, published, req)
    requires k < |before| && before[k].note.nid == req.body.nid && D.PersistedReply(req, req.body.nid)
    ensures D.Carries(req, before[k].note)
  {
    var note :| D.Carries(req, note) && D.RowIs(after, note, req.pc.reply.live);
    var j :| 0 <= j < |after| && after[j].note == note;
    assert j == k;
  }

  lemma CrowdedOut(page: seq<Row>, candidates: set<Row>, limit: nat, row: Row)
    requires IsPage(true, page, candidates, limit) && row in candidates && row !in page
    ensures |page| == limit && forall j :: 0 <= j < |page| ==> page[j].note.createdAt <= row.note.createdAt
  {
    SizeOfElements(page);
    assert Elements(page) <= candidates - {row};
    SubsetSize(Elements(page), candidates - {row});
  }
}
