/** What decides whether a session is sent a notification, overlaps and late refreshes included: the lookup and the
    check of the request that created it, and the subscription of its own process. */
module Decisions {
  import opened Model
  import opened RedisServer
  import opened Registry
  import opened Repository
  import opened Protocol
  import opened Frames
  import opened Effects
  import opened Processes
  import opened Vetting
  import C = Coverage
  import D = Delivery
  import L = Liveness
  import S = Snapshots
  import T = Tickets

  // ----- A vetted request publishes, unless it fails -----

  ghost predicate Past(published: seq<Packet>, q: Request, row: Envelope, owner: InstanceId) {
    match q.pc
    case Publishing(r, o) => r == row && o == owner
    case Flagging(r, o) => r == row && o == owner && D.PublishedTo(published, row, owner)
    case Replied(reply) => reply == Reply(true, true) && D.PublishedTo(published, row, owner)
    case Failed => true
    case _ => false
  }

  ghost predicate AllPast(c: Config, steps: seq<Step>, s: State) {
    forall r, row, owner :: Vetted(c, steps, r, row, owner) ==>
      r in s.requests && Past(s.redis.channels.published, s.requests[r], row, owner)
  }

  lemma PublishedStays(published: seq<Packet>, more: seq<Packet>, row: Envelope, owner: InstanceId)
    requires published <= more && D.PublishedTo(published, row, owner)
    ensures D.PublishedTo(more, row, owner)
  {
    var k :| 0 <= k < |published| && published[k].note == row && published[k].inst == owner;
    assert more[k] == published[k];
  }

  lemma PastMoves(c: Config, redis: RedisState, db: Database, q: Request, stamp: Time, row: Envelope, owner: InstanceId)
    requires Past(redis.channels.published, q, row, owner)
    ensures var (redis', db', q') := PostStep(c, redis, db, q, stamp); Past(redis'.channels.published, q', row, owner)
  {
    match q.pc
    case Publishing(_, _) =>
      var after := Publish(redis.channels, owner, q.body.user, row).published;
      assert after[|redis.channels.published|].note == row && after[|redis.channels.published|].inst == owner;
      assert D.PublishedTo(after, row, owner);
    case Flagging(_, _) =>
    case Replied(_) =>
    case Failed =>
  }

  lemma ChecksMove(c: Config, s: State, r: RequestId, stamp: Time, row: Envelope, owner: InstanceId)
    requires r in s.requests && s.requests[r].pc == Probing(row, owner) && IsAlive(s.redis, owner)
    ensures var t := Advanced(c, s, r, stamp); r in t.requests && t.requests[r].pc == Publishing(row, owner)
  {}

  /** Past requests stay past. */
  lemma PastStays(c: Config, s: State, step: Step, r: RequestId, row: Envelope, owner: InstanceId)
    requires r in s.requests && Past(s.redis.channels.published, s.requests[r], row, owner)
    ensures var t := Apply(c, s, step);
      r in t.requests && Past(t.redis.channels.published, t.requests[r], row, owner)
  {
    var t := Apply(c, s, step);
    match step
    case Advance(r', stamp) =>
      if RequestLive(s, r') { AdvancePast(c, s, r', stamp, r, row, owner); } hide Advanced, Past;
    case FailRequest(_) => hide D.PublishedTo;
    case _ => SameRequests(c, s, step); hide Apply, Past;
  }

  lemma AdvancePast(c: Config, s: State, r': RequestId, stamp: Time, r: RequestId, row: Envelope, owner: InstanceId)
    requires r' in s.requests && r in s.requests && Past(s.redis.channels.published, s.requests[r], row, owner)
    ensures var t := Advanced(c, s, r', stamp);
      r in t.requests && Past(t.redis.channels.published, t.requests[r], row, owner)
  {
    if r' == r {
      PastMoves(c, s.redis, s.db, s.requests[r], stamp, row, owner);
      hide PostStep, Past;
    } else {
      var t := Advanced(c, s, r', stamp);
      C.PublishedGrows(c, s, r', stamp);
      hide Advanced, Past;
      SamePast(s.redis.channels.published, t.redis.channels.published, s.requests[r], row, owner);
    }
  }

  lemma SameRequests(c: Config, s: State, step: Step)
    requires !step.Advance? && !step.FailRequest?
    ensures var t := Apply(c, s, step);
      && t.redis.channels.published == s.redis.channels.published
      && forall r :: r in s.requests ==> r in t.requests && t.requests[r] == s.requests[r]
  {
    match step
    case Act(x, input) => if SessionLive(s, x) { ActFrame(c, s, x, input); hide Acted; }
    case Post(_, _, _, _) =>
    case _ => RestFrame(c, s, step); hide Apply;
  }

  lemma SamePast(published: seq<Packet>, more: seq<Packet>, q: Request, row: Envelope, owner: InstanceId)
    requires Past(published, q, row, owner) && published <= more
    ensures Past(more, q, row, owner)
  {
    if D.PublishedTo(published, row, owner) { PublishedStays(published, more, row, owner); }
    hide D.PublishedTo;
  }

  /** A request vetted in the longer run was vetted before, or its check is the last step. */
  lemma VettedBeforeOrNow(
    c: Config, steps: seq<Step>, s: State, step: Step, r: RequestId, row: Envelope, owner: InstanceId)
    requires s == Exec(c, INIT, steps) && Vetted(c, steps + [step], r, row, owner)
    ensures Vetted(c, steps, r, row, owner) ||
            (step.Advance? && step.r == r && RequestLive(s, r) && s.requests[r].pc == Probing(row, owner)
              && IsAlive(s.redis, owner))
  {
    var all := steps + [step];
    var j: nat, k: nat :| j < k && LooksUp(c, all, j, r, row, owner) && FindsAlive(c, all, k, r, row, owner);
    assert k <= |steps|;
    if k < |steps| {
      LooksUpStays(c, steps, step, j, r, row, owner);
      FindsAliveStays(c, steps, step, k, r, row, owner);
    } else {
      AtEnd(c, steps, step);
    }
    hide LooksUp, Exec, IsAlive;
  }

  lemma StepPast(c: Config, steps: seq<Step>, s: State, step: Step)
    requires s == Exec(c, INIT, steps) && AllPast(c, steps, s)
    ensures AllPast(c, steps + [step], Apply(c, s, step))
  {
    var t := Apply(c, s, step);
    forall r, row, owner | Vetted(c, steps + [step], r, row, owner)
      ensures r in t.requests && Past(t.redis.channels.published, t.requests[r], row, owner)
    {
      VettedBeforeOrNow(c, steps, s, step, r, row, owner);
      if Vetted(c, steps, r, row, owner) {
        PastStays(c, s, step, r, row, owner);
      } else {
        ChecksMove(c, s, r, step.stamp, row, owner);
      }
      hide Exec, Vetted, Advanced;
    }
  }

  lemma {:induction false} VettedRequestsPublish(c: Config, steps: seq<Step>)
    ensures AllPast(c, steps, Exec(c, INIT, steps))
  {
    if steps == [] { return; }
    var before, step := steps[..|steps| - 1], steps[|steps| - 1];
    VettedRequestsPublish(c, before);
    assert steps == before + [step];
    assert Exec(c, INIT, steps) == Apply(c, Exec(c, INIT, before), step);
    hide Exec, AllPast;
    StepPast(c, before, Exec(c, INIT, before), step);
  }

  // ----- After a session's query its instance's messages go to its own subscription -----

  ghost predicate ToOwnSubscription(published: seq<Packet>, q: Session) {
    q.snapshot.Some? ==> forall k | 0 <= k < |published| ::
      published[k].inst == q.inst && !HasRow(q.snapshot.value, published[k].note.nid) ==> published[k].epoch == q.epoch
  }

  ghost predicate Inv(s: State) {
    forall x :: SessionLive(s, x) ==> ToOwnSubscription(s.redis.channels.published, s.sessions[x])
  }

  /** A publish goes to the current subscription, when there is one. */
  lemma PublishSubscription(c: Config, redis: RedisState, db: Database, q: Request, stamp: Time)
    requires q.pc.Publishing? && q.pc.owner2 in redis.channels.subscribers
    ensures var before, after := redis.channels.published, PostStep(c, redis, db, q, stamp).0.channels.published;
      after == before + [Packet(q.pc.owner2, redis.channels.subscribers[q.pc.owner2], q.body.user, q.pc.row2)]
  {}

  lemma PublishEpoch(c: Config, s: State, r: RequestId, stamp: Time, q: Session)
    requires r in s.requests && ToOwnSubscription(s.redis.channels.published, q)
    requires q.inst in s.redis.channels.subscribers && s.redis.channels.subscribers[q.inst] == q.epoch
    ensures ToOwnSubscription(Advanced(c, s, r, stamp).redis.channels.published, q)
  {
    var before, after := s.redis.channels.published, Advanced(c, s, r, stamp).redis.channels.published;
    PublishMoves(c, s, r, stamp);
    if s.requests[r].pc.Publishing? && s.requests[r].pc.owner2 == q.inst {
      PublishSubscription(c, s.redis, s.db, s.requests[r], stamp);
    }
    hide Advanced, PostStep, HasRow;
    if s.requests[r].pc.Publishing? {
      assert forall k :: 0 <= k < |before| ==> after[k] == before[k] by { assert after[..|before|] == before; }
    }
  }

  lemma QueryEpoch(rows: seq<Row>, published: seq<Packet>, q: Session)
    requires D.PublishesOk(rows, published) && q.snapshot == Some(rows)
    ensures ToOwnSubscription(published, q)
  {
    forall k | 0 <= k < |published| ensures HasRow(rows, published[k].note.nid) {
      assert D.HasNote(rows, published[k].note);
    }
  }

  lemma OwnStep(c: Config, s: State, x: SessionId, input: Input)
    requires SessionLive(s, x) && D.Inv(s) && ToOwnSubscription(s.redis.channels.published, s.sessions[x])
    requires S.SnapshotOk(c, s.db.rows, s.sessions[x])
    ensures var t := Acted(c, s, x, input);
      x in t.sessions && ToOwnSubscription(t.redis.channels.published, t.sessions[x])
  {
    var q, t := s.sessions[x], Acted(c, s, x, input);
    ActFrame(c, s, x, input);
    ActEffects(c, s, x, input);
    if T.Redeems(q, input) { return; }
    T.ActIdentity(c, s, x, input);
    S.SnapshotMoves(c, s.redis, s.db, x, q, input, t.sessions[x]);
    hide Acted, Moves, HasRow, D.PublishesOk;
    if t.sessions[x].snapshot != q.snapshot { QueryEpoch(s.db.rows, s.redis.channels.published, t.sessions[x]); }
  }

  lemma StepKeeps(c: Config, s: State, step: Step)
    requires Inv(s) && D.Inv(s) && L.Inv(c, s) && S.Inv(c, s) && Placed(s.sessions, s.instances)
    ensures Inv(Apply(c, s, step))
  {
    var t := Apply(c, s, step);
    S.SessionsMove(c, s, step);
    if !step.Advance? { RestQuiet(c, s, step); }
    hide Apply, ToOwnSubscription, D.Inv, GoOn, Placed;
    forall x | SessionLive(t, x) ensures ToOwnSubscription(t.redis.channels.published, t.sessions[x]) {
      if x in s.sessions { SessionKept(c, s, step, x); } else { NoQueryYet(t.redis.channels.published, t.sessions[x]); }
    }
  }

  lemma NoQueryYet(published: seq<Packet>, q: Session)
    requires q.snapshot.None?
    ensures ToOwnSubscription(published, q)
  {}

  lemma SessionKept(c: Config, s: State, step: Step, x: SessionId)
    requires Inv(s) && D.Inv(s) && L.Inv(c, s) && S.Inv(c, s) && Placed(s.sessions, s.instances)
    requires x in s.sessions && SessionLive(Apply(c, s, step), x)
    ensures var t := Apply(c, s, step); ToOwnSubscription(t.redis.channels.published, t.sessions[x])
  {
    LiveBefore(c, s, step, x);
    S.SessionsMove(c, s, step);
    var t := Apply(c, s, step);
    if step.Advance? {
      if RequestLive(s, step.r) {
        AdvanceFrame(c, s, step.r, step.stamp);
        PublishEpoch(c, s, step.r, step.stamp, s.sessions[x]);
      }
      hide Advanced, ToOwnSubscription, D.Inv, Placed;
    } else {
      RestQuiet(c, s, step);
      if step.Act? && step.x == x { OwnStep(c, s, x, step.input); }
      hide Acted, ToOwnSubscription, D.Inv, Placed, GoOn;
    }
  }

  lemma {:induction false} Always(c: Config, steps: seq<Step>)
    ensures Inv(Exec(c, INIT, steps))
  {
    if steps != [] {
      var before := steps[..|steps| - 1];
      Always(c, before);
      D.Always(c, before);
      L.Always(c, before);
      S.Always(c, before);
      Processes.Always(c, before);
      hide Inv, D.Inv, L.Inv, S.Inv, Placed, Apply;
      StepKeeps(c, Exec(c, INIT, before), steps[|steps| - 1]);
    }
  }

  // ----- The theorem -----

  lemma SentMeansVetted(c: Config, steps: seq<Step>, s: State, r: RequestId, k: nat)
    requires AllVetted(c, steps, s) && D.OneWinner(s.requests) && r in s.requests && s.requests[r].won
    requires k < |s.redis.channels.published| && s.redis.channels.published[k].note.nid == s.requests[r].body.nid
    ensures var p := s.redis.channels.published[k]; Vetted(c, steps, r, p.note, p.inst)
  {
    var p := s.redis.channels.published[k];
    assert PublishVetted(c, steps, s.requests, p);
    hide Vetted, AllVetted;
    var r' :| r' in s.requests && s.requests[r'].won && s.requests[r'].body.nid == p.note.nid
      && Vetted(c, steps, r', p.note, p.inst);
    assert D.SameWin(s.requests[r], s.requests[r']);
  }

  lemma VettedMeansSent(c: Config, steps: seq<Step>, s: State, r: RequestId, row: Envelope, q: Session)
    requires AllPast(c, steps, s) && Vetted(c, steps, r, row, q.inst) && r in s.requests && s.requests[r].pc.Replied?
    requires ToOwnSubscription(s.redis.channels.published, q) && q.snapshot.Some? && !HasRow(q.snapshot.value, row.nid)
    ensures C.SentTo(s.redis.channels.published, row.nid, q.inst, q.epoch)
  {
    var published := s.redis.channels.published;
    assert Past(published, s.requests[r], row, q.inst);
    hide Vetted, HasRow, AllPast;
    var k :| 0 <= k < |published| && published[k].note == row && published[k].inst == q.inst;
    assert published[k].epoch == q.epoch;
  }

  lemma WinnerReplied(s: State, r: RequestId)
    requires D.Inv(s) && r in s.requests && D.PersistedReply(s.requests[r], s.requests[r].body.nid)
    ensures s.requests[r].won && s.requests[r].pc.Replied? && D.OneWinner(s.requests)
  {
    assert D.RequestOk(s.db.rows, s.redis.channels.published, s.requests[r]);
  }

  /** In every run: a session that is past its query, on a process still up, is sent a notification that was committed
      after the query and whose request completed exactly when that request's own lookup named the session's instance
      and its own check found it alive. No other condition matters, and no other request's. */
  lemma SentIffNamedAndAlive(c: Config, steps: seq<Step>, s: State, x: SessionId, r: RequestId)
    requires s == Exec(c, INIT, steps)
    requires SessionLive(s, x) && s.sessions[x].snapshot.Some?
    requires r in s.requests && D.PersistedReply(s.requests[r], s.requests[r].body.nid)
    requires !HasRow(s.sessions[x].snapshot.value, s.requests[r].body.nid)
    ensures C.SentTo(s.redis.channels.published, s.requests[r].body.nid, s.sessions[x].inst, s.sessions[x].epoch) <==>
            exists row: Envelope :: row.nid == s.requests[r].body.nid && Vetted(c, steps, r, row, s.sessions[x].inst)
  {
    var published, q, n := s.redis.channels.published, s.sessions[x], s.requests[r].body.nid;
    D.Always(c, steps);
    WinnerReplied(s, r);
    Always(c, steps);
    assert ToOwnSubscription(published, q);
    PublishesAreVetted(c, steps);
    VettedRequestsPublish(c, steps);
    hide Exec, Vetted, HasRow, AllVetted, AllPast, D.Inv, Inv, ToOwnSubscription, D.OneWinner;
    if C.SentTo(published, n, q.inst, q.epoch) {
      var k: nat :|
        k < |published| && published[k].note.nid == n && published[k].inst == q.inst && published[k].epoch == q.epoch;
      SentMeansVetted(c, steps, s, r, k);
    }
    if exists row: Envelope :: row.nid == n && Vetted(c, steps, r, row, q.inst) {
      var row: Envelope :| row.nid == n && Vetted(c, steps, r, row, q.inst);
      VettedMeansSent(c, steps, s, r, row, q);
    }
  }
}
