/** A live frame goes only to a socket opened with a ticket issued to the notification's own user. */
module Isolation {
  import opened Model
  import opened TtlStore
  import opened RedisServer
  import opened Repository
  import opened Protocol
  import opened Frames
  import D = Delivery
  import T = Tickets
  import F = Fanout

  ghost predicate Holds(sessions: map<SessionId, Session>, x: SessionId, u: UserId) {
    x in sessions && sessions[x].who == Some(u)
  }

  ghost predicate WireOk(wire: seq<Packet>) {
    forall k | 0 <= k < |wire| :: wire[k].user == wire[k].note.user
  }

  ghost predicate SendingOk(sending: seq<Delivery>, sessions: map<SessionId, Session>) {
    forall k | 0 <= k < |sending| ::
      sending[k].packet.user == sending[k].packet.note.user && Holds(sessions, sending[k].x, sending[k].packet.user)
  }

  ghost predicate FramesOk(frames: seq<Frame>, sessions: map<SessionId, Session>) {
    forall k | 0 <= k < |frames| :: Holds(sessions, frames[k].x, frames[k].note.user)
  }

  ghost predicate ConnsOk(instances: map<InstanceId, Instance>, sessions: map<SessionId, Session>) {
    forall i, u :: i in instances && u in instances[i].conns ==> Holds(sessions, instances[i].conns[u], u)
  }

  ghost predicate Inv(s: State) {
    && WireOk(s.redis.channels.wire) && SendingOk(s.sending, s.sessions)
    && FramesOk(s.frames, s.sessions) && ConnsOk(s.instances, s.sessions)
  }

  // ----- Sockets keep their user -----

  ghost predicate UsersKept(before: map<SessionId, Session>, after: map<SessionId, Session>) {
    forall x :: x in before && before[x].who.Some? ==> x in after && after[x].who == before[x].who
  }

  lemma MoreSessions(s: State, t: State)
    requires Inv(s) && UsersKept(s.sessions, t.sessions)
    requires t.redis.channels.wire == s.redis.channels.wire && t.sending == s.sending && t.frames == s.frames
    requires ConnsOk(t.instances, t.sessions)
    ensures Inv(t)
  {}

  lemma ConnsKept(instances: map<InstanceId, Instance>, before: map<SessionId, Session>, after: map<SessionId, Session>)
    requires ConnsOk(instances, before) && UsersKept(before, after)
    ensures ConnsOk(instances, after)
  {}

  lemma ActKeepsUsers(c: Config, s: State, x: SessionId, input: Input)
    requires T.Inv(c, s) && SessionLive(s, x)
    ensures UsersKept(s.sessions, Acted(c, s, x, input).sessions)
  {
    assert T.Accepted(s.redis.tickets, s.issued, c.ticketTtl, s.sessions[x]);
    if T.Redeems(s.sessions[x], input) {
      ActFrame(c, s, x, input);
    } else {
      T.ActIdentity(c, s, x, input);
    }
    hide Acted;
  }

  lemma GoStepConns(
    c: Config, now: Time, d: Directory, db: Database, conns: Conns, x: SessionId, q: Session, u: UserId)
    ensures GoStep(c, now, d, db, conns, x, q, u).2 ==
            if q.pc.Adding? then conns[u := x] else if q.pc.Removing? then conns - {u} else conns
  {}

  lemma SessionStepConns(
    c: Config, redis: RedisState, db: Database, conns: Conns, x: SessionId, q: Session, input: Input)
    ensures var after := SessionStep(c, redis, db, conns, x, q, input).2;
            after == conns || (q.who.Some? && (after == conns[q.who.value := x] || after == conns - {q.who.value}))
  {
    if input.Go? && !q.pc.Redeeming? && q.who.Some? {
      GoStepConns(c, redis.now, redis.directory, db, conns, x, q, q.who.value);
      hide GoStep;
    }
  }

  lemma ActInstances(c: Config, s: State, x: SessionId, input: Input)
    requires SessionLive(s, x)
    ensures var t, q := Acted(c, s, x, input), s.sessions[x];
      && q.inst in t.instances && t.instances == s.instances[q.inst := t.instances[q.inst]]
      && var conns, after := s.instances[q.inst].conns, t.instances[q.inst].conns;
         after == conns || (q.who.Some? && (after == conns[q.who.value := x] || after == conns - {q.who.value}))
  {
    var q := s.sessions[x];
    SessionStepConns(c, s.redis, s.db, s.instances[q.inst].conns, x, q, input);
    hide SessionStep;
  }

  lemma ActKeeps(c: Config, s: State, x: SessionId, input: Input)
    requires Inv(s) && T.Inv(c, s) && SessionLive(s, x)
    ensures Inv(Acted(c, s, x, input))
  {
    ActFrame(c, s, x, input);
    ActKeepsUsers(c, s, x, input);
    ActInstances(c, s, x, input);
    hide Acted, WireOk, SendingOk, FramesOk, T.Inv;
    ConnsKept(s.instances, s.sessions, Acted(c, s, x, input).sessions);
    hide UsersKept;
    assert ConnsOk(Acted(c, s, x, input).instances, Acted(c, s, x, input).sessions);
    MoreSessions(s, Acted(c, s, x, input));
  }

  // ----- Other steps -----

  lemma AdvanceKeeps(c: Config, s: State, r: RequestId, stamp: Time)
    requires Inv(s) && D.Inv(s) && r in s.requests
    ensures Inv(Advanced(c, s, r, stamp))
  {
    var q := s.requests[r];
    assert D.RequestOk(s.db.rows, s.redis.channels.published, q);
    AdvanceFrame(c, s, r, stamp);
    F.AdvanceChannels(c, s, r, stamp);
    assert q.pc.Publishing? ==> q.pc.row2.user == q.body.user;
    hide Advanced, SendingOk, FramesOk, ConnsOk, D.Inv, D.RequestOk;
  }

  lemma PickUpKeeps(s: State, k: nat)
    requires Inv(s) && CanPickUp(s, k)
    ensures Inv(PickedUp(s, k))
  {
    var ch := s.redis.channels;
    var p := ch.wire[k];
    var conns := s.instances[p.inst].conns;
    hide FramesOk;
    assert p.user in conns ==> Holds(s.sessions, conns[p.user], p.user);
    hide ConnsOk, CanPickUp;
    assert p.user == p.note.user;
    assert WireOk(Without(ch.wire, k));
  }

  lemma CompleteKeeps(s: State, k: nat, ok: bool)
    requires Inv(s) && k < |s.sending| && Up(s, s.sending[k].packet.inst, s.sending[k].packet.epoch)
    ensures Inv(Completed(s, k, ok))
  {
    hide WireOk;
    var d := s.sending[k];
    assert Holds(s.sessions, d.x, d.packet.note.user);
    assert SendingOk(Without(s.sending, k), s.sessions);
    hide SendingOk;
  }

  lemma LossKeeps(c: Config, s: State, step: Step)
    requires Inv(s) && (step.LoseWire? || step.LoseSending?)
    ensures Inv(Apply(c, s, step))
  {
    hide FramesOk, ConnsOk;
    match step
    case LoseWire(k) => if k < |s.redis.channels.wire| { assert WireOk(Without(s.redis.channels.wire, k)); }
    case LoseSending(k) => if k < |s.sending| { assert SendingOk(Without(s.sending, k), s.sessions); }
  }

  /** Starting, stopping and tearing down can only empty a connection map. */
  ghost predicate MayEmpty(before: map<InstanceId, Instance>, after: map<InstanceId, Instance>, i: InstanceId) {
    after == before ||
    (i in after && after == before[i := after[i]] &&
     (after[i].conns == map[] || (i in before && after[i].conns == before[i].conns)))
  }

  lemma LifeConns(c: Config, s: State, step: Step)
    requires step.Boot? || step.Crash? || step.KeepInstanceAlive?
    ensures MayEmpty(s.instances, Apply(c, s, step).instances, step.inst)
  {
    match step
    case Boot(_) =>
    case Crash(_) =>
    case KeepInstanceAlive(_) =>
  }

  lemma ShutdownConns(c: Config, s: State, step: Step)
    requires step.BeginShutdown? || step.TearDownEntry? || step.TearDownStatus?
    ensures MayEmpty(s.instances, Apply(c, s, step).instances, step.inst)
  {
    match step
    case BeginShutdown(_) =>
    case TearDownEntry(_, _) =>
    case TearDownStatus(_, _) =>
  }

  lemma InstanceKeeps(c: Config, s: State, step: Step)
    requires Inv(s) && OfInstance(step)
    ensures Inv(Apply(c, s, step))
  {
    InstanceFrame(c, s, step);
    if step.Boot? || step.Crash? || step.KeepInstanceAlive? {
      LifeConns(c, s, step);
    } else {
      ShutdownConns(c, s, step);
    }
    hide Apply, WireOk, SendingOk, FramesOk;
  }

  lemma ConnectKeeps(s: State, x: SessionId, q: Session)
    requires Inv(s) && x !in s.sessions
    ensures Inv(s.(sessions := s.sessions[x := q]))
  {
    ConnsKept(s.instances, s.sessions, s.sessions[x := q]);
    hide WireOk;
  }

  lemma SameKeeps(s: State, t: State)
    requires Inv(s) && t.redis.channels == s.redis.channels && t.sending == s.sending && t.frames == s.frames
    requires t.sessions == s.sessions && t.instances == s.instances
    ensures Inv(t)
  {
    hide WireOk, SendingOk, FramesOk, ConnsOk;
  }

  lemma StepKeeps(c: Config, s: State, step: Step)
    requires Inv(s) && D.Inv(s) && T.Inv(c, s)
    ensures Inv(Apply(c, s, step))
  {
    hide Inv, D.Inv, T.Inv;
    match step
    case Advance(r, stamp) => if RequestLive(s, r) { AdvanceKeeps(c, s, r, stamp); hide Advanced; }
    case Act(x, input) => if SessionLive(s, x) { ActKeeps(c, s, x, input); hide Acted; }
    case Connect(x, i, ticket) =>
      if x !in s.sessions && IsRunning(s, i) { ConnectKeeps(s, x, NewSession(i, s.instances[i].epoch, ticket)); }
    case PickUp(k) => if CanPickUp(s, k) { PickUpKeeps(s, k); hide PickedUp, CanPickUp; }
    case Complete(k, ok) =>
      if k < |s.sending| && Up(s, s.sending[k].packet.inst, s.sending[k].packet.epoch) {
        CompleteKeeps(s, k, ok);
        hide Completed;
      }
    case LoseWire(_) => LossKeeps(c, s, step); hide Apply;
    case LoseSending(_) => LossKeeps(c, s, step); hide Apply;
    case _ => if OfInstance(step) { InstanceKeeps(c, s, step); hide Apply; } else { SameKeeps(s, Apply(c, s, step)); }
  }

  lemma {:induction false} Always(c: Config, steps: seq<Step>)
    ensures Inv(Exec(c, INIT, steps))
  {
    if steps != [] {
      var before := steps[..|steps| - 1];
      Always(c, before);
      D.Always(c, before);
      T.Always(c, before);
      StepKeeps(c, Exec(c, INIT, before), steps[|steps| - 1]);
    }
  }

  /** Every live frame carries exactly the fields of a committed row, on a socket whose ticket was issued to the row's
      user. */
  lemma FramesAreFaithfulAndIsolated(c: Config, s: State, k: nat)
    requires Reachable(c, s) && k < |s.frames|
    ensures
      && D.HasNote(s.db.rows, s.frames[k].note)
      && s.frames[k].x in s.sessions
      && var q := s.sessions[s.frames[k].x];
         q.who == Some(s.frames[k].note.user) && q.ticket in s.issued
           && s.issued[q.ticket].user == s.frames[k].note.user
  {
    var steps :| s == Exec(c, INIT, steps);
    Always(c, steps);
    D.Always(c, steps);
    T.Always(c, steps);
    F.OneFramePerNotification(c, s);
    hide Exec;
    assert Holds(s.sessions, s.frames[k].x, s.frames[k].note.user);
    assert T.Accepted(s.redis.tickets, s.issued, c.ticketTtl, s.sessions[s.frames[k].x]);
    var j :| 0 <= j < |s.redis.channels.published| && s.redis.channels.published[j].note == s.frames[k].note;
    assert D.HasNote(s.db.rows, s.redis.channels.published[j].note);
  }
}
