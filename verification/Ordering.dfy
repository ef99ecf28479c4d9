/** Live frames and the backlog: where messages in flight are bound, when a live frame can come before the backlog
    frame, and what such an early frame shows of the table that the query sees. */
module Ordering {
  import opened Model
  import opened RedisServer
  import opened Repository
  import opened Protocol
  import opened Frames
  import opened Effects
  import opened Processes
  import D = Delivery
  import F = Fanout
  import I = Isolation
  import L = Liveness
  import S = Snapshots

  // ----- Where messages in flight are bound -----

  /** A connection map leads to sessions of its own process. */
  ghost predicate ConnsPlaced(instances: map<InstanceId, Instance>, sessions: map<SessionId, Session>) {
    forall i, u :: i in instances && u in instances[i].conns ==>
      var y := instances[i].conns[u]; y in sessions && sessions[y].inst == i && sessions[y].epoch == instances[i].epoch
  }

  ghost predicate Bound(sessions: map<SessionId, Session>, x: SessionId, i: InstanceId, epoch: nat) {
    x in sessions && sessions[x].inst == i && sessions[x].epoch == epoch
  }

  /** The message was published for the user to this subscription. */
  ghost predicate Handed(published: seq<Packet>, note: Envelope, i: InstanceId, epoch: nat) {
    exists k :: 0 <= k < |published| && published[k] == Packet(i, epoch, note.user, note)
  }

  ghost predicate WireHanded(wire: seq<Packet>, published: seq<Packet>) {
    forall k | 0 <= k < |wire| ::
      wire[k].user == wire[k].note.user && Handed(published, wire[k].note, wire[k].inst, wire[k].epoch)
  }

  ghost predicate SendingPlaced(sending: seq<Delivery>, published: seq<Packet>, sessions: map<SessionId, Session>) {
    forall k | 0 <= k < |sending| ::
      var p := sending[k].packet;
      Bound(sessions, sending[k].x, p.inst, p.epoch) && Handed(published, p.note, p.inst, p.epoch)
  }

  ghost predicate FramesHanded(frames: seq<Frame>, published: seq<Packet>, sessions: map<SessionId, Session>) {
    forall k | 0 <= k < |frames| ::
      frames[k].x in sessions
        && Handed(published, frames[k].note, sessions[frames[k].x].inst, sessions[frames[k].x].epoch)
  }

  ghost predicate Inv(s: State) {
    && ConnsPlaced(s.instances, s.sessions)
    && WireHanded(s.redis.channels.wire, s.redis.channels.published)
    && SendingPlaced(s.sending, s.redis.channels.published, s.sessions)
    && FramesHanded(s.frames, s.redis.channels.published, s.sessions)
  }

  lemma HandedStays(published: seq<Packet>, more: seq<Packet>, note: Envelope, i: InstanceId, epoch: nat)
    requires Handed(published, note, i, epoch) && published <= more
    ensures Handed(more, note, i, epoch)
  {
    var k :| 0 <= k < |published| && published[k] == Packet(i, epoch, note.user, note);
    assert more[k] == published[k];
  }

  /** More messages and more sessions, with nothing else in flight. */
  lemma MoreOfBoth(s: State, t: State)
    requires Inv(s) && s.redis.channels.published <= t.redis.channels.published && SamePlaces(s.sessions, t.sessions)
    requires t.redis.channels.wire == s.redis.channels.wire && t.sending == s.sending && t.frames == s.frames
    requires ConnsPlaced(t.instances, t.sessions)
    ensures Inv(t)
  {
    var published, more := s.redis.channels.published, t.redis.channels.published;
    hide Handed, ConnsPlaced;
    forall note, i, epoch | Handed(published, note, i, epoch) ensures Handed(more, note, i, epoch) {
      HandedStays(published, more, note, i, epoch);
    }
  }

  lemma PublishKeeps(s: State, i: InstanceId, note: Envelope, t: State)
    requires Inv(s) && t.redis.channels == Publish(s.redis.channels, i, note.user, note)
    requires t.sessions == s.sessions && t.instances == s.instances && t.sending == s.sending && t.frames == s.frames
    ensures Inv(t)
  {
    var ch, ch' := s.redis.channels, t.redis.channels;
    var mid := t.(redis := t.redis.(channels := ch'.(wire := ch.wire)));
    assert ch.published <= ch'.published;
    MoreOfBoth(s, mid);
    if i in ch.subscribers {
      var p := Packet(i, ch.subscribers[i], note.user, note);
      assert ch'.published[|ch.published|] == p;
      assert Handed(ch'.published, note, i, p.epoch);
    }
    hide Handed, ConnsPlaced, SendingPlaced, FramesHanded;
  }

  lemma AdvanceKeeps(c: Config, s: State, r: RequestId, stamp: Time)
    requires Inv(s) && D.Inv(s) && r in s.requests
    ensures Inv(Advanced(c, s, r, stamp))
  {
    var q, t := s.requests[r], Advanced(c, s, r, stamp);
    AdvanceFrame(c, s, r, stamp);
    F.AdvanceChannels(c, s, r, stamp);
    assert D.RequestOk(s.db.rows, s.redis.channels.published, q);
    if q.pc.Publishing? {
      assert q.pc.row2.user == q.body.user;
      hide Advanced, Inv, D.Inv, D.RequestOk;
      PublishKeeps(s, q.pc.owner2, q.pc.row2, t);
    } else {
      hide Advanced, D.Inv, D.RequestOk, Handed, ConnsPlaced;
    }
  }

  lemma ActConns(c: Config, s: State, x: SessionId, input: Input)
    requires SessionLive(s, x) && ConnsPlaced(s.instances, s.sessions)
    ensures ConnsPlaced(Acted(c, s, x, input).instances, Acted(c, s, x, input).sessions)
  {
    ActAges(c, s, x, input);
    I.ActInstances(c, s, x, input);
    ActCore(c, s, x, input);
    hide Acted;
  }

  lemma ActKeeps(c: Config, s: State, x: SessionId, input: Input)
    requires Inv(s) && SessionLive(s, x)
    ensures Inv(Acted(c, s, x, input))
  {
    ActFrame(c, s, x, input);
    ActAges(c, s, x, input);
    ActConns(c, s, x, input);
    hide Acted, ConnsPlaced, WireHanded, SendingPlaced, FramesHanded;
    MoreOfBoth(s, Acted(c, s, x, input));
  }

  lemma WireShrinks(wire: seq<Packet>, published: seq<Packet>, k: nat)
    requires WireHanded(wire, published) && k < |wire|
    ensures WireHanded(Without(wire, k), published)
  {
    hide Handed;
  }

  lemma SendingGrows(sending: seq<Delivery>, published: seq<Packet>, sessions: map<SessionId, Session>, d: Delivery)
    requires SendingPlaced(sending, published, sessions)
    requires Bound(sessions, d.x, d.packet.inst, d.packet.epoch)
      && Handed(published, d.packet.note, d.packet.inst, d.packet.epoch)
    ensures SendingPlaced(sending + [d], published, sessions)
  {
    hide Handed, Bound;
  }

  lemma PickUpKeeps(s: State, k: nat)
    requires Inv(s) && CanPickUp(s, k)
    ensures Inv(PickedUp(s, k))
  {
    var ch := s.redis.channels;
    var p := ch.wire[k];
    var conns := s.instances[p.inst].conns;
    assert p.inst in s.instances && s.instances[p.inst].epoch == p.epoch;
    assert p.user in conns ==> Bound(s.sessions, conns[p.user], p.inst, p.epoch);
    assert Handed(ch.published, p.note, p.inst, p.epoch);
    WireShrinks(ch.wire, ch.published, k);
    if p.user in conns { SendingGrows(s.sending, ch.published, s.sessions, Delivery(p, conns[p.user])); }
    hide CanPickUp, Handed, FramesHanded, ConnsPlaced, WireHanded, SendingPlaced, Bound, Without;
  }

  lemma CompleteKeeps(s: State, k: nat, ok: bool)
    requires Inv(s) && k < |s.sending| && Up(s, s.sending[k].packet.inst, s.sending[k].packet.epoch)
    ensures Inv(Completed(s, k, ok))
  {
    hide WireHanded, Handed;
    assert SendingPlaced(Without(s.sending, k), s.redis.channels.published, s.sessions);
    hide SendingPlaced;
  }

  lemma LossKeeps(c: Config, s: State, step: Step)
    requires Inv(s) && (step.LoseWire? || step.LoseSending?)
    ensures Inv(Apply(c, s, step))
  {
    hide Handed, FramesHanded, ConnsPlaced;
    match step
    case LoseWire(k) =>
      if k < |s.redis.channels.wire| {
        assert WireHanded(Without(s.redis.channels.wire, k), s.redis.channels.published);
      }
    case LoseSending(k) =>
      if k < |s.sending| { assert SendingPlaced(Without(s.sending, k), s.redis.channels.published, s.sessions); }
  }

  lemma InstanceConns(c: Config, s: State, step: Step)
    requires OfInstance(step) && ConnsPlaced(s.instances, s.sessions)
    ensures ConnsPlaced(Apply(c, s, step).instances, s.sessions)
  {
    match step
    case Boot(_) =>
    case Crash(_) =>
    case KeepInstanceAlive(_) =>
    case BeginShutdown(_) =>
    case TearDownEntry(_, _) =>
    case TearDownStatus(_, _) =>
  }

  lemma RestKeeps(c: Config, s: State, step: Step)
    requires Inv(s) && !OfWire(step) && !step.Advance? && !step.Act?
    ensures Inv(Apply(c, s, step))
  {
    var t := Apply(c, s, step);
    StepPlaces(c, s, step);
    if OfInstance(step) {
      InstanceFrame(c, s, step);
      InstanceConns(c, s, step);
      hide Apply;
    }
    hide WireHanded, SendingPlaced, FramesHanded;
    MoreOfBoth(s, t);
  }

  lemma StepKeeps(c: Config, s: State, step: Step)
    requires Inv(s) && D.Inv(s)
    ensures Inv(Apply(c, s, step))
  {
    hide Inv, D.Inv;
    match step
    case Advance(r, stamp) => if RequestLive(s, r) { AdvanceKeeps(c, s, r, stamp); hide Advanced; }
    case Act(x, input) => if SessionLive(s, x) { ActKeeps(c, s, x, input); hide Acted; }
    case _ => if OfWire(step) { DeliveryKeeps(c, s, step); } else { RestKeeps(c, s, step); } hide Apply;
  }

  lemma {:induction false} Always(c: Config, steps: seq<Step>)
    ensures Inv(Exec(c, INIT, steps))
  {
    if steps != [] {
      var before := steps[..|steps| - 1];
      Always(c, before);
      D.Always(c, before);
      StepKeeps(c, Exec(c, INIT, before), steps[|steps| - 1]);
    }
  }

  /** A live frame on a session shows a message that was published for its user to the subscription of the session's own
      process. So the backlog comes first whenever no such message was handed over before it. */
  lemma FramesWereHandedOver(c: Config, s: State, k: nat)
    requires Reachable(c, s) && k < |s.frames|
    ensures s.frames[k].x in s.sessions && var q := s.sessions[s.frames[k].x];
      q.who == Some(s.frames[k].note.user) && Handed(s.redis.channels.published, s.frames[k].note, q.inst, q.epoch)
  {
    var steps :| s == Exec(c, INIT, steps);
    Always(c, steps);
    I.FramesAreFaithfulAndIsolated(c, s, k);
    hide Exec;
  }

  // ----- When a live frame can come now -----

  /** A message for the user waits on the subscription of the session's process, or is being written to its socket. */
  ghost predicate Pending(s: State, x: SessionId, u: UserId)
    requires x in s.sessions
  {
    var q := s.sessions[x];
    || (exists p :: p in s.redis.channels.wire && For(p, q.inst, q.epoch, u))
    || (exists d :: d in s.sending && d.x == x)
  }

  ghost predicate For(p: Packet, i: InstanceId, epoch: nat, u: UserId) {
    p.inst == i && p.epoch == epoch && p.user == u
  }

  /** The instance's map leads to the session, whose backlog frame has not been written. */
  ghost predicate Awaiting(s: State, x: SessionId, u: UserId) {
    && SessionLive(s, x) && s.sessions[x].who == Some(u) && !s.sessions[x].sent
    && var conns := s.instances[s.sessions[x].inst].conns; u in conns && conns[u] == x
  }

  ghost predicate OnlyDelivery(more: seq<Step>) {
    forall k :: 0 <= k < |more| ==> OfWire(more[k])
  }

  /** How many live frames session `x` has got. */
  ghost function Shown(frames: seq<Frame>, x: SessionId): nat {
    if frames == [] then 0 else Shown(frames[..|frames| - 1], x) + (if frames[|frames| - 1].x == x then 1 else 0)
  }

  /** The listener and the network alone can show the session a live frame before its backlog. */
  ghost predicate FrameMayComeFirst(c: Config, s: State, x: SessionId) {
    exists more :: OnlyDelivery(more) && var t := Exec(c, s, more);
      x in t.sessions && !t.sessions[x].sent && Shown(t.frames, x) > Shown(s.frames, x)
  }

  lemma WithoutKeeps<T>(xs: seq<T>, k: nat)
    requires k < |xs|
    ensures forall e :: e in Without(xs, k) ==> e in xs
  {}

  lemma ShrinkNoFrame(s: State, t: State, x: SessionId, u: UserId)
    requires x in s.sessions && !Pending(s, x, u) && t.sessions == s.sessions
    requires forall p :: p in t.redis.channels.wire ==> p in s.redis.channels.wire
    requires forall d :: d in t.sending ==> d in s.sending || d.x != x
    ensures !Pending(t, x, u)
  {
    hide For;
  }

  /** Only a message of the user's own subscription is picked up for the session's socket. */
  lemma PickedUpForAnother(s: State, k: nat, x: SessionId, u: UserId)
    requires ConnsPlaced(s.instances, s.sessions) && I.ConnsOk(s.instances, s.sessions) && CanPickUp(s, k)
    requires x in s.sessions && s.sessions[x].who == Some(u) && !Pending(s, x, u)
    ensures var p := s.redis.channels.wire[k]; var conns := s.instances[p.inst].conns;
      p.user in conns ==> conns[p.user] != x
  {
    var p := s.redis.channels.wire[k];
    var q, conns := s.sessions[x], s.instances[p.inst].conns;
    assert p.inst in s.instances && s.instances[p.inst].epoch == p.epoch;
    assert p in s.redis.channels.wire && !For(p, q.inst, q.epoch, u);
    hide CanPickUp, Pending;
    if p.user in conns { assert I.Holds(s.sessions, conns[p.user], p.user); }
  }

  lemma PickUpNoFrame(s: State, k: nat, x: SessionId, u: UserId)
    requires ConnsPlaced(s.instances, s.sessions) && I.ConnsOk(s.instances, s.sessions) && CanPickUp(s, k)
    requires x in s.sessions && s.sessions[x].who == Some(u) && !Pending(s, x, u)
    ensures var t := PickedUp(s, k); t.frames == s.frames && t.sessions == s.sessions && !Pending(t, x, u)
  {
    PickedUpForAnother(s, k, x, u);
    WithoutKeeps(s.redis.channels.wire, k);
    var t := PickedUp(s, k);
    hide CanPickUp, Pending, ConnsPlaced, I.ConnsOk, Without;
    ShrinkNoFrame(s, t, x, u);
  }

  lemma CompleteNoFrame(s: State, k: nat, ok: bool, x: SessionId, u: UserId)
    requires x in s.sessions && !Pending(s, x, u)
    requires k < |s.sending| && Up(s, s.sending[k].packet.inst, s.sending[k].packet.epoch)
    ensures var t := Completed(s, k, ok);
      t.sessions == s.sessions && Shown(t.frames, x) == Shown(s.frames, x) && !Pending(t, x, u)
  {
    var t := Completed(s, k, ok);
    assert s.sending[k] in s.sending && s.sending[k].x != x;
    if ok { assert t.frames[..|t.frames| - 1] == s.frames; }
    WithoutKeeps(s.sending, k);
    hide Pending, Without;
    ShrinkNoFrame(s, t, x, u);
  }

  lemma StepNoFrame(c: Config, s: State, step: Step, x: SessionId, u: UserId)
    requires ConnsPlaced(s.instances, s.sessions) && I.ConnsOk(s.instances, s.sessions) && OfWire(step)
    requires x in s.sessions && s.sessions[x].who == Some(u) && !Pending(s, x, u)
    ensures var t := Apply(c, s, step);
      t.sessions == s.sessions && Shown(t.frames, x) == Shown(s.frames, x) && !Pending(t, x, u)
  {
    hide ConnsPlaced, I.ConnsOk, Pending, Shown;
    match step
    case PickUp(k) => if CanPickUp(s, k) { PickUpNoFrame(s, k, x, u); } hide PickedUp, CanPickUp;
    case Complete(k, ok) =>
      if k < |s.sending| && Up(s, s.sending[k].packet.inst, s.sending[k].packet.epoch) {
        CompleteNoFrame(s, k, ok, x, u);
      }
      hide Completed;
    case LoseWire(_) => LossNoFrame(c, s, step, x, u); hide Apply;
    case LoseSending(_) => LossNoFrame(c, s, step, x, u); hide Apply;
  }

  lemma LossNoFrame(c: Config, s: State, step: Step, x: SessionId, u: UserId)
    requires step.LoseWire? || step.LoseSending?
    requires x in s.sessions && !Pending(s, x, u)
    ensures var t := Apply(c, s, step); t.sessions == s.sessions && t.frames == s.frames && !Pending(t, x, u)
  {
    if step.LoseWire? && step.k < |s.redis.channels.wire| { WithoutKeeps(s.redis.channels.wire, step.k); }
    if step.LoseSending? && step.k < |s.sending| { WithoutKeeps(s.sending, step.k); }
    hide Pending, Without;
    ShrinkNoFrame(s, Apply(c, s, step), x, u);
  }

  lemma {:induction false} NothingPendingNothingShown(c: Config, s: State, more: seq<Step>, x: SessionId, u: UserId)
    requires Reachable(c, s) && x in s.sessions && s.sessions[x].who == Some(u) && !Pending(s, x, u)
      && OnlyDelivery(more)
    ensures var t := Exec(c, s, more);
      t.sessions == s.sessions && Shown(t.frames, x) == Shown(s.frames, x) && !Pending(t, x, u)
  {
    if more == [] { return; }
    var n := |more| - 1;
    NothingPendingNothingShown(c, s, more[..n], x, u);
    L.StaysReachable(c, s, more[..n]);
    var t := Exec(c, s, more[..n]);
    var steps :| t == Exec(c, INIT, steps);
    Always(c, steps);
    I.Always(c, steps);
    assert Exec(c, s, more) == Apply(c, t, more[n]);
    hide Exec, Apply, Inv, I.Inv, Pending, Shown;
    StepNoFrame(c, t, more[n], x, u);
  }

  lemma {:induction false} ExecFirst(c: Config, s: State, step: Step, more: seq<Step>)
    ensures Exec(c, s, [step] + more) == Exec(c, Apply(c, s, step), more)
  {
    hide Apply;
    if more == [] {
      assert [step] + more == [step] && [step][..0] == [];
    } else {
      var n := |more| - 1;
      ExecFirst(c, s, step, more[..n]);
      assert ([step] + more)[..n + 1] == [step] + more[..n];
    }
  }

  lemma FirstOf(wire: seq<Packet>, i: InstanceId, epoch: nat, k: nat) returns (j: nat)
    requires k < |wire| && wire[k].inst == i && wire[k].epoch == epoch
    ensures j <= k && wire[j].inst == i && wire[j].epoch == epoch
    ensures forall m :: 0 <= m < j ==> wire[m].inst != i || wire[m].epoch != epoch
  {
    j := 0;
    while wire[j].inst != i || wire[j].epoch != epoch
      invariant j <= k
      decreases k - j
      invariant forall m :: 0 <= m < j ==> wire[m].inst != i || wire[m].epoch != epoch
    {
      j := j + 1;
    }
  }

  /** What is being written to the session's socket is shown when the write succeeds. */
  lemma ShowSending(c: Config, s: State, x: SessionId, k: nat)
    requires Inv(s) && SessionLive(s, x) && k < |s.sending| && s.sending[k].x == x
    ensures var t := Apply(c, s, Complete(k, true));
      t.sessions == s.sessions && Shown(t.frames, x) == Shown(s.frames, x) + 1
  {
    var p := s.sending[k].packet;
    assert Bound(s.sessions, x, p.inst, p.epoch);
    hide Inv;
    var t := Completed(s, k, true);
    assert t.frames[..|t.frames| - 1] == s.frames;
    hide Without;
  }

  /** Something else being written on the session's instance completes, and the session still awaits. */
  lemma ClearSending(c: Config, s: State, x: SessionId, u: UserId, m: nat, k: nat)
    requires Awaiting(s, x, u) && m < |s.sending| && s.sending[m].packet.inst == s.sessions[x].inst
    requires s.sending[m].packet.epoch == s.sessions[x].epoch
    requires k < |s.redis.channels.wire| && For(s.redis.channels.wire[k], s.sessions[x].inst, s.sessions[x].epoch, u)
    ensures var t := Apply(c, s, Complete(m, true));
      && Awaiting(t, x, u) && t.sessions == s.sessions && Shown(t.frames, x) >= Shown(s.frames, x)
      && t.redis.channels.wire == s.redis.channels.wire && |t.sending| == |s.sending| - 1
  {
    var t := Apply(c, s, Complete(m, true));
    assert t == Completed(s, m, true);
    assert t.frames[..|t.frames| - 1] == s.frames;
  }

  lemma DropWire(c: Config, s: State, x: SessionId, u: UserId, j: nat)
    requires Awaiting(s, x, u) && j < |s.redis.channels.wire|
    ensures var t := Apply(c, s, LoseWire(j));
      && Awaiting(t, x, u) && t.sessions == s.sessions && t.frames == s.frames && t.sending == s.sending
      && t.redis.channels.wire == Without(s.redis.channels.wire, j)
  {
    hide Without;
  }

  /** The oldest message of the subscription is the session's: it is picked up for its socket. */
  lemma PickUpOwn(c: Config, s: State, x: SessionId, u: UserId, j: nat)
    requires Awaiting(s, x, u) && j < |s.redis.channels.wire|
    requires For(s.redis.channels.wire[j], s.sessions[x].inst, s.sessions[x].epoch, u) && CanPickUp(s, j)
    ensures var t := Apply(c, s, PickUp(j));
      && t.sessions == s.sessions && t.frames == s.frames && t.instances == s.instances
      && t.sending == s.sending + [Delivery(s.redis.channels.wire[j], x)]
  {
    hide CanPickUp, Without;
  }

  lemma NextReachable(c: Config, s: State, step: Step)
    requires Reachable(c, s)
    ensures Reachable(c, Apply(c, s, step))
  {
    L.StaysReachable(c, s, [step]);
    assert [step][..0] == [];
    assert Exec(c, s, [step]) == Apply(c, s, step);
    hide Apply;
  }

  lemma DeliveryKeeps(c: Config, s: State, step: Step)
    requires Inv(s) && OfWire(step)
    ensures Inv(Apply(c, s, step))
  {
    hide Inv;
    match step
    case PickUp(k) => if CanPickUp(s, k) { PickUpKeeps(s, k); } hide PickedUp, CanPickUp;
    case Complete(k, ok) =>
      if k < |s.sending| && Up(s, s.sending[k].packet.inst, s.sending[k].packet.epoch) { CompleteKeeps(s, k, ok); }
      hide Completed;
    case LoseWire(_) => LossKeeps(c, s, step); hide Apply;
    case LoseSending(_) => LossKeeps(c, s, step); hide Apply;
  }

  /** The network can deliver what is pending: what is before it completes or gets lost, then it is picked up and
      shown. */
  lemma {:induction false} PendingCanBeShown(c: Config, s: State, x: SessionId, u: UserId) returns (more: seq<Step>)
    requires Inv(s) && Awaiting(s, x, u) && Pending(s, x, u)
    ensures Shows(c, s, x, more)
    decreases |s.redis.channels.wire| + |s.sending|, 2
  {
    if d :| d in s.sending && d.x == x {
      var k: nat :| k < |s.sending| && s.sending[k] == d;
      hide Inv, Exec, Shows, Pending;
      more := CompleteAndShow(c, s, x, k);
    } else {
      var p :| p in s.redis.channels.wire && For(p, s.sessions[x].inst, s.sessions[x].epoch, u);
      var k: nat :| k < |s.redis.channels.wire| && s.redis.channels.wire[k] == p;
      hide Shows, Inv, Awaiting, Pending;
      more := WireCanBeShown(c, s, x, u, k);
    }
  }

  lemma WireCanBeShown(c: Config, s: State, x: SessionId, u: UserId, k: nat) returns (more: seq<Step>)
    requires Inv(s) && Awaiting(s, x, u)
    requires k < |s.redis.channels.wire| && For(s.redis.channels.wire[k], s.sessions[x].inst, s.sessions[x].epoch, u)
    ensures Shows(c, s, x, more)
    decreases |s.redis.channels.wire| + |s.sending|, 1
  {
    var q, wire := s.sessions[x], s.redis.channels.wire;
    hide Shows, Inv;
    if m: nat :| m < |s.sending| && s.sending[m].packet.inst == q.inst && s.sending[m].packet.epoch == q.epoch {
      hide Awaiting;
      more := AfterClearing(c, s, x, u, m, k);
    } else {
      var j := FirstOf(wire, q.inst, q.epoch, k);
      if wire[j].user == u {
        more := PickUpAndShow(c, s, x, u, j);
      } else {
        hide Awaiting;
        more := AfterLosing(c, s, x, u, j, k);
      }
    }
  }

  /** These deliveries show the session a live frame and leave every session where it is. */
  ghost predicate Shows(c: Config, s: State, x: SessionId, more: seq<Step>) {
    OnlyDelivery(more) && var t := Exec(c, s, more); t.sessions == s.sessions && Shown(t.frames, x) > Shown(s.frames, x)
  }

  lemma CompleteAndShow(c: Config, s: State, x: SessionId, k: nat) returns (more: seq<Step>)
    requires Inv(s) && SessionLive(s, x) && k < |s.sending| && s.sending[k].x == x
    ensures Shows(c, s, x, more)
  {
    ShowSending(c, s, x, k);
    more := [Complete(k, true)];
    ExecFirst(c, s, Complete(k, true), []);
    assert [Complete(k, true)] + [] == more;
    hide Apply, Inv, Shown;
  }

  lemma ShowsLater(c: Config, s: State, step: Step, x: SessionId, rest: seq<Step>)
    requires OfWire(step) && Shows(c, Apply(c, s, step), x, rest)
    requires Apply(c, s, step).sessions == s.sessions && Shown(Apply(c, s, step).frames, x) >= Shown(s.frames, x)
    ensures Shows(c, s, x, [step] + rest)
  {
    ExecFirst(c, s, step, rest);
    hide Apply, Exec, Shown;
  }

  lemma AfterClearing(c: Config, s: State, x: SessionId, u: UserId, m: nat, k: nat) returns (more: seq<Step>)
    requires Inv(s) && Awaiting(s, x, u) && m < |s.sending| && s.sending[m].packet.inst == s.sessions[x].inst
    requires s.sending[m].packet.epoch == s.sessions[x].epoch
    requires k < |s.redis.channels.wire| && For(s.redis.channels.wire[k], s.sessions[x].inst, s.sessions[x].epoch, u)
    ensures Shows(c, s, x, more)
    decreases |s.redis.channels.wire| + |s.sending|, 0
  {
    var step := Complete(m, true);
    ClearSending(c, s, x, u, m, k);
    DeliveryKeeps(c, s, step);
    assert OfWire(step);
    var t := Apply(c, s, step);
    assert t.redis.channels.wire[k] in t.redis.channels.wire;
    assert Pending(t, x, u);
    hide *;
    var rest := PendingCanBeShown(c, t, x, u);
    more := [step] + rest;
    ShowsLater(c, s, step, x, rest);
  }

  lemma AfterLosing(c: Config, s: State, x: SessionId, u: UserId, j: nat, k: nat) returns (more: seq<Step>)
    requires Inv(s) && Awaiting(s, x, u) && j < k < |s.redis.channels.wire|
    requires For(s.redis.channels.wire[k], s.sessions[x].inst, s.sessions[x].epoch, u)
    ensures Shows(c, s, x, more)
    decreases |s.redis.channels.wire| + |s.sending|, 0
  {
    var step := LoseWire(j);
    DropWire(c, s, x, u, j);
    DeliveryKeeps(c, s, step);
    assert OfWire(step);
    var t := Apply(c, s, step);
    assert t.redis.channels.wire[k - 1] == s.redis.channels.wire[k]
      && t.redis.channels.wire[k - 1] in t.redis.channels.wire;
    assert Pending(t, x, u);
    hide *;
    var rest := PendingCanBeShown(c, t, x, u);
    more := [step] + rest;
    ShowsLater(c, s, step, x, rest);
  }

  lemma PickUpAndShow(c: Config, s: State, x: SessionId, u: UserId, j: nat) returns (more: seq<Step>)
    requires Inv(s) && Awaiting(s, x, u) && j < |s.redis.channels.wire|
    requires For(s.redis.channels.wire[j], s.sessions[x].inst, s.sessions[x].epoch, u) && CanPickUp(s, j)
    ensures Shows(c, s, x, more)
  {
    PickUpOwn(c, s, x, u, j);
    DeliveryKeeps(c, s, PickUp(j));
    var t := Apply(c, s, PickUp(j));
    assert SessionLive(t, x);
    hide Apply, Inv, CanPickUp, Awaiting;
    var k := |s.sending|;
    ShowSending(c, t, x, k);
    ExecFirst(c, s, PickUp(j), [Complete(k, true)]);
    ExecFirst(c, t, Complete(k, true), []);
    assert [Complete(k, true)] + [] == [Complete(k, true)];
    more := [PickUp(j)] + [Complete(k, true)];
  }

  /** Once the socket is in its instance's map and until the backlog frame is written, a live frame can come first
      exactly when a message for the user has been handed to the subscription of the session's process, before the
      socket was added or since, and is still on its way. */
  lemma FrameMayComeFirstIff(c: Config, s: State, x: SessionId, u: UserId)
    requires Reachable(c, s) && Awaiting(s, x, u)
    ensures FrameMayComeFirst(c, s, x) <==> Pending(s, x, u)
  {
    if Pending(s, x, u) {
      var steps :| s == Exec(c, INIT, steps);
      Always(c, steps);
      var more := PendingCanBeShown(c, s, x, u);
      hide Exec, Shown;
      assert OnlyDelivery(more);
    } else {
      forall more | OnlyDelivery(more) ensures Shown(Exec(c, s, more).frames, x) == Shown(s.frames, x) {
        NothingPendingNothingShown(c, s, more, x, u);
      }
      hide Exec, Shown;
    }
  }

  // ----- What an early frame shows -----

  /** Before the query the row is in the table; after it, in what the session saw. */
  ghost predicate SeenOrStored(s: State, x: SessionId, note: Envelope) {
    x in s.sessions &&
    D.HasNote(if s.sessions[x].snapshot.Some? then s.sessions[x].snapshot.value else s.db.rows, note)
  }

  lemma SeenStep(c: Config, s: State, step: Step, x: SessionId, note: Envelope)
    requires D.Inv(s) && SeenOrStored(s, x, note) && S.SnapshotOk(c, s.db.rows, s.sessions[x])
    ensures SeenOrStored(Apply(c, s, step), x, note)
  {
    var t := Apply(c, s, step);
    D.StepKeeps(c, s, step);
    S.SessionsMove(c, s, step);
    if s.sessions[x].snapshot.None? { D.HasNoteKept(s.db.rows, t.db.rows, note); }
    if step.Act? && step.x == x && SessionLive(s, x) {
      ActEffects(c, s, x, step.input);
      SeenOwn(c, s.redis, s.db, x, s.sessions[x], step.input, t.sessions[x]);
    }
    hide Apply, Acted, Moves, D.Inv, D.HasNote, Preserves;
  }

  lemma SeenOwn(c: Config, redis: RedisState, db: Database, x: SessionId, q: Session, input: Input, q': Session)
    requires Moves(c, redis, db, x, q, input, q')
    ensures q'.snapshot == q.snapshot || q'.snapshot == Some(db.rows)
    ensures q.snapshot.Some? && q'.snapshot != q.snapshot ==> q.pc.Snapshotting?
  {
    hide IsPage, UnreadOf, AfterBreak, AfterMessage;
  }

  /** A live frame that comes before the backlog query shows a row that the query then finds in the table. */
  lemma {:induction false} EarlyFramesAreSeen(c: Config, s: State, more: seq<Step>, k: nat)
    requires Reachable(c, s) && k < |s.frames| && s.frames[k].x in s.sessions
      && s.sessions[s.frames[k].x].snapshot.None?
    ensures SeenOrStored(Exec(c, s, more), s.frames[k].x, s.frames[k].note)
  {
    var x, note := s.frames[k].x, s.frames[k].note;
    if more == [] {
      I.FramesAreFaithfulAndIsolated(c, s, k);
      return;
    }
    var n := |more| - 1;
    var t := Exec(c, s, more[..n]);
    EarlyFramesAreSeen(c, s, more[..n], k);
    L.StaysReachable(c, s, more[..n]);
    assert Exec(c, s, more) == Apply(c, t, more[n]);
    var steps :| t == Exec(c, INIT, steps);
    D.Always(c, steps);
    S.Always(c, steps);
    hide Exec, Apply, D.Inv;
    assert S.SnapshotOk(c, t.db.rows, t.sessions[x]);
    SeenStep(c, t, more[n], x, note);
  }
}
