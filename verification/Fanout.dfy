/** From publish to live frame: no message is duplicated, forged or shown to anyone but its user. */
module Fanout {
  import opened Model
  import opened TtlStore
  import opened RedisServer
  import opened Repository
  import opened Protocol
  import opened Frames
  import D = Delivery

  // ----- Conservation -----

  ghost function PacketNotes(ps: seq<Packet>): seq<Envelope> {
    seq(|ps|, i requires 0 <= i < |ps| => ps[i].note)
  }

  ghost function DeliveryNotes(ds: seq<Delivery>): seq<Envelope> {
    seq(|ds|, i requires 0 <= i < |ds| => ds[i].packet.note)
  }

  ghost function FrameNotes(fs: seq<Frame>): seq<Envelope> {
    seq(|fs|, i requires 0 <= i < |fs| => fs[i].note)
  }

  /** Every published message is exactly one of: on the wire, being sent, shown in a frame, lost. */
  ghost predicate Balanced(ch: Channels, sending: seq<Delivery>, frames: seq<Frame>) {
    multiset(PacketNotes(ch.published)) ==
      multiset(PacketNotes(ch.wire)) + multiset(DeliveryNotes(sending)) + multiset(FrameNotes(frames))
      + multiset(PacketNotes(ch.lost))
  }

  lemma Removed(xs: seq<Envelope>, k: nat)
    requires k < |xs|
    ensures multiset(xs) == multiset(Without(xs, k)) + multiset{xs[k]}
  {
    assert xs == xs[..k] + [xs[k]] + xs[k + 1..];
  }

  lemma WireRemoved(ps: seq<Packet>, k: nat)
    requires k < |ps|
    ensures multiset(PacketNotes(ps)) == multiset(PacketNotes(Without(ps, k))) + multiset{ps[k].note}
  {
    Removed(PacketNotes(ps), k);
    assert PacketNotes(Without(ps, k)) == Without(PacketNotes(ps), k);
  }

  lemma SendingRemoved(ds: seq<Delivery>, k: nat)
    requires k < |ds|
    ensures multiset(DeliveryNotes(ds)) == multiset(DeliveryNotes(Without(ds, k))) + multiset{ds[k].packet.note}
  {
    Removed(DeliveryNotes(ds), k);
    assert DeliveryNotes(Without(ds, k)) == Without(DeliveryNotes(ds), k);
  }

  lemma PacketAdded(ps: seq<Packet>, p: Packet)
    ensures multiset(PacketNotes(ps + [p])) == multiset(PacketNotes(ps)) + multiset{p.note}
  {
    assert PacketNotes(ps + [p]) == PacketNotes(ps) + [p.note];
  }

  lemma DeliveryAdded(ds: seq<Delivery>, d: Delivery)
    ensures multiset(DeliveryNotes(ds + [d])) == multiset(DeliveryNotes(ds)) + multiset{d.packet.note}
  {
    assert DeliveryNotes(ds + [d]) == DeliveryNotes(ds) + [d.packet.note];
  }

  lemma FrameAdded(fs: seq<Frame>, f: Frame)
    ensures multiset(FrameNotes(fs + [f])) == multiset(FrameNotes(fs)) + multiset{f.note}
  {
    assert FrameNotes(fs + [f]) == FrameNotes(fs) + [f.note];
  }

  lemma PublishBalanced(
    ch: Channels, sending: seq<Delivery>, frames: seq<Frame>, inst: InstanceId, u: UserId, note: Envelope)
    requires Balanced(ch, sending, frames)
    ensures Balanced(Publish(ch, inst, u, note), sending, frames)
  {
    var after := Publish(ch, inst, u, note);
    var p := after.published[|ch.published|];
    assert after.published == ch.published + [p];
    PacketAdded(ch.published, p);
    if inst in ch.subscribers { PacketAdded(ch.wire, p); } else { PacketAdded(ch.lost, p); }
    hide PacketNotes, DeliveryNotes, FrameNotes;
  }

  lemma WireToSending(ch: Channels, sending: seq<Delivery>, frames: seq<Frame>, k: nat, d: Delivery)
    requires Balanced(ch, sending, frames) && k < |ch.wire| && ch.wire[k] == d.packet
    ensures Balanced(ch.(wire := Without(ch.wire, k)), sending + [d], frames)
  {
    hide PacketNotes, DeliveryNotes, FrameNotes, Without;
    WireRemoved(ch.wire, k);
    DeliveryAdded(sending, d);
  }

  lemma WireToLost(ch: Channels, sending: seq<Delivery>, frames: seq<Frame>, k: nat)
    requires Balanced(ch, sending, frames) && k < |ch.wire|
    ensures Balanced(ch.(wire := Without(ch.wire, k), lost := ch.lost + [ch.wire[k]]), sending, frames)
  {
    hide PacketNotes, DeliveryNotes, FrameNotes, Without;
    WireRemoved(ch.wire, k);
    PacketAdded(ch.lost, ch.wire[k]);
  }

  lemma SendingToFrame(ch: Channels, sending: seq<Delivery>, frames: seq<Frame>, k: nat)
    requires Balanced(ch, sending, frames) && k < |sending|
    ensures Balanced(ch, Without(sending, k), frames + [Frame(sending[k].x, sending[k].packet.note)])
  {
    hide PacketNotes, DeliveryNotes, FrameNotes, Without;
    SendingRemoved(sending, k);
    FrameAdded(frames, Frame(sending[k].x, sending[k].packet.note));
  }

  lemma SendingToLost(ch: Channels, sending: seq<Delivery>, frames: seq<Frame>, k: nat)
    requires Balanced(ch, sending, frames) && k < |sending|
    ensures Balanced(ch.(lost := ch.lost + [sending[k].packet]), Without(sending, k), frames)
  {
    hide PacketNotes, DeliveryNotes, FrameNotes, Without;
    SendingRemoved(sending, k);
    PacketAdded(ch.lost, sending[k].packet);
  }

  lemma PickUpBalanced(s: State, k: nat)
    requires CanPickUp(s, k) && Balanced(s.redis.channels, s.sending, s.frames)
    ensures Balanced(PickedUp(s, k).redis.channels, PickedUp(s, k).sending, PickedUp(s, k).frames)
  {
    hide Balanced, Without;
    var ch := s.redis.channels;
    var p := ch.wire[k];
    var conns := s.instances[p.inst].conns;
    if p.user in conns {
      WireToSending(ch, s.sending, s.frames, k, Delivery(p, conns[p.user]));
    } else {
      WireToLost(ch, s.sending, s.frames, k);
    }
  }

  lemma CompleteBalanced(s: State, k: nat, ok: bool)
    requires k < |s.sending| && Up(s, s.sending[k].packet.inst, s.sending[k].packet.epoch)
    requires Balanced(s.redis.channels, s.sending, s.frames)
    ensures Balanced(Completed(s, k, ok).redis.channels, Completed(s, k, ok).sending, Completed(s, k, ok).frames)
  {
    hide Balanced, Without;
    if ok {
      SendingToFrame(s.redis.channels, s.sending, s.frames, k);
    } else {
      SendingToLost(s.redis.channels, s.sending, s.frames, k);
    }
  }

  lemma LossBalanced(c: Config, s: State, step: Step)
    requires (step.LoseWire? || step.LoseSending?) && Balanced(s.redis.channels, s.sending, s.frames)
    ensures var t := Apply(c, s, step); Balanced(t.redis.channels, t.sending, t.frames)
  {
    hide Balanced, Without;
    match step
    case LoseWire(k) => if k < |s.redis.channels.wire| { WireToLost(s.redis.channels, s.sending, s.frames, k); }
    case LoseSending(k) => if k < |s.sending| { SendingToLost(s.redis.channels, s.sending, s.frames, k); }
  }

  lemma InstanceBalanced(c: Config, s: State, step: Step)
    requires OfInstance(step) && Balanced(s.redis.channels, s.sending, s.frames)
    ensures var t := Apply(c, s, step); Balanced(t.redis.channels, t.sending, t.frames)
  {
    InstanceFrame(c, s, step);
    hide Apply;
  }

  /** What a request does to the channels: nothing, or one publish. */
  lemma AdvanceChannels(c: Config, s: State, r: RequestId, stamp: Time)
    requires r in s.requests
    ensures var q := s.requests[r];
      Advanced(c, s, r, stamp).redis.channels ==
      if q.pc.Publishing? then Publish(s.redis.channels, q.pc.owner2, q.body.user, q.pc.row2) else s.redis.channels
  {
    hide Publish;
    match s.requests[r].pc
    case Rating =>
    case Checking =>
    case Inserting =>
    case Marking(_) =>
    case Looking(_) =>
    case Probing(_, _) =>
    case Publishing(_, _) =>
    case Flagging(_, _) =>
    case Replied(_) =>
    case Failed =>
  }

  lemma AdvanceBalanced(c: Config, s: State, r: RequestId, stamp: Time)
    requires r in s.requests && Balanced(s.redis.channels, s.sending, s.frames)
    ensures var t := Advanced(c, s, r, stamp); Balanced(t.redis.channels, t.sending, t.frames)
  {
    AdvanceFrame(c, s, r, stamp);
    AdvanceChannels(c, s, r, stamp);
    hide Advanced, Balanced;
    var q := s.requests[r];
    if q.pc.Publishing? { PublishBalanced(s.redis.channels, s.sending, s.frames, q.pc.owner2, q.body.user, q.pc.row2); }
  }

  lemma StepBalanced(c: Config, s: State, step: Step)
    requires Balanced(s.redis.channels, s.sending, s.frames)
    ensures var t := Apply(c, s, step); Balanced(t.redis.channels, t.sending, t.frames)
  {
    hide Balanced;
    match step
    case Advance(r, stamp) => if RequestLive(s, r) { AdvanceBalanced(c, s, r, stamp); hide Advanced; }
    case Act(x, input) => if SessionLive(s, x) { ActFrame(c, s, x, input); hide Acted; }
    case PickUp(k) => if CanPickUp(s, k) { PickUpBalanced(s, k); hide PickedUp, CanPickUp; }
    case Complete(k, ok) =>
      if k < |s.sending| && Up(s, s.sending[k].packet.inst, s.sending[k].packet.epoch) {
        CompleteBalanced(s, k, ok);
        hide Completed;
      }
    case LoseWire(_) => LossBalanced(c, s, step); hide Apply;
    case LoseSending(_) => LossBalanced(c, s, step); hide Apply;
    case _ => if OfInstance(step) { InstanceBalanced(c, s, step); hide Apply; }
  }

  lemma {:induction false} AlwaysBalanced(c: Config, steps: seq<Step>)
    ensures var s := Exec(c, INIT, steps); Balanced(s.redis.channels, s.sending, s.frames)
  {
    if steps != [] {
      AlwaysBalanced(c, steps[..|steps| - 1]);
      StepBalanced(c, Exec(c, INIT, steps[..|steps| - 1]), steps[|steps| - 1]);
    }
  }

  // ----- At most one frame per id -----

  lemma {:induction false} DistinctCount(ps: seq<Packet>, note: Envelope)
    requires forall j, k :: 0 <= j < k < |ps| ==> ps[j].note.nid != ps[k].note.nid
    ensures multiset(PacketNotes(ps))[note] <= 1
    ensures multiset(PacketNotes(ps))[note] == 1 ==> exists k :: 0 <= k < |ps| && ps[k].note == note
  {
    if ps != [] {
      var n := |ps| - 1;
      DistinctCount(ps[..n], note);
      PacketAdded(ps[..n], ps[n]);
      assert ps[..n] + [ps[n]] == ps;
      hide PacketNotes;
      if multiset(PacketNotes(ps[..n]))[note] == 1 {
        var k :| 0 <= k < n && ps[..n][k].note == note;
        assert ps[k].note == note;
      }
    }
  }

  lemma TwoOccurrences(xs: seq<Envelope>, j: nat, k: nat)
    requires j < k < |xs| && xs[j] == xs[k]
    ensures multiset(xs)[xs[j]] >= 2
  {
    assert xs == xs[..k] + [xs[k]] + xs[k + 1..];
    assert xs[..k][j] == xs[j];
    assert xs[j] in multiset(xs[..k]);
  }

  /** A frame shows a message that was published, and no two frames anywhere show the same notification. */
  lemma OneFramePerNotification(c: Config, s: State)
    requires Reachable(c, s)
    ensures
      && (forall k | 0 <= k < |s.frames| :: D.PublishedSomewhere(s.redis.channels.published, s.frames[k].note))
      && (forall j, k | 0 <= j < k < |s.frames| :: s.frames[j].note.nid != s.frames[k].note.nid)
  {
    var steps :| s == Exec(c, INIT, steps);
    D.Always(c, steps);
    AlwaysBalanced(c, steps);
    var published, notes := s.redis.channels.published, FrameNotes(s.frames);
    hide Exec, Sound, D.RequestsOk, D.FlagsOk, D.DedupOk, D.HasNote;
    forall k | 0 <= k < |s.frames| ensures D.PublishedSomewhere(published, s.frames[k].note) {
      assert notes[k] in multiset(notes);
      DistinctCount(published, notes[k]);
    }
    forall j, k | 0 <= j < k < |s.frames| ensures s.frames[j].note.nid != s.frames[k].note.nid {
      if s.frames[j].note.nid == s.frames[k].note.nid {
        var a :| 0 <= a < |published| && published[a].note == s.frames[j].note;
        var b :| 0 <= b < |published| && published[b].note == s.frames[k].note;
        assert a == b;
        TwoOccurrences(notes, j, k);
        DistinctCount(published, notes[j]);
        assert false;
      }
    }
  }
}
