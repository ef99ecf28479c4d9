/** The targeted Pub/Sub path: publish to one instance's channel, and that instance's listener. */
module Messaging {
  import opened Model
  import opened RedisServer
  import opened Protocol
  import opened Connections

  class Publisher {
    const redis: Redis

    constructor (redis: Redis)
      ensures this.redis == redis
    {
      this.redis := redis;
    }

    method PublishToInstance(inst: InstanceId, u: UserId, note: Envelope)
      modifies redis
      ensures redis.state == old(redis.state).(channels := Publish(old(redis.state).channels, inst, u, note))
    {
      redis.state := redis.state.(channels := Publish(redis.state.channels, inst, u, note));
    }
  }

  /** What arrives on the channel: a subscription notice, text that is not JSON, a payload the handler fails on, or a
      notification; `ok` says whether the socket will take it. */
  datatype RawMessage = Control | Garbled | Broken | Notification(user: UserId, note: Envelope, ok: bool)

  /** What the listener gets to see, in order; in between, sessions open and leave. */
  datatype Event = Arrived(message: RawMessage) | Meanwhile(change: Change)

  function HandleOne(l: Local, e: Event): Local {
    match e
    case Arrived(m) => if m.Notification? then Send(l, m.user, m.note, m.ok).0 else l
    case Meanwhile(change) => l.(connections := Changed(l.connections, [change]))
  }

  /** What the events do to the local sockets, one after the other. */
  function Handle(l: Local, events: seq<Event>): Local {
    if events == [] then l else HandleOne(Handle(l, events[..|events| - 1]), events[|events| - 1])
  }

  class Subscriber {
    const manager: ConnectionManager

    constructor (manager: ConnectionManager)
      ensures this.manager == manager
    {
      this.manager := manager;
    }

    /** The listen loop outlives every message, whatever is wrong with it. */
    method Listen(events: seq<Event>)
      modifies manager
      ensures manager.Contents() == Handle(old(manager.Contents()), events)
    {
      var k := 0;
      while k < |events|
        invariant 0 <= k <= |events|
        invariant manager.Contents() == Handle(old(manager.Contents()), events[..k])
      {
        assert events[..k + 1][..k] == events[..k];
        match events[k] {
          case Arrived(message) =>
            match message {
              case Control =>
              case Garbled =>
              case Broken =>
              case Notification(user, note, ok) =>
                var _ := manager.SendJson(user, note, ok);
            }
          case Meanwhile(change) =>
            ChangedOnce(manager.connections, change);
            match change {
              case Opened(user, socket) => manager.Add(user, socket);
              case Left(user) => manager.Remove(user);
            }
        }
        k := k + 1;
      }
      assert events[..k] == events;
    }
  }

  lemma ChangedOnce(conns: Conns, change: Change)
    ensures Changed(conns, [change]) == if change.Opened? then conns[change.user := change.socket]
      else conns - {change.user}
  {
    assert [change][..0] == [];
  }

  // ----- What the loop means for each user -----

  /** The event opens, closes or drops the user's socket here. */
  ghost predicate Settles(e: Event, u: UserId) {
    match e
    case Arrived(m) => m.Notification? && m.user == u && !m.ok
    case Meanwhile(change) => change.user == u
  }

  ghost predicate UnsettledSince(events: seq<Event>, i: nat, u: UserId) {
    forall j :: i <= j < |events| ==> !Settles(events[j], u)
  }

  /** `y` is the user's socket here: opened last and neither left nor refused a frame since, or here all along. */
  ghost predicate HasSocket(l: Local, events: seq<Event>, u: UserId, y: SessionId) {
    || (exists i: nat :: i < |events| && events[i] == Meanwhile(Opened(u, y)) && UnsettledSince(events, i + 1, u))
    || (u in l.connections && l.connections[u] == y && UnsettledSince(events, 0, u))
  }

  lemma SettledLast(l: Local, events: seq<Event>, e: Event, u: UserId, y: SessionId)
    ensures HasSocket(l, events + [e], u, y) <==>
      e == Meanwhile(Opened(u, y)) || (!Settles(e, u) && HasSocket(l, events, u, y))
  {
    var all := events + [e];
    assert all[|events|] == e && forall j :: 0 <= j < |events| ==> all[j] == events[j];
    if e == Meanwhile(Opened(u, y)) { assert UnsettledSince(all, |events| + 1, u); }
    if !Settles(e, u) && HasSocket(l, events, u, y) {
      if i: nat :| i < |events| && events[i] == Meanwhile(Opened(u, y)) && UnsettledSince(events, i + 1, u) {
        assert all[i] == Meanwhile(Opened(u, y)) && UnsettledSince(all, i + 1, u);
      }
    }
    if HasSocket(l, all, u, y) && e != Meanwhile(Opened(u, y)) {
      if i: nat :| i < |all| && all[i] == Meanwhile(Opened(u, y)) && UnsettledSince(all, i + 1, u) {
        assert i < |events| && UnsettledSince(events, i + 1, u);
      }
    }
  }

  /** The map leads each user to the socket that the events alone give the user. */
  lemma {:induction false} MapAgreesWithEvents(l: Local, events: seq<Event>, u: UserId, y: SessionId)
    ensures (u in Handle(l, events).connections && Handle(l, events).connections[u] == y) <==>
      HasSocket(l, events, u, y)
  {
    if events != [] {
      var n := |events| - 1;
      MapAgreesWithEvents(l, events[..n], u, y);
      assert events == events[..n] + [events[n]];
      SettledLast(l, events[..n], events[n], u, y);
      if events[n].Meanwhile? { ChangedOnce(Handle(l, events[..n]).connections, events[n].change); }
      hide HasSocket, Changed;
    }
  }

  /** The frame event `k` is due: a notification its user's socket at that point takes. */
  ghost predicate Due(l: Local, events: seq<Event>, k: nat, f: Frame)
    requires k < |events|
  {
    && events[k].Arrived? && events[k].message.Notification? && events[k].message.ok && events[k].message.note == f.note
    && HasSocket(l, events[..k], events[k].message.user, f.x)
  }

  /** The frames of these events, in their order. */
  ghost predicate AllDue(l: Local, events: seq<Event>, frames: seq<Frame>) {
    if events == [] then frames == []
    else
      var n := |events| - 1;
      if exists f :: Due(l, events, n, f)
      then frames != [] && Due(l, events, n, frames[|frames| - 1]) && AllDue(l, events[..n], frames[..|frames| - 1])
      else AllDue(l, events[..n], frames)
  }

  /** Over any stream, bad messages included, and whatever sessions open and leave meanwhile: the frames shown are
      exactly those due, in order. A failed send drops its user's socket and affects nobody else. */
  lemma {:induction false} ListenDeliversInOrder(l: Local, events: seq<Event>) returns (frames: seq<Frame>)
    ensures Handle(l, events).sent == l.sent + frames && AllDue(l, events, frames)
  {
    if events == [] { return []; }
    var n := |events| - 1;
    var before, m := Handle(l, events[..n]), events[n];
    frames := ListenDeliversInOrder(l, events[..n]);
    if m.Arrived? && m.message.Notification? && m.message.ok {
      var u := m.message.user;
      forall y ensures HasSocket(l, events[..n], u, y) <==> u in before.connections && before.connections[u] == y {
        MapAgreesWithEvents(l, events[..n], u, y);
      }
      if u in before.connections {
        var f := Frame(before.connections[u], m.message.note);
        assert Due(l, events, n, f);
        frames := frames + [f];
      }
    }
    hide HasSocket;
  }
}
