/** The shared Redis server: one typed keyspace per key prefix, the Pub/Sub channels, and the clock. */
module RedisServer {
  import opened Model
  import opened TtlStore

  /** `wire` holds the messages handed to a subscription and not yet picked up by its listener;
      `published` and `lost` are histories of every message published and every message that ended undelivered. */
  datatype Channels = Channels(
    subscribers: map<InstanceId, nat>,
    wire: seq<Packet>,
    published: seq<Packet>,
    lost: seq<Packet>)

  /** What is kept per user: the instance holding the socket, the status, and last_seen. */
  datatype Directory = Directory(
    registry: Store<UserId, InstanceId>,
    status: Store<UserId, Status>,
    lastSeen: Store<UserId, Time>)

  datatype RedisState = RedisState(
    now: Time,
    tickets: Store<Ticket, UserId>,
    directory: Directory,
    liveness: Store<InstanceId, string>,
    counters: Store<LimitKey, nat>,
    dedup: Store<NotificationId, string>,
    channels: Channels)

  const EMPTY := RedisState(0, map[], Directory(map[], map[], map[]), map[], map[], map[], Channels(map[], [], [], []))

  /** PUBLISH reaches the current subscription of the channel, or nobody at all. */
  function Publish(ch: Channels, inst: InstanceId, user: UserId, note: Envelope): Channels {
    if inst in ch.subscribers then
      var p := Packet(inst, ch.subscribers[inst], user, note);
      ch.(wire := ch.wire + [p], published := ch.published + [p])
    else
      var p := Packet(inst, 0, user, note);
      ch.(published := ch.published + [p], lost := ch.lost + [p])
  }

  class Redis {
    var state: RedisState

    constructor ()
      ensures state == EMPTY
    {
      state := EMPTY;
    }
  }
}
