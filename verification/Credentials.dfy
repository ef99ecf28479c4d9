/** Single-use tickets and the duplicate guard: two small Redis-backed components. */
module Credentials {
  import opened Model
  import opened TtlStore
  import opened RedisServer

  class WSTicketAuth {
    const redis: Redis
    const ttl: nat

    constructor (redis: Redis, ttl: nat)
      ensures this.redis == redis && this.ttl == ttl
    {
      this.redis, this.ttl := redis, ttl;
    }

    /** `ticket` is the fresh random token. */
    method IssueTicket(u: UserId, ticket: Ticket)
      modifies redis
      ensures redis.state == old(redis.state).(tickets :=
        SetEx(old(redis.state).tickets, old(redis.state).now, ticket, u, ttl))
    {
      redis.state := redis.state.(tickets := SetEx(redis.state.tickets, redis.state.now, ticket, u, ttl));
    }

    /** GETDEL: the answer and the removal are one command. */
    method RedeemTicket(ticket: Ticket) returns (who: Option<UserId>)
      modifies redis
      ensures who == Get(old(redis.state).tickets, old(redis.state).now, ticket)
      ensures redis.state == old(redis.state).(tickets := Del(old(redis.state).tickets, ticket))
    {
      who := Get(redis.state.tickets, redis.state.now, ticket);
      redis.state := redis.state.(tickets := Del(redis.state.tickets, ticket));
    }
  }

  class IdempotencyGuard {
    const redis: Redis
    const ttl: nat

    constructor (redis: Redis, ttl: nat)
      ensures this.redis == redis && this.ttl == ttl
    {
      this.redis, this.ttl := redis, ttl;
    }

    method HasSeen(n: NotificationId) returns (seen: bool)
      ensures seen == Exists(redis.state.dedup, redis.state.now, n)
    {
      seen := Get(redis.state.dedup, redis.state.now, n).Some?;
    }

    method MarkSeen(n: NotificationId)
      modifies redis
      ensures redis.state == old(redis.state).(dedup :=
        SetEx(old(redis.state).dedup, old(redis.state).now, n, "1", ttl))
    {
      redis.state := redis.state.(dedup := SetEx(redis.state.dedup, redis.state.now, n, "1", ttl));
    }
  }
}
