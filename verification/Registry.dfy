/** The user-to-instance mapping and the instance liveness keys. */
module Registry {
  import opened Model
  import opened TtlStore
  import opened RedisServer

  function PutEntry(d: Directory, now: Time, u: UserId, i: InstanceId, ttl: nat): Directory {
    d.(registry := SetEx(d.registry, now, u, i, ttl))
  }

  function RefreshEntry(d: Directory, now: Time, u: UserId, ttl: nat): Directory {
    d.(registry := Expire(d.registry, now, u, ttl))
  }

  function DropEntry(d: Directory, u: UserId): Directory {
    d.(registry := Del(d.registry, u))
  }

  function KeepAlive(s: RedisState, i: InstanceId, ttl: nat): RedisState {
    s.(liveness := SetEx(s.liveness, s.now, i, "1", ttl))
  }

  function Lookup(s: RedisState, u: UserId): Option<InstanceId> {
    Get(s.directory.registry, s.now, u)
  }

  predicate IsAlive(s: RedisState, i: InstanceId) {
    Exists(s.liveness, s.now, i)
  }

  class InstanceRegistry {
    const redis: Redis

    constructor (redis: Redis)
      ensures this.redis == redis
    {
      this.redis := redis;
    }

    method Register(u: UserId, i: InstanceId, ttl: nat)
      modifies redis
      ensures redis.state == old(redis.state).(directory :=
        PutEntry(old(redis.state).directory, old(redis.state).now, u, i, ttl))
    {
      var d := redis.state.directory;
      redis.state := redis.state.(directory := d.(registry := SetEx(d.registry, redis.state.now, u, i, ttl)));
    }

    method Refresh(u: UserId, ttl: nat)
      modifies redis
      ensures redis.state == old(redis.state).(directory :=
        RefreshEntry(old(redis.state).directory, old(redis.state).now, u, ttl))
    {
      var d := redis.state.directory;
      redis.state := redis.state.(directory := d.(registry := Expire(d.registry, redis.state.now, u, ttl)));
    }

    method Unregister(u: UserId)
      modifies redis
      ensures redis.state == old(redis.state).(directory := DropEntry(old(redis.state).directory, u))
    {
      var d := redis.state.directory;
      redis.state := redis.state.(directory := d.(registry := Del(d.registry, u)));
    }

    method MarkAlive(i: InstanceId, ttl: nat)
      modifies redis
      ensures redis.state == KeepAlive(old(redis.state), i, ttl)
    {
      redis.state := redis.state.(liveness := SetEx(redis.state.liveness, redis.state.now, i, "1", ttl));
    }
  }
}
