/** One Redis keyspace: keys that may carry an expiry. A key is visible at `now` iff `now < expiry`;
    an expired cell may still be in the map, but no command sees it. */
module TtlStore {
  import opened Model

  datatype Cell<+V> = Cell(value: V, expiry: Option<Time>)
  type Store<K, V> = map<K, Cell<V>>

  predicate Live<V>(c: Cell<V>, now: Time) {
    c.expiry.None? || now < c.expiry.value
  }

  predicate Exists<K, V>(m: Store<K, V>, now: Time, k: K) {
    k in m && Live(m[k], now)
  }

  function Find<K, V>(m: Store<K, V>, k: K): Option<Cell<V>> {
    if k in m then Some(m[k]) else None
  }

  function Get<K, V>(m: Store<K, V>, now: Time, k: K): Option<V> {
    if Exists(m, now, k) then Some(m[k].value) else None
  }

  function SetEx<K, V>(m: Store<K, V>, now: Time, k: K, v: V, ttl: nat): Store<K, V> {
    m[k := Cell(v, Some(now + ttl))]
  }

  function Set<K, V>(m: Store<K, V>, k: K, v: V): Store<K, V> {
    m[k := Cell(v, None)]
  }

  function Del<K, V>(m: Store<K, V>, k: K): Store<K, V> {
    m - {k}
  }

  /** EXPIRE on an absent or lapsed key does nothing. */
  function Expire<K, V>(m: Store<K, V>, now: Time, k: K, ttl: nat): Store<K, V> {
    if Exists(m, now, k) then m[k := Cell(m[k].value, Some(now + ttl))] else m
  }

  /** INCR creates an absent counter at 1 without an expiry and leaves an existing expiry alone. */
  function Incr<K>(m: Store<K, nat>, now: Time, k: K): (r: (Store<K, nat>, nat)) {
    if Exists(m, now, k)
    then (m[k := Cell(m[k].value + 1, m[k].expiry)], m[k].value + 1)
    else (m[k := Cell(1, None)], 1)
  }
}
