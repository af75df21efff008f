/** An optional value. */
module Options {
  datatype Option<+T> = None | Some(value: T)
}

/**
 * The part of Redis the service relies on: string keys whose values lapse.
 *
 * Time is in milliseconds. A value written with `PX ttl` at time t is live during [t, t + ttl);
 * an entry that has lapsed stays in the map and no command sees it.
 */
module Redis {
  import opened Options

  datatype Entry<+V> = Entry(value: V, expiresAt: nat)

  type Db<V> = map<string, Entry<V>>

  /** What GET answers for one entry. */
  function Live<V>(entry: Option<Entry<V>>, now: nat): Option<V> {
    if entry.Some? && now < entry.value.expiresAt then Some(entry.value.value) else None
  }

  function Lookup<V>(db: Db<V>, key: string): Option<Entry<V>> {
    if key in db then Some(db[key]) else None
  }

  function Get<V>(db: Db<V>, now: nat, key: string): Option<V> {
    Live(Lookup(db, key), now)
  }

  /** SET key value PX ttl */
  function SetPx<V>(db: Db<V>, now: nat, key: string, value: V, ttl: nat): Db<V> {
    db[key := Entry(value, now + ttl)]
  }

  /** DEL keys... */
  function Del<V>(db: Db<V>, keys: set<string>): Db<V> {
    db - keys
  }

  /** A value is read until its time is over, and writing it does not touch the other keys. */
  lemma SetIsReadUntil<V>(db: Db<V>, at: nat, key: string, value: V, ttl: nat, now: nat, other: string)
    ensures Get(SetPx(db, at, key, value, ttl), now, key) == if now < at + ttl then Some(value) else None
    ensures other != key ==> Get(SetPx(db, at, key, value, ttl), now, other) == Get(db, now, other)
  {
  }
}
