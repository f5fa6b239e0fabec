/** The part of a Redis server both the lock and the cache rely on: one key space whose
    entries may carry a deadline. */
module RedisServer {

  datatype Deadline = Never | At(time: int)

  datatype Entry = Entry(value: string, deadline: Deadline)

  type Store = map<string, Entry>

  predicate Before(now: int, d: Deadline) { d.Never? || now < d.time }

  /** Expired entries are invisible although they may still be stored. */
  predicate Live(store: Store, now: int, key: string) {
    key in store && Before(now, store[key].deadline)
  }

  /** The deadline set by an expiry argument, where 0 means none. */
  function DeadlineIn(now: int, expire: nat): Deadline {
    if expire == 0 then Never else At(now + expire)
  }
}
