/**
 * An in-memory key-value store whose entries expire, standing for Laravel's Cache
 * facade. Time is an integer number of seconds supplied by the caller.
 */
module TtlCache {
  import opened Wrappers

  datatype Entry<V> = Entry(value: V, expiresAt: int)

  /** Reading `key` at time `now`: an entry is visible until (not including) its expiry instant. */
  function Read<V>(entries: map<string, Entry<V>>, key: string, now: int): Option<V> {
    if key in entries && now < entries[key].expiresAt then Some(entries[key].value) else None
  }

  class Cache<V> {
    var entries: map<string, Entry<V>>

    constructor ()
      ensures entries == map[]
    {
      entries := map[];
    }

    /** `Cache::get(key)`: the stored value, unless it is missing or expired. */
    function Get(key: string, now: int): Option<V>
      reads this
    {
      Read(entries, key, now)
    }

    /**
     * `Cache::put(key, value, ttl)`: a non-positive time-to-live forgets the key instead;
     * either way the value read back at `now` is the one written, if any.
     */
    method Put(key: string, value: V, ttl: int, now: int)
      modifies this
      ensures entries == if ttl > 0 then old(entries)[key := Entry(value, now + ttl)]
                         else old(entries) - {key}
      ensures Read(entries, key, now) == if ttl > 0 then Some(value) else None
    {
      if ttl > 0 {
        entries := entries[key := Entry(value, now + ttl)];
      } else {
        entries := entries - {key};
      }
    }

    /** `Cache::forget(key)`. */
    method Forget(key: string)
      modifies this
      ensures entries == old(entries) - {key}
    {
      entries := entries - {key};
    }
  }
}
