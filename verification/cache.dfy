/** The front end's time-to-live cache (`src/utils/cache.ts`). Entries store
    their absolute expiry time in milliseconds; an entry is served up to and
    including that instant and evicted by the first read after it. The clock
    is a parameter of every operation that reads it. */
module TtlCache {
  import opened Wrappers

  const MinuteMs := 60 * 1000

  /** The TTL presets, in minutes. */
  const ShortTtl := 5
  const MediumTtl := 15
  const LongTtl := 60
  const VeryLongTtl := 1440

  datatype CacheItem<T> = CacheItem(data: T, timestamp: int)

  /** The expiry stamped on an entry written at `now` to live `ttlMinutes`. */
  function ExpiryFor(now: int, ttlMinutes: int): int {
    now + ttlMinutes * MinuteMs
  }

  /** An entry is served until its expiry has passed. */
  predicate IsLive<T>(item: CacheItem<T>, now: int) {
    now <= item.timestamp
  }

  class Cache<T> {
    var entries: map<string, CacheItem<T>>
    var defaultTtl: int

    constructor ()
      ensures entries == map[] && defaultTtl == ShortTtl
    {
      entries := map[];
      defaultTtl := ShortTtl;
    }

    /** What a read at `now` serves for `key`. */
    function Lookup(key: string, now: int): (r: Option<T>)
      reads this
      ensures r.Some? <==> key in entries && IsLive(entries[key], now)
      ensures r.Some? ==> r.value == entries[key].data
    {
      if key in entries && IsLive(entries[key], now) then Some(entries[key].data) else None
    }

    /** `set`: stores `data` under `key` with the given TTL, or the current
        default when none is given; the stored value is served from `now`
        until the expiry (a negative TTL makes it expired at once). Other
        keys are untouched. */
    method Set(key: string, data: T, ttlMinutes: Option<int>, now: int)
      modifies this
      ensures entries == old(entries)[key := CacheItem(data, ExpiryFor(now, ttlMinutes.GetOr(defaultTtl)))]
      ensures defaultTtl == old(defaultTtl)
      ensures ttlMinutes.GetOr(defaultTtl) >= 0 ==> Lookup(key, now) == Some(data)
      ensures forall later :: later > ExpiryFor(now, ttlMinutes.GetOr(defaultTtl)) ==> Lookup(key, later).None?
      ensures forall k, t :: k != key ==> Lookup(k, t) == old(Lookup(k, t))
    {
      var ttl := ttlMinutes.GetOr(defaultTtl);
      entries := entries[key := CacheItem(data, ExpiryFor(now, ttl))];
    }

    /** `get`: the live value for `key`; an expired entry is removed and
        nothing else changes. */
    method Get(key: string, now: int) returns (r: Option<T>)
      modifies this
      ensures r == old(Lookup(key, now))
      ensures key in old(entries) && !IsLive(old(entries)[key], now) ==> entries == old(entries) - {key}
      ensures !(key in old(entries) && !IsLive(old(entries)[key], now)) ==> entries == old(entries)
      ensures defaultTtl == old(defaultTtl)
      ensures forall t :: t >= now ==> Lookup(key, t) == old(Lookup(key, t))
    {
      if key !in entries {
        return None;
      }
      var item := entries[key];
      if now > item.timestamp {
        entries := entries - {key};
        return None;
      }
      return Some(item.data);
    }

    /** `has`: whether `get` would serve a value, with the same eviction. */
    method Has(key: string, now: int) returns (b: bool)
      modifies this
      ensures b <==> old(Lookup(key, now)).Some?
      ensures key in old(entries) && !IsLive(old(entries)[key], now) ==> entries == old(entries) - {key}
      ensures !(key in old(entries) && !IsLive(old(entries)[key], now)) ==> entries == old(entries)
      ensures defaultTtl == old(defaultTtl)
    {
      if key !in entries {
        return false;
      }
      if now > entries[key].timestamp {
        entries := entries - {key};
        return false;
      }
      return true;
    }

    /** `clear`: no key is served afterwards. */
    method Clear()
      modifies this
      ensures entries == map[] && defaultTtl == old(defaultTtl)
      ensures forall k, t :: Lookup(k, t).None?
    {
      entries := map[];
    }

    /** `delete`: `key` is no longer served; other keys are untouched. */
    method Delete(key: string)
      modifies this
      ensures entries == old(entries) - {key} && defaultTtl == old(defaultTtl)
      ensures forall t :: Lookup(key, t).None?
      ensures forall k, t :: k != key ==> Lookup(k, t) == old(Lookup(k, t))
    {
      entries := entries - {key};
    }

    /** `setDefaultTTL`: only later writes without a TTL are affected. */
    method SetDefaultTtl(minutes: int)
      modifies this
      ensures defaultTtl == minutes && entries == old(entries)
    {
      defaultTtl := minutes;
    }
  }

  /** A value written and read back before its TTL runs out is the value
      written; read after it, nothing, and the entry is gone. */
  method SetThenGet<T>(c: Cache<T>, key: string, data: T, ttlMinutes: int, now: int, later: int)
    returns (r: Option<T>)
    modifies c
    ensures later <= ExpiryFor(now, ttlMinutes) ==> r == Some(data)
    ensures later > ExpiryFor(now, ttlMinutes) ==> r.None? && key !in c.entries
  {
    c.Set(key, data, Some(ttlMinutes), now);
    r := c.Get(key, later);
  }
}
