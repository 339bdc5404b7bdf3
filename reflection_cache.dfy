/** The two reflection caches: an in-memory key/value store, and a two-tier
    cache that puts that store in front of the APC user cache. */
module ReflectionCache {
  import opened Php

  /** What `fetch` answers for `key` on a store holding `cache`: the stored
      value, or `false` when nothing is stored. */
  function Lookup(cache: map<string, Value>, key: string): Value
  {
    if key in cache then cache[key] else PhpFalse
  }

  /** A key never stored reads as `false`. */
  lemma LookupMissing(cache: map<string, Value>, key: string)
    requires key !in cache
    ensures Lookup(cache, key) == PhpFalse
  {
  }

  /** A stored value reads back as itself, `null` included. */
  lemma LookupStored(cache: map<string, Value>, key: string, v: Value)
    ensures Lookup(cache[key := v], key) == v
    ensures v == Null ==> Lookup(cache[key := v], key) != PhpFalse
  {
  }

  /** A second store to the same key replaces the first. */
  lemma StoreOverwrites(cache: map<string, Value>, key: string, v1: Value, v2: Value)
    ensures cache[key := v1][key := v2] == cache[key := v2]
  {
  }

  /** A store leaves every other key reading as before. */
  lemma StoreIsolated(cache: map<string, Value>, key: string, v: Value, other: string)
    requires other != key
    ensures Lookup(cache[key := v], other) == Lookup(cache, other)
  {
  }

  /** A stored `false` reads exactly like a key that was never stored. */
  lemma StoredFalseIsAbsent(cache: map<string, Value>, key: string)
    ensures Lookup(cache[key := PhpFalse], key) == Lookup(cache - {key}, key)
  {
  }

  /** The in-memory cache (ReflectionCacheArray). */
  class ReflectionCacheArray {
    var cache: map<string, Value>

    constructor ()
      ensures cache == map[]
    {
      cache := map[];
    }

    /** Returns the stored value, `null` included, or `false` when the key is absent. */
    method Fetch(key: string) returns (r: Value)
      ensures r == Lookup(cache, key)
      ensures key !in cache ==> r == PhpFalse
      ensures key in cache ==> r == cache[key]
    {
      if key in cache {
        r := cache[key];
      } else {
        r := PhpFalse;
      }
    }

    method Store(key: string, data: Value)
      modifies this
      ensures cache == old(cache)[key := data]
    {
      cache := cache[key := data];
    }
  }

  /** One entry of the APC user cache: the data and the time to live it was stored with. */
  datatype ApcEntry = ApcEntry(data: Value, ttl: int)

  /** The APC user cache, shared by the whole process; expiry is not modelled. */
  class ApcStore {
    var entries: map<string, ApcEntry>

    constructor ()
      ensures entries == map[]
    {
      entries := map[];
    }
  }

  /** What the two-tier `fetch` answers: a loosely-true local value as it is,
      otherwise APC's data for the key, otherwise `false`. */
  function TieredLookup(local: map<string, Value>, apc: map<string, ApcEntry>, key: string): Value
  {
    var localData := Lookup(local, key);
    if Truthy(localData) then localData
    else if key in apc then apc[key].data
    else PhpFalse
  }

  /** A loosely-true local value answers without consulting APC. */
  lemma TieredLocalHit(local: map<string, Value>, apc: map<string, ApcEntry>, apc': map<string, ApcEntry>, key: string)
    requires Truthy(Lookup(local, key))
    ensures TieredLookup(local, apc, key) == TieredLookup(local, apc', key) == Lookup(local, key)
  {
  }

  /** A loosely-false local value (absent, null, 0, '', '0', []) falls
      through to APC, whose answer does not depend on the local tier. */
  lemma TieredFallThrough(local: map<string, Value>, local': map<string, Value>, apc: map<string, ApcEntry>, key: string)
    requires !Truthy(Lookup(local, key)) && !Truthy(Lookup(local', key))
    ensures TieredLookup(local, apc, key) == TieredLookup(local', apc, key)
    ensures TieredLookup(local, apc, key) == if key in apc then apc[key].data else PhpFalse
  {
  }

  /** After a store through both tiers the key reads back as the stored
      value, whether or not that value is loosely false. */
  lemma TieredStoreFetch(local: map<string, Value>, apc: map<string, ApcEntry>, key: string, v: Value, ttl: int)
    ensures TieredLookup(local[key := v], apc[key := ApcEntry(v, ttl)], key) == v
  {
  }

  /** The default time to live, in seconds. */
  const DefaultTimeToLive: int := 5

  /** The two-tier cache (ReflectionCacheApc). */
  class ReflectionCacheApc {
    const localCache: ReflectionCacheArray
    const apc: ApcStore
    var timeToLive: int

    /** Uses the given local cache, or a fresh empty one when none is given. */
    constructor (localCache: ReflectionCacheArray?, apc: ApcStore)
      ensures this.apc == apc && timeToLive == DefaultTimeToLive
      ensures localCache != null ==> this.localCache == localCache
      ensures localCache == null ==> fresh(this.localCache) && this.localCache.cache == map[]
    {
      if localCache != null {
        this.localCache := localCache;
      } else {
        this.localCache := new ReflectionCacheArray();
      }
      this.apc := apc;
      timeToLive := DefaultTimeToLive;
    }

    /** A positive number of seconds replaces the time to live; anything
        else leaves it. Returns the cache itself. */
    method SetTimeToLive(seconds: int) returns (self: ReflectionCacheApc)
      modifies this`timeToLive
      ensures timeToLive == if seconds > 0 then seconds else old(timeToLive)
      ensures self == this
    {
      timeToLive := if seconds > 0 then seconds else timeToLive;
      self := this;
    }

    /** Reads the local tier, then APC; writes neither. */
    method Fetch(key: string) returns (r: Value)
      ensures r == TieredLookup(localCache.cache, apc.entries, key)
    {
      var localData := localCache.Fetch(key);
      if Truthy(localData) {
        r := localData;
      } else {
        var success := key in apc.entries;
        var data := if success then apc.entries[key].data else PhpFalse;
        r := if success then data else PhpFalse;
      }
    }

    /** Writes the local tier, and APC with the current time to live. */
    method Store(key: string, data: Value)
      modifies localCache, apc
      ensures localCache.cache == old(localCache.cache)[key := data]
      ensures apc.entries == old(apc.entries)[key := ApcEntry(data, timeToLive)]
    {
      localCache.Store(key, data);
      apc.entries := apc.entries[key := ApcEntry(data, timeToLive)];
    }
  }
}
