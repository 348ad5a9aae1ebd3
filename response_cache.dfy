/**
 * The response cache of index.js as functions on the map: the lookup-and-expire block that both
 * message kinds inline, the store that follows an upstream success, and the periodic sweep.
 */
module ResponseCache {
  import opened Common

  /** `CACHE_TTL`: five minutes, in milliseconds. */
  const CACHE_TTL: int := 5 * 60 * 1000

  /** `{ response, timestamp }`. */
  datatype Entry = Entry(response: string, timestamp: int)

  type Cache = map<string, Entry>

  /** The lookup's test: `Date.now() - cached.timestamp < CACHE_TTL`. */
  predicate Live(e: Entry, now: int)
  {
    now - e.timestamp < CACHE_TTL
  }

  /** The sweep's test: `now - value.timestamp > CACHE_TTL`. */
  predicate Stale(e: Entry, now: int)
  {
    now - e.timestamp > CACHE_TTL
  }

  /** What the lookup returns: the cached response of a present, live entry. */
  function Lookup(cache: Cache, key: string, now: int): (r: Option<string>)
    ensures r.Some? <==> key in cache && Live(cache[key], now)
    ensures r.Some? ==> r.value == cache[key].response
  {
    if key in cache && Live(cache[key], now) then Some(cache[key].response) else None
  }

  /** The cache after the lookup: a present but expired entry is deleted, and nothing else changes. */
  function AfterLookup(cache: Cache, key: string, now: int): (c: Cache)
    ensures c.Keys == if key in cache && !Live(cache[key], now) then cache.Keys - {key} else cache.Keys
    ensures forall k :: k in c ==> c[k] == cache[k]
  {
    if key in cache && !Live(cache[key], now) then cache - {key} else cache
  }

  /** `responseCache.set(key, { response, timestamp: now })`: overwrites whatever was there. */
  function Store(cache: Cache, key: string, response: string, now: int): (c: Cache)
    ensures c.Keys == cache.Keys + {key}
    ensures c[key] == Entry(response, now)
    ensures forall k :: k in cache && k != key ==> c[k] == cache[k]
  {
    cache[key := Entry(response, now)]
  }

  /** The cache after the sweep: exactly the entries that are not stale. */
  function Swept(cache: Cache, now: int): (c: Cache)
    ensures forall k :: k in c <==> k in cache && !Stale(cache[k], now)
    ensures forall k :: k in c ==> c[k] == cache[k]
  {
    map k | k in cache && !Stale(cache[k], now) :: cache[k]
  }

  /** A response is served within the TTL of the store, and not after, whether or not a sweep ran. */
  lemma StoreThenLookup(cache: Cache, key: string, response: string, stored: int, now: int)
    ensures Lookup(Store(cache, key, response, stored), key, now)
            == if now - stored < CACHE_TTL then Some(response) else None
  {
  }

  /** A lookup of another key is not affected by a store. */
  lemma StoreLeavesOtherKeys(cache: Cache, key: string, other: string, response: string, stored: int, now: int)
    requires other != key
    ensures Lookup(Store(cache, key, response, stored), other, now) == Lookup(cache, other, now)
  {
  }

  /** The sweep never removes an entry that a lookup at the same instant would serve. */
  lemma SweepKeepsLive(cache: Cache, key: string, now: int)
    ensures Lookup(Swept(cache, now), key, now) == Lookup(cache, key, now)
  {
  }

  /**
   * The two tests disagree on the boundary: an entry exactly `CACHE_TTL` old is a miss on lookup
   * yet survives the sweep; it is removed by the next lookup of its key or by a later sweep.
   */
  lemma BoundaryEntrySurvivesSweepButMisses(cache: Cache, key: string, now: int)
    requires key in cache && now - cache[key].timestamp == CACHE_TTL
    ensures key in Swept(cache, now)
    ensures Lookup(cache, key, now) == None
    ensures key !in AfterLookup(cache, key, now)
  {
  }

  /** After a sweep every remaining entry is either live or exactly at the boundary. */
  lemma SweptEntriesAtMostTtlOld(cache: Cache, now: int)
    ensures forall k :: k in Swept(cache, now) ==> now - Swept(cache, now)[k].timestamp <= CACHE_TTL
  {
  }

  /** Sweeping twice at the same instant is sweeping once. */
  lemma SweepIdempotent(cache: Cache, now: int)
    ensures Swept(Swept(cache, now), now) == Swept(cache, now)
  {
  }
}
