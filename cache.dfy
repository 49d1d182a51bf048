/**
 * The stream-URL cache of lib/cache.ts: a map from a YouTube id to the
 * resolved stream URL and the time it was stored, with a fixed time-to-live
 * and lazy eviction on read. `Date.now()` is the explicit `now` argument
 * (milliseconds).
 */
module Cache {
  import opened Wrappers

  /** One hour in milliseconds. */
  const CacheDuration: nat := 3600000

  datatype CacheEntry = CacheEntry(url: string, timestamp: nat)

  /** The entry is stale: strictly more than CacheDuration has passed since it was stored. */
  predicate Expired(e: CacheEntry, now: nat) {
    now - e.timestamp > CacheDuration
  }

  /** What `get(id)` returns at time `now` against the map `m`. */
  function Lookup(m: map<string, CacheEntry>, id: string, now: nat): (r: Option<string>)
    ensures r.Some? <==> id in m && !Expired(m[id], now)
    ensures r.Some? ==> r.value == m[id].url
  {
    if id !in m then None
    else if Expired(m[id], now) then None
    else Some(m[id].url)
  }

  /** The map after `get(id)` at time `now`: an expired entry for `id` is deleted. */
  function AfterGet(m: map<string, CacheEntry>, id: string, now: nat): (m': map<string, CacheEntry>)
    ensures m'.Keys == if id in m && Expired(m[id], now) then m.Keys - {id} else m.Keys
    ensures forall k :: k in m' ==> m'[k] == m[k]
  {
    if id in m && Expired(m[id], now) then m - {id} else m
  }

  /** The map after `set(id, url)` at time `now`. */
  function AfterSet(m: map<string, CacheEntry>, id: string, url: string, now: nat): (m': map<string, CacheEntry>)
    ensures m'.Keys == m.Keys + {id}
    ensures m'[id] == CacheEntry(url, now)
    ensures forall k :: k in m && k != id ==> m'[k] == m[k]
  {
    m[id := CacheEntry(url, now)]
  }

  class StreamCache {
    var cache: map<string, CacheEntry>

    constructor ()
      ensures cache == map[]
    {
      cache := map[];
    }

    /** `set(youtubeId, url)`: overwrites unconditionally, stamping the entry with `now`. */
    method Set(youtubeId: string, url: string, now: nat)
      modifies this
      ensures cache == AfterSet(old(cache), youtubeId, url, now)
    {
      cache := cache[youtubeId := CacheEntry(url, now)];
    }

    /** `get(youtubeId)`: the cached URL unless absent or expired; an expired entry is deleted. */
    method Get(youtubeId: string, now: nat) returns (r: Option<string>)
      modifies this
      ensures r == Lookup(old(cache), youtubeId, now)
      ensures cache == AfterGet(old(cache), youtubeId, now)
    {
      if youtubeId !in cache {
        return None;
      }
      var entry := cache[youtubeId];
      if now - entry.timestamp > CacheDuration {
        cache := cache - {youtubeId};
        return None;
      }
      return Some(entry.url);
    }

    /** `clear()`. */
    method Clear()
      modifies this
      ensures cache == map[]
    {
      cache := map[];
    }
  }

  /** A URL stored at time t is returned at any time t' with t' - t <= CacheDuration,
      an entry exactly CacheDuration old included. */
  lemma SetThenGetWithinTtl(m: map<string, CacheEntry>, id: string, url: string, t: nat, t': nat)
    requires t' - t <= CacheDuration
    ensures Lookup(AfterSet(m, id, url, t), id, t') == Some(url)
    ensures AfterGet(AfterSet(m, id, url, t), id, t') == AfterSet(m, id, url, t)
  {
  }

  /** Past the TTL the URL is not returned, the entry is deleted, and a second get misses too. */
  lemma SetThenGetAfterTtl(m: map<string, CacheEntry>, id: string, url: string, t: nat, t': nat, t'': nat)
    requires t' - t > CacheDuration
    ensures Lookup(AfterSet(m, id, url, t), id, t') == None
    ensures id !in AfterGet(AfterSet(m, id, url, t), id, t')
    ensures Lookup(AfterGet(AfterSet(m, id, url, t), id, t'), id, t'') == None
  {
  }

  /** A get of an absent key misses and leaves the map as it was. */
  lemma GetAbsentKey(m: map<string, CacheEntry>, id: string, now: nat)
    requires id !in m
    ensures Lookup(m, id, now) == None && AfterGet(m, id, now) == m
  {
  }

  /** A get that hits never changes the map. */
  lemma GetHitUnchanged(m: map<string, CacheEntry>, id: string, now: nat)
    requires Lookup(m, id, now).Some?
    ensures AfterGet(m, id, now) == m
  {
  }

  /** A get touches no key but its own. */
  lemma GetTouchesOnlyItsKey(m: map<string, CacheEntry>, id: string, other: string, now: nat)
    requires other != id
    ensures other in AfterGet(m, id, now) <==> other in m
  {
  }

  /** Set only replaces the entry for its own key: every other entry, stale or
      fresh, answers a later get exactly as before. */
  lemma SetLeavesOtherKeys(m: map<string, CacheEntry>, id: string, url: string, t: nat, other: string, now: nat)
    requires other != id
    ensures Lookup(AfterSet(m, id, url, t), other, now) == Lookup(m, other, now)
    ensures AfterGet(AfterSet(m, id, url, t), other, now) == AfterSet(AfterGet(m, other, now), id, url, t)
  {
    var m1 := AfterSet(m, id, url, t);
    if other in m && Expired(m[other], now) {
      assert m1 - {other} == (m - {other})[id := CacheEntry(url, t)];
    }
  }

  /** After clear every get misses. */
  lemma ClearedMissesEverything(id: string, now: nat)
    ensures Lookup(map[], id, now) == None
  {
  }

  /** The playback route's sequence: a miss, a store of the freshly resolved URL,
      and a second request within the hour that hits with that same URL. */
  lemma MissStoreHit(m: map<string, CacheEntry>, id: string, url: string, t: nat, t': nat)
    requires t <= t' <= t + CacheDuration
    ensures Lookup(AfterSet(AfterGet(m, id, t), id, url, t), id, t') == Some(url)
  {
  }

  /** The cache scenario of the stream route, run against the class. */
  method PlaybackScenario(id: string, url: string, t: nat, t': nat) returns (first: Option<string>, second: Option<string>)
    requires t <= t' <= t + CacheDuration
    ensures first == None && second == Some(url)
  {
    var c := new StreamCache();
    first := c.Get(id, t);
    c.Set(id, url, t);
    second := c.Get(id, t');
  }
}
