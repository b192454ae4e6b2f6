/** The admin service's switch-list cache (`ws.SwitchCache`): switch lists per namespace and
    environment that expire a fixed time after they were stored. The clock is an argument
    (nanoseconds); the minute ticker that runs `doCleanup`, the lock and the context are not
    modelled. */
module WsSwitchCache {
  import opened Wrappers
  import opened Model
  import MapUtil

  /** `SwitchCacheItem`: the switch list, when it expires and when it was stored. */
  datatype Item = Item(data: seq<SwitchModel>, expiresAt: int, createdAt: int)

  type Cache = map<string, Item>

  /** `IsExpired`: the clock is past the expiry time. */
  predicate Expired(item: Item, now: int) {
    now > item.expiresAt
  }

  /** `buildKey`: "switch:" + namespace + ":" + environment. */
  function BuildKey(namespaceTag: string, envTag: string): (k: string)
    ensures k == "switch:" + namespaceTag + ":" + envTag
    ensures |k| == 8 + |namespaceTag| + |envTag|
  {
    "switch:" + namespaceTag + ":" + envTag
  }

  /** The key is not injective: a ':' inside a tag can make two pairs share one entry. */
  lemma KeysCollide()
    ensures BuildKey("a:b", "c") == BuildKey("a", "b:c")
  {
  }

  /** What `Get` answers on a snapshot: a stored, unexpired list. */
  function Lookup(cache: Cache, key: string, now: int): (r: Option<seq<SwitchModel>>)
    ensures r.Some? <==> key in cache && !Expired(cache[key], now)
    ensures r.Some? ==> r.value == cache[key].data
  {
    if key in cache && !Expired(cache[key], now) then Some(cache[key].data) else None
  }

  /** The entry `Set` stores at time `now`. */
  function Stored(data: seq<SwitchModel>, now: int, ttl: int): Item {
    Item(data, now + ttl, now)
  }

  /** The unexpired entries, which `doCleanup` keeps. */
  function Unexpired(cache: Cache, now: int): (r: Cache)
    ensures forall k :: k in r <==> k in cache && !Expired(cache[k], now)
    ensures forall k :: k in r ==> r[k] == cache[k]
  {
    map k | k in cache && !Expired(cache[k], now) :: cache[k]
  }

  /** A list stored at `t` is found at any time up to `t + ttl` and missed afterwards. */
  lemma SetThenGet(cache: Cache, key: string, data: seq<SwitchModel>, t: int, ttl: int, now: int)
    ensures now <= t + ttl ==> Lookup(cache[key := Stored(data, t, ttl)], key, now) == Some(data)
    ensures now > t + ttl ==> Lookup(cache[key := Stored(data, t, ttl)], key, now) == None
  {
  }

  /** Cleaning up never changes what a lookup at the same time answers. */
  lemma CleanupInvisible(cache: Cache, key: string, now: int)
    ensures Lookup(Unexpired(cache, now), key, now) == Lookup(cache, key, now)
  {
  }

  /** Cleaning up twice at one time is cleaning up once. */
  lemma CleanupIdempotent(cache: Cache, now: int)
    ensures Unexpired(Unexpired(cache, now), now) == Unexpired(cache, now)
  {
  }

  /** Deleting exactly the expired keys leaves the unexpired entries. */
  lemma DropExpired(cache: Cache, gone: set<string>, now: int)
    requires forall k :: k in gone <==> k in cache && Expired(cache[k], now)
    ensures cache - gone == Unexpired(cache, now)
  {
    var l, r := cache - gone, Unexpired(cache, now);
    assert l.Keys == r.Keys;
  }

  class SwitchCache {
    var cache: Cache
    const ttl: int
    var started: bool
    /** Whether `Stop` has cancelled the cache's context and closed its stop channel. */
    var stopped: bool

    /** `NewSwitchCache`: empty, not started. */
    constructor (ttl: int)
      ensures cache == map[] && this.ttl == ttl && !started && !stopped
    {
      cache := map[];
      this.ttl := ttl;
      started := false;
      stopped := false;
    }

    /** `start`: a second start does nothing. */
    method Start()
      modifies this
      ensures started && cache == old(cache) && stopped == old(stopped)
    {
      if started {
        return;
      }
      started := true;
    }

    /** `Stop`: stopping a cache that is not started does nothing. */
    method Stop()
      modifies this
      ensures !started && cache == old(cache)
      ensures stopped == (old(stopped) || old(started))
    {
      if !started {
        return;
      }
      stopped := true;
      started := false;
    }

    /** `Get`: a stored, unexpired list is a hit; an expired entry is deleted and missed. */
    method Get(namespaceTag: string, envTag: string, now: int) returns (r: Option<seq<SwitchModel>>)
      modifies this
      ensures r == Lookup(old(cache), BuildKey(namespaceTag, envTag), now)
      ensures var key := BuildKey(namespaceTag, envTag);
        cache == if key in old(cache) && Expired(old(cache)[key], now) then old(cache) - {key} else old(cache)
      ensures started == old(started) && stopped == old(stopped)
    {
      var key := BuildKey(namespaceTag, envTag);
      if key !in cache {
        return None;
      }
      var item := cache[key];
      if Expired(item, now) {
        Delete(namespaceTag, envTag);
        return None;
      }
      return Some(item.data);
    }

    /** `Set`: store the list, expiring `ttl` after `now`, replacing any previous entry. */
    method Set(namespaceTag: string, envTag: string, data: seq<SwitchModel>, now: int)
      modifies this
      ensures cache == old(cache)[BuildKey(namespaceTag, envTag) := Stored(data, now, ttl)]
      ensures started == old(started) && stopped == old(stopped)
    {
      var key := BuildKey(namespaceTag, envTag);
      cache := cache[key := Stored(data, now, ttl)];
    }

    /** `Delete`. */
    method Delete(namespaceTag: string, envTag: string)
      modifies this
      ensures cache == old(cache) - {BuildKey(namespaceTag, envTag)}
      ensures started == old(started) && stopped == old(stopped)
    {
      cache := cache - {BuildKey(namespaceTag, envTag)};
    }

    /** `Clear`. */
    method Clear()
      modifies this
      ensures cache == map[]
      ensures started == old(started) && stopped == old(stopped)
    {
      cache := map[];
    }

    /** `doCleanup`: collect the expired keys, then delete them. */
    method DoCleanup(now: int)
      modifies this
      ensures cache == Unexpired(old(cache), now)
      ensures started == old(started) && stopped == old(stopped)
    {
      var keys := MapUtil.Keys(cache);
      var expired := ExpiredKeys(cache, keys, now);
      ghost var before := cache;
      for i := 0 to |expired|
        invariant cache == before - (set j | 0 <= j < i :: expired[j])
        invariant started == old(started) && stopped == old(stopped)
      {
        cache := cache - {expired[i]};
      }
      DropExpired(before, set j | 0 <= j < |expired| :: expired[j], now);
    }
  }

  /** The first loop of `doCleanup`: the listed keys whose entries have expired, in order. */
  method ExpiredKeys(cache: Cache, keys: seq<string>, now: int) returns (expired: seq<string>)
    requires forall k :: k in keys ==> k in cache
    ensures forall k :: k in expired <==> k in keys && Expired(cache[k], now)
  {
    expired := [];
    for i := 0 to |keys|
      invariant forall k :: k in expired <==> k in keys[..i] && Expired(cache[k], now)
    {
      assert keys[..i + 1] == keys[..i] + [keys[i]];
      if Expired(cache[keys[i]], now) {
        expired := expired + [keys[i]];
      }
    }
    assert keys[..|keys|] == keys;
  }
}
