/** The polling producer's versioned configuration cache (`ConfigCache`): configurations
    appended at the tail with a global, increasing version, trimmed from the head by age and
    by count. Time is a parameter (nanoseconds); the mutex and atomics are not modelled. */
module ConfigCache {
  import opened Wrappers

  datatype ConfigVersion<T> = ConfigVersion(version: nat, config: T, timestamp: int)

  /** Versions strictly increase from head to tail. */
  predicate StrictlySorted<T>(s: seq<ConfigVersion<T>>) {
    forall i, j :: 0 <= i < j < |s| ==> s[i].version < s[j].version
  }

  /** Sorted, and no version exceeds `counter`. */
  predicate SortedBelow<T>(s: seq<ConfigVersion<T>>, counter: nat) {
    StrictlySorted(s) && forall i :: 0 <= i < |s| ==> s[i].version <= counter
  }

  /** The entries newer than `v`, in cache order. */
  function Newer<T>(s: seq<ConfigVersion<T>>, v: nat): (r: seq<ConfigVersion<T>>)
    ensures |r| <= |s|
    ensures forall c :: c in r ==> c in s && c.version > v
  {
    if s == [] then []
    else Newer(s[..|s| - 1], v) + (if s[|s| - 1].version > v then [s[|s| - 1]] else [])
  }

  /** No entry is newer than a version at least as large as every cached one. */
  lemma {:induction false} NewerNone<T>(s: seq<ConfigVersion<T>>, v: nat)
    requires forall i :: 0 <= i < |s| ==> s[i].version <= v
    ensures Newer(s, v) == []
  {
    if s != [] {
      NewerNone(s[..|s| - 1], v);
    }
  }

  /** In a sorted cache, the entries newer than a cached version `v` are exactly those after it. */
  lemma {:induction false} NewerAfter<T>(s: seq<ConfigVersion<T>>, v: nat, i: nat)
    requires StrictlySorted(s) && i < |s| && s[i].version == v
    ensures Newer(s, v) == s[i + 1..]
    decreases |s|
  {
    var init := s[..|s| - 1];
    assert StrictlySorted(init);
    if i == |s| - 1 {
      assert forall k :: 0 <= k < |init| ==> init[k].version <= v;
      NewerNone(init, v);
    } else {
      NewerAfter(init, v, i);
      assert s[|s| - 1].version > v;
      assert Newer(s, v) == init[i + 1..] + [s[|s| - 1]];
      assert init[i + 1..] + [s[|s| - 1]] == s[i + 1..];
    }
  }

  /** The drop-expired loop of `cleanup`: head entries older than the cutoff go. */
  function DropExpired<T>(s: seq<ConfigVersion<T>>, cutoff: int): (r: seq<ConfigVersion<T>>)
    ensures |r| <= |s|
  {
    if s != [] && s[0].timestamp < cutoff then DropExpired(s[1..], cutoff) else s
  }

  /** What survives the drop-expired loop is a suffix that starts with an entry that has not
      expired, and every entry dropped had expired. */
  lemma {:induction false} DropExpiredShape<T>(s: seq<ConfigVersion<T>>, cutoff: int)
    ensures var r := DropExpired(s, cutoff);
      && r == s[|s| - |r|..]
      && (r != [] ==> r[0].timestamp >= cutoff)
      && forall i :: 0 <= i < |s| - |r| ==> s[i].timestamp < cutoff
  {
    if s != [] && s[0].timestamp < cutoff {
      DropExpiredShape(s[1..], cutoff);
      var r := DropExpired(s, cutoff);
      assert forall i :: 1 <= i < |s| - |r| ==> s[i] == s[1..][i - 1];
    }
  }

  /** `cleanup`: drop expired head entries, then keep at most `maxVersions` of the newest. */
  function Cleanup<T>(s: seq<ConfigVersion<T>>, cutoff: int, maxVersions: nat): (r: seq<ConfigVersion<T>>)
  {
    var d := DropExpired(s, cutoff);
    if |d| > maxVersions then d[|d| - maxVersions..] else d
  }

  /** Cleanup only removes entries from the head and never leaves more than `maxVersions`. */
  lemma CleanupSuffix<T>(s: seq<ConfigVersion<T>>, cutoff: int, maxVersions: nat)
    ensures var r := Cleanup(s, cutoff, maxVersions);
      |r| <= maxVersions && |r| <= |s| && r == s[|s| - |r|..]
  {
    var d := DropExpired(s, cutoff);
    DropExpiredShape(s, cutoff);
    if |d| > maxVersions {
      var k := |d| - maxVersions;
      assert d[k..] == s[|s| - |d| + k..];
    }
  }

  /** Within the bound, cleanup removes only the expired head; the newest entry survives
      unless it is itself expired or the bound is 0. */
  lemma CleanupKeepsNewest<T>(s: seq<ConfigVersion<T>>, cutoff: int, maxVersions: nat)
    requires s != [] && s[|s| - 1].timestamp >= cutoff && maxVersions > 0
    ensures var r := Cleanup(s, cutoff, maxVersions);
      r != [] && r[|r| - 1] == s[|s| - 1]
  {
    var d := DropExpired(s, cutoff);
    DropExpiredShape(s, cutoff);
    assert d[|d| - 1] == s[|s| - 1];
  }

  /** A suffix of a strictly sorted sequence bounded by `counter` is also sorted and bounded. */
  lemma SuffixSorted<T>(s: seq<ConfigVersion<T>>, k: nat, counter: nat)
    requires StrictlySorted(s) && k <= |s|
    requires forall i :: 0 <= i < |s| ==> s[i].version <= counter
    ensures StrictlySorted(s[k..])
    ensures forall i :: 0 <= i < |s| - k ==> s[k..][i].version <= counter
  {
    assert forall i :: 0 <= i < |s| - k ==> s[k..][i] == s[k + i];
  }

  /** Cleanup keeps a sorted, bounded cache sorted and bounded, within `maxVersions` entries. */
  lemma CleanupOrdered<T>(s: seq<ConfigVersion<T>>, cutoff: int, maxVersions: nat, counter: nat)
    requires SortedBelow(s, counter)
    ensures SortedBelow(Cleanup(s, cutoff, maxVersions), counter)
    ensures |Cleanup(s, cutoff, maxVersions)| <= maxVersions
  {
    CleanupSuffix(s, cutoff, maxVersions);
    var r := Cleanup(s, cutoff, maxVersions);
    SuffixSorted(s, |s| - |r|, counter);
  }

  /** The loops of `cleanup` on the entry slice. */
  method CleanupLoop<T>(configs: seq<ConfigVersion<T>>, cutoff: int, maxVersions: nat) returns (cs: seq<ConfigVersion<T>>)
    ensures cs == Cleanup(configs, cutoff, maxVersions)
  {
    cs := configs;
    while |cs| > 0 && cs[0].timestamp < cutoff
      invariant DropExpired(cs, cutoff) == DropExpired(configs, cutoff)
      decreases |cs|
    {
      cs := cs[1..];
    }
    if |cs| > maxVersions {
      var deleteCount := |cs| - maxVersions;
      cs := cs[deleteCount..];
    }
  }

  /** The fallback loop of `GetVersionsSince`: every entry newer than `v`, in order. */
  method CollectNewer<T>(configs: seq<ConfigVersion<T>>, v: nat) returns (result: seq<ConfigVersion<T>>)
    ensures result == Newer(configs, v)
  {
    result := [];
    var i := 0;
    while i < |configs|
      invariant 0 <= i <= |configs|
      invariant result == Newer(configs[..i], v)
    {
      assert configs[..i + 1][..i] == configs[..i];
      if configs[i].version > v {
        result := result + [configs[i]];
      }
      i := i + 1;
    }
    assert configs[..|configs|] == configs;
  }

  class ConfigCache<T> {
    var configs: seq<ConfigVersion<T>>
    var versionCounter: nat
    const maxVersions: nat
    const maxAge: int

    /** Versions are sorted and none exceeds the counter. */
    ghost predicate Ordered()
      reads this
    {
      SortedBelow(configs, versionCounter)
    }

    ghost predicate Valid()
      reads this
    {
      Ordered() && |configs| <= maxVersions
    }

    /** `NewConfigCacheWithOptions`; `NewConfigCache` uses 3000 versions and one hour. */
    constructor (maxVersions: nat, maxAge: int)
      ensures Valid() && configs == [] && versionCounter == 0
      ensures this.maxVersions == maxVersions && this.maxAge == maxAge
    {
      this.maxVersions := maxVersions;
      this.maxAge := maxAge;
      configs := [];
      versionCounter := 0;
    }

    /** `cleanup`. */
    method CleanupAt(now: int)
      requires Ordered()
      modifies this`configs
      ensures Valid()
      ensures configs == Cleanup(old(configs), now - maxAge, maxVersions)
    {
      var cs := CleanupLoop(configs, now - maxAge, maxVersions);
      CleanupOrdered(configs, now - maxAge, maxVersions, versionCounter);
      configs := cs;
    }

    /** `AddConfig`: the new entry gets counter + 1 and goes to the tail before cleanup. */
    method AddConfig(config: T, now: int) returns (version: nat)
      requires Valid()
      modifies this
      ensures Valid()
      ensures version == old(versionCounter) + 1 && versionCounter == version
      ensures configs == Cleanup(old(configs) + [ConfigVersion(version, config, now)], now - maxAge, maxVersions)
    {
      versionCounter := versionCounter + 1;
      version := versionCounter;
      configs := configs + [ConfigVersion(version, config, now)];
      CleanupAt(now);
    }

    /** `GetVersion`: the cached entry with that version. */
    method GetVersion(version: nat) returns (r: Option<ConfigVersion<T>>)
      ensures r.Some? <==> exists i :: 0 <= i < |configs| && configs[i].version == version
      ensures r.Some? ==> r.value in configs && r.value.version == version
    {
      var i := 0;
      while i < |configs|
        invariant 0 <= i <= |configs|
        invariant forall j :: 0 <= j < i ==> configs[j].version != version
      {
        if configs[i].version == version {
          return Some(configs[i]);
        }
        i := i + 1;
      }
      return None;
    }

    /** `GetLatestVersion`. */
    function GetLatestVersion(): nat
      reads this
    {
      versionCounter
    }

    /** `GetLatestConfig`: the tail entry, or none when the cache is empty. */
    method GetLatestConfig() returns (r: Option<ConfigVersion<T>>)
      requires Valid()
      ensures r.None? <==> configs == []
      ensures r.Some? ==> (r.value == configs[|configs| - 1]
        && forall c :: c in configs ==> c.version <= r.value.version)
    {
      if |configs| == 0 {
        return None;
      }
      return Some(configs[|configs| - 1]);
    }

    /** `HasNewerVersion`. */
    method HasNewerVersion(clientVersion: nat) returns (r: bool)
      requires Valid()
      ensures r <==> versionCounter > clientVersion
      ensures !r ==> Newer(configs, clientVersion) == []
    {
      r := versionCounter > clientVersion;
      if !r {
        NewerNone(configs, clientVersion);
      }
    }

    /** `GetVersionsSince`: after the client's version if it is cached, else every newer entry.
        Because versions are sorted the two branches agree: the answer is always the newer entries. */
    method GetVersionsSince(clientVersion: nat) returns (result: seq<ConfigVersion<T>>)
      requires Valid()
      ensures forall i :: 0 <= i < |configs| && configs[i].version == clientVersion ==> result == configs[i + 1..]
      ensures result == Newer(configs, clientVersion)
    {
      var i := 0;
      while i < |configs|
        invariant 0 <= i <= |configs|
        invariant forall j :: 0 <= j < i ==> configs[j].version != clientVersion
      {
        if configs[i].version == clientVersion {
          result := configs[i + 1..];
          NewerAfter(configs, clientVersion, i);
          return;
        }
        i := i + 1;
      }
      result := CollectNewer(configs, clientVersion);
    }

    /** `GetOldestCachedVersion`: 0 for an empty cache, else the head's version. */
    method GetOldestCachedVersion() returns (v: nat)
      requires Valid()
      ensures configs == [] ==> v == 0
      ensures configs != [] ==> v == configs[0].version && forall c :: c in configs ==> v <= c.version
    {
      if |configs| == 0 {
        return 0;
      }
      return configs[0].version;
    }

    /** `Clear`: empties the cache and restarts the counter. */
    method Clear()
      modifies this
      ensures Valid() && configs == [] && versionCounter == 0
    {
      configs := [];
      versionCounter := 0;
    }
  }

  /** Two consecutive additions return strictly increasing versions, and the cache stays sorted. */
  method AddTwice<T>(c: ConfigCache<T>, a: T, b: T, now: int) returns (v1: nat, v2: nat)
    requires c.Valid()
    modifies c
    ensures c.Valid() && v1 < v2 && v2 == c.GetLatestVersion()
  {
    v1 := c.AddConfig(a, now);
    v2 := c.AddConfig(b, now);
  }
}
