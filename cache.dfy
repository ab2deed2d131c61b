// ai_scholar/cache.py: the module-level `search_cache` dict from cache keys
// to (result, timestamp) pairs with a one-hour lifetime. The dict becomes
// the `entries` field of a SearchCache object that the operations update in
// place; the clock reading `datetime.now()` is a parameter `now`, in
// seconds, and the md5 digest is a parameter function.

module Cache {
  import opened Base
  import opened Text
  import opened Values
  import SearchRequests

  /** CACHE_DURATION: one hour, in seconds. */
  const CacheDuration: real := 3600.0

  datatype CacheEntry = CacheEntry(result: Value, timestamp: real)

  /** An entry whose age has reached the lifetime. */
  predicate Expired(e: CacheEntry, now: real)
  {
    now - e.timestamp >= CacheDuration
  }

  /** The f-string that get_cache_key hashes. */
  function CacheData(query: string, limit: int, backend: string, minYear: Option<int>, maxYear: Option<int>): string
  {
    query + "_" + IntToString(limit) + "_" + backend + "_" +
    SearchRequests.OptIntStr(minYear) + "_" + SearchRequests.OptIntStr(maxYear)
  }

  /** get_cache_key, with `md5` standing for the hex digest. */
  function GetCacheKey(md5: string -> string, query: string, limit: int, backend: string,
                       minYear: Option<int>, maxYear: Option<int>): string
  {
    md5(CacheData(query, limit, backend, minYear, maxYear))
  }

  /**
   * Two requests for the same query and years that differ in limit, or in
   * backend, hash different strings, so they cannot share an entry unless
   * md5 collides.
   */
  lemma CacheDataSeparates(query: string, l1: int, l2: int, b1: string, b2: string,
                           minYear: Option<int>, maxYear: Option<int>)
    requires l1 != l2 || b1 != b2
    ensures CacheData(query, l1, b1, minYear, maxYear) != CacheData(query, l2, b2, minYear, maxYear)
  {
    var tail := "_" + SearchRequests.OptIntStr(minYear) + "_" + SearchRequests.OptIntStr(maxYear);
    var p := query + "_";
    NoUnderscore(l1);
    NoUnderscore(l2);
    if l1 != l2 {
      IntToStringRoundTrip(l1);
      IntToStringRoundTrip(l2);
    }
    CacheDataParts(query, l1, b1, tail, minYear, maxYear);
    CacheDataParts(query, l2, b2, tail, minYear, maxYear);
    SplitAtSeparator(p, IntToString(l1), b1, IntToString(l2), b2, tail, '_');
  }

  /** The hashed string as the query prefix, the printed limit, '_', the backend and the years. */
  lemma CacheDataParts(query: string, limit: int, backend: string, tail: string, minYear: Option<int>, maxYear: Option<int>)
    requires tail == "_" + SearchRequests.OptIntStr(minYear) + "_" + SearchRequests.OptIntStr(maxYear)
    ensures CacheData(query, limit, backend, minYear, maxYear) == (query + "_") + IntToString(limit) + ['_'] + backend + tail
  {
  }

  /** A printed integer holds no '_'. */
  lemma NoUnderscore(n: int)
    ensures forall i :: 0 <= i < |IntToString(n)| ==> IntToString(n)[i] != '_'
  {
    if n < 0 {
      var d := NatToString(-n);
      assert IntToString(n) == "-" + d;
      assert forall i :: 1 <= i < |IntToString(n)| ==> IntToString(n)[i] == d[i - 1];
    }
  }

  /** Where the separator and the parts before it sit in `p + x + [c] + b + t`. */
  lemma PartsAt(p: string, x: string, c: char, b: string, t: string, y: string)
    ensures (p + x + [c] + b + t)[|p| + |x|] == c
    ensures |x| < |y| ==> (p + y + [c] + b + t)[|p| + |x|] == y[|x|]
  {
  }

  /** Between a shared prefix and suffix, a separator-free part followed by the separator splits only one way. */
  lemma SplitAtSeparator(p: string, x1: string, b1: string, x2: string, b2: string, tail: string, c: char)
    requires forall i :: 0 <= i < |x1| ==> x1[i] != c
    requires forall i :: 0 <= i < |x2| ==> x2[i] != c
    ensures p + x1 + [c] + b1 + tail == p + x2 + [c] + b2 + tail ==> x1 == x2 && b1 == b2
    decreases if |x2| < |x1| then 1 else 0
  {
    var s1 := p + x1 + [c] + b1 + tail;
    var s2 := p + x2 + [c] + b2 + tail;
    if s1 == s2 {
      if |x1| < |x2| {
        PartsAt(p, x1, c, b1, tail, x2);
        PartsAt(p, x1, c, b2, tail, x2);
      } else if |x2| < |x1| {
        SplitAtSeparator(p, x2, b2, x1, b1, tail, c);
      } else if |x1| == |x2| {
        assert x1 == s1[|p|..|p| + |x1|];
        assert x2 == s2[|p|..|p| + |x2|];
        assert b1 == s1[|p| + |x1| + 1..|s1| - |tail|];
        assert b2 == s2[|p| + |x2| + 1..|s2| - |tail|];
      }
    }
  }

  /** What get_cached_result returns: the stored value while it is fresh, otherwise None. */
  function Lookup(entries: map<string, CacheEntry>, key: string, now: real): Option<Value>
  {
    if key in entries && !Expired(entries[key], now) then Some(entries[key].result) else None
  }

  /** The keys of the entries that have reached the lifetime. */
  function ExpiredKeys(entries: map<string, CacheEntry>, now: real): set<string>
  {
    set k | k in entries && Expired(entries[k], now)
  }

  /** The cache with exactly the expired entries removed. */
  function Pruned(entries: map<string, CacheEntry>, now: real): (r: map<string, CacheEntry>)
  {
    map k | k in entries && !Expired(entries[k], now) :: entries[k]
  }

  /**
   * Pruning keeps exactly the fresh entries, unchanged, is idempotent, and
   * does not change what any lookup at the same time returns.
   */
  lemma PrunedSpec(entries: map<string, CacheEntry>, now: real)
    ensures var r := Pruned(entries, now);
      r.Keys == entries.Keys - ExpiredKeys(entries, now) &&
      (forall k :: k in r ==> r[k] == entries[k] && !Expired(r[k], now)) &&
      Pruned(r, now) == r &&
      (forall key :: Lookup(r, key, now) == Lookup(entries, key, now))
  {
  }

  /** A stored result is returned for any lookup less than an hour later, and not from the hour on. */
  lemma LookupAfterStore(entries: map<string, CacheEntry>, key: string, result: Value, stored: real, now: real)
    ensures Lookup(entries[key := CacheEntry(result, stored)], key, now) ==
      (if now - stored < CacheDuration then Some(result) else None)
    ensures forall other :: other != key ==>
      Lookup(entries[key := CacheEntry(result, stored)], other, now) == Lookup(entries, other, now)
  {
  }

  /** The expired keys among `seen`. */
  function ExpiredIn(entries: map<string, CacheEntry>, seen: set<string>, now: real): set<string>
  {
    set k | k in seen && k in entries && Expired(entries[k], now)
  }

  /** Visiting one more key adds it to the expired ones exactly when it is expired. */
  lemma ExpiredInStep(entries: map<string, CacheEntry>, seen: set<string>, k: string, now: real)
    requires k in entries && k !in seen
    ensures |ExpiredIn(entries, seen + {k}, now)| ==
      |ExpiredIn(entries, seen, now)| + (if Expired(entries[k], now) then 1 else 0)
  {
    if Expired(entries[k], now) {
      assert ExpiredIn(entries, seen + {k}, now) == ExpiredIn(entries, seen, now) + {k};
    } else {
      assert ExpiredIn(entries, seen + {k}, now) == ExpiredIn(entries, seen, now);
    }
  }

  /** The counts of get_cache_stats: every entry is either expired or active. */
  lemma StatsPartition(entries: map<string, CacheEntry>, now: real)
    ensures |entries| == |ExpiredKeys(entries, now)| + |Pruned(entries, now)|
  {
    var live := Pruned(entries, now).Keys;
    assert entries.Keys == ExpiredKeys(entries, now) + live;
    assert ExpiredKeys(entries, now) * live == {};
  }

  class SearchCache {
    var entries: map<string, CacheEntry>

    /** The empty module-level dict. */
    constructor ()
      ensures entries == map[]
    {
      entries := map[];
    }

    /** get_cached_result: a fresh entry is returned; an expired one is deleted. */
    method GetCachedResult(key: string, now: real) returns (r: Option<Value>)
      modifies this
      ensures r == Lookup(old(entries), key, now)
      ensures entries == if key in old(entries) && Expired(old(entries)[key], now)
                         then old(entries) - {key} else old(entries)
    {
      if key in entries {
        var e := entries[key];
        if now - e.timestamp < CacheDuration {
          return Some(e.result);
        } else {
          entries := entries - {key};
        }
      }
      return None;
    }

    /** cache_result: the entry is overwritten with the current time. */
    method CacheResult(key: string, result: Value, now: real)
      modifies this
      ensures entries == old(entries)[key := CacheEntry(result, now)]
    {
      entries := entries[key := CacheEntry(result, now)];
    }

    /** clear_search_cache. */
    method Clear()
      modifies this
      ensures entries == map[]
    {
      entries := map[];
    }

    /** get_cache_stats: (total_entries, expired_entries, active_entries). */
    method Stats(now: real) returns (total: nat, expired: nat, active: int)
      ensures total == |entries| && expired == |ExpiredKeys(entries, now)|
      ensures active == total - expired && active == |Pruned(entries, now)|
    {
      total := |entries|;
      expired := 0;
      var todo := entries.Keys;
      ghost var seen: set<string> := {};
      while todo != {}
        invariant todo <= entries.Keys && seen == entries.Keys - todo
        invariant expired == |ExpiredIn(entries, seen, now)|
        decreases |todo|
      {
        var k :| k in todo;
        ExpiredInStep(entries, seen, k, now);
        if now - entries[k].timestamp >= CacheDuration {
          expired := expired + 1;
        }
        todo := todo - {k};
        seen := seen + {k};
      }
      assert ExpiredIn(entries, seen, now) == ExpiredKeys(entries, now);
      StatsPartition(entries, now);
      active := total - expired;
    }

    /** cleanup_expired_cache: collect the expired keys, then delete each. */
    method CleanupExpired(now: real)
      modifies this
      ensures entries == Pruned(old(entries), now)
    {
      var expiredKeys := CollectExpired(now);
      DeleteKeys(expiredKeys);
      assert entries == Pruned(old(entries), now);
    }

    /** The first loop of cleanup_expired_cache: the keys of the expired entries. */
    method CollectExpired(now: real) returns (expiredKeys: seq<string>)
      ensures forall k :: k in expiredKeys <==> k in entries && Expired(entries[k], now)
    {
      expiredKeys := [];
      var todo := entries.Keys;
      ghost var seen: set<string> := {};
      while todo != {}
        invariant todo <= entries.Keys && seen == entries.Keys - todo
        invariant forall k :: k in expiredKeys <==> k in seen && Expired(entries[k], now)
        decreases |todo|
      {
        var k :| k in todo;
        if now - entries[k].timestamp >= CacheDuration {
          expiredKeys := expiredKeys + [k];
        }
        todo := todo - {k};
        seen := seen + {k};
      }
    }

    /** The second loop of cleanup_expired_cache: each listed key deleted. */
    method DeleteKeys(keys: seq<string>)
      modifies this
      ensures entries == map k | k in old(entries) && k !in keys :: old(entries)[k]
    {
      for i := 0 to |keys|
        invariant entries == map k | k in old(entries) && k !in keys[..i] :: old(entries)[k]
      {
        assert keys[..i + 1] == keys[..i] + [keys[i]];
        entries := entries - {keys[i]};
      }
      assert keys[..|keys|] == keys;
    }
  }
}
