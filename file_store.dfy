/**
 * The keyed disk cache of SGHTTPRequest (SGFileCache): a table from primary key to an
 * entry that holds the cached bytes, an optional expiry time and a dictionary of
 * secondary keys that a lookup may require to match.
 */
module FileStore {
  import opened Common

  /** Default max-age of a cached item: 30 days, in seconds. */
  const DefaultCacheMaxAge: nat := 2592000

  /** Default limit on the total size of the cached data, in megabytes; 0 means unlimited. */
  const DefaultMaxDiskCacheSizeMB: nat := 20

  const BytesPerMB: nat := 1048576

  /** One cached item. An entry without an expiry date never expires. */
  datatype Entry = Entry(data: Bytes, expiry: Option<int>, secondaryKeys: Dict)

  type Table = map<string, Entry>

  /** An entry has expired once the clock has reached its expiry date. */
  predicate Expired(e: Entry, now: int) {
    e.expiry.Some? && e.expiry.value <= now
  }

  /** Every secondary key the caller supplies is stored for the entry, with the same value. */
  predicate SecondaryKeysMatch(stored: Dict, wanted: Dict) {
    forall n :: n in wanted ==> n in stored && stored[n] == wanted[n]
  }

  /** `small` is `big` with some keys left out. */
  predicate Submap(small: Table, big: Table) {
    forall k :: k in small ==> k in big && small[k] == big[k]
  }

  /** The table restricted to the keys of `keys`. */
  function KeepOnly(t: Table, keys: seq<string>): (r: Table)
    ensures forall k :: k in r <==> k in t && k in keys
    ensures Submap(r, t)
  {
    map k | k in t && k in keys :: t[k]
  }

  /** The table without its expired entries. */
  function Unexpired(t: Table, now: int): (r: Table)
    ensures forall k :: k in r <==> k in t && !Expired(t[k], now)
    ensures Submap(r, t)
  {
    map k | k in t && !Expired(t[k], now) :: t[k]
  }

  /** The number of bytes stored in the table. */
  ghost function TotalSize(t: Table): nat
    decreases |t|
  {
    if t == map[] then 0
    else
      var k :| k in t;
      assert |t - {k}| < |t| by { assert (t - {k}).Keys == t.Keys - {k}; }
      |t[k].data| + TotalSize(t - {k})
  }

  /** The size of a table is the size of any one entry plus the size of the rest. */
  lemma {:induction false} TotalSizeRemove(t: Table, k: string)
    requires k in t
    ensures TotalSize(t) == |t[k].data| + TotalSize(t - {k})
    decreases |t|
  {
    var j :| j in t && TotalSize(t) == |t[j].data| + TotalSize(t - {j});
    if j != k {
      assert |t - {j}| < |t| by { assert (t - {j}).Keys == t.Keys - {j}; }
      assert |t - {k}| < |t| by { assert (t - {k}).Keys == t.Keys - {k}; }
      TotalSizeRemove(t - {j}, k);
      TotalSizeRemove(t - {k}, j);
      assert t - {j} - {k} == t - {k} - {j};
    }
  }

  /** Writing an entry replaces the size of the old one, if any, by the size of the new one. */
  lemma TotalSizeUpdate(t: Table, k: string, e: Entry)
    ensures TotalSize(t[k := e]) == TotalSize(t - {k}) + |e.data|
    ensures k in t ==> TotalSize(t) == TotalSize(t - {k}) + |t[k].data|
    ensures k !in t ==> TotalSize(t - {k}) == TotalSize(t)
  {
    TotalSizeRemove(t[k := e], k);
    assert t[k := e] - {k} == t - {k};
    if k in t {
      TotalSizeRemove(t, k);
    } else {
      assert t - {k} == t;
    }
  }

  /** A table that holds one key is as large as that key's data. */
  lemma TotalSizeSingle(t: Table, k: string)
    requires t.Keys == {k}
    ensures TotalSize(t) == |t[k].data|
  {
    TotalSizeRemove(t, k);
    assert t - {k} == map[];
  }

  class FileCache {
    /** The cached items, by primary key. */
    var entries: Table
    /** The total size of the cached data, kept up to date by every write and removal. */
    var totalBytes: nat
    /** Max-age of cached items, in seconds. */
    var defaultCacheMaxAge: nat
    /** Limit on the total cached size, in megabytes; 0 means unlimited. */
    var maxDiskCacheSizeMB: nat

    ghost predicate Valid()
      reads this
    {
      totalBytes == TotalSize(entries)
    }

    /** The limit in bytes; 0 means unlimited. */
    function Budget(): nat
      reads this
    {
      maxDiskCacheSizeMB * BytesPerMB
    }

    constructor ()
      ensures Valid()
      ensures entries == map[]
      ensures defaultCacheMaxAge == DefaultCacheMaxAge && maxDiskCacheSizeMB == DefaultMaxDiskCacheSizeMB
    {
      entries := map[];
      totalBytes := 0;
      defaultCacheMaxAge := DefaultCacheMaxAge;
      maxDiskCacheSizeMB := DefaultMaxDiskCacheSizeMB;
    }

    /**
     * `cachedDataFor:secondaryKeys:` — the bytes stored for `key`, or nil when there is no
     * entry, when it has expired, or when a supplied secondary key does not match.
     * `cachedDataFor:` is the same lookup with no secondary keys.
     */
    function CachedData(key: string, wanted: Dict, now: int): (r: Option<Bytes>)
      reads this
      ensures r.Some? <==> key in entries && !Expired(entries[key], now)
                           && forall n :: n in wanted ==> n in entries[key].secondaryKeys && entries[key].secondaryKeys[n] == wanted[n]
      ensures r.Some? ==> r.value == entries[key].data
    {
      if key in entries && !Expired(entries[key], now) && SecondaryKeysMatch(entries[key].secondaryKeys, wanted)
      then Some(entries[key].data)
      else None
    }

    /** `hasCachedDataFor:secondaryKeys:` — YES exactly when the lookup would return data. */
    function HasCachedData(key: string, wanted: Dict, now: int): (b: bool)
      reads this
      ensures b <==> CachedData(key, wanted, now).Some?
    {
      key in entries && !Expired(entries[key], now) && SecondaryKeysMatch(entries[key].secondaryKeys, wanted)
    }

    /** `secondaryKeyValueNamed:forPrimaryKey:` — the stored value of one secondary key, or nil. */
    function SecondaryKeyValueNamed(name: string, key: string): (r: Option<string>)
      reads this
      ensures r.Some? <==> key in entries && name in entries[key].secondaryKeys
      ensures r.Some? ==> r.value == entries[key].secondaryKeys[name]
    {
      if key in entries && name in entries[key].secondaryKeys
      then Some(entries[key].secondaryKeys[name])
      else None
    }

    /**
     * `cachedDataFor:secondaryKeys:newExpiryDate:` — the same lookup; on a hit the entry's
     * expiry date becomes `newExpiry` and nothing else changes.
     */
    method CachedDataRefreshingExpiry(key: string, wanted: Dict, newExpiry: int, now: int) returns (r: Option<Bytes>)
      requires Valid()
      modifies this`entries
      ensures Valid()
      ensures r == old(CachedData(key, wanted, now))
      ensures r.Some? ==> entries == old(entries)[key := old(entries)[key].(expiry := Some(newExpiry))]
      ensures r.None? ==> entries == old(entries)
    {
      r := CachedData(key, wanted, now);
      if r.Some? {
        var e := entries[key];
        TotalSizeUpdate(entries, key, e.(expiry := Some(newExpiry)));
        entries := entries[key := e.(expiry := Some(newExpiry))];
      }
    }

    /** `removeCacheFilesForPrimaryKey:` — removes the entry for `key` if there is one. */
    method RemoveCacheFilesForPrimaryKey(key: string)
      requires Valid()
      modifies this`entries, this`totalBytes
      ensures Valid()
      ensures entries == old(entries) - {key}
    {
      if key in entries {
        TotalSizeRemove(entries, key);
        totalBytes := totalBytes - |entries[key].data|;
        entries := entries - {key};
      } else {
        assert entries - {key} == entries;
      }
    }

    /** `removeCacheFilesForPrimaryKeys:` — removes the entries for exactly the given keys. */
    method RemoveCacheFilesForPrimaryKeys(keys: seq<string>)
      requires Valid()
      modifies this`entries, this`totalBytes
      ensures Valid()
      ensures entries == old(entries) - (set k | k in keys)
    {
      var i := 0;
      while i < |keys|
        invariant 0 <= i <= |keys|
        invariant Valid()
        invariant entries == old(entries) - (set k | k in keys[..i])
      {
        RemoveCacheFilesForPrimaryKey(keys[i]);
        assert keys[..i + 1] == keys[..i] + [keys[i]];
        i := i + 1;
      }
      assert keys[..i] == keys;
    }

    /** `removeCacheFilesNotMatchingPrimaryKeys:` — keeps only the entries whose key is listed. */
    method RemoveCacheFilesNotMatchingPrimaryKeys(keys: seq<string>)
      requires Valid()
      modifies this`entries, this`totalBytes
      ensures Valid()
      ensures entries == KeepOnly(old(entries), keys)
    {
      var pending := entries.Keys;
      while pending != {}
        invariant Valid()
        invariant forall k :: k in entries <==> k in old(entries) && (k in keys || k in pending)
        invariant Submap(entries, old(entries))
        decreases pending
      {
        var k :| k in pending;
        if k !in keys {
          RemoveCacheFilesForPrimaryKey(k);
        }
        pending := pending - {k};
      }
    }

    /** `removeCacheFilesIfExpiredForPrimaryKey:` — YES, and the entry is gone, exactly when it was present and expired. */
    method RemoveCacheFilesIfExpiredForPrimaryKey(key: string, now: int) returns (removed: bool)
      requires Valid()
      modifies this`entries, this`totalBytes
      ensures Valid()
      ensures removed == (key in old(entries) && Expired(old(entries)[key], now))
      ensures entries == if removed then old(entries) - {key} else old(entries)
    {
      removed := key in entries && Expired(entries[key], now);
      if removed {
        RemoveCacheFilesForPrimaryKey(key);
      }
    }

    /** `clearExpiredFiles` — removes every expired entry and only those. */
    method ClearExpiredFiles(now: int)
      requires Valid()
      modifies this`entries, this`totalBytes
      ensures Valid()
      ensures entries == Unexpired(old(entries), now)
    {
      var pending := entries.Keys;
      while pending != {}
        invariant Valid()
        invariant forall k :: k in entries <==> k in old(entries) && (!Expired(old(entries)[k], now) || k in pending)
        invariant Submap(entries, old(entries))
        decreases pending
      {
        var k :| k in pending;
        if k in entries && Expired(entries[k], now) {
          RemoveCacheFilesForPrimaryKey(k);
        }
        pending := pending - {k};
      }
    }

    /** `clearCache` — empties the cache. */
    method ClearCache()
      requires Valid()
      modifies this`entries, this`totalBytes
      ensures Valid()
      ensures entries == map[]
    {
      entries := map[];
      totalBytes := 0;
    }

    /**
     * Removes entries other than `keep`, in no particular order, until the cache is within
     * its size limit; `keep` itself goes only if it alone is over the limit.
     */
    method EnforceSizeLimit(keep: string)
      requires Valid()
      modifies this`entries, this`totalBytes
      ensures Valid()
      ensures Submap(entries, old(entries))
      ensures Budget() == 0 || old(TotalSize(entries)) <= Budget() ==> entries == old(entries)
      ensures Budget() > 0 ==> TotalSize(entries) <= Budget()
      ensures keep in old(entries) && |old(entries)[keep].data| <= Budget() ==> keep in entries
    {
      var budget := maxDiskCacheSizeMB * BytesPerMB;
      if budget == 0 {
        return;
      }
      while totalBytes > budget && entries.Keys - {keep} != {}
        invariant Valid()
        invariant Submap(entries, old(entries))
        invariant keep in old(entries) ==> keep in entries
        invariant old(totalBytes) <= budget ==> entries == old(entries)
        decreases |entries|
      {
        var victim :| victim in entries && victim != keep;
        ghost var before := entries;
        RemoveCacheFilesForPrimaryKey(victim);
        assert entries.Keys == before.Keys - {victim};
      }
      if totalBytes > budget && keep in entries {
        assert entries.Keys == {keep};
        TotalSizeSingle(entries, keep);
        RemoveCacheFilesForPrimaryKey(keep);
      } else if keep in entries && entries.Keys == {keep} {
        TotalSizeSingle(entries, keep);
      }
    }

    /** Writes one entry, then enforces the size limit. */
    method Store(key: string, e: Entry)
      requires Valid()
      modifies this`entries, this`totalBytes
      ensures Valid()
      ensures Submap(entries, old(entries)[key := e])
      ensures key in entries ==> entries[key] == e
      ensures Budget() == 0 || |e.data| <= Budget() ==> key in entries
      ensures Budget() == 0 || TotalSize(old(entries)[key := e]) <= Budget() ==> entries == old(entries)[key := e]
      ensures Budget() > 0 ==> TotalSize(entries) <= Budget()
    {
      TotalSizeUpdate(entries, key, e);
      var prior := if key in entries then |entries[key].data| else 0;
      totalBytes := totalBytes - prior + |e.data|;
      entries := entries[key := e];
      EnforceSizeLimit(key);
    }

    /** `cacheData:for:` — caches `data` with no expiry date and no secondary keys. */
    method CacheData(data: Bytes, key: string)
      requires Valid()
      modifies this`entries, this`totalBytes
      ensures Valid()
      ensures Submap(entries, old(entries)[key := Entry(data, None, map[])])
      ensures Budget() == 0 || TotalSize(old(entries)[key := Entry(data, None, map[])]) <= Budget() ==> entries == old(entries)[key := Entry(data, None, map[])]
      ensures Budget() == 0 || |data| <= Budget() ==> key in entries
      ensures key in entries ==> forall now :: CachedData(key, map[], now) == Some(data)
      ensures Budget() > 0 ==> TotalSize(entries) <= Budget()
    {
      Store(key, Entry(data, None, map[]));
    }

    /** `cacheData:for:expiryDate:` — caches `data` until `expiry`, with no secondary keys. */
    method CacheDataWithExpiry(data: Bytes, key: string, expiry: int)
      requires Valid()
      modifies this`entries, this`totalBytes
      ensures Valid()
      ensures Submap(entries, old(entries)[key := Entry(data, Some(expiry), map[])])
      ensures Budget() == 0 || TotalSize(old(entries)[key := Entry(data, Some(expiry), map[])]) <= Budget() ==> entries == old(entries)[key := Entry(data, Some(expiry), map[])]
      ensures Budget() == 0 || |data| <= Budget() ==> key in entries
      ensures key in entries ==> forall now :: now < expiry ==> CachedData(key, map[], now) == Some(data)
      ensures key in entries ==> forall now :: expiry <= now ==> CachedData(key, map[], now) == None
      ensures Budget() > 0 ==> TotalSize(entries) <= Budget()
    {
      Store(key, Entry(data, Some(expiry), map[]));
    }

    /**
     * `cacheData:for:secondaryKeys:expiryDate:` — caches `data` with its secondary keys and
     * an optional expiry date; a lookup that supplies exactly those secondary keys hits.
     */
    method CacheDataWithSecondaryKeys(data: Bytes, key: string, secondaryKeys: Dict, expiry: Option<int>)
      requires Valid()
      modifies this`entries, this`totalBytes
      ensures Valid()
      ensures Submap(entries, old(entries)[key := Entry(data, expiry, secondaryKeys)])
      ensures Budget() == 0 || TotalSize(old(entries)[key := Entry(data, expiry, secondaryKeys)]) <= Budget() ==> entries == old(entries)[key := Entry(data, expiry, secondaryKeys)]
      ensures Budget() == 0 || |data| <= Budget() ==> key in entries
      ensures key in entries ==> forall now :: !Expired(entries[key], now) ==> CachedData(key, secondaryKeys, now) == Some(data)
      ensures Budget() > 0 ==> TotalSize(entries) <= Budget()
    {
      Store(key, Entry(data, expiry, secondaryKeys));
    }
  }
}
