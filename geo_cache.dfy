/** The TTL-bounded IP -> info cache of the two ipinfo WHOIS modules
    (`add_to_cache`, `find_in_cache`, `free_cache`; the code is the same
    in both modules, the mutex of one of them aside).

    The uthash table is the map `entries` from the IP text to its entry.
    `time(NULL)` is the parameter `now` of each operation. */
module GeoCache {
  import opened Common

  /** `cache_duration`: 24 hours, never changed. */
  const CacheDuration: int := 86400
  /** `char ip[46]`: the key holds at most 45 bytes. */
  const IpCapacity: nat := 45
  /** `char info[256]`: the stored text holds at most 255 bytes. */
  const InfoCapacity: nat := 255

  datatype Entry = Entry(info: string, timestamp: int)

  /** An entry is served while its age is at most the duration; only an
      age strictly greater than `CacheDuration` expires it. */
  predicate Live(e: Entry, now: int) {
    now - e.timestamp <= CacheDuration
  }

  /** What `find_in_cache(ip)` reports at time `now`. */
  function Lookup(m: map<string, Entry>, ip: string, now: int): Option<string> {
    if ip in m && Live(m[ip], now) then Some(m[ip].info) else None
  }

  /** The table after `find_in_cache(ip)` at time `now`: an expired entry
      for `ip` is deleted, nothing else changes. */
  function AfterLookup(m: map<string, Entry>, ip: string, now: int): map<string, Entry> {
    if ip in m && !Live(m[ip], now) then m - {ip} else m
  }

  /** An expired entry is reported as a miss and removed, and only it. */
  lemma ExpiredIsEvicted(m: map<string, Entry>, ip: string, now: int)
    requires ip in m && now - m[ip].timestamp > CacheDuration
    ensures Lookup(m, ip, now) == None
    ensures ip !in AfterLookup(m, ip, now)
    ensures forall k :: k != ip ==> (k in AfterLookup(m, ip, now) <==> k in m)
    ensures forall k :: k in m && k != ip ==> AfterLookup(m, ip, now)[k] == m[k]
  {
  }

  /** An entry whose age is at most the duration, exactly the duration
      included, is served with its stored text and the table is kept. */
  lemma LiveIsServed(m: map<string, Entry>, ip: string, now: int)
    requires ip in m && now - m[ip].timestamp <= CacheDuration
    ensures Lookup(m, ip, now) == Some(m[ip].info)
    ensures AfterLookup(m, ip, now) == m
  {
  }

  /** A lookup of an absent key misses and changes nothing. */
  lemma AbsentMisses(m: map<string, Entry>, ip: string, now: int)
    requires ip !in m
    ensures Lookup(m, ip, now) == None && AfterLookup(m, ip, now) == m
  {
  }

  /** Round trip: what was added at time `t` is found at any `now` with
      `now - t <= CacheDuration`, and found again by a repeated lookup. */
  lemma AddThenLookup(m: map<string, Entry>, ip: string, info: string, t: int, now: int)
    requires ip !in m
    requires now - t <= CacheDuration
    ensures Lookup(m[ip := Entry(info, t)], ip, now) == Some(info)
    ensures AfterLookup(m[ip := Entry(info, t)], ip, now) == m[ip := Entry(info, t)]
  {
  }

  /** A miss leaves the key absent, so the `HASH_ADD_STR` that follows a
      miss never meets a duplicate key. */
  lemma MissLeavesKeyFree(m: map<string, Entry>, ip: string, now: int)
    requires Lookup(m, ip, now) == None
    ensures ip !in AfterLookup(m, ip, now)
  {
  }

  /** Once expired, an entry stays a miss at every later time. */
  lemma ExpiryIsPermanent(m: map<string, Entry>, ip: string, now: int, later: int)
    requires Lookup(m, ip, now) == None
    requires now <= later
    ensures Lookup(AfterLookup(m, ip, now), ip, later) == None
  {
  }

  class Cache {
    var entries: map<string, Entry>

    constructor ()
      ensures entries == map[]
    {
      entries := map[];
    }

    /** `add_to_cache`: `HASH_ADD_STR` adds a new node without looking for
        an old one, so the key must not be present (the caller has just
        missed on it); the key and text are copied into their fixed
        buffers with `strcpy`, so they must fit. */
    method Add(ip: string, info: string, now: int)
      requires ip !in entries
      requires |ip| <= IpCapacity && |info| <= InfoCapacity
      modifies this
      ensures entries == old(entries)[ip := Entry(info, now)]
    {
      entries := entries[ip := Entry(info, now)];
    }

    /** `find_in_cache`: a live entry is returned; an expired one is
        deleted and reported as a miss. */
    method Find(ip: string, now: int) returns (r: Option<string>)
      modifies this
      ensures r == Lookup(old(entries), ip, now)
      ensures entries == AfterLookup(old(entries), ip, now)
      ensures r.Some? <==> ip in old(entries) && now - old(entries)[ip].timestamp <= CacheDuration
      ensures r.Some? ==> r.value == old(entries)[ip].info && entries == old(entries)
      ensures r.None? ==> ip !in entries && entries.Keys == old(entries).Keys - {ip}
    {
      if ip in entries && now - entries[ip].timestamp > CacheDuration {
        entries := entries - {ip};
        r := None;
      } else if ip in entries {
        r := Some(entries[ip].info);
      } else {
        r := None;
      }
    }

    /** `free_cache`: `HASH_ITER` deletes the entries one by one. */
    method Free()
      modifies this
      ensures entries == map[]
    {
      while entries != map[]
        decreases |entries.Keys|
      {
        var ip :| ip in entries;
        entries := entries - {ip};
      }
    }
  }

  /** A worked instance of the cache contract: an entry added at t = 0 is
      served at t = 50 and at exactly t = 86400, and is gone at
      t = 86401. */
  method ExpiryScenario(c: Cache, info: string)
    requires c.entries == map[] && |info| <= InfoCapacity
    modifies c
    ensures c.entries == map[]
  {
    c.Add("203.0.113.5", info, 0);
    var r := c.Find("203.0.113.5", 50);
    assert r == Some(info);
    r := c.Find("203.0.113.5", CacheDuration);
    assert r == Some(info);
    r := c.Find("203.0.113.5", CacheDuration + 1);
    assert r == None;
  }
}
