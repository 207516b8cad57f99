/** The disk-backed search cache of tools/cache.py. The cache directory is a
    `Disk` object holding the index file and one payload file per key, so
    that two caches built over the same directory share it; each cache keeps
    its own in-memory copy of the index, as the source does. Times are
    integer microseconds read from the caller's clock. */
module Cache {
  import opened Wrappers
  import opened Text
  import opened WebSearch

  const MicrosPerHour: int := 3600 * 1000000

  /** The normalisation `_hash` applies before hashing: trim, then lower-case.
      Keys are the normalised strings themselves. */
  function Key(query: string): string {
    Lower(Trim(query))
  }

  /** Queries that differ only in letter case, or only in surrounding
      whitespace, share one key and so one cache entry. */
  lemma SameKeyIgnoringCaseAndSpace(a: string, b: string, w1: string, w2: string)
    requires AllIn(w1, Whitespace) && AllIn(w2, Whitespace)
    ensures Lower(a) == Lower(b) ==> Key(a) == Key(b)
    ensures Key(w1 + a + w2) == Key(a)
  {
    LowerTrimCommute(a);
    LowerTrimCommute(b);
    StripIgnoresSurrounding(w1, a, w2, Whitespace);
  }

  /** One index record: the query as given, when it was stored, how many
      results it holds. */
  datatype Entry = Entry(query: string, cachedAt: int, count: nat)

  /** A payload file: a decodable document with its results, or one that
      fails to decode or lacks a field (both make `get` give up). */
  datatype Payload = Stored(query: string, records: seq<SearchResult>) | Corrupt

  /** The index file: absent, present but not valid JSON, or saved. */
  datatype IndexFile = Missing | Unreadable | Saved(entries: map<string, Entry>)

  /** `_load_index`: an absent or unreadable index file loads as empty. */
  function LoadIndex(f: IndexFile): (m: map<string, Entry>)
    ensures f.Saved? ==> m == f.entries
    ensures !f.Saved? ==> m == map[]
  {
    match f
    case Saved(entries) => entries
    case _ => map[]
  }

  /** The cache directory on disk. */
  class Disk {
    var indexFile: IndexFile
    var payloads: map<string, Payload>

    constructor (indexFile: IndexFile, payloads: map<string, Payload>)
      ensures this.indexFile == indexFile && this.payloads == payloads
    {
      this.indexFile := indexFile;
      this.payloads := payloads;
    }
  }

  /** The TTL test of `get` and `stats`: strictly older than the TTL. */
  predicate IsExpired(e: Entry, now: int, ttl: int) {
    now - e.cachedAt > ttl
  }

  /** Which branch of `get` a lookup takes. */
  datatype Verdict = Absent | Expired | PayloadMissing | PayloadCorrupt | Hit(records: seq<SearchResult>)

  function Classify(index: map<string, Entry>, payloads: map<string, Payload>, key: string, now: int, ttl: int): Verdict {
    if key !in index then Absent
    else if IsExpired(index[key], now, ttl) then Expired
    else if key !in payloads then PayloadMissing
    else match payloads[key]
      case Corrupt => PayloadCorrupt
      case Stored(_, records) => Hit(records)
  }

  /** The branches of `get` that evict the entry before returning `None`. */
  predicate Prunes(v: Verdict) {
    v.Expired? || v.PayloadMissing? || v.PayloadCorrupt?
  }

  /** A lookup made after `set(q, rs)` at time `t`, with any spelling of `q`
      that has the same key, returns `rs` exactly while the entry's age is at
      most the TTL, and finds the entry expired once the age exceeds it. */
  lemma GetAfterSet(index: map<string, Entry>, payloads: map<string, Payload>, q: string, q': string,
                    rs: seq<SearchResult>, t: int, now: int, ttl: int)
    requires Key(q') == Key(q)
    ensures var v := Classify(index[Key(q) := Entry(q, t, |rs|)], payloads[Key(q) := Stored(q, rs)], Key(q'), now, ttl);
      (now - t <= ttl ==> v == Hit(rs)) && (now - t > ttl ==> v == Expired)
  {
  }

  /** Once a lookup has pruned a key, the next lookup of it is a plain miss. */
  lemma PrunedStaysAbsent(index: map<string, Entry>, payloads: map<string, Payload>, key: string, now: int, now': int, ttl: int)
    ensures Classify(index - {key}, payloads - {key}, key, now', ttl) == Absent
  {
  }

  /** `stats`' count of expired entries. */
  function ExpiredIn(index: map<string, Entry>, keys: set<string>, now: int, ttl: int): set<string> {
    set k | k in keys && k in index && IsExpired(index[k], now, ttl)
  }

  datatype CacheStats = CacheStats(totalEntries: nat, active: int, expired: nat, cacheDir: string)

  class SearchCache {
    const disk: Disk
    const dir: string
    const ttl: int
    var index: map<string, Entry>

    /** The in-memory index is what a fresh cache over the same directory
        would load. */
    ghost predicate InSync()
      reads this, disk
    {
      LoadIndex(disk.indexFile) == index
    }

    constructor (disk: Disk, dir: string, ttlHours: int)
      ensures this.disk == disk && this.dir == dir && ttl == ttlHours * MicrosPerHour
      ensures index == LoadIndex(disk.indexFile) && InSync()
    {
      this.disk := disk;
      this.dir := dir;
      ttl := ttlHours * MicrosPerHour;
      index := LoadIndex(disk.indexFile);
    }

    /** `get`: the stored records on a live hit; `None` otherwise, evicting
        an expired, missing or corrupt entry from both index and disk. */
    method Get(query: string, now: int) returns (r: Option<seq<SearchResult>>)
      modifies this, disk
      ensures var v := Classify(old(index), old(disk.payloads), Key(query), now, ttl);
        && r == (if v.Hit? then Some(v.records) else None)
        && if Prunes(v) then
             index == old(index) - {Key(query)} && disk.payloads == old(disk.payloads) - {Key(query)}
             && disk.indexFile == Saved(index)
           else
             index == old(index) && disk.payloads == old(disk.payloads) && disk.indexFile == old(disk.indexFile)
      ensures old(InSync()) ==> InSync()
    {
      var key := Key(query);
      ghost var v := Classify(index, disk.payloads, key, now, ttl);
      if key !in index {
        assert v == Absent;
        return None;
      }
      if now - index[key].cachedAt > ttl {
        assert v == Expired;
        Remove(key);
        return None;
      }
      if key !in disk.payloads {
        assert v == PayloadMissing;
        Remove(key);
        return None;
      }
      var payload := disk.payloads[key];
      if payload.Corrupt? {
        assert v == PayloadCorrupt;
        Remove(key);
        r := None;
      } else {
        assert v == Hit(payload.records);
        r := Some(payload.records);
      }
    }

    /** `set`: writes the payload, records the entry and saves the index. */
    method Set(query: string, results: seq<SearchResult>, now: int)
      modifies this, disk
      ensures index == old(index)[Key(query) := Entry(query, now, |results|)]
      ensures disk.payloads == old(disk.payloads)[Key(query) := Stored(query, results)]
      ensures disk.indexFile == Saved(index) && InSync()
    {
      var key := Key(query);
      disk.payloads := disk.payloads[key := Stored(query, results)];
      index := index[key := Entry(query, now, |results|)];
      SaveIndex();
    }

    /** `clear`: every JSON file in the directory goes, the index file
        included, and the in-memory index is emptied. */
    method Clear()
      modifies this, disk
      ensures index == map[] && disk.payloads == map[] && disk.indexFile == Missing
      ensures InSync()
    {
      disk.payloads := map[];
      disk.indexFile := Missing;
      index := map[];
    }

    /** `stats`: total entries, and how many of them are past the TTL. */
    method Stats(now: int) returns (st: CacheStats)
      ensures st.totalEntries == |index| && st.cacheDir == dir
      ensures st.expired == |ExpiredIn(index, index.Keys, now, ttl)|
      ensures st.active == |index.Keys - ExpiredIn(index, index.Keys, now, ttl)|
      ensures st.active + st.expired == st.totalEntries
    {
      var remaining := index.Keys;
      var expired := 0;
      ghost var seen: set<string> := {};
      while remaining != {}
        invariant remaining <= index.Keys && seen == index.Keys - remaining
        invariant expired == |ExpiredIn(index, seen, now, ttl)|
        decreases |remaining|
      {
        var k :| k in remaining;
        if now - index[k].cachedAt > ttl {
          assert ExpiredIn(index, seen + {k}, now, ttl) == ExpiredIn(index, seen, now, ttl) + {k};
          expired := expired + 1;
        } else {
          assert ExpiredIn(index, seen + {k}, now, ttl) == ExpiredIn(index, seen, now, ttl);
        }
        remaining := remaining - {k};
        seen := seen + {k};
      }
      var all := index.Keys;
      var gone := ExpiredIn(index, all, now, ttl);
      assert seen == all;
      assert all == (all - gone) + gone && (all - gone) * gone == {};
      assert |all| == |all - gone| + |gone|;
      assert |index| == |all|;
      st := CacheStats(|index|, |index| - expired, expired, dir);
    }

    method SaveIndex()
      modifies disk
      ensures disk.indexFile == Saved(index) && disk.payloads == old(disk.payloads)
    {
      disk.indexFile := Saved(index);
    }

    /** `_remove`: deletes the payload file if present, drops the entry and
        saves the index. */
    method Remove(key: string)
      modifies this, disk
      ensures index == old(index) - {key} && disk.payloads == old(disk.payloads) - {key}
      ensures disk.indexFile == Saved(index) && InSync()
    {
      disk.payloads := disk.payloads - {key};
      index := index - {key};
      SaveIndex();
    }
  }

  /** Storing through one cache and reading through a cache constructed
      afterwards over the same directory, with any spelling of the query that
      has the same key and within the TTL, returns the stored records. */
  method PersistsAcrossInstances(disk: Disk, dir: string, ttlHours: int, q: string, q': string,
                                 rs: seq<SearchResult>, t: int, now: int) returns (r: Option<seq<SearchResult>>)
    requires Key(q') == Key(q) && now - t <= ttlHours * MicrosPerHour
    modifies disk
    ensures r == Some(rs)
  {
    var first := new SearchCache(disk, dir, ttlHours);
    ghost var index0, payloads0 := first.index, disk.payloads;
    first.Set(q, rs, t);
    var second := new SearchCache(disk, dir, ttlHours);
    assert second.index == index0[Key(q) := Entry(q, t, |rs|)];
    assert disk.payloads == payloads0[Key(q) := Stored(q, rs)];
    GetAfterSet(index0, payloads0, q, q', rs, t, now, second.ttl);
    r := second.Get(q', now);
  }

  /** After `clear`, every lookup misses. */
  method ClearThenGet(cache: SearchCache, q: string, now: int) returns (r: Option<seq<SearchResult>>)
    modifies cache, cache.disk
    ensures r == None
  {
    cache.Clear();
    r := cache.Get(q, now);
  }
}
