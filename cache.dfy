/** CacheService: a content-addressed download cache. An in-memory index maps
    the key of a URL (the lowercase hex SHA-256 of its UTF-8 bytes) to the
    entry describing the cached file; the files themselves live on the Disk. */
module Cache {
  import opened Wrappers
  import opened Encoding
  import opened Paths
  import opened Models
  import opened Disk

  type Key = string

  const MiB: int := 1048576

  /** The capacity CacheService uses when none is given. */
  const DefaultMaxCacheSizeMB: int := 500

  datatype CacheEntry = CacheEntry(key: Key, filePath: string, fileSize: nat, createdAt: Time, lastAccessed: Time)

  /** What the directory listing reports of one file (FileInfo). */
  datatype FileInfo = FileInfo(path: string, length: nat, creationTime: Time, lastAccessTime: Time)

  /** The index together with the files on disk. */
  datatype CacheState = CacheState(index: map<Key, CacheEntry>, files: map<string, Bytes>)

  // ---- keys and paths ----------------------------------------------------------

  /** GetCacheKey: 64 lowercase hex characters, two per digest byte, from which
      the digest of the URL's UTF-8 bytes can be read back. */
  function GetCacheKey(sha256: Bytes -> Digest, url: string): (key: Key)
    ensures |key| == 64 && IsLowerHex(key)
    ensures Unhex(key) == sha256(Utf8(url))
  {
    var digest := sha256(Utf8(url));
    UnhexHex(digest);
    Hex(digest)
  }

  /** Two URLs share a cache key exactly when their digests agree. */
  lemma SameKeyIffSameDigest(sha256: Bytes -> Digest, u1: string, u2: string)
    ensures GetCacheKey(sha256, u1) == GetCacheKey(sha256, u2) <==> sha256(Utf8(u1)) == sha256(Utf8(u2))
  {
  }

  /** The extension SaveToCacheAsync appends: the given one, or ".dat" for null. */
  function StoredExtension(extension: Option<string>): string {
    extension.GetOr(".dat")
  }

  /** Where SaveToCacheAsync writes the file for a key. */
  function StoredPath(folder: string, key: Key, extension: Option<string>): string {
    Combine(folder, key + StoredExtension(extension))
  }

  /** The file SaveToCacheAsync writes is found again under the same key by
      the warm start (the name without extension of the stored file is the key). */
  lemma StoredFileKeepsKey(folder: string, sha256: Bytes -> Digest, url: string, extension: Option<string>)
    requires extension.None? || IsExtension(extension.value)
    ensures GetFileNameWithoutExtension(StoredPath(folder, GetCacheKey(sha256, url), extension)) == GetCacheKey(sha256, url)
  {
    var key := GetCacheKey(sha256, url);
    var ext := StoredExtension(extension);
    assert ext == ".dat" ==> IsExtension(ext);
    assert IsLowerHexDigit(key[0]) && IsLowerHexDigit(key[1]);
    assert (key + ext)[0] == key[0] && (key + ext)[1] == key[1];
    assert '.' !in key by {
      forall i | 0 <= i < |key| ensures key[i] != '.' { assert IsLowerHexDigit(key[i]); }
    }
    StemOfStoredFile(folder, key, ext);
  }

  // ---- the index -----------------------------------------------------------------

  /** Every entry is indexed under its own key. */
  predicate KeysMatch(index: map<Key, CacheEntry>) {
    forall k :: k in index ==> index[k].key == k
  }

  /** Every entry names an existing file whose length is its FileSize. */
  predicate SizesOnDisk(index: map<Key, CacheEntry>, files: map<string, Bytes>) {
    forall k :: k in index ==> index[k].filePath in files && index[k].fileSize == |files[index[k].filePath]|
  }

  /** The sum of FileSize over all entries. */
  ghost function TotalSize(index: map<Key, CacheEntry>): nat
    decreases |index|
  {
    if index == map[] then 0
    else
      var k :| k in index;
      assert |index - {k}| < |index| by { assert (index - {k}).Keys < index.Keys; }
      index[k].fileSize + TotalSize(index - {k})
  }

  /** TotalSize can be computed by taking out any one entry first. */
  lemma {:induction false} TotalSizeRemove(index: map<Key, CacheEntry>, k: Key)
    requires k in index
    ensures TotalSize(index) == index[k].fileSize + TotalSize(index - {k})
    decreases |index|
  {
    var j :| j in index && TotalSize(index) == index[j].fileSize + TotalSize(index - {j});
    if j != k {
      assert (index - {j}).Keys < index.Keys;
      assert (index - {k}).Keys < index.Keys;
      TotalSizeRemove(index - {j}, k);
      TotalSizeRemove(index - {k}, j);
      assert index - {j} - {k} == index - {k} - {j};
    }
  }

  /** The number of entries eviction may remove: (int)(size * 0.2 / 1024 / 1024). */
  function EvictionBudget(size: nat): nat {
    size / 5 / MiB
  }

  // ---- lookup --------------------------------------------------------------------

  /** The path GetCachedFilePath returns. */
  function LookupPath(index: map<Key, CacheEntry>, files: map<string, Bytes>, key: Key): (r: Option<string>)
    ensures r.Some? <==> key in index && index[key].filePath in files
    ensures r.Some? ==> r.value == index[key].filePath && r.value in files
  {
    if key in index && index[key].filePath in files then Some(index[key].filePath) else None
  }

  /** The index after GetCachedFilePath: a hit refreshes LastAccessed, a stale
      entry is dropped, an absent key changes nothing; other keys are untouched. */
  function LookupIndex(index: map<Key, CacheEntry>, files: map<string, Bytes>, key: Key, now: Time): (r: map<Key, CacheEntry>)
    ensures forall k :: k != key ==> (k in r <==> k in index) && (k in r ==> r[k] == index[k])
    ensures key in r <==> key in index && index[key].filePath in files
    ensures key in r ==> r[key] == index[key].(lastAccessed := now)
    ensures key !in index ==> r == index
    ensures KeysMatch(index) ==> KeysMatch(r)
  {
    if key !in index then index
    else if index[key].filePath in files then index[key := index[key].(lastAccessed := now)]
    else index - {key}
  }

  /** After a lookup, the key is either absent or backed by an existing file,
      and a second lookup that misses does not touch the index again. */
  lemma LookupHeals(index: map<Key, CacheEntry>, files: map<string, Bytes>, key: Key, now: Time, later: Time)
    ensures var after := LookupIndex(index, files, key, now);
      (key in after ==> after[key].filePath in files)
      && (LookupPath(index, files, key).None? ==> LookupIndex(after, files, key, later) == after)
  {
  }

  // ---- store ---------------------------------------------------------------------

  /** The state right after SaveToCacheAsync's write and index update,
      before eviction. */
  function Stored(st: CacheState, key: Key, path: string, data: Bytes, now: Time): (r: CacheState)
    ensures LookupPath(r.index, r.files, key) == Some(path)
    ensures r.files[path] == data && r.index[key].fileSize == |data|
  {
    CacheState(st.index[key := CacheEntry(key, path, |data|, now, now)], st.files[path := data])
  }

  // ---- eviction ------------------------------------------------------------------

  function KeysOf(s: seq<CacheEntry>): set<Key> {
    set i | 0 <= i < |s| :: s[i].key
  }

  lemma KeysOfAppend(s: seq<CacheEntry>, e: CacheEntry)
    ensures KeysOf(s + [e]) == KeysOf(s) + {e.key}
  {
    var t := s + [e];
    forall x | x in KeysOf(t) ensures x in KeysOf(s) + {e.key} {
      var i :| 0 <= i < |t| && t[i].key == x;
      if i < |s| { assert t[i] == s[i]; }
    }
    forall x | x in KeysOf(s) ensures x in KeysOf(t) {
      var i :| 0 <= i < |s| && s[i].key == x;
      assert t[i] == s[i];
    }
    assert t[|s|].key == e.key;
  }

  predicate AccessOrdered(s: seq<CacheEntry>) {
    forall i, j :: 0 <= i < j < |s| ==> s[i].lastAccessed <= s[j].lastAccessed
  }

  predicate DistinctKeys(s: seq<CacheEntry>) {
    forall i, j :: 0 <= i < j < |s| ==> s[i].key != s[j].key
  }

  predicate DrawnFrom(index: map<Key, CacheEntry>, s: seq<CacheEntry>) {
    forall i :: 0 <= i < |s| ==> s[i].key in index && index[s[i].key] == s[i]
  }

  /** `s` lists entries of the index in ascending LastAccessed order, and none
      of them was accessed later than an entry it leaves out. */
  predicate LeastRecentlyAccessed(index: map<Key, CacheEntry>, s: seq<CacheEntry>) {
    && DrawnFrom(index, s)
    && DistinctKeys(s)
    && AccessOrdered(s)
    && forall i, k :: 0 <= i < |s| && k in index && k !in KeysOf(s) ==> s[i].lastAccessed <= index[k].lastAccessed
  }

  /** One iteration of the eviction loop: File.Delete of an existing file in
      `undeletable` throws before TryRemove, so that entry stays. */
  function EvictOne(st: CacheState, e: CacheEntry, undeletable: set<string>): CacheState {
    if e.filePath in st.files && e.filePath in undeletable then st
    else CacheState(st.index - {e.key}, st.files - {e.filePath})
  }

  /** The eviction loop over the chosen entries, in order. */
  function EvictAll(st: CacheState, victims: seq<CacheEntry>, undeletable: set<string>): CacheState
    decreases |victims|
  {
    if victims == [] then st
    else EvictOne(EvictAll(st, victims[..|victims| - 1], undeletable), victims[|victims| - 1], undeletable)
  }

  /** EnforceCacheLimitAsync: nothing happens at or under capacity; otherwise the
      `victims` are the budgeted number of least recently accessed entries and
      the loop runs over them. */
  ghost predicate Evicted(before: CacheState, victims: seq<CacheEntry>, after: CacheState, max: int, undeletable: set<string>) {
    if TotalSize(before.index) <= max then victims == [] && after == before
    else
      && |victims| == Min(EvictionBudget(TotalSize(before.index)), |before.index|)
      && LeastRecentlyAccessed(before.index, victims)
      && after == EvictAll(before, victims, undeletable)
  }

  /** Eviction only removes: entries and files it keeps are unchanged, entries it
      was not asked to remove stay, a chosen entry whose file is deletable goes,
      and so does at most one file per chosen entry. */
  lemma EvictAllEffect(st: CacheState, victims: seq<CacheEntry>, undeletable: set<string>)
    ensures var r := EvictAll(st, victims, undeletable);
      && (forall k :: k in r.index ==> k in st.index && r.index[k] == st.index[k])
      && (forall k :: k in st.index && k !in KeysOf(victims) ==> k in r.index)
      && (forall i :: 0 <= i < |victims| && victims[i].filePath !in undeletable ==> victims[i].key !in r.index)
      && (forall p :: p in r.files ==> p in st.files && r.files[p] == st.files[p])
      && (forall p :: p in st.files && p in undeletable ==> p in r.files)
      && (forall p :: p in st.files && p !in r.files ==> exists i :: 0 <= i < |victims| && victims[i].filePath == p)
  {
    EvictAllIndex(st, victims, undeletable);
    EvictAllFiles(st, victims, undeletable);
  }

  /** The index half of EvictAllEffect. */
  lemma {:induction false} EvictAllIndex(st: CacheState, victims: seq<CacheEntry>, undeletable: set<string>)
    ensures var r := EvictAll(st, victims, undeletable);
      && (forall k :: k in r.index ==> k in st.index && r.index[k] == st.index[k])
      && (forall k :: k in st.index && k !in KeysOf(victims) ==> k in r.index)
      && (forall i :: 0 <= i < |victims| && victims[i].filePath !in undeletable ==> victims[i].key !in r.index)
    decreases |victims|
  {
    if victims != [] {
      var n := |victims| - 1;
      var front := victims[..n];
      EvictAllIndex(st, front, undeletable);
      assert KeysOf(victims) == KeysOf(front) + {victims[n].key} by {
        forall k | k in KeysOf(victims) ensures k in KeysOf(front) + {victims[n].key} {
          var i :| 0 <= i < |victims| && victims[i].key == k;
          if i < n { assert front[i] == victims[i]; }
        }
      }
      assert forall i :: 0 <= i < n ==> front[i] == victims[i];
    }
  }

  /** The file half of EvictAllEffect. */
  lemma {:induction false} EvictAllFiles(st: CacheState, victims: seq<CacheEntry>, undeletable: set<string>)
    ensures var r := EvictAll(st, victims, undeletable);
      && (forall p :: p in r.files ==> p in st.files && r.files[p] == st.files[p])
      && (forall p :: p in st.files && p in undeletable ==> p in r.files)
      && (forall p :: p in st.files && p !in r.files ==> exists i :: 0 <= i < |victims| && victims[i].filePath == p)
    decreases |victims|
  {
    if victims != [] {
      var n := |victims| - 1;
      var front := victims[..n];
      EvictAllFiles(st, front, undeletable);
      var mid := EvictAll(st, front, undeletable);
      var r := EvictAll(st, victims, undeletable);
      forall p | p in st.files && p !in r.files
        ensures exists i :: 0 <= i < |victims| && victims[i].filePath == p
      {
        if p in mid.files {
          assert victims[n].filePath == p;
        } else {
          var i :| 0 <= i < |front| && front[i].filePath == p;
          assert victims[i].filePath == p;
        }
      }
    }
  }

  /** An entry chosen for eviction whose existing file cannot be deleted stays
      in the index, because the delete precedes TryRemove. */
  lemma {:induction false} EvictionKeepsUndeletable(st: CacheState, victims: seq<CacheEntry>, undeletable: set<string>, i: nat)
    requires DistinctKeys(victims) && DrawnFrom(st.index, victims)
    requires i < |victims| && victims[i].filePath in st.files && victims[i].filePath in undeletable
    ensures victims[i].key in EvictAll(st, victims, undeletable).index
    decreases |victims|
  {
    var n := |victims| - 1;
    var front := victims[..n];
    EvictAllEffect(st, front, undeletable);
    var mid := EvictAll(st, front, undeletable);
    if i < n {
      assert front[i] == victims[i];
      EvictionKeepsUndeletable(st, front, undeletable, i);
      assert victims[n].key != victims[i].key;
    } else {
      assert victims[i].key !in KeysOf(front);
      assert victims[i].filePath in mid.files;
    }
  }

  /** The budget is what the source computes, so eviction can leave the cache
      over capacity: a single 2 MiB entry in a 1 MiB cache has a budget of
      zero entries. */
  lemma EvictionCanLeaveCacheOverCapacity()
    ensures var e := CacheEntry("k", "k.rfa", 2 * MiB, 0, 0);
      var index := map["k" := e];
      && TotalSize(index) == 2 * MiB > 1 * MiB
      && EvictionBudget(TotalSize(index)) == 0
      && Evicted(CacheState(index, map[]), [], CacheState(index, map[]), 1 * MiB, {})
  {
    var e := CacheEntry("k", "k.rfa", 2 * MiB, 0, 0);
    var index := map["k" := e];
    TotalSizeRemove(index, "k");
    assert index - {"k"} == map[];
  }

  /** A finite non-empty set of keys has an entry with the smallest LastAccessed. */
  lemma {:induction false} LeastAccessedExists(index: map<Key, CacheEntry>, keys: set<Key>)
    requires keys != {} && keys <= index.Keys
    ensures exists k :: k in keys && forall j :: j in keys ==> index[k].lastAccessed <= index[j].lastAccessed
    decreases keys
  {
    var k :| k in keys;
    if keys != {k} {
      LeastAccessedExists(index, keys - {k});
      var m :| m in keys - {k} && forall j :: j in keys - {k} ==> index[m].lastAccessed <= index[j].lastAccessed;
      if index[k].lastAccessed <= index[m].lastAccessed {
        assert forall j :: j in keys ==> index[k].lastAccessed <= index[j].lastAccessed;
      } else {
        assert forall j :: j in keys ==> index[m].lastAccessed <= index[j].lastAccessed;
      }
    }
  }

  /** The selection loop's invariant: `order` lists, by ascending LastAccessed,
      the entries of the keys not in `rest`, none accessed later than a key
      still in `rest`. */
  predicate Selection(index: map<Key, CacheEntry>, order: seq<CacheEntry>, rest: set<Key>) {
    && rest <= index.Keys
    && KeysOf(order) + rest == index.Keys && KeysOf(order) !! rest
    && |order| + |rest| == |index|
    && DrawnFrom(index, order) && DistinctKeys(order) && AccessOrdered(order)
    && forall i, k :: 0 <= i < |order| && k in rest ==> order[i].lastAccessed <= index[k].lastAccessed
  }

  /** Moving a least recently accessed key of `rest` to the end of `order`
      keeps the selection invariant. */
  lemma SelectionStep(index: map<Key, CacheEntry>, order: seq<CacheEntry>, rest: set<Key>, k: Key)
    requires KeysMatch(index) && Selection(index, order, rest)
    requires k in rest && forall j :: j in rest ==> index[k].lastAccessed <= index[j].lastAccessed
    ensures Selection(index, order + [index[k]], rest - {k})
  {
    KeysOfAppend(order, index[k]);
    assert |rest - {k}| == |rest| - 1;
    SelectionStepOrder(index, order, rest, k);
  }

  lemma SelectionStepOrder(index: map<Key, CacheEntry>, order: seq<CacheEntry>, rest: set<Key>, k: Key)
    requires KeysMatch(index) && k in index && rest <= index.Keys
    requires DrawnFrom(index, order) && DistinctKeys(order) && AccessOrdered(order)
    requires k !in KeysOf(order)
    requires forall i :: 0 <= i < |order| ==> order[i].lastAccessed <= index[k].lastAccessed
    requires forall i, j :: 0 <= i < |order| && j in rest ==> order[i].lastAccessed <= index[j].lastAccessed
    requires forall j :: j in rest ==> index[k].lastAccessed <= index[j].lastAccessed
    ensures var t := order + [index[k]];
      && DrawnFrom(index, t) && DistinctKeys(t) && AccessOrdered(t)
      && forall i, j :: 0 <= i < |t| && j in rest - {k} ==> t[i].lastAccessed <= index[j].lastAccessed
  {
    var t := order + [index[k]];
    var n := |order|;
    assert forall i :: 0 <= i < n ==> t[i] == order[i];
    assert t[n] == index[k];
    assert forall i :: 0 <= i < n ==> order[i].key != k by {
      forall i | 0 <= i < n ensures order[i].key != k { assert order[i].key in KeysOf(order); }
    }
  }

  /** `_cacheIndex.Values.OrderBy(e => e.LastAccessed)`: all entries, in
      ascending LastAccessed order (ties in an unspecified order). */
  method OrderByLastAccessed(index: map<Key, CacheEntry>) returns (order: seq<CacheEntry>)
    requires KeysMatch(index)
    ensures |order| == |index| && KeysOf(order) == index.Keys
    ensures DrawnFrom(index, order) && DistinctKeys(order) && AccessOrdered(order)
  {
    var rest := index.Keys;
    order := [];
    assert Selection(index, order, rest);
    while rest != {}
      invariant Selection(index, order, rest)
      decreases rest
    {
      LeastAccessedExists(index, rest);
      var k :| k in rest && forall j :: j in rest ==> index[k].lastAccessed <= index[j].lastAccessed;
      SelectionStep(index, order, rest, k);
      order := order + [index[k]];
      rest := rest - {k};
    }
  }

  /** Taking the first entries of an access order gives least recently
      accessed entries. */
  lemma PrefixIsLeastRecentlyAccessed(index: map<Key, CacheEntry>, order: seq<CacheEntry>, n: nat)
    requires n <= |order|
    requires KeysOf(order) == index.Keys
    requires DrawnFrom(index, order) && DistinctKeys(order) && AccessOrdered(order)
    ensures LeastRecentlyAccessed(index, order[..n])
  {
    var s := order[..n];
    assert forall i :: 0 <= i < n ==> s[i] == order[i];
    assert forall j :: 0 <= j < n ==> order[j].key in KeysOf(s) by {
      forall j | 0 <= j < n ensures order[j].key in KeysOf(s) { assert s[j] == order[j]; }
    }
    forall i, k | 0 <= i < |s| && k in index && k !in KeysOf(s)
      ensures s[i].lastAccessed <= index[k].lastAccessed
    {
      var j :| 0 <= j < |order| && order[j].key == k;
      assert n <= j;
      assert order[j] == index[k];
      assert s[i].lastAccessed == order[i].lastAccessed <= order[j].lastAccessed;
    }
  }

  // ---- warm start ----------------------------------------------------------------

  /** The entry LoadCacheIndex makes of one listed file. */
  function EntryOf(f: FileInfo): (e: CacheEntry)
    ensures e.filePath == f.path && e.fileSize == f.length
  {
    CacheEntry(GetFileNameWithoutExtension(f.path), f.path, f.length, f.creationTime, f.lastAccessTime)
  }

  /** The index after LoadCacheIndex has gone through `listing` in order. */
  function WarmIndex(index: map<Key, CacheEntry>, listing: seq<FileInfo>): (r: map<Key, CacheEntry>)
    ensures KeysMatch(index) ==> KeysMatch(r)
    decreases |listing|
  {
    if listing == [] then index
    else
      var e := EntryOf(listing[|listing| - 1]);
      WarmIndex(index, listing[..|listing| - 1])[e.key := e]
  }

  /** Every indexed entry after warm start is the old one or is made from a
      listed file. */
  lemma {:induction false} WarmIndexFromListing(index: map<Key, CacheEntry>, listing: seq<FileInfo>, k: Key)
    requires k in WarmIndex(index, listing)
    ensures var r := WarmIndex(index, listing);
      (k in index && r[k] == index[k]) || exists i :: 0 <= i < |listing| && r[k] == EntryOf(listing[i])
    decreases |listing|
  {
    if listing != [] {
      var n := |listing| - 1;
      var front := listing[..n];
      var e := EntryOf(listing[n]);
      if k != e.key {
        WarmIndexFromListing(index, front, k);
        if !(k in index && WarmIndex(index, front)[k] == index[k]) {
          var i :| 0 <= i < |front| && WarmIndex(index, front)[k] == EntryOf(front[i]);
          assert front[i] == listing[i];
        }
      }
    }
  }

  /** For each key, the entry is made from the last listed file with that name
      without extension: a later file with the same stem overwrites an earlier one. */
  lemma {:induction false} WarmIndexLastWins(index: map<Key, CacheEntry>, listing: seq<FileInfo>, i: nat)
    requires i < |listing|
    requires forall j :: i < j < |listing| ==> EntryOf(listing[j]).key != EntryOf(listing[i]).key
    ensures var r := WarmIndex(index, listing);
      EntryOf(listing[i]).key in r && r[EntryOf(listing[i]).key] == EntryOf(listing[i])
    decreases |listing|
  {
    var n := |listing| - 1;
    var k := EntryOf(listing[i]).key;
    var front := listing[..n];
    assert listing == front + [listing[n]];
    WarmIndexSnoc(index, front, listing[n]);
    if i < n {
      assert front[i] == listing[i];
      forall j | i < j < |front| ensures EntryOf(front[j]).key != k {
        assert front[j] == listing[j];
      }
      WarmIndexLastWins(index, front, i);
    }
  }

  /** One more listed file adds or replaces the entry of its key. */
  lemma WarmIndexSnoc(index: map<Key, CacheEntry>, front: seq<FileInfo>, f: FileInfo)
    ensures WarmIndex(index, front + [f]) == WarmIndex(index, front)[EntryOf(f).key := EntryOf(f)]
  {
    assert (front + [f])[..|front|] == front;
  }

  /** A cache write that throws after the file was opened leaves a truncated
      file under the key's name, outside the index. The next warm start
      indexes it at its truncated length, and a lookup then serves it as a
      hit although it does not hold the downloaded data. */
  lemma TruncatedFileServedAfterRestart(folder: string, sha256: Bytes -> Digest, url: string, extension: Option<string>,
                                        files: map<string, Bytes>, data: Bytes, f: WriteFailure, t: Time)
    requires extension.None? || IsExtension(extension.value)
    requires f.afterOpen && f.written < |data|
    ensures var key := GetCacheKey(sha256, url);
      var path := StoredPath(folder, key, extension);
      var after := FailedWrite(files, path, data, f);
      var index := WarmIndex(map[], [FileInfo(path, |after[path]|, t, t)]);
      && LookupPath(index, after, key) == Some(path)
      && after[path] != data
      && index[key].fileSize < |data|
  {
    var key := GetCacheKey(sha256, url);
    var path := StoredPath(folder, key, extension);
    var after := FailedWrite(files, path, data, f);
    var listing := [FileInfo(path, |after[path]|, t, t)];
    StoredFileKeepsKey(folder, sha256, url, extension);
    assert listing[..0] == [];
    assert WarmIndex(map[], listing) == map[key := EntryOf(listing[0])];
  }

  // ---- the service ---------------------------------------------------------------

  class CacheService {
    const cacheFolder: string
    const maxCacheSizeBytes: int
    const sha256: Bytes -> Digest
    const disk: Disk
    var index: map<Key, CacheEntry>

    ghost predicate Valid()
      reads this
    {
      KeysMatch(index)
    }

    function State(): CacheState
      reads this, disk
    {
      CacheState(index, disk.files)
    }

    function KeyOf(url: string): Key {
      GetCacheKey(sha256, url)
    }

    /** The constructor: the folder defaults to LocalApplicationData\BIMHubPlugin\Cache,
        the capacity is given in MiB (500 when the argument is omitted), and the
        index is warm-started from the folder's listing, whose files exist with
        the listed lengths. */
    constructor (cacheFolder: Option<string>, maxCacheSizeMB: Option<int>, localAppData: string,
                 sha256: Bytes -> Digest, disk: Disk, listing: seq<FileInfo>)
      requires forall i :: 0 <= i < |listing| ==>
        listing[i].path in disk.files && |disk.files[listing[i].path]| == listing[i].length
      ensures Valid()
      ensures this.cacheFolder == if cacheFolder.Some? then cacheFolder.value
                                  else Combine(Combine(localAppData, "BIMHubPlugin"), "Cache")
      ensures maxCacheSizeBytes == maxCacheSizeMB.GetOr(DefaultMaxCacheSizeMB) * MiB
      ensures this.sha256 == sha256 && this.disk == disk
      ensures index == WarmIndex(map[], listing)
      ensures SizesOnDisk(index, disk.files)
    {
      this.cacheFolder := if cacheFolder.Some? then cacheFolder.value
                          else Combine(Combine(localAppData, "BIMHubPlugin"), "Cache");
      maxCacheSizeBytes := maxCacheSizeMB.GetOr(DefaultMaxCacheSizeMB) * MiB;
      this.sha256 := sha256;
      this.disk := disk;
      index := map[];
      new;
      LoadCacheIndex(listing);
      forall k | k in index
        ensures index[k].filePath in disk.files && index[k].fileSize == |disk.files[index[k].filePath]|
      {
        WarmIndexFromListing(map[], listing, k);
      }
    }

    /** GetCachedFilePath */
    method GetCachedFilePath(url: string, now: Time) returns (path: Option<string>)
      requires Valid()
      modifies this
      ensures Valid()
      ensures path == LookupPath(old(index), disk.files, KeyOf(url))
      ensures index == LookupIndex(old(index), disk.files, KeyOf(url), now)
    {
      var key := KeyOf(url);
      if key in index {
        var entry := index[key].(lastAccessed := now);
        index := index[key := entry];
        if disk.Exists(entry.filePath) {
          return Some(entry.filePath);
        } else {
          index := index - {key};
        }
      }
      return None;
    }

    /** SaveToCacheAsync (byte[] overload): write the file, index it, evict. */
    method SaveToCache(url: string, data: Bytes, extension: Option<string>, now: Time,
                       writeError: Option<WriteFailure>, undeletable: set<string>)
      returns (r: Result<string>, victims: seq<CacheEntry>)
      requires Valid()
      modifies this, disk
      ensures Valid()
      ensures writeError.Some? ==>
        && r == Err(writeError.value.message) && victims == [] && index == old(index)
        && disk.files == FailedWrite(old(disk.files), StoredPath(cacheFolder, KeyOf(url), extension), data, writeError.value)
      ensures writeError.None? ==>
        && r == Ok(StoredPath(cacheFolder, KeyOf(url), extension))
        && Evicted(Stored(old(State()), KeyOf(url), r.value, data, now), victims, State(), maxCacheSizeBytes, undeletable)
    {
      var key := KeyOf(url);
      var filePath := StoredPath(cacheFolder, key, extension);
      if writeError.Some? {
        disk.FailWriteAllBytes(filePath, data, writeError.value);
        return Err(writeError.value.message), [];
      }
      disk.WriteAllBytes(filePath, data);
      index := index[key := CacheEntry(key, filePath, |data|, now, now)];
      victims := EnforceCacheLimit(undeletable);
      r := Ok(filePath);
    }

    /** ClearCache: best-effort deletion of every entry's file, then an empty index. */
    method ClearCache(undeletable: set<string>)
      requires Valid()
      modifies this, disk
      ensures Valid() && index == map[]
      ensures disk.files == old(disk.files) - DeletablePaths(old(index), old(index).Keys, undeletable)
    {
      var keys := index.Keys;
      while keys != {}
        invariant keys <= index.Keys && index == old(index)
        invariant disk.files == old(disk.files) - DeletablePaths(index, index.Keys - keys, undeletable)
        decreases keys
      {
        var k :| k in keys;
        var entry := index[k];
        if disk.Exists(entry.filePath) && entry.filePath !in undeletable {
          disk.Delete(entry.filePath);
        }
        assert DeletablePaths(index, index.Keys - (keys - {k}), undeletable)
            == DeletablePaths(index, index.Keys - keys, undeletable)
               + (if entry.filePath !in undeletable then {entry.filePath} else {});
        keys := keys - {k};
      }
      index := map[];
    }

    /** GetCacheSize: the sum of FileSize over the index. */
    method GetCacheSize() returns (size: nat)
      ensures size == TotalSize(index)
    {
      size := 0;
      var rest := index;
      while rest != map[]
        invariant size + TotalSize(rest) == TotalSize(index)
        decreases |rest|
      {
        var k :| k in rest;
        TotalSizeRemove(rest, k);
        size := size + rest[k].fileSize;
        assert (rest - {k}).Keys < rest.Keys;
        rest := rest - {k};
      }
    }

    /** LoadCacheIndex: one entry per listed file, keyed by its name without extension. */
    method LoadCacheIndex(listing: seq<FileInfo>)
      requires Valid()
      modifies this
      ensures Valid()
      ensures index == WarmIndex(old(index), listing)
    {
      for i := 0 to |listing|
        invariant Valid()
        invariant index == WarmIndex(old(index), listing[..i])
      {
        var entry := EntryOf(listing[i]);
        assert listing[..i + 1][..i] == listing[..i];
        index := index[entry.key := entry];
      }
      assert listing[..|listing|] == listing;
    }

    /** The eviction loop: for each chosen entry, delete its file if it exists
        (a delete that throws skips the rest of that iteration), then drop it
        from the index. */
    method EvictEntries(victims: seq<CacheEntry>, undeletable: set<string>)
      requires Valid()
      modifies this, disk
      ensures Valid()
      ensures State() == EvictAll(old(State()), victims, undeletable)
    {
      var i := 0;
      while i < |victims|
        invariant 0 <= i <= |victims|
        invariant Valid()
        invariant State() == EvictAll(old(State()), victims[..i], undeletable)
      {
        var entry := victims[i];
        var thrown := false;
        if disk.Exists(entry.filePath) {
          if entry.filePath in undeletable {
            thrown := true;
          } else {
            disk.Delete(entry.filePath);
          }
        }
        if !thrown {
          index := index - {entry.key};
        }
        assert victims[..i + 1][..i] == victims[..i];
        i := i + 1;
      }
      assert victims[..|victims|] == victims;
    }

    /** EnforceCacheLimitAsync */
    method EnforceCacheLimit(undeletable: set<string>) returns (victims: seq<CacheEntry>)
      requires Valid()
      modifies this, disk
      ensures Valid()
      ensures Evicted(old(State()), victims, State(), maxCacheSizeBytes, undeletable)
    {
      var currentSize := GetCacheSize();
      if currentSize <= maxCacheSizeBytes {
        return [];
      }
      var order := OrderByLastAccessed(index);
      var take := EvictionBudget(currentSize);
      victims := if take < |order| then order[..take] else order;
      PrefixIsLeastRecentlyAccessed(index, order, |victims|);
      assert victims == order[..|victims|];
      EvictEntries(victims, undeletable);
    }
  }

  /** The files ClearCache deletes: those of the given entries that exist and
      are deletable (deleting an absent path changes nothing). */
  function DeletablePaths(index: map<Key, CacheEntry>, keys: set<Key>, undeletable: set<string>): set<string> {
    set k | k in keys && k in index && index[k].filePath !in undeletable :: index[k].filePath
  }
}
