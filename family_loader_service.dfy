/** FamilyLoaderService: the acquisition pipeline. It finds the family's file
    in the cache or downloads and caches it, then arms the load handler and
    raises the external event; every failure before the handoff is reported
    to the completion callback. */
module Loader {
  import opened Wrappers
  import opened Strings
  import opened Paths
  import opened Encoding
  import opened Models
  import opened Trace
  import opened Disk
  import opened Cache
  import ApiClient
  import LoadEvent

  const DownloadingStage: string := "Скачивание файла..."
  const FoundInCacheStage: string := "Файл найден в кэше"
  const SavingStage: string := "Сохранение файла..."
  const LoadingStage: string := "Загрузка в Revit..."

  /** The report for a family without a download URL (a null name prints as ""). */
  function MissingUrlMessage(name: Option<string>): string {
    "У семейства '" + Text(name) + "' отсутствует ссылка на файл"
  }

  /** How the local file was obtained, or where obtaining it stopped. */
  datatype Fetch =
    | Hit(path: string)
    | DownloadFailed(message: string)
    | StoreFailed(message: string)
    | Saved(path: string)

  /** The fetch for a family with a download URL: a cache hit wins; otherwise the
      download (already wrapped by the client) and then the cache write decide. */
  function Fetched(hit: Option<string>, download: Result<Bytes>, writeError: Option<WriteFailure>, storedPath: string): (f: Fetch)
    ensures f.Hit? <==> hit.Some?
    ensures f.Hit? ==> f.path == hit.value
    ensures f.DownloadFailed? <==> hit.None? && download.Err?
    ensures f.StoreFailed? <==> hit.None? && download.Ok? && writeError.Some?
    ensures f.StoreFailed? ==> f.message == writeError.value.message
    ensures f.Saved? ==> f.path == storedPath
  {
    if hit.Some? then Hit(hit.value)
    else if download.Err? then DownloadFailed(download.message)
    else if writeError.Some? then StoreFailed(writeError.value.message)
    else Saved(storedPath)
  }

  /** Whether the fetch ends with a local file to hand to the load handler. */
  predicate HandsOff(f: Fetch) {
    f.Hit? || f.Saved?
  }

  /** The effects of LoadFamilyAsync, in order. */
  function LoadTrace(family: FamilyItem, progress: Option<Callback>, completion: Option<Callback>,
                     showDialog: bool, fetch: Fetch): seq<Effect>
  {
    if IsNullOrEmpty(family.downloadUrl) then Notify(completion, false, MissingUrlMessage(family.name))
    else
      var url := family.downloadUrl.value;
      var ext := GetExtension(family.mainFile);
      match fetch
      case Hit(p) =>
        Report(progress, DownloadingStage) + [CacheLookup(url)] + Report(progress, FoundInCacheStage)
        + Report(progress, LoadingStage) + [Armed(p, family.nameRfa, completion, showDialog)] + [Raised]
      case DownloadFailed(m) =>
        Report(progress, DownloadingStage) + [CacheLookup(url)] + [Download(url)]
        + Notify(completion, false, LoadEvent.ErrorPrefix + m)
      case StoreFailed(m) =>
        Report(progress, DownloadingStage) + [CacheLookup(url)] + [Download(url)]
        + Report(progress, SavingStage) + [CacheStore(url, ext)]
        + Notify(completion, false, LoadEvent.ErrorPrefix + m)
      case Saved(p) =>
        Report(progress, DownloadingStage) + [CacheLookup(url)] + [Download(url)]
        + Report(progress, SavingStage) + [CacheStore(url, ext)]
        + Report(progress, LoadingStage) + [Armed(p, family.nameRfa, completion, showDialog)] + [Raised]
  }

  class FamilyLoaderService {
    const apiClient: ApiClient.CatalogApiClient
    const cache: CacheService
    const handler: LoadEvent.FamilyLoadExternalEvent

    /** The constructor: keeps the client and the cache and makes a fresh handler. */
    constructor (apiClient: ApiClient.CatalogApiClient, cache: CacheService)
      ensures this.apiClient == apiClient && this.cache == cache
      ensures fresh(handler)
      ensures handler.familyFilePath.None? && handler.nameRfa.None? && !handler.showDialog && handler.callback.None?
    {
      this.apiClient := apiClient;
      this.cache := cache;
      handler := new LoadEvent.FamilyLoadExternalEvent();
    }

    /** LoadFamilyAsync. `download` is the server's answer to the download
        request and `writeError` how the cache write throws, if it does (a
        failure while reading the response body is one before the open);
        `victims` are the entries the cache chose for eviction. */
    method LoadFamily(family: FamilyItem, progress: Option<Callback>, completion: Option<Callback>, showDialog: bool,
                      now: Time, download: Result<Bytes>, writeError: Option<WriteFailure>, undeletable: set<string>)
      returns (trace: seq<Effect>, victims: seq<CacheEntry>)
      requires cache.Valid()
      modifies cache, cache.disk, handler
      ensures cache.Valid()
      ensures IsNullOrEmpty(family.downloadUrl) ==>
        && trace == Notify(completion, false, MissingUrlMessage(family.name))
        && unchanged(cache, cache.disk, handler)
      ensures !IsNullOrEmpty(family.downloadUrl) ==>
        var key := cache.KeyOf(family.downloadUrl.value);
        var looked := CacheState(LookupIndex(old(cache.index), old(cache.disk.files), key, now), old(cache.disk.files));
        var fetch := Fetched(LookupPath(old(cache.index), old(cache.disk.files), key),
                             ApiClient.DownloadFamilyFile(download), writeError,
                             StoredPath(cache.cacheFolder, key, GetExtension(family.mainFile)));
        && trace == LoadTrace(family, progress, completion, showDialog, fetch)
        && (HandsOff(fetch) ==>
              && handler.familyFilePath == Some(fetch.path) && handler.nameRfa == family.nameRfa
              && handler.callback == completion && handler.showDialog == showDialog)
        && (!HandsOff(fetch) ==> unchanged(handler))
        && ((fetch.Hit? || fetch.DownloadFailed?) ==> cache.State() == looked && victims == [])
        && (fetch.StoreFailed? ==>
              && cache.index == looked.index && victims == []
              && cache.disk.files == FailedWrite(looked.files, StoredPath(cache.cacheFolder, key, GetExtension(family.mainFile)),
                                                 download.value, writeError.value))
        && (fetch.Saved? ==>
              Evicted(Stored(looked, key, fetch.path, download.value, now), victims, cache.State(),
                      cache.maxCacheSizeBytes, undeletable))
    {
      victims := [];
      if IsNullOrEmpty(family.downloadUrl) {
        trace := Notify(completion, false, MissingUrlMessage(family.name));
        return;
      }
      var url := family.downloadUrl.value;
      ghost var key := cache.KeyOf(url);
      ghost var fetch := Fetched(LookupPath(cache.index, cache.disk.files, key), ApiClient.DownloadFamilyFile(download),
                                 writeError, StoredPath(cache.cacheFolder, key, GetExtension(family.mainFile)));
      trace := Report(progress, DownloadingStage);
      trace := trace + [CacheLookup(url)];
      var cachedPath := cache.GetCachedFilePath(url, now);
      var localFilePath: string;
      if cachedPath.Some? {
        localFilePath := cachedPath.value;
        trace := trace + Report(progress, FoundInCacheStage);
      } else {
        trace := trace + [Download(url)];
        var stream := ApiClient.DownloadFamilyFile(download);
        if stream.Err? {
          trace := trace + Notify(completion, false, LoadEvent.ErrorPrefix + stream.message);
          assert fetch == DownloadFailed(stream.message);
          return;
        }
        trace := trace + Report(progress, SavingStage);
        var extension := GetExtension(family.mainFile);
        trace := trace + [CacheStore(url, extension)];
        var saved;
        saved, victims := cache.SaveToCache(url, stream.value, extension, now, writeError, undeletable);
        if saved.Err? {
          trace := trace + Notify(completion, false, LoadEvent.ErrorPrefix + saved.message);
          assert fetch == StoreFailed(saved.message);
          return;
        }
        localFilePath := saved.value;
      }
      assert fetch.path == localFilePath && HandsOff(fetch);
      trace := trace + Report(progress, LoadingStage);
      handler.SetLoadData(Some(localFilePath), family.nameRfa, completion, showDialog);
      trace := trace + [Armed(localFilePath, family.nameRfa, completion, showDialog)];
      trace := trace + [Raised];
    }
  }

  // ---- properties of the pipeline -----------------------------------------------

  /** The progress stages reported, in order: "downloading" first; then
      "found in cache" or "saving"; then "loading into Revit" exactly when the
      handler is armed. Nothing is reported for a family without a URL or
      without a progress callback. */
  lemma LoadStages(family: FamilyItem, progress: Option<Callback>, completion: Option<Callback>, showDialog: bool, fetch: Fetch)
    ensures Stages(LoadTrace(family, progress, completion, showDialog, fetch)) ==
      if IsNullOrEmpty(family.downloadUrl) || progress.None? then []
      else match fetch
        case Hit(_) => [DownloadingStage, FoundInCacheStage, LoadingStage]
        case DownloadFailed(_) => [DownloadingStage]
        case StoreFailed(_) => [DownloadingStage, SavingStage]
        case Saved(_) => [DownloadingStage, SavingStage, LoadingStage]
  {
    LoadCounts(family, progress, completion, showDialog, fetch);
  }

  /** The pipeline ends in exactly one way: either it arms the handler once
      (and reports nothing to the completion callback, which the handler will
      call), or it never arms it and reports the failure to the callback once. */
  lemma CompletionOrHandoff(family: FamilyItem, progress: Option<Callback>, completion: Option<Callback>, showDialog: bool, fetch: Fetch)
    ensures var t := LoadTrace(family, progress, completion, showDialog, fetch);
      var armed := !IsNullOrEmpty(family.downloadUrl) && HandsOff(fetch);
      && Handoffs(t) == (if armed then 1 else 0)
      && Completions(t) == (if armed || completion.None? then 0 else 1)
  {
    LoadCounts(family, progress, completion, showDialog, fetch);
  }

  /** Stages, completions and handoffs of each way the pipeline can go. */
  lemma LoadCounts(family: FamilyItem, progress: Option<Callback>, completion: Option<Callback>, showDialog: bool, fetch: Fetch)
    ensures var t := LoadTrace(family, progress, completion, showDialog, fetch);
      var armed := !IsNullOrEmpty(family.downloadUrl) && HandsOff(fetch);
      && Handoffs(t) == (if armed then 1 else 0)
      && Completions(t) == (if armed || completion.None? then 0 else 1)
      && Stages(t) ==
        if IsNullOrEmpty(family.downloadUrl) || progress.None? then []
        else match fetch
          case Hit(_) => [DownloadingStage, FoundInCacheStage, LoadingStage]
          case DownloadFailed(_) => [DownloadingStage]
          case StoreFailed(_) => [DownloadingStage, SavingStage]
          case Saved(_) => [DownloadingStage, SavingStage, LoadingStage]
  {
    if IsNullOrEmpty(family.downloadUrl) {
      NotifyCounts(completion, false, MissingUrlMessage(family.name));
    } else {
      var url := family.downloadUrl.value;
      LookupCounts(progress, url);
      match fetch {
        case Hit(p) => HitCounts(family, progress, completion, showDialog, p);
        case DownloadFailed(m) => DownloadFailedCounts(family, progress, completion, showDialog, m);
        case StoreFailed(m) => StoreFailedCounts(family, progress, completion, showDialog, m);
        case Saved(p) => SavedCounts(family, progress, completion, showDialog, p);
      }
    }
  }

  /** The first two steps of a family with a URL: the "downloading" stage and
      the cache lookup. */
  lemma LookupCounts(progress: Option<Callback>, url: string)
    ensures var t := Report(progress, DownloadingStage) + [CacheLookup(url)];
      && Stages(t) == (if progress.Some? then [DownloadingStage] else [])
      && Completions(t) == 0 && Handoffs(t) == 0
  {
    ReportCounts(progress, DownloadingStage);
    Single(CacheLookup(url));
    Extend(Report(progress, DownloadingStage), [CacheLookup(url)]);
  }

  /** A cache hit adds the "found in cache" and "loading" stages and one handoff. */
  lemma HitCounts(family: FamilyItem, progress: Option<Callback>, completion: Option<Callback>, showDialog: bool, p: string)
    requires !IsNullOrEmpty(family.downloadUrl)
    requires var t := Report(progress, DownloadingStage) + [CacheLookup(family.downloadUrl.value)];
      && Stages(t) == (if progress.Some? then [DownloadingStage] else [])
      && Completions(t) == 0 && Handoffs(t) == 0
    ensures var t := LoadTrace(family, progress, completion, showDialog, Hit(p));
      && Stages(t) == (if progress.Some? then [DownloadingStage, FoundInCacheStage, LoadingStage] else [])
      && Completions(t) == 0 && Handoffs(t) == 1
  {
    var lookup := Report(progress, DownloadingStage) + [CacheLookup(family.downloadUrl.value)];
    var found := lookup + Report(progress, FoundInCacheStage);
    ReportCounts(progress, FoundInCacheStage);
    Extend(lookup, Report(progress, FoundInCacheStage));
    HandoffCounts(found, progress, p, family.nameRfa, completion, showDialog);
  }

  /** A failed download adds no stage and reports the failure once. */
  lemma DownloadFailedCounts(family: FamilyItem, progress: Option<Callback>, completion: Option<Callback>, showDialog: bool, m: string)
    requires !IsNullOrEmpty(family.downloadUrl)
    requires var t := Report(progress, DownloadingStage) + [CacheLookup(family.downloadUrl.value)];
      && Stages(t) == (if progress.Some? then [DownloadingStage] else [])
      && Completions(t) == 0 && Handoffs(t) == 0
    ensures var t := LoadTrace(family, progress, completion, showDialog, DownloadFailed(m));
      && Stages(t) == (if progress.Some? then [DownloadingStage] else [])
      && Completions(t) == (if completion.None? then 0 else 1) && Handoffs(t) == 0
  {
    var url := family.downloadUrl.value;
    var lookup := Report(progress, DownloadingStage) + [CacheLookup(url)];
    var fetched := lookup + [Download(url)];
    Single(Download(url));
    Extend(lookup, [Download(url)]);
    NotifyCounts(completion, false, LoadEvent.ErrorPrefix + m);
    Extend(fetched, Notify(completion, false, LoadEvent.ErrorPrefix + m));
  }

  /** A failed cache write adds the "saving" stage and reports the failure once. */
  lemma StoreFailedCounts(family: FamilyItem, progress: Option<Callback>, completion: Option<Callback>, showDialog: bool, m: string)
    requires !IsNullOrEmpty(family.downloadUrl)
    requires var t := Report(progress, DownloadingStage) + [CacheLookup(family.downloadUrl.value)];
      && Stages(t) == (if progress.Some? then [DownloadingStage] else [])
      && Completions(t) == 0 && Handoffs(t) == 0
    ensures var t := LoadTrace(family, progress, completion, showDialog, StoreFailed(m));
      && Stages(t) == (if progress.Some? then [DownloadingStage, SavingStage] else [])
      && Completions(t) == (if completion.None? then 0 else 1) && Handoffs(t) == 0
  {
    var url := family.downloadUrl.value;
    var ext := GetExtension(family.mainFile);
    var lookup := Report(progress, DownloadingStage) + [CacheLookup(url)];
    var stored := lookup + [Download(url)] + Report(progress, SavingStage) + [CacheStore(url, ext)];
    StoreCounts(lookup, progress, url, ext);
    NotifyCounts(completion, false, LoadEvent.ErrorPrefix + m);
    Extend(stored, Notify(completion, false, LoadEvent.ErrorPrefix + m));
  }

  /** A saved download adds the "saving" and "loading" stages and one handoff. */
  lemma SavedCounts(family: FamilyItem, progress: Option<Callback>, completion: Option<Callback>, showDialog: bool, p: string)
    requires !IsNullOrEmpty(family.downloadUrl)
    requires var t := Report(progress, DownloadingStage) + [CacheLookup(family.downloadUrl.value)];
      && Stages(t) == (if progress.Some? then [DownloadingStage] else [])
      && Completions(t) == 0 && Handoffs(t) == 0
    ensures var t := LoadTrace(family, progress, completion, showDialog, Saved(p));
      && Stages(t) == (if progress.Some? then [DownloadingStage, SavingStage, LoadingStage] else [])
      && Completions(t) == 0 && Handoffs(t) == 1
  {
    var url := family.downloadUrl.value;
    var ext := GetExtension(family.mainFile);
    var lookup := Report(progress, DownloadingStage) + [CacheLookup(url)];
    var stored := lookup + [Download(url)] + Report(progress, SavingStage) + [CacheStore(url, ext)];
    StoreCounts(lookup, progress, url, ext);
    HandoffCounts(stored, progress, p, family.nameRfa, completion, showDialog);
  }

  /** The download and store steps add the "saving" stage and nothing else. */
  lemma StoreCounts(t: seq<Effect>, progress: Option<Callback>, url: string, ext: Option<string>)
    ensures var r := t + [Download(url)] + Report(progress, SavingStage) + [CacheStore(url, ext)];
      && Stages(r) == Stages(t) + (if progress.Some? then [SavingStage] else [])
      && Completions(r) == Completions(t) && Handoffs(r) == Handoffs(t)
  {
    Single(Download(url));
    Extend(t, [Download(url)]);
    ReportCounts(progress, SavingStage);
    Extend(t + [Download(url)], Report(progress, SavingStage));
    Single(CacheStore(url, ext));
    Extend(t + [Download(url)] + Report(progress, SavingStage), [CacheStore(url, ext)]);
  }

  /** The handoff steps add the "loading" stage and one handoff. */
  lemma HandoffCounts(t: seq<Effect>, progress: Option<Callback>, path: string, nameRfa: Option<string>,
                      completion: Option<Callback>, showDialog: bool)
    ensures var r := t + Report(progress, LoadingStage) + [Armed(path, nameRfa, completion, showDialog)] + [Raised];
      && Stages(r) == Stages(t) + (if progress.Some? then [LoadingStage] else [])
      && Completions(r) == Completions(t) && Handoffs(r) == Handoffs(t) + 1
  {
    ReportCounts(progress, LoadingStage);
    Extend(t, Report(progress, LoadingStage));
    Single(Armed(path, nameRfa, completion, showDialog));
    Extend(t + Report(progress, LoadingStage), [Armed(path, nameRfa, completion, showDialog)]);
    Single(Raised);
    Extend(t + Report(progress, LoadingStage) + [Armed(path, nameRfa, completion, showDialog)], [Raised]);
  }

  /** A cache hit hands the handler a file that exists at that moment. */
  lemma HitIsOnDisk(index: map<Key, CacheEntry>, files: map<string, Bytes>, key: Key, download: Result<Bytes>,
                    writeError: Option<WriteFailure>, storedPath: string)
    requires Fetched(LookupPath(index, files, key), download, writeError, storedPath).Hit?
    ensures Fetched(LookupPath(index, files, key), download, writeError, storedPath).path in files
  {
  }

  /** A freshly saved file can be chosen for eviction by the same save: the
      budget counts entries, not bytes, so a single 10 MiB download into an
      empty 1 MiB cache is written and then evicted, and the path handed to the
      load handler no longer exists. */
  lemma SavedFileCanBeEvicted()
    ensures var data := seq(10 * MiB, _ => 0 as bv8);
      var st := Stored(CacheState(map[], map[]), "k", "k.rfa", data, 0);
      var victims := [st.index["k"]];
      && Evicted(st, victims, EvictAll(st, victims, {}), 1 * MiB, {})
      && "k.rfa" !in EvictAll(st, victims, {}).files
  {
    var data := seq(10 * MiB, _ => 0 as bv8);
    var st := Stored(CacheState(map[], map[]), "k", "k.rfa", data, 0);
    var e := st.index["k"];
    assert st.index == map["k" := e];
    TotalSizeRemove(st.index, "k");
    assert st.index - {"k"} == map[];
    assert KeysOf([e]) == {"k"} by {
      assert [e][0].key == "k";
    }
    var after := EvictAll(st, [e], {});
    assert [e][..0] == [];
  }
}
