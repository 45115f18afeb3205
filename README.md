# BIMHubPlugin catalog-to-Revit load path, in Dafny

This project models the core of BIMHubPlugin, a Revit add-in. The add-in
browses a remote family catalog and loads the chosen family (.rfa) into the
active Revit document. The model covers seven parts:

- **CacheService** (`cache.dfy`, module `Cache`): a content-addressed download
  cache. An in-memory index maps the lowercase hex SHA-256 of a URL to the
  entry of its cached file. Covered: lookup with self-healing of stale
  entries, store, total size, clear, warm start from the folder listing, and
  eviction of least recently accessed entries.
- **FamilyLoadExternalEvent** (`family_load_external_event.dfy`, module
  `LoadEvent`): the single-slot handoff to Revit's API thread.
  - `SetLoadData` arms the four slot fields.
  - `Execute` loads the file inside a transaction, classifies the outcome,
    commits or rolls back, notifies the callback and clears the slot.
- **FamilyLoadOptions** (`family_load_options.dfy`, module `LoadOptions`): the
  overwrite decision table.
- **FamilyLoaderService.LoadFamilyAsync** (`family_loader_service.dfy`, module
  `Loader`): the acquisition pipeline. It is a method that returns the trace
  of progress reports, collaborator calls and completion reports it causes.
- **ConfigService** (`config_service.dfy`, module `Config`): validation,
  which repairs a `PluginConfig` in place, plus the memoised load, the save
  and the folder getters. The C# class is static: its static state (the config
  folder, the memoised config) and the config file are the fields of one
  `ConfigService` object.
- **CatalogApiClient** (`catalog_api_client.dfy`, module `ApiClient`): the
  deterministic parts, namely:
  - the base URL and the Bearer header;
  - the family-search query, built by successive `Add` calls;
  - URL completion of the returned items;
  - the wrapping of every failure in an operation-specific message.
- **CatalogViewModel** (`catalog_view_model.dfy`, module `ViewModel`): the
  catalog window's state, kept as a class with the view model's fields.
  - Its methods are proved against functions on a `ViewState` snapshot.
  - Lemmas about those functions state paging, the filter sent, the result
    and error states, the "All…" sentinel lists, and the command guards.

Helper modules:

- `Wrappers`: `Option` for null, and `Result` for a call that returns or throws.
- `Strings`: .NET string helpers.
- `Paths`: `System.IO.Path`.
- `Encoding`: UTF-8 and hex.
- `Models`: `FamilyItem`, `FilterOptions`, `PagedResult`, and the reference
  lists as `NamedRef`.
- `Disk`: the file system as a class holding a path→bytes map.
- `Trace`: the observable effects.

How the environment is modelled:

- **Inputs.** Every call into the environment becomes an input: HTTP responses
  (already decoded, or failed with a message), the clock (`now`), SHA-256 (a
  function field of the cache), `Uri.EscapeDataString` (a function parameter),
  and Revit's answers (`Host`, `LoadFamilyOutcome`, a `TaskDialogResult`).
- **Failures.** File writes that throw and deletions that throw are inputs too.
  They are a write failure and a set of undeletable paths. A write failure says
  whether it came before the file was opened or after. File.WriteAllBytes and
  File.WriteAllText open with FileMode.Create, so a failure after the open
  leaves the file truncated to what had been written (`Disk.FailedWrite`,
  `Config.FailedSave`).
- **Callbacks.** Delegates are identities. Invoking one is an effect in the
  trace.

Behaviour of the code that a reader might not expect, kept as written:

- **Eviction.** It removes at most `(int)(size·0.2/1024/1024)` entries. The
  capacity bound is not restored: `Cache.EvictionCanLeaveCacheOverCapacity`
  shows this, and so does `Loader.SavedFileCanBeEvicted`.
- **Writes.** The cache writes files directly, with no atomic publish. A write
  that fails after the open leaves a truncated file and no index entry; the
  next warm start indexes that file under the URL's key, with its short size
  (`Cache.TruncatedFileServedAfterRestart`).
- **Commit.** A cancelled or unexplained `LoadFamily` result is committed. Only
  an exception rolls back (`LoadEvent.CommitIndependentOfSuccess`).
- **Early returns.** The "no document" and "file not found" returns of
  `Execute` leave the slot armed.
- **Throwing callback.** A callback that throws on its first invocation is
  invoked a second time with "Ошибка: …". An exception escapes `Execute` only
  when that retry throws as well. A callback that throws once is therefore
  told twice and nothing escapes (`LoadEvent.CallbackThrowingOnceIsContained`).
  The outcome is not delivered exactly once.
- **Status after the initial load.** The initial load overwrites the page's
  status with "Готово", even when the page failed.

## Model

| member | source | states |
|---|---|---|
| Cache.GetCacheKey | BIMHubPlugin/Services/CacheService.cs:113-120 | the key is 64 lowercase hex characters and reads back as the SHA-256 digest of the URL's UTF-8 bytes |
| Cache.SameKeyIffSameDigest | BIMHubPlugin/Services/CacheService.cs:113-120 | two URLs share a cache key exactly when their digests agree |
| Cache.StoredFileKeepsKey | BIMHubPlugin/Services/CacheService.cs:59-61 | the file stored as `folder\key + (extension ?? ".dat")` has the key as its name without extension, so the warm start re-indexes it under the same key |
| Cache.LookupPath | BIMHubPlugin/Services/CacheService.cs:36-55 | a path is returned exactly when the key is indexed and its file exists, and it is that entry's existing file |
| Cache.LookupIndex | BIMHubPlugin/Services/CacheService.cs:38-51 | a hit refreshes LastAccessed to now, a stale entry is removed, an absent key leaves the index as it was, other keys are untouched, entries stay under their own keys |
| Cache.LookupHeals | BIMHubPlugin/Services/CacheService.cs:44-51 | after a lookup the key is absent or backed by an existing file; a second lookup after a miss leaves the index unchanged |
| Cache.Stored | BIMHubPlugin/Services/CacheService.cs:59-75 | after the write and the index update a lookup of the key finds the path, the file holds the data and FileSize is its length |
| Cache.EvictAllEffect | BIMHubPlugin/Services/CacheService.cs:157-168 | eviction only removes: kept entries and files are unchanged, entries not chosen stay, a chosen entry with a deletable file goes, an undeletable file stays, every removed file belongs to a chosen entry |
| Cache.EvictionKeepsUndeletable | BIMHubPlugin/Services/CacheService.cs:159-167 | a chosen entry whose existing file cannot be deleted stays in the index, because the delete precedes TryRemove |
| Cache.EvictionCanLeaveCacheOverCapacity | BIMHubPlugin/Services/CacheService.cs:147-155 | a single 2 MiB entry in a 1 MiB cache gets a budget of zero entries, so the cache stays over capacity |
| Cache.OrderByLastAccessed | BIMHubPlugin/Services/CacheService.cs:152-153 | the result lists every entry of the index exactly once, in ascending LastAccessed order |
| Cache.PrefixIsLeastRecentlyAccessed | BIMHubPlugin/Services/CacheService.cs:152-155 | the first n entries of that order are least recently accessed: none was accessed later than an entry left out |
| Cache.EntryOf | BIMHubPlugin/Services/CacheService.cs:129-139 | the warm-start entry of a listed file has its path and its length |
| Cache.TruncatedFileServedAfterRestart | BIMHubPlugin/Services/CacheService.cs:59-64 | when a write fails after the open, the truncated file left behind is found by the next warm start under the URL's key, differs from the data and is recorded with a smaller size |
| Cache.WarmIndex | BIMHubPlugin/Services/CacheService.cs:127-142 | the warm start keeps every entry under its own key |
| Cache.WarmIndexFromListing | BIMHubPlugin/Services/CacheService.cs:127-142 | every entry after the warm start was there before or is made from a listed file |
| Cache.WarmIndexLastWins | BIMHubPlugin/Services/CacheService.cs:141 | the entry of a file's stem is made from the last listed file with that stem |
| Cache.CacheService.constructor | BIMHubPlugin/Services/CacheService.cs:17-34 | the folder defaults to LocalApplicationData\BIMHubPlugin\Cache, the capacity is MB·1024·1024 bytes with 500 MB when omitted, the index is the warm start over the listing of existing files, and every entry then names an existing file of its FileSize |
| Cache.CacheService.GetCachedFilePath | BIMHubPlugin/Services/CacheService.cs:36-55 | returns LookupPath and leaves the index LookupIndex describes |
| Cache.CacheService.SaveToCache | BIMHubPlugin/Services/CacheService.cs:57-80 | a failed write is reported and leaves the index unchanged, and the disk unchanged when it failed before the open or holding a prefix of the data at the stored path when after; otherwise returns `folder\key+ext`, the stored state is then evicted as EnforceCacheLimitAsync prescribes |
| Cache.CacheService.ClearCache | BIMHubPlugin/Services/CacheService.cs:91-106 | the index ends empty even when deletions fail; exactly the deletable existing files of the entries are removed |
| Cache.CacheService.GetCacheSize | BIMHubPlugin/Services/CacheService.cs:108-111 | the result is the sum of FileSize over the index |
| Cache.CacheService.LoadCacheIndex | BIMHubPlugin/Services/CacheService.cs:122-143 | the index becomes the warm start over the listing, in listing order |
| Cache.CacheService.EvictEntries | BIMHubPlugin/Services/CacheService.cs:157-168 | the state after the loop is EvictAll over the chosen entries, in order |
| Cache.CacheService.EnforceCacheLimit | BIMHubPlugin/Services/CacheService.cs:145-171 | at or under capacity nothing happens; otherwise min(budget, entries) least recently accessed entries are chosen and evicted |
| Encoding.Utf8 | BIMHubPlugin/Services/CacheService.cs:117 | the UTF-8 encoding of a string takes between one and four bytes per character |
| Encoding.Hex | BIMHubPlugin/Services/CacheService.cs:118 | two lowercase hex characters per byte |
| Encoding.UnhexHex | BIMHubPlugin/Services/CacheService.cs:118 | the hex text reads back as the bytes it was made from |
| Encoding.HexInjective | BIMHubPlugin/Services/CacheService.cs:118 | different digests give different keys |
| Strings.TrimEnd | BIMHubPlugin/Services/ConfigService.cs:154 | the result is a prefix, does not end in the character, and only that character was removed |
| Strings.TrimEndIdempotent | BIMHubPlugin/Services/CatalogApiClient.cs:23 | trimming twice is trimming once |
| Strings.SplitJoin | BIMHubPlugin/Services/CatalogApiClient.cs:184 | joining separator-free pieces and splitting again gives the pieces back |
| Strings.NatToString | BIMHubPlugin/Services/CatalogApiClient.cs:181 | the decimal text of a number is non-empty digits without a leading zero |
| Strings.ParseNatToString | BIMHubPlugin/Services/CatalogApiClient.cs:181 | the decimal text of a number reads back as that number |
| Strings.NatToStringInjective | BIMHubPlugin/Services/CatalogApiClient.cs:181 | distinct page numbers give distinct `page=` values |
| Paths.Combine | BIMHubPlugin/Services/CacheService.cs:61 | a relative non-empty name ends the combined path |
| Paths.GetFileName | BIMHubPlugin/Services/CacheService.cs:130 | the file name is a separator-free suffix of the path |
| Paths.GetExtension | BIMHubPlugin/Services/FamilyLoaderService.cs:68 | null exactly for a null MainFile; otherwise empty or a dot followed by a separator-free, dot-free tail |
| Paths.StemOfStoredFile | BIMHubPlugin/Services/CacheService.cs:130 | a file stored as key+extension in any folder has the key as its name without extension |
| Disk.Disk.WriteAllBytes | BIMHubPlugin/Services/CacheService.cs:64 | the path then holds exactly the data; other files are unchanged |
| Disk.FailedWrite | BIMHubPlugin/Services/CacheService.cs:64 | a write failing before the open changes nothing; after the open the path holds a prefix of the data, as long as what was written, and other files are unchanged |
| Disk.Disk.FailWriteAllBytes | BIMHubPlugin/Services/CacheService.cs:64 | the files become FailedWrite of the old files |
| Disk.Disk.Delete | BIMHubPlugin/Services/CacheService.cs:99 | the path is removed; other files are unchanged |
| Trace.Notify | BIMHubPlugin/Events/FamilyLoadExternalEvent.cs:127 | invoking the callback yields effects exactly when it is not null |
| Trace.Report | BIMHubPlugin/Services/FamilyLoaderService.cs:46 | a progress report yields effects exactly when the progress callback is not null |
| LoadOptions.OnFamilyFound | BIMHubPlugin/Events/FamilyLoadOptions.cs:18-56 | the dialog is shown exactly in interactive mode; non-interactive accepts and overwrites; interactive accepts exactly on CommandLink1/2 and overwrites exactly on CommandLink2 |
| LoadOptions.OverwriteOnlyWhenAccepted | BIMHubPlugin/Events/FamilyLoadOptions.cs:18-56 | overwriting parameter values implies accepting, and familyInUse never changes the answer |
| LoadOptions.DefaultButtonDeclines | BIMHubPlugin/Events/FamilyLoadOptions.cs:28-48 | closing the dialog with its default button (Cancel) declines without overwriting |
| LoadOptions.OnSharedFamilyFound | BIMHubPlugin/Events/FamilyLoadOptions.cs:58-63 | always accepts, takes the family's version and overwrites |
| LoadEvent.DisplayName | BIMHubPlugin/Events/FamilyLoadExternalEvent.cs:86 | NameRfa when non-empty, else the family's name |
| LoadEvent.Classify | BIMHubPlugin/Events/FamilyLoadExternalEvent.cs:83-123 | committed exactly when nothing threw; success exactly when committed with a family; "успешно загружено"/"обновлено" by `loaded`; the cancelled or "Не удалось загрузить семейство" message for a null family; "Ошибка загрузки: " + the exception otherwise |
| LoadEvent.TransactionEffects | BIMHubPlugin/Events/FamilyLoadExternalEvent.cs:56-124 | start, LoadFamily with the options the dialog flag selects, then commit exactly when Classify says committed, else rollback |
| LoadEvent.Deliver | BIMHubPlugin/Events/FamilyLoadExternalEvent.cs:127-133 | the callback gets the result first; it is invoked once, or twice when its first invocation throws, the second time with "Ошибка: " and that exception's message; never for a null callback |
| LoadEvent.ThrownBy | BIMHubPlugin/Events/FamilyLoadExternalEvent.cs:31 | a single invocation outside any try lets out the callback's exception exactly when a callback is set and throws |
| LoadEvent.Escaping | BIMHubPlugin/Events/FamilyLoadExternalEvent.cs:127-133 | after the transaction an exception leaves Execute exactly when the callback throws on both invocations, and it is the retry's |
| LoadEvent.CallbackThrowingOnceIsContained | BIMHubPlugin/Events/FamilyLoadExternalEvent.cs:127-133 | a callback that throws only on its first invocation gets the result and then "Ошибка: " with its own message, and nothing escapes |
| LoadEvent.CommitIndependentOfSuccess | BIMHubPlugin/Events/FamilyLoadExternalEvent.cs:113-116 | a returning LoadFamily is always committed, and succeeds exactly when a family came back |
| LoadEvent.FamilyLoadExternalEvent.constructor | BIMHubPlugin/Events/FamilyLoadExternalEvent.cs:14-17 | all slot fields start at their C# defaults |
| LoadEvent.FamilyLoadExternalEvent.GetName | BIMHubPlugin/Events/FamilyLoadExternalEvent.cs:148-151 | the handler's name is "FamilyLoadExternalEvent" |
| LoadEvent.FamilyLoadExternalEvent.SetLoadData | BIMHubPlugin/Events/FamilyLoadExternalEvent.cs:160-166 | all four slot fields are overwritten, so an unexecuted earlier callback is dropped |
| LoadEvent.FamilyLoadExternalEvent.ClassifyReturned | BIMHubPlugin/Events/FamilyLoadExternalEvent.cs:83-111 | success and message agree with Classify for a returning LoadFamily |
| LoadEvent.FamilyLoadExternalEvent.RunTransaction | BIMHubPlugin/Events/FamilyLoadExternalEvent.cs:56-124 | the effects are TransactionEffects and the result is Classify's |
| LoadEvent.FamilyLoadExternalEvent.Execute | BIMHubPlugin/Events/FamilyLoadExternalEvent.cs:22-143 | no document or no file: one failure report, slot left armed; a Start that throws: "Ошибка: …", slot cleared; otherwise the transaction's effects then Deliver, slot cleared; the escaping exception is the first invocation's on the early returns and after a failed Start, and Escaping's after the transaction |
| Loader.Fetched | BIMHubPlugin/Services/FamilyLoaderService.cs:49-79 | a cache hit wins; otherwise a failed download, then a failed write, stops the pipeline, a failed write with the write failure's message; a saved file's path is the stored path |
| Loader.FamilyLoaderService.constructor | BIMHubPlugin/Services/FamilyLoaderService.cs:18-25 | keeps the client and the cache and makes a fresh, unarmed handler |
| Loader.FamilyLoaderService.LoadFamily | BIMHubPlugin/Services/FamilyLoaderService.cs:28-96 | no URL: one failure report and nothing else changes; otherwise the trace is LoadTrace of the fetch, the handler is armed with the local path, NameRfa, completion and dialog flag exactly on a hit or a save, and the cache is the looked-up state on a hit or failed download, that state with the partly written file and the same index on a failed store, or that state after store and eviction |
| Loader.LoadStages | BIMHubPlugin/Services/FamilyLoaderService.cs:46-81 | progress is "Скачивание файла..." first, then "Файл найден в кэше" or "Сохранение файла...", then "Загрузка в Revit..." exactly when the handler is armed |
| Loader.CompletionOrHandoff | BIMHubPlugin/Services/FamilyLoaderService.cs:39-95 | the pipeline either arms the handler once and never reports completion itself, or never arms it and reports the failure once |
| Loader.LoadCounts | BIMHubPlugin/Services/FamilyLoaderService.cs:39-95 | stages, completion reports and handoffs for every way through the pipeline |
| Loader.LookupCounts | BIMHubPlugin/Services/FamilyLoaderService.cs:46-49 | the first two steps report "Скачивание файла..." and nothing else |
| Loader.HitCounts | BIMHubPlugin/Services/FamilyLoaderService.cs:53-58 | a cache hit reports the found and loading stages and arms the handler once |
| Loader.DownloadFailedCounts | BIMHubPlugin/Services/FamilyLoaderService.cs:63-95 | a failed download reports only the first stage and one failure, and arms nothing |
| Loader.StoreFailedCounts | BIMHubPlugin/Services/FamilyLoaderService.cs:65-95 | a failed cache write reports the saving stage and one failure, and arms nothing |
| Loader.SavedCounts | BIMHubPlugin/Services/FamilyLoaderService.cs:59-87 | a saved download reports the saving and loading stages and arms the handler once |
| Loader.StoreCounts | BIMHubPlugin/Services/FamilyLoaderService.cs:63-75 | the download and store steps add the saving stage only |
| Loader.HandoffCounts | BIMHubPlugin/Services/FamilyLoaderService.cs:81-87 | the handoff steps add the loading stage and one handoff |
| Loader.HitIsOnDisk | BIMHubPlugin/Services/FamilyLoaderService.cs:49-55 | a cache hit hands over a file that exists at that moment |
| Loader.SavedFileCanBeEvicted | BIMHubPlugin/Services/FamilyLoaderService.cs:71-84 | a 10 MiB download into an empty 1 MiB cache is evicted by its own save, so the handed-over path no longer exists |
| Config.Validated | BIMHubPlugin/Services/ConfigService.cs:144-190 | the base URL is never null after validation |
| Config.ValidatedSpec | BIMHubPlugin/Services/ConfigService.cs:144-190 | the base URL is the configured one (or the fallback when blank) without trailing '/'; cache size in 1..10240 and page size in 1..100, defaulted or clamped; timeout and TTL positive; language non-blank; in-range values and every other field kept |
| Config.ValidatedIdempotent | BIMHubPlugin/Services/ConfigService.cs:149-154 | validating twice equals validating once exactly when the trimmed base URL is non-blank |
| Config.SlashesOnlyBaseUrlBecomesEmpty | BIMHubPlugin/Services/ConfigService.cs:149-154 | "//" becomes "", and a second validation turns that into the fallback |
| Config.FailedSave | BIMHubPlugin/Services/ConfigService.cs:90 | a save failing before the open leaves config.json as it was; after the open it is empty (read back as null) or unreadable |
| Config.LoadedValue | BIMHubPlugin/Services/ConfigService.cs:47-69 | the settings of a readable file, validated; otherwise the default |
| Config.LoadedFile | BIMHubPlugin/Services/ConfigService.cs:47-69 | a readable file is kept; otherwise the file ends readable exactly when the save, or for a missing file the retry, succeeded, and then holds the default |
| Config.RestartLoadsSameSettings | BIMHubPlugin/Services/ConfigService.cs:33-72 | loading again from the file LoadConfig leaves yields the settings it loaded, whichever saves failed |
| Config.DefaultsAreValid | BIMHubPlugin/Services/ConfigService.cs:126-142 | the default and the initialiser configurations pass validation unchanged |
| Config.PluginConfig.constructor | BIMHubPlugin/Services/ConfigService.cs:7-20 | the object holds the given settings |
| Config.CreateDefaultConfig | BIMHubPlugin/Services/ConfigService.cs:126-142 | a fresh object holding the initialiser settings, with the local development URL https://localhost:7001 |
| Config.ValidateConfig | BIMHubPlugin/Services/ConfigService.cs:144-190 | null is rejected with ArgumentNullException's message; otherwise the object now holds Validated of its old settings |
| Config.FolderSetting | BIMHubPlugin/Services/ConfigService.cs:106-111 | the configured folder when non-blank, else the fallback |
| Config.ConfigService.constructor | BIMHubPlugin/Services/ConfigService.cs:24-30 | the config folder is LocalApplicationData\BIMHubPlugin and nothing is cached |
| Config.ConfigService.SaveConfig | BIMHubPlugin/Services/ConfigService.cs:74-100 | null fails with the save prefix and changes nothing; the object is validated in place; a failed write keeps the cache and leaves FailedSave of the file (unchanged before the open, empty or unreadable after); a successful one stores and caches the object |
| Config.ConfigService.LoadConfig | BIMHubPlugin/Services/ConfigService.cs:33-72 | a cached object is returned as is and nothing changes; else a fresh object is cached holding LoadedValue (the file's configuration, validated, or the default) and the file becomes LoadedFile (kept when readable; else readable, holding the default, exactly when a save succeeded, with a second attempt for a missing file) |
| Config.ConfigService.GetCacheFolder | BIMHubPlugin/Services/ConfigService.cs:102-112 | the configured cache folder, or the config folder's Cache; never blank; the cached object and the file end as LoadConfig leaves them |
| Config.ConfigService.GetLogFolder | BIMHubPlugin/Services/ConfigService.cs:114-124 | the configured log folder, or the config folder's Logs; never blank; the cached object and the file end as LoadConfig leaves them |
| ApiClient.NewCatalogApiClient | BIMHubPlugin/Services/CatalogApiClient.cs:21-38 | a null base URL throws ArgumentNullException's message; otherwise the base URL is the given one with exactly its trailing '/' removed: a prefix not ending in '/', and every removed character is '/'; a Bearer header with the token exactly when the token is non-empty |
| ApiClient.ClientBaseUrlIsStable | BIMHubPlugin/Services/CatalogApiClient.cs:23 | a client built from its own base URL is the same client |
| ApiClient.Wrap | BIMHubPlugin/Services/CatalogApiClient.cs:63-67 | the rethrown message is the operation's prefix followed by the inner message |
| ApiClient.WrapIsInjective | BIMHubPlugin/Services/CatalogApiClient.cs:221-225 | the failing operation and the inner message can be read back from a wrapped message |
| ApiClient.GetList | BIMHubPlugin/Services/CatalogApiClient.cs:43-158 | failures are wrapped; a JSON null is an empty list, except for categories, where it fails on the count |
| ApiClient.DownloadFamilyFile | BIMHubPlugin/Services/CatalogApiClient.cs:271-284 | the bytes as downloaded, or a failure up to the response headers wrapped with the download prefix |
| ApiClient.StageStep | BIMHubPlugin/Services/CatalogApiClient.cs:168-182 | each Add step keeps the list in the fixed order and holding exactly the wanted parameters so far |
| ApiClient.PlannedStage | BIMHubPlugin/Services/CatalogApiClient.cs:168-182 | after k Add steps the list holds exactly the wanted parameters of rank below k |
| ApiClient.PlannedQuery | BIMHubPlugin/Services/CatalogApiClient.cs:166-182 | the full list is in the fixed order and gives each name exactly the filter's value |
| ApiClient.PlannedEndsWithPaging | BIMHubPlugin/Services/CatalogApiClient.cs:179-182 | the list always ends with sortBy, sortOrder, page, pageSize |
| ApiClient.BuildQueryParams | BIMHubPlugin/Services/CatalogApiClient.cs:166-182 | search only when non-empty (escaped), each Guid only when present, then the four paging parameters, in that order |
| ApiClient.QueryStringSplits | BIMHubPlugin/Services/CatalogApiClient.cs:184 | splitting the query at '&' gives back the rendered parameters when no value contains '&' |
| ApiClient.CompleteUrls | BIMHubPlugin/Services/CatalogApiClient.cs:205-215 | PreviewUrl becomes the preview prefix + PreviewFile when PreviewFile is non-empty and is kept otherwise; DownloadUrl likewise from MainFile; no other field changes |
| ApiClient.CompleteAll | BIMHubPlugin/Services/CatalogApiClient.cs:205-215 | every item, in place and in order, gets its URLs under the fixed host |
| ApiClient.FamiliesResultSpec | BIMHubPlugin/Services/CatalogApiClient.cs:160-226 | failures and a null page or item list are wrapped; otherwise the page is returned with each item's URLs completed, in order |
| ApiClient.GetFamilies | BIMHubPlugin/Services/CatalogApiClient.cs:160-226 | the query is the filter's, the URL is `<base>/Family?` + the joined parameters, and the result is FamiliesResult |
| ApiClient.GetFamilyById | BIMHubPlugin/Services/CatalogApiClient.cs:228-266 | failures and a null item are wrapped; otherwise the item's URLs are completed under `<base>/api/files/…` |
| ApiClient.ByIdDownloadUrlDiffersFromSearch | BIMHubPlugin/Services/CatalogApiClient.cs:248-255 | with the shipped base URL ending in "/api" the lookup by id builds ".../api/api/files/download/…", not the search's URL |
| ViewModel.FilterId | BIMHubPlugin/ViewModels/CatalogViewModel.cs:402-405 | a Guid filter exactly when something is selected and it is not Guid.Empty |
| ViewModel.Filter | BIMHubPlugin/ViewModels/CatalogViewModel.cs:399-408 | the search text, the four FilterIds, the current page, page size 12 and the default sort |
| ViewModel.LoadPageSpec | BIMHubPlugin/ViewModels/CatalogViewModel.cs:392-447 | only families, counters, status and busy flag change; a page's items appear completed and in order with its counters and "Найдено: N"/"Ничего не найдено"; a failure leaves no families, zero counters and "Ошибка: " + the wrapped message; never busy afterwards |
| ViewModel.FailedLoadDisablesNext | BIMHubPlugin/ViewModels/CatalogViewModel.cs:436-441 | after a failed load Next is disabled, and Previous is enabled exactly after the first page |
| ViewModel.NextPageGuard | BIMHubPlugin/ViewModels/CatalogViewModel.cs:370-376 | when idle, Next is enabled exactly when NextPageAsync moves forward one page; when disabled it changes nothing |
| ViewModel.PreviousPageGuard | BIMHubPlugin/ViewModels/CatalogViewModel.cs:381-387 | when idle, Previous is enabled exactly when PreviousPageAsync moves back one page; when disabled it changes nothing |
| ViewModel.NextThenPrevious | BIMHubPlugin/ViewModels/CatalogViewModel.cs:370-387 | forward then back returns to the starting page, whatever the loads return |
| ViewModel.PreviousThenNext | BIMHubPlugin/ViewModels/CatalogViewModel.cs:370-387 | back then forward returns to the starting page exactly when the page loaded in between counts at least that many pages |
| ViewModel.OperationsKeepValid | BIMHubPlugin/ViewModels/CatalogViewModel.cs:354-387 | every operation keeps the current page at 1 or above; a search lands on page 1, idle |
| ViewModel.SentinelSelectsEverything | BIMHubPlugin/ViewModels/CatalogViewModel.cs:307-330 | the first entry of a sentinel list is its "All…" entry, which asks for no filter, followed by the items |
| ViewModel.WithSentinel | BIMHubPlugin/ViewModels/CatalogViewModel.cs:307-310 | clearing, adding the sentinel and adding every item gives the sentinel list |
| ViewModel.FetchLists | BIMHubPlugin/ViewModels/CatalogViewModel.cs:293-298 | all four lists when every request succeeds, otherwise the failure of the first request that failed |
| ViewModel.InitialLoadSpec | BIMHubPlugin/ViewModels/CatalogViewModel.cs:284-349 | after the lists load, each list is its sentinel then the fetched items, the sentinel is selected, the page filter has no Guid, and the status is "Готово" even when the page failed; a failed list request changes only the status and the busy flag |
| ViewModel.ClearedSearchIsUnfiltered | BIMHubPlugin/ViewModels/CatalogViewModel.cs:521-531 | with sentinel lists, the search ClearFilters starts sends only the sort and paging parameters, for page 1 |
| ViewModel.InitialLoadPreparesClear | BIMHubPlugin/ViewModels/CatalogViewModel.cs:307-325 | the initial load leaves every list headed by an "All…" entry |
| ViewModel.CatalogViewModel.constructor | BIMHubPlugin/ViewModels/CatalogViewModel.cs:47-76 | empty collections, nothing selected, page 1 of 0 |
| ViewModel.CatalogViewModel.LoadPage | BIMHubPlugin/ViewModels/CatalogViewModel.cs:392-447 | sends Filter of the state and leaves the state AfterLoad describes |
| ViewModel.CatalogViewModel.ShowPage | BIMHubPlugin/ViewModels/CatalogViewModel.cs:415-427 | Families become the page's items in order, the counters are copied, the status reports the count |
| ViewModel.CatalogViewModel.ShowFailure | BIMHubPlugin/ViewModels/CatalogViewModel.cs:431-441 | the error status, no families, zero counters |
| ViewModel.CatalogViewModel.Search | BIMHubPlugin/ViewModels/CatalogViewModel.cs:354-365 | back to page 1, then the load |
| ViewModel.CatalogViewModel.NextPage | BIMHubPlugin/ViewModels/CatalogViewModel.cs:370-376 | no request on or past the last page; otherwise the next page is requested and loaded |
| ViewModel.CatalogViewModel.PreviousPage | BIMHubPlugin/ViewModels/CatalogViewModel.cs:381-387 | no request on or before the first page; otherwise the previous page is requested and loaded |
| ViewModel.CatalogViewModel.ClearFilters | BIMHubPlugin/ViewModels/CatalogViewModel.cs:521-531 | empty search, first entry of each list selected, then the search of page 1 |
| ViewModel.CatalogViewModel.ResetFilters | BIMHubPlugin/ViewModels/CatalogViewModel.cs:523-527 | only the search text and the four selections change |
| ViewModel.CatalogViewModel.FillLists | BIMHubPlugin/ViewModels/CatalogViewModel.cs:303-331 | the lists are rebuilt behind their sentinels and their first entries selected |
| ViewModel.CatalogViewModel.RebuildLists | BIMHubPlugin/ViewModels/CatalogViewModel.cs:307-325 | each list becomes its sentinel list; nothing else changes |
| ViewModel.CatalogViewModel.SelectFirstEntries | BIMHubPlugin/ViewModels/CatalogViewModel.cs:327-330 | each selection becomes the first entry of its list; nothing else changes |
| ViewModel.CatalogViewModel.LoadInitialData | BIMHubPlugin/ViewModels/CatalogViewModel.cs:284-349 | a failed list request only sets the error status; otherwise the lists are filled, the page is requested with the resulting filter and loaded, and the status is "Готово"; never busy afterwards |

## Left out

- HTTP and JSON. Requests, status checks and Newtonsoft decoding are not modelled: every response is an input, already decoded or failed with a message.
- The Stream overload of SaveToCacheAsync (CacheService.cs:82-89). It reads the download's body into bytes and then stores them; the model stores bytes. A failure while reading the body is a write failure before the open in the store step (below).
- ApiClient.DownloadFamilyFile: only failures up to the response headers are wrapped with "Ошибка скачивания файла: ". The download uses ResponseHeadersRead (CatalogApiClient.cs:275), so the body is read later, by the Stream overload of SaveToCacheAsync, after "Сохранение файла..." is reported. A connection lost mid-body therefore surfaces unwrapped as "Ошибка: " + its message. The model expresses that case as `Loader.Fetch.StoreFailed`, with `writeError` a failure before the open carrying the transfer's message.
- DownloadPreviewAsync and Dispose. They have no logic beyond the HTTP call.
- The Revit API. LoadFamily, Transaction, TaskDialog and ExternalEvent.Create/Raise are oracle inputs, and Raise is recorded as an effect. RollBack that itself throws is not modelled.
- Concurrency. The ConcurrentDictionary, Task.Run, the dispatcher and the async interleavings are not modelled: everything runs sequentially, and the dispatcher runs its work at once.
- ViewModel.FetchLists: the four list requests run concurrently in the source. The model takes the first failure in start order, which is what awaiting Task.WhenAll rethrows.
- The searches fired by the selection setters. CatalogViewModel.cs:93-147 starts a search on every selection change. LoadInitialDataAsync and ClearFilters therefore start extra concurrent searches, which the model does not run.
- The constructor's background LoadInitialDataAsync. It is a separate call in the model.
- ViewModel.CatalogViewModel.Search: the catch at CatalogViewModel.cs:361-364 ("Ошибка поиска") is not modelled. LoadPageAsync catches every exception itself, so this catch is unreachable.
- The view model's LoadFamilyAsync, SelectedFamily and the LoadFamilyCommand guard. They are UI glue around the loader, with MessageBox output.
- PageInfo, INotifyPropertyChanged and MessageBox. They are display only.
- The file system. It is a path→bytes map.
  - Directory.CreateDirectory and Directory.Exists are not modelled.
  - The directory listing is an input (`listing`).
  - Path validation exceptions are not modelled.
- The clock. `DateTime.UtcNow` is an input `now`, and DateTime is a tick count.
- SHA-256 is an uninterpreted function from bytes to 32 bytes. The hash itself is not verified.
- Encoding.Utf8: the model's characters are Unicode scalar values. A URL holding a lone UTF-16 surrogate, which .NET encodes as EF BF BD, cannot be expressed.
- Uri.EscapeDataString is a function parameter. Uri construction and validation in the client constructor are not modelled.
- Cache.EvictionBudget: the floating-point `(int)(size·0.2/1024/1024)` is modelled as the integer `size / 5 / 1048576`. The two can differ by one entry near multiples of 5 MiB.
- Config.FailedSave: the serialised text is not modelled, so neither is its length. A write that fails after the open but after writing every character is treated as leaving an unreadable file, though the file would then hold the whole configuration.
- `long` and `int` overflow are not modelled. Sizes and counters are unbounded integers.
- Cache.OrderByLastAccessed: entries with equal LastAccessed come out in an unspecified order. The source's order depends on the dictionary's enumeration order.
- Loader.FamilyLoaderService.LoadFamily: only the download failure and the cache-write failure reach the catch at FamilyLoaderService.cs:91-95. Not modelled there:
  - an exception from a progress callback;
  - an exception from Path.GetExtension;
  - an exception from a completion callback that is invoked inside the try.
- The completion and progress callbacks' bodies. A delegate is an identity, and its effects on the view model are not modelled.
- Constructor ArgumentNullException checks for references. Object references are non-null in the model. The null checks that are observable (`baseUrl`, `config`) are modelled.
- SimpleLogger. Logging is a no-op.
- App.cs, CatalogView.xaml.cs, ShowCatalogCommand.cs and RelayCommand.cs are not part of this model. They hold only UI and host wiring.
