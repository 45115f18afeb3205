/** ConfigService: the plugin's settings, read once from config.json in the
    plugin's application-data folder, repaired by validation, memoised, and
    written back on request. */
module Config {
  import opened Wrappers
  import opened Strings
  import opened Paths
  import opened Disk

  /** The settings of one PluginConfig object. Strings are nullable: the JSON
      file may set them to null. */
  datatype ConfigValue = ConfigValue(
    apiBaseUrl: Option<string>,
    apiToken: Option<string>,
    cacheSizeMB: int,
    requestTimeoutSeconds: int,
    defaultPageSize: int,
    enableLogging: bool,
    cacheFolder: Option<string>,
    logFolder: Option<string>,
    language: Option<string>,
    checkForUpdates: bool,
    cacheTTLDays: int)

  /** `new PluginConfig()`: the property initialisers. */
  const InitialValue: ConfigValue :=
    ConfigValue(Some("http://bimhub.kazgor.kz:5058/api"), Some(""), 500, 300, 12, true, Some(""), Some(""), Some("ru"), true, 7)

  const FallbackBaseUrl: string := "https://localhost:7001"

  /** CreateDefaultConfig: the initialisers, but with the local development URL. */
  const DefaultValue: ConfigValue :=
    ConfigValue(Some(FallbackBaseUrl), Some(""), 500, 300, 12, true, Some(""), Some(""), Some("ru"), true, 7)

  const DefaultCacheSizeMB: int := 500
  const MaxCacheSizeMB: int := 10240
  const DefaultTimeoutSeconds: int := 300
  const DefaultPageSize: int := 12
  const MaxPageSize: int := 100
  const DefaultTTLDays: int := 7
  const DefaultLanguage: string := "ru"

  /** The message of ArgumentNullException for the parameter `config`. */
  const NullConfigMessage: string := "Value cannot be null.\r\nParameter name: config"
  const SaveErrorPrefix: string := "Ошибка сохранения конфигурации: "

  /** The URL validation starts from: the configured one unless it is blank. */
  function BaseUrlOrFallback(url: Option<string>): string {
    if IsNullOrWhiteSpace(url) then FallbackBaseUrl else url.value
  }

  /** The base URL after validation: the fallback when blank, then without trailing slashes. */
  function RepairedBaseUrl(url: Option<string>): Option<string> {
    Some(TrimEnd(BaseUrlOrFallback(url), '/'))
  }

  /** The cache size after validation: the default when not positive, at most the maximum. */
  function RepairedCacheSize(n: int): int {
    var size := if n <= 0 then DefaultCacheSizeMB else n;
    if size > MaxCacheSizeMB then MaxCacheSizeMB else size
  }

  /** The request timeout after validation: the default when not positive. */
  function RepairedTimeout(n: int): int {
    if n <= 0 then DefaultTimeoutSeconds else n
  }

  /** The page size after validation: the default when not positive, at most the maximum. */
  function RepairedPageSize(n: int): int {
    var size := if n <= 0 then DefaultPageSize else n;
    if size > MaxPageSize then MaxPageSize else size
  }

  /** The cache lifetime after validation: the default when not positive. */
  function RepairedTTL(n: int): int {
    if n <= 0 then DefaultTTLDays else n
  }

  /** The language after validation: "ru" when blank. */
  function RepairedLanguage(language: Option<string>): Option<string> {
    if IsNullOrWhiteSpace(language) then Some(DefaultLanguage) else language
  }

  /** The settings after ValidateConfig. */
  function Validated(v: ConfigValue): (r: ConfigValue)
    ensures r.apiBaseUrl.Some?
  {
    v.(apiBaseUrl := RepairedBaseUrl(v.apiBaseUrl),
       cacheSizeMB := RepairedCacheSize(v.cacheSizeMB),
       requestTimeoutSeconds := RepairedTimeout(v.requestTimeoutSeconds),
       defaultPageSize := RepairedPageSize(v.defaultPageSize),
       cacheTTLDays := RepairedTTL(v.cacheTTLDays),
       language := RepairedLanguage(v.language))
  }

  /** What validation guarantees: the base URL is the configured one (or the
      fallback when blank) without its trailing slashes; each number out of
      range is replaced by its default or clamped to its maximum; a blank
      language becomes "ru"; every other setting is kept. */
  lemma ValidatedSpec(v: ConfigValue)
    ensures var r := Validated(v).apiBaseUrl.value; var u := BaseUrlOrFallback(v.apiBaseUrl);
      && r <= u
      && (r == "" || r[|r| - 1] != '/')
      && forall i :: |r| <= i < |u| ==> u[i] == '/'
    ensures 1 <= Validated(v).cacheSizeMB <= MaxCacheSizeMB
    ensures 1 <= v.cacheSizeMB <= MaxCacheSizeMB ==> Validated(v).cacheSizeMB == v.cacheSizeMB
    ensures v.cacheSizeMB <= 0 ==> Validated(v).cacheSizeMB == DefaultCacheSizeMB
    ensures v.cacheSizeMB > MaxCacheSizeMB ==> Validated(v).cacheSizeMB == MaxCacheSizeMB
    ensures Validated(v).requestTimeoutSeconds ==
      if v.requestTimeoutSeconds > 0 then v.requestTimeoutSeconds else DefaultTimeoutSeconds
    ensures 1 <= Validated(v).defaultPageSize <= MaxPageSize
    ensures 1 <= v.defaultPageSize <= MaxPageSize ==> Validated(v).defaultPageSize == v.defaultPageSize
    ensures v.defaultPageSize <= 0 ==> Validated(v).defaultPageSize == DefaultPageSize
    ensures v.defaultPageSize > MaxPageSize ==> Validated(v).defaultPageSize == MaxPageSize
    ensures Validated(v).cacheTTLDays == if v.cacheTTLDays > 0 then v.cacheTTLDays else DefaultTTLDays
    ensures !IsNullOrWhiteSpace(Validated(v).language)
    ensures !IsNullOrWhiteSpace(v.language) ==> Validated(v).language == v.language
    ensures Validated(v).(apiBaseUrl := v.apiBaseUrl, cacheSizeMB := v.cacheSizeMB,
      requestTimeoutSeconds := v.requestTimeoutSeconds, defaultPageSize := v.defaultPageSize,
      cacheTTLDays := v.cacheTTLDays, language := v.language) == v
  {
    assert DefaultLanguage[0] == 'r' && !IsWhiteSpace('r');
  }

  /** Validating a validated configuration changes nothing, except when the
      trimmed base URL came out blank: a second validation then replaces it
      by the fallback. */
  lemma ValidatedIdempotent(v: ConfigValue)
    ensures Validated(Validated(v)) == Validated(v) <==> !IsNullOrWhiteSpace(Validated(v).apiBaseUrl)
  {
    var r := Validated(v);
    if !IsNullOrWhiteSpace(r.apiBaseUrl) {
      TrimEndNoop(r.apiBaseUrl.value, '/');
    } else {
      var rr := Validated(r);
      assert rr.apiBaseUrl.value <= FallbackBaseUrl;
      TrimEndNoop(FallbackBaseUrl, '/');
      assert rr.apiBaseUrl.value[0] == 'h';
      assert !IsWhiteSpace(rr.apiBaseUrl.value[0]);
    }
  }

  /** A base URL of slashes only survives validation as the empty string,
      because the blank check comes before the trim. */
  lemma SlashesOnlyBaseUrlBecomesEmpty(v: ConfigValue)
    requires v.apiBaseUrl == Some("//")
    ensures Validated(v).apiBaseUrl == Some("")
    ensures Validated(Validated(v)).apiBaseUrl == Some(FallbackBaseUrl)
  {
    assert !IsWhiteSpace('/');
    assert TrimEnd("//", '/') == TrimEnd("/", '/') == TrimEnd("", '/');
    TrimEndNoop(FallbackBaseUrl, '/');
  }

  /** The defaults already pass validation. */
  lemma DefaultsAreValid()
    ensures Validated(DefaultValue) == DefaultValue
    ensures Validated(InitialValue) == InitialValue
  {
    TrimEndNoop(FallbackBaseUrl, '/');
    TrimEndNoop("http://bimhub.kazgor.kz:5058/api", '/');
    assert !IsWhiteSpace('h') && !IsWhiteSpace('r');
    assert DefaultValue.apiBaseUrl.value[0] == 'h' && InitialValue.apiBaseUrl.value[0] == 'h';
    assert DefaultValue.language.value[0] == 'r';
  }

  /** A restart after LoadConfig loads the same settings, whatever its saves
      did: a failed save leaves a file that again yields the default, and a
      successful one stores the default, which validation keeps. */
  lemma RestartLoadsSameSettings(file: StoredFile, saveError: Option<WriteFailure>, retryError: Option<WriteFailure>)
    ensures LoadedValue(LoadedFile(file, saveError, retryError)) == LoadedValue(file)
  {
    DefaultsAreValid();
  }

  /** A PluginConfig object: mutable settings. */
  class PluginConfig {
    var apiBaseUrl: Option<string>
    var apiToken: Option<string>
    var cacheSizeMB: int
    var requestTimeoutSeconds: int
    var defaultPageSize: int
    var enableLogging: bool
    var cacheFolder: Option<string>
    var logFolder: Option<string>
    var language: Option<string>
    var checkForUpdates: bool
    var cacheTTLDays: int

    function Value(): ConfigValue
      reads this
    {
      ConfigValue(apiBaseUrl, apiToken, cacheSizeMB, requestTimeoutSeconds, defaultPageSize, enableLogging,
                  cacheFolder, logFolder, language, checkForUpdates, cacheTTLDays)
    }

    /** An object holding the given settings (`new PluginConfig { … }`, or
        what JSON deserialisation produces). */
    constructor (v: ConfigValue)
      ensures Value() == v
    {
      apiBaseUrl := v.apiBaseUrl;
      apiToken := v.apiToken;
      cacheSizeMB := v.cacheSizeMB;
      requestTimeoutSeconds := v.requestTimeoutSeconds;
      defaultPageSize := v.defaultPageSize;
      enableLogging := v.enableLogging;
      cacheFolder := v.cacheFolder;
      logFolder := v.logFolder;
      language := v.language;
      checkForUpdates := v.checkForUpdates;
      cacheTTLDays := v.cacheTTLDays;
    }
  }

  /** CreateDefaultConfig */
  method CreateDefaultConfig() returns (c: PluginConfig)
    ensures fresh(c) && c.Value() == DefaultValue
  {
    c := new PluginConfig(DefaultValue);
  }

  /** ValidateConfig: repairs the object in place; a null argument is an
      ArgumentNullException, returned here as its message. */
  method ValidateConfig(config: PluginConfig?) returns (error: Option<string>)
    modifies config
    ensures config == null ==> error == Some(NullConfigMessage)
    ensures config != null ==> error.None? && config.Value() == Validated(old(config.Value()))
  {
    if config == null {
      return Some(NullConfigMessage);
    }
    if IsNullOrWhiteSpace(config.apiBaseUrl) {
      config.apiBaseUrl := Some(FallbackBaseUrl);
    }
    config.apiBaseUrl := Some(TrimEnd(config.apiBaseUrl.value, '/'));
    config.cacheSizeMB := RepairedCacheSize(config.cacheSizeMB);
    config.requestTimeoutSeconds := RepairedTimeout(config.requestTimeoutSeconds);
    config.defaultPageSize := RepairedPageSize(config.defaultPageSize);
    config.cacheTTLDays := RepairedTTL(config.cacheTTLDays);
    config.language := RepairedLanguage(config.language);
    return None;
  }

  /** The configured folder, or the fallback when the setting is blank. */
  function FolderSetting(setting: Option<string>, fallback: string): (r: string)
    ensures !IsNullOrWhiteSpace(setting) ==> r == setting.value
    ensures IsNullOrWhiteSpace(setting) ==> r == fallback
  {
    if !IsNullOrWhiteSpace(setting) then setting.value else fallback
  }

  /** What config.json holds: nothing, something that cannot be read or parsed,
      or a JSON document that deserialises to a configuration or to null. */
  datatype StoredFile = Missing | Unreadable | Holds(json: Option<ConfigValue>)

  /** A file that deserialises to a configuration. */
  predicate Readable(file: StoredFile) {
    file.Holds? && file.json.Some?
  }

  /** config.json after a File.WriteAllText that throws: unchanged when it
      failed before the open; otherwise FileMode.Create emptied it, and the
      empty text deserialises to null while a partly written document does
      not parse. Either way no configuration can be read back. */
  function FailedSave(file: StoredFile, f: WriteFailure): (r: StoredFile)
    ensures !f.afterOpen ==> r == file
    ensures f.afterOpen ==> r == Unreadable || r == Holds(None)
  {
    if !f.afterOpen then file
    else if f.written == 0 then Holds(None)
    else Unreadable
  }

  /** The configuration LoadConfig builds when nothing is cached: the file's,
      validated, or else the default. */
  function LoadedValue(file: StoredFile): (v: ConfigValue)
    ensures Readable(file) ==> v == Validated(file.json.value)
    ensures !Readable(file) ==> v == DefaultValue
  {
    if Readable(file) then Validated(file.json.value) else DefaultValue
  }

  /** config.json after LoadConfig when nothing is cached. A readable file is
      left alone; otherwise the default is saved, with a second attempt for a
      missing file, and the file ends readable exactly when one save succeeded,
      holding the default. */
  function LoadedFile(file: StoredFile, saveError: Option<WriteFailure>, retryError: Option<WriteFailure>): (r: StoredFile)
    ensures Readable(file) ==> r == file
    ensures !Readable(file) ==>
      (Readable(r) <==> saveError.None? || (file == Missing && retryError.None?))
    ensures !Readable(file) && Readable(r) ==> r == Holds(Some(DefaultValue))
  {
    if Readable(file) then file
    else if saveError.None? then Holds(Some(DefaultValue))
    else if file == Missing then
      if retryError.None? then Holds(Some(DefaultValue))
      else FailedSave(FailedSave(Missing, saveError.value), retryError.value)
    else FailedSave(file, saveError.value)
  }

  /** The static ConfigService: the plugin folder, the memoised configuration
      and the configuration file. */
  class ConfigService {
    const configFolder: string
    var cachedConfig: PluginConfig?
    var file: StoredFile

    /** The folder is LocalApplicationData\BIMHubPlugin; nothing is cached yet. */
    constructor (localAppData: string, file: StoredFile)
      ensures configFolder == Combine(localAppData, "BIMHubPlugin")
      ensures cachedConfig == null && this.file == file
    {
      configFolder := Combine(localAppData, "BIMHubPlugin");
      cachedConfig := null;
      this.file := file;
    }

    /** SaveConfig: validate the object in place, write it, and make it the
        cached configuration; any failure is rethrown with the save prefix.
        `writeError` is how File.WriteAllText throws, if it does. */
    method SaveConfig(config: PluginConfig?, writeError: Option<WriteFailure>) returns (error: Option<string>)
      modifies this, config
      ensures config == null ==> error == Some(SaveErrorPrefix + NullConfigMessage) && unchanged(this)
      ensures config != null ==> config.Value() == Validated(old(config.Value()))
      ensures config != null && writeError.Some? ==>
        && error == Some(SaveErrorPrefix + writeError.value.message)
        && file == FailedSave(old(file), writeError.value) && cachedConfig == old(cachedConfig)
      ensures config != null && writeError.None? ==>
        && error.None?
        && file == Holds(Some(config.Value())) && cachedConfig == config
    {
      var invalid := ValidateConfig(config);
      if invalid.Some? {
        return Some(SaveErrorPrefix + invalid.value);
      }
      if writeError.Some? {
        file := FailedSave(file, writeError.value);
        return Some(SaveErrorPrefix + writeError.value.message);
      }
      file := Holds(Some(config.Value()));
      cachedConfig := config;
      return None;
    }

    /** LoadConfig: the memoised object if there is one; otherwise the file's
        configuration, validated; otherwise a fresh default, which is saved.
        A missing file gets a second save attempt when the first one fails;
        an unreadable or null file gets one. `saveError` and `retryError`
        are what those writes throw. */
    method LoadConfig(saveError: Option<WriteFailure>, retryError: Option<WriteFailure>) returns (config: PluginConfig)
      modifies this
      ensures cachedConfig == config
      ensures old(cachedConfig) != null ==> config == old(cachedConfig) && file == old(file)
      ensures old(cachedConfig) == null ==>
        && fresh(config) && config.Value() == LoadedValue(old(file))
        && file == LoadedFile(old(file), saveError, retryError)
    {
      if cachedConfig != null {
        return cachedConfig;
      }
      DefaultsAreValid();
      match file {
        case Holds(Some(v)) =>
          var loaded := new PluginConfig(v);
          cachedConfig := loaded;
          var unused := ValidateConfig(loaded);
          return loaded;
        case Missing =>
          var created := CreateDefaultConfig();
          cachedConfig := created;
          var failed := SaveConfig(created, saveError);
          if failed.None? {
            return created;
          }
          // The save threw inside the try: the catch starts over with a new default.
          config := CreateDefaultConfig();
          cachedConfig := config;
          var ignored := SaveConfig(config, retryError);
        case _ =>
          // Reading, parsing or validating (a null document) threw.
          config := CreateDefaultConfig();
          cachedConfig := config;
          var ignored := SaveConfig(config, saveError);
      }
    }

    /** GetCacheFolder: the configured folder, or the plugin folder's Cache. */
    method GetCacheFolder(saveError: Option<WriteFailure>, retryError: Option<WriteFailure>) returns (folder: string)
      modifies this
      ensures cachedConfig != null
      ensures old(cachedConfig) != null ==> cachedConfig == old(cachedConfig) && file == old(file)
      ensures old(cachedConfig) == null ==>
        && fresh(cachedConfig) && cachedConfig.Value() == LoadedValue(old(file))
        && file == LoadedFile(old(file), saveError, retryError)
      ensures folder == FolderSetting(cachedConfig.cacheFolder, Combine(configFolder, "Cache"))
      ensures !IsNullOrWhiteSpace(Some(folder))
    {
      var config := LoadConfig(saveError, retryError);
      if !IsNullOrWhiteSpace(config.cacheFolder) {
        return config.cacheFolder.value;
      }
      folder := Combine(configFolder, "Cache");
      NotBlank(configFolder, "Cache");
    }

    /** GetLogFolder: the configured folder, or the plugin folder's Logs. */
    method GetLogFolder(saveError: Option<WriteFailure>, retryError: Option<WriteFailure>) returns (folder: string)
      modifies this
      ensures cachedConfig != null
      ensures old(cachedConfig) != null ==> cachedConfig == old(cachedConfig) && file == old(file)
      ensures old(cachedConfig) == null ==>
        && fresh(cachedConfig) && cachedConfig.Value() == LoadedValue(old(file))
        && file == LoadedFile(old(file), saveError, retryError)
      ensures folder == FolderSetting(cachedConfig.logFolder, Combine(configFolder, "Logs"))
      ensures !IsNullOrWhiteSpace(Some(folder))
    {
      var config := LoadConfig(saveError, retryError);
      if !IsNullOrWhiteSpace(config.logFolder) {
        return config.logFolder.value;
      }
      folder := Combine(configFolder, "Logs");
      NotBlank(configFolder, "Logs");
    }
  }

  /** Combining any folder with a name that starts with a letter gives a
      non-blank path. */
  lemma NotBlank(folder: string, name: string)
    requires name != "" && 'A' <= name[0] <= 'Z' && IsPlainName(name)
    ensures !IsNullOrWhiteSpace(Some(Combine(folder, name)))
  {
    var r := Combine(folder, name);
    assert |name| >= 2 ==> !IsNameBoundary(name[1]);
    assert !IsPathRooted(name);
    assert !IsWhiteSpace(name[0]);
    if folder == "" {
      assert r[0] == name[0];
    } else {
      assert r[|r| - |name|] == name[0];
    }
  }
}
