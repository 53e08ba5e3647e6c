/** backend/config.py: the settings derived from the process environment at import time. */
module Config {
  import opened Wrappers
  import opened Strings
  import Paths

  /** The process environment after `.env` has been loaded. */
  type Env = map<string, string>

  /** `os.getenv(key, default)`. */
  function GetEnv(env: Env, key: string, default: string): string {
    if key in env then env[key] else default
  }

  /** `int(os.getenv(key, default))`; None is the `ValueError` that aborts the import. */
  function IntSetting(env: Env, key: string, default: int): Option<int> {
    if key in env then ParseInt(env[key]) else Some(default)
  }

  /** `float(os.getenv(key, default))`, with `parseFloat` standing for Python's `float` on the
      variable's text; None is the `ValueError` that aborts the import. */
  function FloatSetting(env: Env, key: string, default: real, parseFloat: string -> Option<real>)
    : Option<real>
  {
    if key in env then parseFloat(env[key]) else Some(default)
  }

  /** `os.getenv(key, "False").lower() == "true"`. */
  function BoolSetting(env: Env, key: string): bool {
    Lower(GetEnv(env, key, "False")) == "true"
  }

  /** `os.getenv(key, default).split(",")`. */
  function ListSetting(env: Env, key: string, default: string): seq<string> {
    Split(GetEnv(env, key, default), ',')
  }

  /** `MAX_FILE_SIZE_MB * 1024 * 1024`: whole mebibytes, so dividing gives the MB back. */
  function MaxFileSizeBytes(mb: int): (bytes: int)
    ensures bytes / 1048576 == mb && bytes % 1048576 == 0
    ensures mb >= 0 ==> bytes >= mb
  {
    mb * 1024 * 1024
  }

  /** `FILE_RETENTION_MINUTES * 60`: whole minutes, so dividing gives the minutes back. */
  function RetentionSeconds(minutes: int): (seconds: int)
    ensures seconds / 60 == minutes && seconds % 60 == 0
  {
    minutes * 60
  }

  /** `f"redis://{REDIS_HOST}:{REDIS_PORT}/{REDIS_DB}"`. */
  function RedisUrl(host: string, port: int, db: int): string {
    "redis://" + host + ":" + IntToString(port) + "/" + IntToString(db)
  }

  /** The audio extensions accepted when `ALLOWED_EXTENSIONS` is unset. */
  const DefaultExtensionItems := ["mp3", "wav", "ogg", "m4a", "flac", "aac", "wma"]
  /** `"mp3,wav,ogg,m4a,flac,aac,wma"`: the default extensions, comma-separated. */
  const DefaultAllowedExtensions := Join(DefaultExtensionItems, ',')
  const DefaultCorsOrigins := "http://localhost:3000,http://localhost:5173"

  datatype Settings = Settings(
    host: string,
    port: int,
    debug: bool,
    maxFileSizeMb: int,
    maxFileSizeBytes: int,
    allowedExtensions: set<string>,
    uploadDir: string,
    processedDir: string,
    fileRetentionMinutes: int,
    fileRetentionSeconds: int,
    redisHost: string,
    redisPort: int,
    redisDb: int,
    redisUrl: string,
    celeryBrokerUrl: string,
    celeryResultBackend: string,
    celeryMaxMemoryMb: int,
    enableVirusScan: bool,
    clamavHost: string,
    clamavPort: int,
    corsOrigins: seq<string>,
    deepFilterNetModel: string,
    audioSampleRate: int,
    noiseAttenuationLimitDb: real,
    outputGainDb: real)

  /** The module-level constants of config.py for environment `env`, with `BASE_DIR` the
      directory holding config.py. None when a numeric setting does not parse, which makes
      the import fail. */
  function Load(env: Env, baseDir: string, parseFloat: string -> Option<real>): Option<Settings> {
    var port := IntSetting(env, "PORT", 8000);
    var maxMb := IntSetting(env, "MAX_FILE_SIZE_MB", 50);
    var minutes := IntSetting(env, "FILE_RETENTION_MINUTES", 10);
    var redisPort := IntSetting(env, "REDIS_PORT", 6379);
    var redisDb := IntSetting(env, "REDIS_DB", 0);
    var memoryMb := IntSetting(env, "CELERY_MAX_MEMORY_MB", 2048);
    var clamavPort := IntSetting(env, "CLAMAV_PORT", 3310);
    var sampleRate := IntSetting(env, "AUDIO_SAMPLE_RATE", 48000);
    var attenuation := FloatSetting(env, "NOISE_ATTENUATION_LIMIT_DB", 12.0, parseFloat);
    var gain := FloatSetting(env, "OUTPUT_GAIN_DB", 0.0, parseFloat);
    if port.None? || maxMb.None? || minutes.None? || redisPort.None? || redisDb.None?
       || memoryMb.None? || clamavPort.None? || sampleRate.None? || attenuation.None?
       || gain.None?
    then None
    else
      var redisHost := GetEnv(env, "REDIS_HOST", "localhost");
      var redisUrl := RedisUrl(redisHost, redisPort.value, redisDb.value);
      Some(Settings(
        host := GetEnv(env, "HOST", "0.0.0.0"),
        port := port.value,
        debug := BoolSetting(env, "DEBUG"),
        maxFileSizeMb := maxMb.value,
        maxFileSizeBytes := MaxFileSizeBytes(maxMb.value),
        allowedExtensions := (set x | x in ListSetting(env, "ALLOWED_EXTENSIONS", DefaultAllowedExtensions)),
        uploadDir := Paths.JoinPath(baseDir, GetEnv(env, "UPLOAD_DIR", "uploads")),
        processedDir := Paths.JoinPath(baseDir, GetEnv(env, "PROCESSED_DIR", "processed")),
        fileRetentionMinutes := minutes.value,
        fileRetentionSeconds := RetentionSeconds(minutes.value),
        redisHost := redisHost,
        redisPort := redisPort.value,
        redisDb := redisDb.value,
        redisUrl := redisUrl,
        celeryBrokerUrl := GetEnv(env, "CELERY_BROKER_URL", redisUrl),
        celeryResultBackend := GetEnv(env, "CELERY_RESULT_BACKEND", redisUrl),
        celeryMaxMemoryMb := memoryMb.value,
        enableVirusScan := BoolSetting(env, "ENABLE_VIRUS_SCAN"),
        clamavHost := GetEnv(env, "CLAMAV_HOST", "localhost"),
        clamavPort := clamavPort.value,
        corsOrigins := ListSetting(env, "CORS_ORIGINS", DefaultCorsOrigins),
        deepFilterNetModel := GetEnv(env, "DEEPFILTERNET_MODEL", "DeepFilterNet3"),
        audioSampleRate := sampleRate.value,
        noiseAttenuationLimitDb := attenuation.value,
        outputGainDb := gain.value))
  }

  /** A boolean setting is on exactly when the variable is set and reads "true" in any case;
      an unset variable is off. */
  lemma BoolSettingMeaning(env: Env, key: string)
    ensures BoolSetting(env, key) <==> key in env && Lower(env[key]) == "true"
  {
    if key !in env {
      assert Lower("False")[0] == 'f';
    }
  }

  /** A list setting loses nothing: joining the pieces with commas gives the variable's text. */
  lemma ListSettingRoundTrip(env: Env, key: string, default: string)
    ensures Join(ListSetting(env, key, default), ',') == GetEnv(env, key, default)
    ensures forall k :: 0 <= k < |ListSetting(env, key, default)| ==> ',' !in ListSetting(env, key, default)[k]
  {
    JoinSplit(GetEnv(env, key, default), ',');
  }

  /** A comma-separated list of comma-free names is read back as exactly those names. */
  lemma ListSettingOfJoin(env: Env, key: string, items: seq<string>)
    requires key in env && |items| >= 1
    requires forall k :: 0 <= k < |items| ==> ',' !in items[k]
    requires env[key] == Join(items, ',')
    ensures ListSetting(env, key, "") == items
  {
    SplitJoin(items, ',');
  }

  /** Reads back host, port and db from a URL of the form `redis://host:port/db`. */
  function ParseRedisUrl(url: string): Option<(string, int, int)> {
    if |url| < 8 || url[..8] != "redis://" then None
    else
      var parts := Split(url[8..], ':');
      if |parts| != 2 then None
      else
        var tail := Split(parts[1], '/');
        if |tail| != 2 then None
        else
          var port, db := ParseInt(tail[0]), ParseInt(tail[1]);
          if port.None? || db.None? then None else Some((parts[0], port.value, db.value))
  }

  lemma IntTextIsPlain(i: int)
    ensures ':' !in IntToString(i) && '/' !in IntToString(i)
  {
    var s := IntToString(i);
    if i < 0 {
      assert s == "-" + NatToString(-i);
      forall k | 0 <= k < |s| ensures s[k] != ':' && s[k] != '/' {
        if k > 0 { assert s[k] == NatToString(-i)[k - 1]; }
      }
    }
  }

  lemma PortDbSplits(ps: string, ds: string)
    requires ':' !in ps && '/' !in ps && ':' !in ds && '/' !in ds
    ensures ':' !in ps + "/" + ds
    ensures Split(ps + "/" + ds, '/') == [ps, ds]
  {
    var portDb := ps + "/" + ds;
    assert portDb == Join([ps, ds], '/');
    SplitJoin([ps, ds], '/');
    forall k | 0 <= k < |portDb| ensures portDb[k] != ':' {
      if k < |ps| { assert portDb[k] == ps[k]; }
      else if k > |ps| { assert portDb[k] == ds[k - |ps| - 1]; }
    }
  }

  lemma HostSplits(host: string, portDb: string)
    requires ':' !in host && ':' !in portDb
    ensures var url := "redis://" + host + ":" + portDb;
      |url| >= 8 && url[..8] == "redis://" && Split(url[8..], ':') == [host, portDb]
  {
    var url := "redis://" + host + ":" + portDb;
    var rest := host + ":" + portDb;
    assert url == "redis://" + rest;
    assert url[8..] == rest;
    assert rest == Join([host, portDb], ':');
    SplitJoin([host, portDb], ':');
  }

  /** The Redis URL carries the configured host, port and database unchanged, for any host
      without ':' or '/'. */
  lemma RedisUrlRoundTrip(host: string, port: int, db: int)
    requires ':' !in host && '/' !in host
    ensures ParseRedisUrl(RedisUrl(host, port, db)) == Some((host, port, db))
  {
    var ps, ds := IntToString(port), IntToString(db);
    IntTextIsPlain(port);
    IntTextIsPlain(db);
    assert RedisUrl(host, port, db) == "redis://" + host + ":" + (ps + "/" + ds);
    ParseUrlParts(host, ps, ds);
    ParseIntToString(port);
    ParseIntToString(db);
  }

  /** A URL built from a host and port and database texts free of ':' and '/' parses back
      into those three parts. */
  lemma ParseUrlParts(host: string, ps: string, ds: string)
    requires ':' !in host && '/' !in host
    requires ':' !in ps && '/' !in ps && ':' !in ds && '/' !in ds
    ensures var port, db := ParseInt(ps), ParseInt(ds);
      ParseRedisUrl("redis://" + host + ":" + (ps + "/" + ds))
      == if port.None? || db.None? then None else Some((host, port.value, db.value))
  {
    PortDbSplits(ps, ds);
    HostSplits(host, ps + "/" + ds);
  }

  lemma DefaultExtensionList()
    ensures ListSetting(map[], "ALLOWED_EXTENSIONS", DefaultAllowedExtensions)
            == ["mp3", "wav", "ogg", "m4a", "flac", "aac", "wma"]
  {
    SplitJoin(DefaultExtensionItems, ',');
  }

  lemma DefaultDirs(baseDir: string)
    ensures Paths.JoinPath(baseDir, "uploads") == baseDir + "/uploads"
    ensures Paths.JoinPath(baseDir, "processed") == baseDir + "/processed"
  {
    assert "uploads"[0] == 'u' && "processed"[0] == 'p';
  }

  lemma LocalhostIsPlain()
    ensures ':' !in "localhost" && '/' !in "localhost"
  {
    var h := "localhost";
    forall k | 0 <= k < |h| ensures h[k] != ':' && h[k] != '/' {
    }
  }

  lemma DefaultNumbers(baseDir: string, parseFloat: string -> Option<real>)
    ensures Load(map[], baseDir, parseFloat).Some?
    ensures var s := Load(map[], baseDir, parseFloat).value;
      && s.maxFileSizeBytes == 52428800 && s.fileRetentionSeconds == 600
      && s.celeryMaxMemoryMb == 2048
      && s.audioSampleRate == 48000
      && s.noiseAttenuationLimitDb == 12.0 && s.outputGainDb == 0.0
  {
  }

  lemma DefaultFlags(baseDir: string, parseFloat: string -> Option<real>)
    requires Load(map[], baseDir, parseFloat).Some?
    ensures var s := Load(map[], baseDir, parseFloat).value;
      !s.debug && !s.enableVirusScan
  {
    BoolSettingMeaning(map[], "DEBUG");
    BoolSettingMeaning(map[], "ENABLE_VIRUS_SCAN");
  }

  lemma DefaultExtensions(baseDir: string, parseFloat: string -> Option<real>)
    requires Load(map[], baseDir, parseFloat).Some?
    ensures Load(map[], baseDir, parseFloat).value.allowedExtensions
            == {"mp3", "wav", "ogg", "m4a", "flac", "aac", "wma"}
  {
    LoadedExtensions(map[], baseDir, parseFloat);
    DefaultExtensionList();
    ExtensionSet(ListSetting(map[], "ALLOWED_EXTENSIONS", DefaultAllowedExtensions));
  }

  /** The settings read as integers by `int(...)`. */
  const IntKeys := ["PORT", "MAX_FILE_SIZE_MB", "FILE_RETENTION_MINUTES", "REDIS_PORT", "REDIS_DB",
                    "CELERY_MAX_MEMORY_MB", "CLAMAV_PORT", "AUDIO_SAMPLE_RATE"]
  /** The settings read as floats by `float(...)`. */
  const FloatKeys := ["NOISE_ATTENUATION_LIMIT_DB", "OUTPUT_GAIN_DB"]

  /** Every numeric variable that is set parses. */
  predicate NumbersParse(env: Env, parseFloat: string -> Option<real>) {
    (forall i :: 0 <= i < |IntKeys| && IntKeys[i] in env ==> ParseInt(env[IntKeys[i]]).Some?)
    && (forall i :: 0 <= i < |FloatKeys| && FloatKeys[i] in env ==>
          parseFloat(env[FloatKeys[i]]).Some?)
  }

  /** The import succeeds exactly when every numeric variable that is set parses; an unset
      one takes its default. */
  lemma LoadSucceeds(env: Env, baseDir: string, parseFloat: string -> Option<real>)
    ensures Load(env, baseDir, parseFloat).Some? <==> NumbersParse(env, parseFloat)
  {
    if Load(env, baseDir, parseFloat).Some? {
      LoadedNumbersParse(env, baseDir, parseFloat);
    } else if NumbersParse(env, parseFloat) {
      ParsedNumbersLoad(env, baseDir, parseFloat);
    }
  }

  lemma LoadedNumbersParse(env: Env, baseDir: string, parseFloat: string -> Option<real>)
    requires Load(env, baseDir, parseFloat).Some?
    ensures NumbersParse(env, parseFloat)
  {
    assert SettingsParse(env, parseFloat);
    SettingsParseAll(env, parseFloat);
  }

  /** Each numeric setting of `Load`, with its default, parses. */
  predicate SettingsParse(env: Env, parseFloat: string -> Option<real>) {
    IntSetting(env, "PORT", 8000).Some? && IntSetting(env, "MAX_FILE_SIZE_MB", 50).Some?
    && IntSetting(env, "FILE_RETENTION_MINUTES", 10).Some?
    && IntSetting(env, "REDIS_PORT", 6379).Some? && IntSetting(env, "REDIS_DB", 0).Some?
    && IntSetting(env, "CELERY_MAX_MEMORY_MB", 2048).Some?
    && IntSetting(env, "CLAMAV_PORT", 3310).Some?
    && IntSetting(env, "AUDIO_SAMPLE_RATE", 48000).Some?
    && FloatSetting(env, "NOISE_ATTENUATION_LIMIT_DB", 12.0, parseFloat).Some?
    && FloatSetting(env, "OUTPUT_GAIN_DB", 0.0, parseFloat).Some?
  }

  lemma SettingsParseAll(env: Env, parseFloat: string -> Option<real>)
    requires SettingsParse(env, parseFloat)
    ensures NumbersParse(env, parseFloat)
  {
    forall i | 0 <= i < |IntKeys| && IntKeys[i] in env
      ensures ParseInt(env[IntKeys[i]]).Some?
    {
      assert i in {0, 1, 2, 3, 4, 5, 6, 7};
    }
    forall i | 0 <= i < |FloatKeys| && FloatKeys[i] in env
      ensures parseFloat(env[FloatKeys[i]]).Some?
    {
      assert i == 0 || i == 1;
    }
  }

  lemma ParsedNumbersLoad(env: Env, baseDir: string, parseFloat: string -> Option<real>)
    requires NumbersParse(env, parseFloat)
    ensures Load(env, baseDir, parseFloat).Some?
  {
    assert IntKeys[0] == "PORT" && IntKeys[1] == "MAX_FILE_SIZE_MB"
      && IntKeys[2] == "FILE_RETENTION_MINUTES" && IntKeys[3] == "REDIS_PORT"
      && IntKeys[4] == "REDIS_DB" && IntKeys[5] == "CELERY_MAX_MEMORY_MB"
      && IntKeys[6] == "CLAMAV_PORT" && IntKeys[7] == "AUDIO_SAMPLE_RATE";
    assert FloatKeys[0] == "NOISE_ATTENUATION_LIMIT_DB" && FloatKeys[1] == "OUTPUT_GAIN_DB";
  }

  /** An integer variable with whitespace around its number reads as that number, as
      `int` strips it. */
  lemma IntSettingPadded(env: Env, key: string, default: int, ws1: string, s: string, ws2: string)
    requires key in env && env[key] == ws1 + s + ws2
    requires AllSpace(ws1) && AllSpace(ws2)
    requires |s| > 0 && !IntSpace(s[0]) && !IntSpace(s[|s| - 1])
    ensures IntSetting(env, key, default) == ParseInt(s)
  {
    ParseIntPadded(ws1, s, ws2);
  }

  lemma PortDigits()
    ensures ParseInt("8000") == Some(8000)
  {
    assert NatToString(8000) == "8000";
    ParseIntToString(8000);
  }

  lemma PaddedPortText()
    ensures ParseInt("8000 ") == Some(8000)
  {
    PortDigits();
    PlainChar('8');
    PlainChar('0');
    assert "8000 " == "" + "8000" + " ";
    ParseIntPadded("", "8000", " ");
  }

  /** `PORT="8000 "` loads, with port 8000. */
  lemma PaddedPortLoads(env: Env, baseDir: string, parseFloat: string -> Option<real>)
    requires env == map["PORT" := "8000 "]
    ensures Load(env, baseDir, parseFloat).Some? && Load(env, baseDir, parseFloat).value.port == 8000
  {
    PaddedPortText();
    assert env.Keys == {"PORT"} && env["PORT"] == "8000 ";
    OnlyPortParses(env, parseFloat);
    LoadSucceeds(env, baseDir, parseFloat);
  }

  /** `PORT="\x1c8000"` aborts the import: `int` does not strip the separator. */
  lemma SeparatorPortFails(env: Env, baseDir: string, parseFloat: string -> Option<real>)
    requires env == map["PORT" := ['\U{1c}'] + "8000"]
    ensures Load(env, baseDir, parseFloat).None?
  {
    var text := ['\U{1c}'] + "8000";
    assert text[|text| - 1] == '0';
    ParseIntRejectsSeparators(text);
    assert env["PORT"] == text && IntKeys[0] == "PORT";
    LoadSucceeds(env, baseDir, parseFloat);
  }

  lemma OnlyPortParses(env: Env, parseFloat: string -> Option<real>)
    requires env.Keys == {"PORT"} && ParseInt(env["PORT"]).Some?
    ensures NumbersParse(env, parseFloat)
  {
    assert forall i :: 0 <= i < |FloatKeys| ==> FloatKeys[i] != "PORT";
    assert forall i :: 0 <= i < |IntKeys| && IntKeys[i] in env ==> IntKeys[i] == "PORT";
  }

  /** The allowed extensions are the entries of the comma-separated `ALLOWED_EXTENSIONS`. */
  lemma LoadedExtensions(env: Env, baseDir: string, parseFloat: string -> Option<real>)
    requires Load(env, baseDir, parseFloat).Some?
    ensures Load(env, baseDir, parseFloat).value.allowedExtensions
            == set x | x in ListSetting(env, "ALLOWED_EXTENSIONS", DefaultAllowedExtensions)
  {
  }

  lemma ExtensionSet(items: seq<string>)
    requires items == ["mp3", "wav", "ogg", "m4a", "flac", "aac", "wma"]
    ensures (set x | x in items) == {"mp3", "wav", "ogg", "m4a", "flac", "aac", "wma"}
  {
  }

  lemma DefaultRedis(baseDir: string, parseFloat: string -> Option<real>)
    requires Load(map[], baseDir, parseFloat).Some?
    ensures var s := Load(map[], baseDir, parseFloat).value;
      && ParseRedisUrl(s.redisUrl) == Some(("localhost", 6379, 0))
      && s.celeryBrokerUrl == s.redisUrl && s.celeryResultBackend == s.redisUrl
  {
    LocalhostIsPlain();
    RedisUrlRoundTrip("localhost", 6379, 0);
  }

  lemma DefaultDirectories(baseDir: string, parseFloat: string -> Option<real>)
    requires Load(map[], baseDir, parseFloat).Some?
    ensures var s := Load(map[], baseDir, parseFloat).value;
      s.uploadDir == baseDir + "/uploads" && s.processedDir == baseDir + "/processed"
  {
    DefaultDirs(baseDir);
  }

  /** With nothing set in the environment: 50 MB uploads (52428800 bytes), ten minutes
      (600 s) of retention, debug and virus scanning off, the seven audio extensions, Redis on
      localhost:6379 db 0 serving as broker and result backend, a 2048 MB worker memory
      budget, directories `uploads`/`processed` below `BASE_DIR`, 48 kHz audio, a 12 dB
      attenuation limit and no output gain. */
  lemma Defaults(baseDir: string, parseFloat: string -> Option<real>)
    ensures Load(map[], baseDir, parseFloat).Some?
    ensures var s := Load(map[], baseDir, parseFloat).value;
      && s.maxFileSizeBytes == 52428800
      && s.fileRetentionSeconds == 600
      && !s.debug && !s.enableVirusScan
      && s.allowedExtensions == {"mp3", "wav", "ogg", "m4a", "flac", "aac", "wma"}
      && ParseRedisUrl(s.redisUrl) == Some(("localhost", 6379, 0))
      && s.celeryBrokerUrl == s.redisUrl && s.celeryResultBackend == s.redisUrl
      && s.uploadDir == baseDir + "/uploads" && s.processedDir == baseDir + "/processed"
      && s.celeryMaxMemoryMb == 2048
      && s.audioSampleRate == 48000
      && s.noiseAttenuationLimitDb == 12.0 && s.outputGainDb == 0.0
  {
    DefaultNumbers(baseDir, parseFloat);
    DefaultFlags(baseDir, parseFloat);
    DefaultExtensions(baseDir, parseFloat);
    DefaultRedis(baseDir, parseFloat);
    DefaultDirectories(baseDir, parseFloat);
  }
}
