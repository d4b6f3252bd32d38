/**
 * The gateway's settings: the defaults of `Settings` and the mapping from the
 * nested YAML configuration onto its flat keys (gateway/config.py).
 */
module GatewayConfig {
  import opened Wrappers
  import opened PyValues

  /** A parsed YAML document: a scalar, or a mapping of further documents. */
  datatype Yaml = Scalar(v: Value) | Mapping(entries: map<string, Yaml>)

  /** The configuration file: absent, or present with the document it parses to. */
  datatype YamlFile = Missing | Present(doc: Yaml)

  datatype Settings = Settings(
    host: string,
    port: int,
    qwenUrl: string,
    qwenTimeout: real,
    qwenEnabled: bool,
    indexUrl: string,
    indexTimeout: real,
    indexEnabled: bool,
    rateLimitEnabled: bool,
    requestsPerMinute: int,
    logLevel: string)

  /** Every field at its declared default. */
  const DefaultSettings := Settings("0.0.0.0", 8000, "http://localhost:8019", 60.0, true,
                                    "http://localhost:8080", 120.0, true, true, 60, "INFO")

  /** The keys of `Settings`, with the names the flat dictionary uses for them. */
  datatype SettingKey =
    | Host | Port
    | QwenUrl | QwenTimeout | QwenEnabled
    | IndexUrl | IndexTimeout | IndexEnabled
    | RateLimitEnabled | RequestsPerMinute
    | LogLevel
  {
    function Name(): string {
      match this
      case Host => "host"
      case Port => "port"
      case QwenUrl => "qwen3_tts_url"
      case QwenTimeout => "qwen3_tts_timeout"
      case QwenEnabled => "qwen3_tts_enabled"
      case IndexUrl => "indextts_url"
      case IndexTimeout => "indextts_timeout"
      case IndexEnabled => "indextts_enabled"
      case RateLimitEnabled => "rate_limit_enabled"
      case RequestsPerMinute => "rate_limit_requests_per_minute"
      case LogLevel => "log_level"
    }
  }

  const AllKeys: set<SettingKey> := {Host, Port, QwenUrl, QwenTimeout, QwenEnabled, IndexUrl, IndexTimeout,
                                     IndexEnabled, RateLimitEnabled, RequestsPerMinute, LogLevel}

  /** A place in the YAML document: a key of a top-level section, or of a backend's section. */
  datatype YamlPath = InSection(section: string, leaf: string) | InBackend(backend: string, leaf: string)

  /** Where each key is read from; `log_level` is read from nowhere. */
  function SourcePath(key: SettingKey): Option<YamlPath> {
    match key
    case Host => Some(InSection("server", "host"))
    case Port => Some(InSection("server", "port"))
    case QwenUrl => Some(InBackend("qwen3_tts", "url"))
    case QwenTimeout => Some(InBackend("qwen3_tts", "timeout"))
    case QwenEnabled => Some(InBackend("qwen3_tts", "enabled"))
    case IndexUrl => Some(InBackend("indextts", "url"))
    case IndexTimeout => Some(InBackend("indextts", "timeout"))
    case IndexEnabled => Some(InBackend("indextts", "enabled"))
    case RateLimitEnabled => Some(InSection("rate_limit", "enabled"))
    case RequestsPerMinute => Some(InSection("rate_limit", "requests_per_minute"))
    case LogLevel => None
  }

  /** The child under `key` of a mapping. */
  function Child(d: Option<Yaml>, key: string): (r: Option<Yaml>)
    ensures r.Some? ==> d.Some? && d.value.Mapping? && key in d.value.entries
  {
    if d.Some? && d.value.Mapping? && key in d.value.entries then Some(d.value.entries[key]) else None
  }

  /** The document at `path`, if every step on the way is a mapping holding the next key. */
  function Lookup(doc: Yaml, path: YamlPath): Option<Yaml> {
    match path
    case InSection(section, leaf) => Child(Child(Some(doc), section), leaf)
    case InBackend(backend, leaf) => Child(Child(Child(Some(doc), "backends"), backend), leaf)
  }

  /** The value the document gives for `key`, if any. */
  function Source(doc: Yaml, key: SettingKey): Option<Yaml> {
    if SourcePath(key).Some? then Lookup(doc, SourcePath(key).value) else None
  }

  /** The flat dictionary the YAML document yields: each key whose source is present. */
  function ConfigDict(doc: Yaml): (d: map<SettingKey, Yaml>)
    ensures LogLevel !in d
  {
    map key | key in AllKeys && Source(doc, key).Some? :: Source(doc, key).value
  }

  /** `yaml.safe_load(f) or {}`: a missing file or a falsy document reads as the empty mapping. */
  function LoadYaml(file: YamlFile): (doc: Yaml)
    ensures file.Missing? ==> doc == Mapping(map[])
  {
    match file
    case Missing => Mapping(map[])
    case Present(d) => if d.Scalar? && !Truthy(d.v) then Mapping(map[]) else d
  }

  /** The sections the mapping code indexes into are mappings whenever present. */
  predicate SectionsAreMappings(doc: Yaml) {
    && doc.Mapping?
    && ("server" in doc.entries ==> doc.entries["server"].Mapping?)
    && ("rate_limit" in doc.entries ==> doc.entries["rate_limit"].Mapping?)
    && ("backends" in doc.entries ==>
          (&& doc.entries["backends"].Mapping?
           && (var b := doc.entries["backends"].entries;
               ("qwen3_tts" in b ==> b["qwen3_tts"].Mapping?) && ("indextts" in b ==> b["indextts"].Mapping?))))
  }

  /** Copies `section[leaf]` into `d[key]` when present. */
  method CopyIfPresent(d: map<SettingKey, Yaml>, section: map<string, Yaml>, leaf: string, key: SettingKey)
    returns (d': map<SettingKey, Yaml>)
    ensures leaf in section ==> d' == d[key := section[leaf]]
    ensures leaf !in section ==> d' == d
  {
    d' := d;
    if leaf in section {
      d' := d'[key := section[leaf]];
    }
  }

  /** `d` holds exactly the document's values for the keys in `done`, and no other key. */
  predicate Agrees(d: map<SettingKey, Yaml>, doc: Yaml, done: set<SettingKey>) {
    && d.Keys <= done
    && forall key :: key in done ==>
         (key in d <==> Source(doc, key).Some?) && (key in d ==> d[key] == Source(doc, key).value)
  }

  /** The `server` block: `host` and `port`. */
  method CopyServer(d: map<SettingKey, Yaml>, doc: Yaml, done: set<SettingKey>) returns (d': map<SettingKey, Yaml>)
    requires SectionsAreMappings(doc) && Agrees(d, doc, done) && Host !in done && Port !in done
    ensures Agrees(d', doc, done + {Host, Port})
  {
    d' := d;
    if "server" in doc.entries {
      var server := doc.entries["server"].entries;
      d' := CopyIfPresent(d', server, "host", Host);
      d' := CopyIfPresent(d', server, "port", Port);
    }
  }

  /** One backend's block under `backends`: `url`, `timeout` and `enabled`. */
  method CopyBackend(d: map<SettingKey, Yaml>, doc: Yaml, done: set<SettingKey>, backend: string,
                     url: SettingKey, timeout: SettingKey, enabled: SettingKey)
    returns (d': map<SettingKey, Yaml>)
    requires SectionsAreMappings(doc) && Agrees(d, doc, done)
    requires backend in {"qwen3_tts", "indextts"}
    requires SourcePath(url) == Some(InBackend(backend, "url"))
    requires SourcePath(timeout) == Some(InBackend(backend, "timeout"))
    requires SourcePath(enabled) == Some(InBackend(backend, "enabled"))
    requires url !in done && timeout !in done && enabled !in done
    requires url != timeout && url != enabled && timeout != enabled
    ensures Agrees(d', doc, done + {url, timeout, enabled})
  {
    d' := d;
    if "backends" in doc.entries && backend in doc.entries["backends"].entries {
      var section := doc.entries["backends"].entries[backend].entries;
      d' := CopyIfPresent(d', section, "url", url);
      d' := CopyIfPresent(d', section, "timeout", timeout);
      d' := CopyIfPresent(d', section, "enabled", enabled);
    }
    forall key | key in done + {url, timeout, enabled}
      ensures key in d' <==> Source(doc, key).Some?
      ensures key in d' ==> d'[key] == Source(doc, key).value
    {
      if key !in done {
        assert Source(doc, key) == Lookup(doc, SourcePath(key).value);
      }
    }
  }

  /** The `rate_limit` block: `enabled` and `requests_per_minute`. */
  method CopyRateLimit(d: map<SettingKey, Yaml>, doc: Yaml, done: set<SettingKey>) returns (d': map<SettingKey, Yaml>)
    requires SectionsAreMappings(doc) && Agrees(d, doc, done)
    requires RateLimitEnabled !in done && RequestsPerMinute !in done
    ensures Agrees(d', doc, done + {RateLimitEnabled, RequestsPerMinute})
  {
    d' := d;
    if "rate_limit" in doc.entries {
      var rl := doc.entries["rate_limit"].entries;
      d' := CopyIfPresent(d', rl, "enabled", RateLimitEnabled);
      d' := CopyIfPresent(d', rl, "requests_per_minute", RequestsPerMinute);
    }
  }

  /** `get_settings`'s dictionary, built by successive conditional insertions. */
  method BuildConfigDict(doc: Yaml) returns (d: map<SettingKey, Yaml>)
    requires SectionsAreMappings(doc)
    ensures d == ConfigDict(doc)
  {
    d := map[];
    d := CopyServer(d, doc, {});
    d := CopyBackend(d, doc, {Host, Port}, "qwen3_tts", QwenUrl, QwenTimeout, QwenEnabled);
    d := CopyBackend(d, doc, {Host, Port, QwenUrl, QwenTimeout, QwenEnabled}, "indextts",
                     IndexUrl, IndexTimeout, IndexEnabled);
    d := CopyRateLimit(d, doc, {Host, Port, QwenUrl, QwenTimeout, QwenEnabled, IndexUrl, IndexTimeout, IndexEnabled});
    AgreesOnAllCopied(d, doc);
  }

  /** Agreeing on every key that has a source is being the document's dictionary. */
  lemma AgreesOnAllCopied(d: map<SettingKey, Yaml>, doc: Yaml)
    requires Agrees(d, doc, {Host, Port, QwenUrl, QwenTimeout, QwenEnabled, IndexUrl, IndexTimeout,
                             IndexEnabled, RateLimitEnabled, RequestsPerMinute})
    ensures d == ConfigDict(doc)
  {
    var spec := ConfigDict(doc);
    forall key
      ensures key in d <==> key in spec
      ensures key in d ==> d[key] == spec[key]
    {
      KeyListed(key);
    }
  }

  lemma KeyListed(key: SettingKey)
    ensures key in AllKeys
  {
    match key
    case Host =>
    case Port =>
    case QwenUrl =>
    case QwenTimeout =>
    case QwenEnabled =>
    case IndexUrl =>
    case IndexTimeout =>
    case IndexEnabled =>
    case RateLimitEnabled =>
    case RequestsPerMinute =>
    case LogLevel =>
  }

  // ---------------------------------------------------------------- Settings(**config_dict)

  function StrSetting(d: map<SettingKey, Yaml>, key: SettingKey, default: string): (r: Outcome<string>)
    ensures key !in d ==> r == Ok(default)
    ensures key in d ==> (r.Ok? <==> d[key].Scalar? && d[key].v.Str?)
    ensures key in d && r.Ok? ==> d[key] == Scalar(Str(r.value))
  {
    if key !in d then Ok(default)
    else match d[key]
      case Scalar(Str(s)) => Ok(s)
      case _ => Raise(key.Name() + ": Input should be a valid string")
  }

  function IntSetting(d: map<SettingKey, Yaml>, key: SettingKey, default: int): (r: Outcome<int>)
    ensures key !in d ==> r == Ok(default)
    ensures key in d ==> (r.Ok? <==> d[key].Scalar? && d[key].v.Int?)
    ensures key in d && r.Ok? ==> d[key] == Scalar(Int(r.value))
  {
    if key !in d then Ok(default)
    else match d[key]
      case Scalar(Int(i)) => Ok(i)
      case _ => Raise(key.Name() + ": Input should be a valid integer")
  }

  function RealSetting(d: map<SettingKey, Yaml>, key: SettingKey, default: real): (r: Outcome<real>)
    ensures key !in d ==> r == Ok(default)
    ensures key in d ==> (r.Ok? <==> AsNumber(d[key]).Some?)
    ensures key in d && r.Ok? ==> AsNumber(d[key]) == Some(r.value)
  {
    if key !in d then Ok(default)
    else match d[key]
      case Scalar(Int(i)) => Ok(i as real)
      case Scalar(Num(x)) => Ok(x)
      case _ => Raise(key.Name() + ": Input should be a valid number")
  }

  function BoolSetting(d: map<SettingKey, Yaml>, key: SettingKey, default: bool): (r: Outcome<bool>)
    ensures key !in d ==> r == Ok(default)
    ensures key in d ==> (r.Ok? <==> d[key].Scalar? && d[key].v.Bool?)
    ensures key in d && r.Ok? ==> d[key] == Scalar(Bool(r.value))
  {
    if key !in d then Ok(default)
    else match d[key]
      case Scalar(Bool(b)) => Ok(b)
      case _ => Raise(key.Name() + ": Input should be a valid boolean")
  }

  /** `Settings(**config_dict)`: each key given overrides its default; a mistyped one fails. */
  function MakeSettings(d: map<SettingKey, Yaml>): (r: Outcome<Settings>)
    ensures d == map[] ==> r == Ok(DefaultSettings)
    ensures r.Ok? ==> r.value.logLevel == "INFO"
  {
    var host := StrSetting(d, Host, "0.0.0.0");
    var port := IntSetting(d, Port, 8000);
    var qUrl := StrSetting(d, QwenUrl, "http://localhost:8019");
    var qTimeout := RealSetting(d, QwenTimeout, 60.0);
    var qEnabled := BoolSetting(d, QwenEnabled, true);
    var iUrl := StrSetting(d, IndexUrl, "http://localhost:8080");
    var iTimeout := RealSetting(d, IndexTimeout, 120.0);
    var iEnabled := BoolSetting(d, IndexEnabled, true);
    var rlEnabled := BoolSetting(d, RateLimitEnabled, true);
    var rpm := IntSetting(d, RequestsPerMinute, 60);
    if host.Raise? then Raise(host.message)
    else if port.Raise? then Raise(port.message)
    else if qUrl.Raise? then Raise(qUrl.message)
    else if qTimeout.Raise? then Raise(qTimeout.message)
    else if qEnabled.Raise? then Raise(qEnabled.message)
    else if iUrl.Raise? then Raise(iUrl.message)
    else if iTimeout.Raise? then Raise(iTimeout.message)
    else if iEnabled.Raise? then Raise(iEnabled.message)
    else if rlEnabled.Raise? then Raise(rlEnabled.message)
    else if rpm.Raise? then Raise(rpm.message)
    else Ok(Settings(host.value, port.value, qUrl.value, qTimeout.value, qEnabled.value, iUrl.value,
                     iTimeout.value, iEnabled.value, rlEnabled.value, rpm.value, "INFO"))
  }

  /** `get_settings`: load the file, flatten it, construct the settings. */
  method GetSettings(file: YamlFile) returns (r: Outcome<Settings>)
    requires SectionsAreMappings(LoadYaml(file))
    ensures r == MakeSettings(ConfigDict(LoadYaml(file)))
  {
    var doc := LoadYaml(file);
    var d := BuildConfigDict(doc);
    r := MakeSettings(d);
  }

  /** Without a configuration file every default applies. */
  lemma MissingFileGivesDefaults()
    ensures MakeSettings(ConfigDict(LoadYaml(Missing))) == Ok(DefaultSettings)
  {
    assert ConfigDict(Mapping(map[])) == map[];
  }

  /** A key whose source is absent from the document keeps its default. */
  lemma AbsentSourceKeepsDefault(doc: Yaml)
    requires MakeSettings(ConfigDict(doc)).Ok?
    ensures var s := MakeSettings(ConfigDict(doc)).value;
      && (Source(doc, Host).None? ==> s.host == DefaultSettings.host)
      && (Source(doc, Port).None? ==> s.port == DefaultSettings.port)
      && (Source(doc, QwenUrl).None? ==> s.qwenUrl == DefaultSettings.qwenUrl)
      && (Source(doc, QwenTimeout).None? ==> s.qwenTimeout == DefaultSettings.qwenTimeout)
      && (Source(doc, QwenEnabled).None? ==> s.qwenEnabled == DefaultSettings.qwenEnabled)
      && (Source(doc, IndexUrl).None? ==> s.indexUrl == DefaultSettings.indexUrl)
      && (Source(doc, IndexTimeout).None? ==> s.indexTimeout == DefaultSettings.indexTimeout)
      && (Source(doc, IndexEnabled).None? ==> s.indexEnabled == DefaultSettings.indexEnabled)
      && (Source(doc, RateLimitEnabled).None? ==> s.rateLimitEnabled == DefaultSettings.rateLimitEnabled)
      && (Source(doc, RequestsPerMinute).None? ==> s.requestsPerMinute == DefaultSettings.requestsPerMinute)
      && s.logLevel == DefaultSettings.logLevel
  {
  }

  /** The float a YAML scalar gives a float setting: an integer or a float, as pydantic accepts. */
  function AsNumber(y: Yaml): (r: Option<real>)
    ensures y.Scalar? && y.v.Num? ==> r == Some(y.v.r)
    ensures y.Scalar? && y.v.Int? ==> r == Some(y.v.i as real)
    ensures !(y.Scalar? && (y.v.Num? || y.v.Int?)) ==> r == None
  {
    match y
    case Scalar(Int(i)) => Some(i as real)
    case Scalar(Num(x)) => Some(x)
    case _ => None
  }

  /** Each key's flat-dictionary entry is its source's value. */
  lemma ConfigDictAt(doc: Yaml, key: SettingKey)
    ensures key in ConfigDict(doc) <==> Source(doc, key).Some?
    ensures key in ConfigDict(doc) ==> ConfigDict(doc)[key] == Source(doc, key).value
  {
    KeyListed(key);
  }

  /**
   * A value present at a key's source reaches the settings unchanged: strings
   * for the host and the URLs, integers for the port and the limit, an integer
   * or a float for the timeouts, booleans for the switches.
   */
  lemma PresentSourceOverrides(doc: Yaml)
    requires MakeSettings(ConfigDict(doc)).Ok?
    ensures Source(doc, Host).Some? ==> Source(doc, Host).value == Scalar(Str(MakeSettings(ConfigDict(doc)).value.host))
    ensures Source(doc, Port).Some? ==> Source(doc, Port).value == Scalar(Int(MakeSettings(ConfigDict(doc)).value.port))
    ensures Source(doc, QwenUrl).Some? ==>
      Source(doc, QwenUrl).value == Scalar(Str(MakeSettings(ConfigDict(doc)).value.qwenUrl))
    ensures Source(doc, QwenTimeout).Some? ==>
      AsNumber(Source(doc, QwenTimeout).value) == Some(MakeSettings(ConfigDict(doc)).value.qwenTimeout)
    ensures Source(doc, QwenEnabled).Some? ==>
      Source(doc, QwenEnabled).value == Scalar(Bool(MakeSettings(ConfigDict(doc)).value.qwenEnabled))
    ensures Source(doc, IndexUrl).Some? ==>
      Source(doc, IndexUrl).value == Scalar(Str(MakeSettings(ConfigDict(doc)).value.indexUrl))
    ensures Source(doc, IndexTimeout).Some? ==>
      AsNumber(Source(doc, IndexTimeout).value) == Some(MakeSettings(ConfigDict(doc)).value.indexTimeout)
    ensures Source(doc, IndexEnabled).Some? ==>
      Source(doc, IndexEnabled).value == Scalar(Bool(MakeSettings(ConfigDict(doc)).value.indexEnabled))
    ensures Source(doc, RateLimitEnabled).Some? ==>
      Source(doc, RateLimitEnabled).value == Scalar(Bool(MakeSettings(ConfigDict(doc)).value.rateLimitEnabled))
    ensures Source(doc, RequestsPerMinute).Some? ==>
      Source(doc, RequestsPerMinute).value == Scalar(Int(MakeSettings(ConfigDict(doc)).value.requestsPerMinute))
  {
    var d := ConfigDict(doc);
    PresentKeysReachSettings(d);
    ConfigDictAt(doc, Host);
    ConfigDictAt(doc, Port);
    ConfigDictAt(doc, QwenUrl);
    ConfigDictAt(doc, QwenTimeout);
    ConfigDictAt(doc, QwenEnabled);
    ConfigDictAt(doc, IndexUrl);
    ConfigDictAt(doc, IndexTimeout);
    ConfigDictAt(doc, IndexEnabled);
    ConfigDictAt(doc, RateLimitEnabled);
    ConfigDictAt(doc, RequestsPerMinute);
  }

  /** When the settings are built, every key the dictionary holds has reached its setting unchanged. */
  lemma PresentKeysReachSettings(d: map<SettingKey, Yaml>)
    requires MakeSettings(d).Ok?
    ensures var s := MakeSettings(d).value;
      && (Host in d ==> d[Host] == Scalar(Str(s.host)))
      && (Port in d ==> d[Port] == Scalar(Int(s.port)))
      && (QwenUrl in d ==> d[QwenUrl] == Scalar(Str(s.qwenUrl)))
      && (QwenTimeout in d ==> AsNumber(d[QwenTimeout]) == Some(s.qwenTimeout))
      && (QwenEnabled in d ==> d[QwenEnabled] == Scalar(Bool(s.qwenEnabled)))
      && (IndexUrl in d ==> d[IndexUrl] == Scalar(Str(s.indexUrl)))
      && (IndexTimeout in d ==> AsNumber(d[IndexTimeout]) == Some(s.indexTimeout))
      && (IndexEnabled in d ==> d[IndexEnabled] == Scalar(Bool(s.indexEnabled)))
      && (RateLimitEnabled in d ==> d[RateLimitEnabled] == Scalar(Bool(s.rateLimitEnabled)))
      && (RequestsPerMinute in d ==> d[RequestsPerMinute] == Scalar(Int(s.requestsPerMinute)))
  {
  }
}
