/**
 * The adapter registry: lazy initialisation from the settings, registration,
 * lookup, and the automatic choice of a backend
 * (gateway/adapters/factory.py).
 */
module AdapterRegistry {
  import opened Wrappers
  import opened Seqs
  import opened Adapters
  import opened GatewayConfig

  const QwenId := "qwen3-tts"
  const IndexId := "indextts-2.0"

  /** The `_adapters` dictionary: its keys in insertion order and the adapter under each. */
  datatype Registry = Registry(ids: seq<string>, adapters: map<string, Adapter>)
  {
    ghost predicate Valid() {
      Distinct(ids) && forall id :: id in ids <==> id in adapters
    }

    /** `_adapters[id] = adapter`: a new key goes last, an existing one keeps its place. */
    function Put(id: string, adapter: Adapter): (r: Registry)
      requires Valid()
      ensures r.Valid()
      ensures r.adapters == adapters[id := adapter]
      ensures id in adapters ==> r.ids == ids
      ensures id !in adapters ==> r.ids == ids + [id]
    {
      if id in adapters then Registry(ids, adapters[id := adapter])
      else Registry(ids + [id], adapters[id := adapter])
    }

    /** `_adapters.get(id)`. */
    function Get(id: string): (r: Option<Adapter>)
      ensures r.Some? <==> id in adapters
      ensures r.Some? ==> r.value == adapters[id]
    {
      if id in adapters then Some(adapters[id]) else None
    }
  }

  const EmptyRegistry := Registry([], map[])

  /** What `initialize` adds: qwen3-tts if enabled, then indextts-2.0 if enabled. */
  function Initialized(reg: Registry, settings: Settings): (r: Registry)
    requires reg.Valid()
    ensures r.Valid()
  {
    var withQwen :=
      if settings.qwenEnabled then reg.Put(QwenId, NewAdapter(QwenAdapter, settings.qwenUrl, settings.qwenTimeout))
      else reg;
    if settings.indexEnabled then withQwen.Put(IndexId, NewAdapter(IndexAdapter, settings.indexUrl, settings.indexTimeout))
    else withQwen
  }

  /** From an empty registry, a backend is registered exactly when the settings enable it. */
  lemma InitializedFromEmpty(settings: Settings)
    ensures var r := Initialized(EmptyRegistry, settings);
      && (QwenId in r.adapters <==> settings.qwenEnabled)
      && (IndexId in r.adapters <==> settings.indexEnabled)
      && (forall id :: id in r.adapters ==> id == QwenId || id == IndexId)
      && (settings.qwenEnabled ==> r.adapters[QwenId].kind == QwenAdapter)
      && (settings.indexEnabled ==> r.adapters[IndexId].kind == IndexAdapter)
  {
  }

  predicate Truthy(s: Option<string>) {
    s.Some? && s.value != ""
  }

  /**
   * `auto_select`: a reference audio id picks qwen3-tts; a non-preset emotion
   * mode picks indextts-2.0; a language other than Chinese or English picks
   * qwen3-tts; otherwise indextts-2.0, else qwen3-tts. A rule whose adapter is
   * missing is skipped.
   */
  function AutoChoice(reg: map<string, Adapter>, refAudioId: Option<string>, emotionMode: string, language: string)
    : (r: Option<Adapter>)
    ensures r.None? <==> QwenId !in reg && IndexId !in reg
    ensures r.Some? ==> (QwenId in reg && r.value == reg[QwenId]) || (IndexId in reg && r.value == reg[IndexId])
  {
    if Truthy(refAudioId) && QwenId in reg then Some(reg[QwenId])
    else if emotionMode != "preset" && IndexId in reg then Some(reg[IndexId])
    else if language !in {"Chinese", "English"} && QwenId in reg then Some(reg[QwenId])
    else if IndexId in reg then Some(reg[IndexId])
    else if QwenId in reg then Some(reg[QwenId])
    else None
  }

  /** With both backends registered, the first rule that applies decides. */
  lemma AutoChoicePriority(reg: map<string, Adapter>, refAudioId: Option<string>, emotionMode: string, language: string)
    requires QwenId in reg && IndexId in reg
    ensures var r := AutoChoice(reg, refAudioId, emotionMode, language);
      && (Truthy(refAudioId) ==> r == Some(reg[QwenId]))
      && (!Truthy(refAudioId) && emotionMode != "preset" ==> r == Some(reg[IndexId]))
      && (var plain := !Truthy(refAudioId) && emotionMode == "preset";
          && (plain && language != "Chinese" && language != "English" ==> r == Some(reg[QwenId]))
          && (plain && (language == "Chinese" || language == "English") ==> r == Some(reg[IndexId])))
  {
  }

  /** With one backend registered, every request goes to it. */
  lemma AutoChoiceSingleBackend(reg: map<string, Adapter>, refAudioId: Option<string>, emotionMode: string, language: string)
    requires (QwenId in reg) != (IndexId in reg)
    ensures AutoChoice(reg, refAudioId, emotionMode, language)
         == if QwenId in reg then Some(reg[QwenId]) else Some(reg[IndexId])
  {
  }

  /** `AdapterFactory`: the class-level registry and its initialised flag. */
  class AdapterFactory {
    var registry: Registry
    var initialized: bool

    ghost predicate Valid()
      reads this
    {
      registry.Valid()
    }

    constructor()
      ensures Valid()
      ensures registry == EmptyRegistry && !initialized
    {
      registry := EmptyRegistry;
      initialized := false;
    }

    /** `initialize`: registers the enabled backends once; later calls do nothing. */
    method Initialize(settings: Settings)
      requires Valid()
      modifies this
      ensures Valid()
      ensures initialized
      ensures old(initialized) ==> registry == old(registry)
      ensures !old(initialized) ==> registry == Initialized(old(registry), settings)
    {
      if initialized {
        return;
      }
      if settings.qwenEnabled {
        registry := registry.Put(QwenId, NewAdapter(QwenAdapter, settings.qwenUrl, settings.qwenTimeout));
      }
      if settings.indexEnabled {
        registry := registry.Put(IndexId, NewAdapter(IndexAdapter, settings.indexUrl, settings.indexTimeout));
      }
      initialized := true;
    }

    /** `register`: inserts or overwrites exactly one key. */
    method Register(id: string, adapter: Adapter)
      requires Valid()
      modifies this
      ensures Valid()
      ensures registry == old(registry).Put(id, adapter)
      ensures initialized == old(initialized)
    {
      registry := registry.Put(id, adapter);
    }

    /** `get`: initialises on first use, then looks the id up. */
    method Get(settings: Settings, id: string) returns (r: Option<Adapter>)
      requires Valid()
      modifies this
      ensures Valid() && initialized
      ensures registry == if old(initialized) then old(registry) else Initialized(old(registry), settings)
      ensures r == registry.Get(id)
    {
      Initialize(settings);
      r := registry.Get(id);
    }

    /** `get_all`: initialises on first use and hands back a copy of the registry. */
    method GetAll(settings: Settings) returns (r: Registry)
      requires Valid()
      modifies this
      ensures Valid() && initialized
      ensures registry == if old(initialized) then old(registry) else Initialized(old(registry), settings)
      ensures r == registry && r.Valid()
    {
      Initialize(settings);
      r := registry;
    }

    /** `list_backend_ids`: the keys in insertion order. */
    method ListBackendIds(settings: Settings) returns (ids: seq<string>)
      requires Valid()
      modifies this
      ensures Valid() && initialized
      ensures registry == if old(initialized) then old(registry) else Initialized(old(registry), settings)
      ensures Distinct(ids) && forall id :: id in ids <==> id in registry.adapters
    {
      Initialize(settings);
      ids := registry.ids;
    }

    /** `auto_select`, after initialising on first use. */
    method AutoSelect(settings: Settings, refAudioId: Option<string>, emotionMode: string, language: string)
      returns (r: Option<Adapter>)
      requires Valid()
      modifies this
      ensures Valid() && initialized
      ensures registry == if old(initialized) then old(registry) else Initialized(old(registry), settings)
      ensures r == AutoChoice(registry.adapters, refAudioId, emotionMode, language)
    {
      Initialize(settings);
      r := AutoChoice(registry.adapters, refAudioId, emotionMode, language);
    }

    /**
     * `get_healthy_adapter`: the adapter, only when the status it reports is
     * online with the model loaded. The status is what the adapter would answer.
     */
    method GetHealthyAdapter(settings: Settings, id: string, status: BackendStatus) returns (r: Option<Adapter>)
      requires Valid()
      modifies this
      ensures Valid() && initialized
      ensures registry == if old(initialized) then old(registry) else Initialized(old(registry), settings)
      ensures r.Some? <==> id in registry.adapters && status.online && status.modelLoaded
      ensures r.Some? ==> r.value == registry.adapters[id]
    {
      var adapter := Get(settings, id);
      if adapter.None? {
        return None;
      }
      if status.online && status.modelLoaded {
        return adapter;
      }
      return None;
    }

    /** `reset`: empties the registry and clears the flag. */
    method Reset()
      requires Valid()
      modifies this
      ensures Valid()
      ensures registry == EmptyRegistry && !initialized
    {
      registry := EmptyRegistry;
      initialized := false;
    }
  }

  /** `initialize` adds the enabled backends' ids to whatever was registered before, and nothing else. */
  lemma InitializedKeys(reg: Registry, settings: Settings)
    requires reg.Valid()
    ensures Initialized(reg, settings).adapters.Keys == reg.adapters.Keys + (if settings.qwenEnabled then {QwenId} else {})
                                                      + (if settings.indexEnabled then {IndexId} else {})
  {
  }
}
