/**
 * The speech service: which adapter a request goes to, the keyword arguments
 * it receives, and the metadata returned with the audio
 * (gateway/services/tts_service.py).
 */
module TtsService {
  import opened Wrappers
  import opened PyValues
  import opened Text
  import opened Adapters
  import opened GatewayConfig
  import opened AdapterRegistry
  import opened RequestSchema

  const QwenDisabled := "Qwen3-TTS 后端未启用或不可用"
  const IndexDisabled := "IndexTTS 后端未启用或不可用"
  const NoBackend := "没有可用的 TTS 后端"

  function UnknownModel(model: string): string {
    "未知的模型: " + model
  }

  /**
   * `_select_adapter` over the initialised registry: the model name is
   * lower-cased, the two backends are named explicitly (IndexTTS under either
   * of its names), `auto` defers to the automatic choice, and any other name
   * is looked up as it is.
   */
  function Selection(reg: map<string, Adapter>, request: GatewayRequest): (r: Outcome<Option<Adapter>>)
    ensures r.Ok? && r.value.Some? ==> r.value.value in reg.Values
    ensures r == Ok(None) ==> Lower(request.model) == "auto" && QwenId !in reg && IndexId !in reg
  {
    var model := Lower(request.model);
    if model == "qwen3-tts" then
      (if QwenId in reg then Ok(Some(reg[QwenId])) else Raise(QwenDisabled))
    else if model == "indextts-2.0" || model == "indextts" then
      (if IndexId in reg then Ok(Some(reg[IndexId])) else Raise(IndexDisabled))
    else if model == "auto" then
      Ok(AutoChoice(reg, request.refAudioId, request.emotionMode, request.language))
    else if model in reg then Ok(Some(reg[model]))
    else Raise(UnknownModel(model))
  }

  lemma {:induction false} LowerIdempotent(s: string)
    ensures Lower(Lower(s)) == Lower(s)
  {
    var l := Lower(s);
    assert forall i :: 0 <= i < |s| ==> Lower(l)[i] == l[i];
  }

  /** Model names are matched without regard to ASCII case. */
  lemma SelectionIgnoresCase(reg: map<string, Adapter>, request: GatewayRequest)
    ensures Selection(reg, request) == Selection(reg, request.(model := Lower(request.model)))
  {
    LowerIdempotent(request.model);
  }

  /** Lower-casing a name without capital letters changes nothing. */
  lemma LowerKeepsLowercase(s: string)
    requires forall i :: 0 <= i < |s| ==> !('A' <= s[i] <= 'Z')
    ensures Lower(s) == s
  {
    assert forall i :: 0 <= i < |s| ==> Lower(s)[i] == s[i];
  }

  /** `indextts` is an alias of `indextts-2.0`: both reach the adapter registered as indextts-2.0. */
  lemma IndexAliasSelectsIndex(reg: map<string, Adapter>, request: GatewayRequest)
    requires request.model == "indextts" || request.model == "indextts-2.0"
    ensures IndexId in reg ==> Selection(reg, request) == Ok(Some(reg[IndexId]))
    ensures IndexId !in reg ==> Selection(reg, request) == Raise(IndexDisabled)
  {
    LowerKeepsLowercase(request.model);
    assert Lower(request.model)[0] != QwenId[0];
  }

  /** An explicitly named backend that is not registered is an error, never a fallback. */
  lemma NamedBackendNeverFallsBack(reg: map<string, Adapter>, request: GatewayRequest)
    requires Lower(request.model) == "qwen3-tts"
    ensures Selection(reg, request).Ok? <==> QwenId in reg
    ensures Selection(reg, request).Ok? ==> Selection(reg, request).value == Some(reg[QwenId])
  {
  }

  /** `_select_adapter`, which initialises the registry on first use. */
  method SelectAdapter(factory: AdapterFactory, settings: Settings, request: GatewayRequest)
    returns (r: Outcome<Option<Adapter>>)
    requires factory.Valid()
    modifies factory
    ensures factory.Valid() && factory.initialized
    ensures factory.registry == if old(factory.initialized) then old(factory.registry)
                                else Initialized(old(factory.registry), settings)
    ensures r == Selection(factory.registry.adapters, request)
  {
    var model := Lower(request.model);
    if model == "qwen3-tts" {
      var adapter := factory.Get(settings, QwenId);
      if adapter.Some? {
        return Ok(adapter);
      }
      return Raise(QwenDisabled);
    }
    if model == "indextts-2.0" || model == "indextts" {
      var adapter := factory.Get(settings, IndexId);
      if adapter.Some? {
        return Ok(adapter);
      }
      return Raise(IndexDisabled);
    }
    if model == "auto" {
      var adapter := factory.AutoSelect(settings, request.refAudioId, request.emotionMode, request.language);
      return Ok(adapter);
    }
    var adapter := factory.Get(settings, model);
    if adapter.Some? {
      return Ok(adapter);
    }
    return Raise(UnknownModel(model));
  }

  // ---------------------------------------------------------------- _prepare_kwargs

  function OptNum(x: Option<real>): Value {
    if x.Some? then Num(x.value) else Null
  }

  function OptStr(x: Option<string>): Value {
    if x.Some? then Str(x.value) else Null
  }

  /** `request.ref_audio_id or request.voice`. */
  function RefOrVoice(request: GatewayRequest): string {
    if request.refAudioId.Some? && request.refAudioId.value != "" then request.refAudioId.value else request.voice
  }

  /** The keyword arguments each backend receives. */
  function KwargKeys(backendId: string): (keys: set<Param>)
    ensures {Speed, ResponseFormat} <= keys
  {
    if backendId == QwenId then {Speed, ResponseFormat, Language, RefAudioId}
    else if backendId == IndexId then
      {Speed, ResponseFormat, Emotion, Temperature, TopP, TopK, RepetitionPenalty,
       EmotionMode, EmoAudioPath, EmoAlpha, EmoVector, UseEmoText, EmoText}
    else {Speed, ResponseFormat}
  }

  /** The value a keyword argument carries: the request field of the same name (`None` stays `None`). */
  function KwargValue(request: GatewayRequest, p: Param): Value {
    match p
    case Speed => Num(request.speed)
    case ResponseFormat => Str(request.responseFormat)
    case Language => Str(request.language)
    case RefAudioId => Str(RefOrVoice(request))
    case Emotion => Str(request.emotion)
    case Temperature => OptNum(request.temperature)
    case TopP => OptNum(request.topP)
    case TopK => if request.topK.Some? then Int(request.topK.value) else Null
    case RepetitionPenalty => OptNum(request.repetitionPenalty)
    case EmotionMode => Str(request.emotionMode)
    case EmoAudioPath => OptStr(request.emoAudioPath)
    case EmoAlpha => OptNum(request.emoAlpha)
    case EmoVector => if request.emoVector.Some? then Reals(request.emoVector.value) else Null
    case UseEmoText => Bool(request.useEmoText)
    case EmoText => OptStr(request.emoText)
    case _ => Null
  }

  /** The keyword arguments named in `keys`, each carrying its request field. */
  function KwargsOn(request: GatewayRequest, keys: set<Param>): (kw: Params)
    ensures kw.Keys == keys
  {
    map p | p in keys :: KwargValue(request, p)
  }

  function Kwargs(request: GatewayRequest, backendId: string): (kw: Params)
    ensures kw.Keys == KwargKeys(backendId)
  {
    KwargsOn(request, KwargKeys(backendId))
  }

  /** The two backend ids differ (already in their first letter). */
  lemma BackendIdsDiffer()
    ensures IndexId != QwenId
  {
    assert IndexId[0] != QwenId[0];
  }

  /** `_prepare_kwargs`: speed and format always, then the chosen backend's own parameters. */
  method PrepareKwargs(request: GatewayRequest, backendId: string) returns (kw: Params)
    ensures kw == Kwargs(request, backendId)
  {
    kw := map[Speed := Num(request.speed), ResponseFormat := Str(request.responseFormat)];
    if backendId == QwenId {
      kw := kw[Language := Str(request.language)];
      kw := kw[RefAudioId := Str(RefOrVoice(request))];
      QwenKwargsByKey(request);
    } else if backendId == IndexId {
      kw := kw[Emotion := Str(request.emotion)];
      kw := kw[Temperature := OptNum(request.temperature)];
      kw := kw[TopP := OptNum(request.topP)];
      kw := kw[TopK := if request.topK.Some? then Int(request.topK.value) else Null];
      kw := kw[RepetitionPenalty := OptNum(request.repetitionPenalty)];
      kw := kw[EmotionMode := Str(request.emotionMode)];
      kw := kw[EmoAudioPath := OptStr(request.emoAudioPath)];
      kw := kw[EmoAlpha := OptNum(request.emoAlpha)];
      kw := kw[EmoVector := if request.emoVector.Some? then Reals(request.emoVector.value) else Null];
      kw := kw[UseEmoText := Bool(request.useEmoText)];
      kw := kw[EmoText := OptStr(request.emoText)];
      IndexKwargsByKey(request);
    } else {
      SameKwargs(kw, request, backendId);
    }
  }

  /** Two keyword-argument dictionaries agreeing key by key are equal. */
  lemma SameKwargs(kw: Params, request: GatewayRequest, backendId: string)
    requires forall p :: p in kw <==> p in KwargKeys(backendId)
    requires forall p :: p in kw ==> kw[p] == KwargValue(request, p)
    ensures kw == Kwargs(request, backendId)
  {
  }

  /** The Qwen branch of `_prepare_kwargs` builds the Qwen keyword arguments. */
  lemma QwenKwargsByKey(request: GatewayRequest)
    ensures map[Speed := Num(request.speed), ResponseFormat := Str(request.responseFormat),
                Language := Str(request.language), RefAudioId := Str(RefOrVoice(request))]
         == Kwargs(request, QwenId)
  {
    var kw := map[Speed := Num(request.speed), ResponseFormat := Str(request.responseFormat),
                  Language := Str(request.language), RefAudioId := Str(RefOrVoice(request))];
    SameKwargs(kw, request, QwenId);
  }

  /** The dictionary the IndexTTS branch of `_prepare_kwargs` builds, in the order it writes the keys. */
  function IndexBranch(request: GatewayRequest): Params {
    map[Speed := Num(request.speed), ResponseFormat := Str(request.responseFormat),
        Emotion := Str(request.emotion), Temperature := OptNum(request.temperature),
        TopP := OptNum(request.topP), TopK := if request.topK.Some? then Int(request.topK.value) else Null,
        RepetitionPenalty := OptNum(request.repetitionPenalty), EmotionMode := Str(request.emotionMode),
        EmoAudioPath := OptStr(request.emoAudioPath), EmoAlpha := OptNum(request.emoAlpha),
        EmoVector := if request.emoVector.Some? then Reals(request.emoVector.value) else Null,
        UseEmoText := Bool(request.useEmoText), EmoText := OptStr(request.emoText)]
  }

  /** The IndexTTS branch writes exactly the IndexTTS parameters... */
  lemma IndexBranchKeys(request: GatewayRequest)
    ensures forall p :: p in IndexBranch(request) <==> p in KwargKeys(IndexId)
  {
    BackendIdsDiffer();
    forall p
      ensures p in IndexBranch(request) <==> p in KwargKeys(IndexId)
    {
      match p
      case Input =>
      case SpeechText =>
      case Voice =>
      case Language =>
      case RefAudioId =>
      case _ =>
    }
  }

  /** ...the common and sampling ones each with the request field of the same name... */
  lemma IndexBranchSamplingValues(request: GatewayRequest)
    ensures forall p :: p in {Speed, ResponseFormat, Emotion, Temperature, TopP, TopK, RepetitionPenalty} ==>
      IndexBranch(request)[p] == KwargValue(request, p)
  {
    var kw := IndexBranch(request);
    forall p | p in {Speed, ResponseFormat, Emotion, Temperature, TopP, TopK, RepetitionPenalty}
      ensures kw[p] == KwargValue(request, p)
    {
      match p
      case Speed =>
      case ResponseFormat =>
      case Emotion =>
      case Temperature =>
      case TopP =>
      case TopK =>
      case RepetitionPenalty =>
    }
  }

  /** ...and the emotion-control ones too. */
  lemma IndexBranchEmotionValues(request: GatewayRequest)
    ensures forall p :: p in {EmotionMode, EmoAudioPath, EmoAlpha, EmoVector, UseEmoText, EmoText} ==>
      IndexBranch(request)[p] == KwargValue(request, p)
  {
    var kw := IndexBranch(request);
    forall p | p in {EmotionMode, EmoAudioPath, EmoAlpha, EmoVector, UseEmoText, EmoText}
      ensures kw[p] == KwargValue(request, p)
    {
      match p
      case EmotionMode =>
      case EmoAudioPath =>
      case EmoAlpha =>
      case EmoVector =>
      case UseEmoText =>
      case EmoText =>
    }
  }

  /** The IndexTTS branch of `_prepare_kwargs` builds the IndexTTS keyword arguments. */
  lemma IndexKwargsByKey(request: GatewayRequest)
    ensures IndexBranch(request) == Kwargs(request, IndexId)
  {
    IndexBranchKeys(request);
    IndexBranchSamplingValues(request);
    IndexBranchEmotionValues(request);
    BackendIdsDiffer();
    SameKwargs(IndexBranch(request), request, IndexId);
  }

  /** Qwen receives its reference audio id, falling back to the voice when none (or an empty one) is given. */
  lemma QwenKwargsFallBackToVoice(request: GatewayRequest)
    ensures var kw := Kwargs(request, QwenId);
      && kw[RefAudioId] == Str(if request.refAudioId.Some? && request.refAudioId.value != ""
                               then request.refAudioId.value else request.voice)
      && kw[Language] == Str(request.language)
      && Emotion !in kw && EmotionMode !in kw
  {
  }

  /** IndexTTS receives the sampling and emotion fields even when they are `None`; the language is not passed. */
  lemma IndexKwargsCarryEveryField(request: GatewayRequest)
    ensures var kw := Kwargs(request, IndexId);
      && (request.temperature.None? ==> kw[Temperature] == Null)
      && kw[EmotionMode] == Str(request.emotionMode)
      && Language !in kw && RefAudioId !in kw
  {
    BackendIdsDiffer();
    var kw := Kwargs(request, IndexId);
    assert request.temperature.None? ==> kw[Temperature] == Null;
    assert kw[EmotionMode] == Str(request.emotionMode);
    assert Language !in kw;
  }

  // ---------------------------------------------------------------- generate_speech

  /** The call made on the chosen adapter. */
  datatype AdapterCall = AdapterCall(adapter: Adapter, text: string, voice: string, kwargs: Params)

  /** The metadata dictionary returned with the audio. */
  datatype SpeechMetadata = SpeechMetadata(modelUsed: string, voice: string, responseFormat: string)

  /**
   * `generate_speech`: select, prepare, call, describe. `reply` is what the
   * adapter's `generate_speech` returns or raises.
   */
  method GenerateSpeech(factory: AdapterFactory, settings: Settings, request: GatewayRequest, reply: Outcome<Bytes>)
    returns (call: Option<AdapterCall>, result: Outcome<(Bytes, SpeechMetadata)>)
    requires factory.Valid()
    modifies factory
    ensures factory.Valid() && factory.initialized
    ensures var selected := Selection(factory.registry.adapters, request);
      && (selected.Raise? ==> call.None? && result == Raise(selected.message))
      && (selected == Ok(None) ==> call.None? && result == Raise(NoBackend))
      && (selected.Ok? && selected.value.Some? ==>
            (var adapter := selected.value.value;
             && call == Some(AdapterCall(adapter, request.input, request.voice, Kwargs(request, adapter.BackendId())))
             && (reply.Raise? ==> result == Raise(reply.message))
             && (reply.Ok? ==> result == Ok((reply.value,
                   SpeechMetadata(adapter.BackendId(), request.voice, request.responseFormat))))))
  {
    call := None;
    var selected := SelectAdapter(factory, settings, request);
    if selected.Raise? {
      return call, Raise(selected.message);
    }
    if selected.value.None? {
      return call, Raise(NoBackend);
    }
    var adapter := selected.value.value;
    var kwargs := PrepareKwargs(request, adapter.BackendId());
    call := Some(AdapterCall(adapter, request.input, request.voice, kwargs));
    if reply.Raise? {
      return call, Raise(reply.message);
    }
    var metadata := SpeechMetadata(adapter.BackendId(), request.voice, request.responseFormat);
    result := Ok((reply.value, metadata));
  }

  /** The reported `model_used` is the id of a registered adapter, never the name the client sent. */
  lemma ModelUsedIsRegistered(reg: map<string, Adapter>, request: GatewayRequest)
    requires Selection(reg, request).Ok? && Selection(reg, request).value.Some?
    ensures exists id :: id in reg && reg[id] == Selection(reg, request).value.value
  {
    var a := Selection(reg, request).value.value;
    assert a in reg.Values;
  }
}
