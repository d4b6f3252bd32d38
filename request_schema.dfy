/** The gateway's speech and upload request models (gateway/schemas/request.py). */
module RequestSchema {
  import opened Wrappers
  import opened Text
  import opened PyValues

  /** A validated `TTSRequest`. Model, format and mode stay the strings the client sent. */
  datatype GatewayRequest = GatewayRequest(
    model: string,
    input: string,
    voice: string,
    responseFormat: string,
    speed: real,
    language: string,
    refAudioId: Option<string>,
    emotion: string,
    temperature: Option<real>,
    topP: Option<real>,
    topK: Option<int>,
    repetitionPenalty: Option<real>,
    emotionMode: string,
    emoAudioPath: Option<string>,
    emoAlpha: Option<real>,
    emoVector: Option<seq<real>>,
    useEmoText: bool,
    emoText: Option<string>,
    saveAudio: bool,
    saveName: Option<string>)

  /** One validation error: the field and what is wrong with it. */
  datatype FieldError = FieldError(field: string, message: string)

  /** A field's outcome: its value, or the error that rejects the request. */
  datatype Check<+T> = Valid(value: T) | Invalid(error: FieldError)

  function Errors<T>(c: Check<T>): seq<FieldError> {
    if c.Invalid? then [c.error] else []
  }

  datatype Validated = Accepted(request: GatewayRequest) | Rejected(errors: seq<FieldError>)

  const MaxInputLength := 5000
  const ResponseFormats := ["wav", "mp3"]
  const EmotionModes := ["preset", "audio", "vector", "text"]

  predicate InBounds(x: real, lo: real, hi: real) {
    lo <= x <= hi
  }

  predicate OptInBounds(x: Option<real>, lo: real, hi: real) {
    x.None? || InBounds(x.value, lo, hi)
  }

  /** A JSON number read as a float: integers are widened. */
  function AsReal(v: Value): (r: Option<real>)
    ensures (v.Int? || v.Num?) <==> r.Some?
  {
    match v
    case Int(i) => Some(i as real)
    case Num(x) => Some(x)
    case _ => None
  }

  // ---------------------------------------------------------------- field readers

  /** The required `input`, 1 to 5000 characters. */
  function InputField(body: Dict): (c: Check<string>)
    ensures c.Valid? <==> "input" in body && body["input"].Str? && 1 <= |body["input"].s| <= MaxInputLength
    ensures c.Valid? ==> c.value == body["input"].s
  {
    if "input" !in body then Invalid(FieldError("input", "Field required"))
    else match body["input"]
      case Str(s) =>
        if |s| < 1 then Invalid(FieldError("input", "String should have at least 1 character"))
        else if |s| > MaxInputLength then Invalid(FieldError("input", "String should have at most 5000 characters"))
        else Valid(s)
      case _ => Invalid(FieldError("input", "Input should be a valid string"))
  }

  /** A `str` field with a default; `null` is rejected. */
  function StrField(body: Dict, key: string, default: string): (c: Check<string>)
    ensures key !in body ==> c == Valid(default)
    ensures key in body ==> (c.Valid? <==> body[key].Str?) && (c.Valid? ==> c.value == body[key].s)
  {
    if key !in body then Valid(default)
    else if body[key].Str? then Valid(body[key].s)
    else Invalid(FieldError(key, "Input should be a valid string"))
  }

  /** An `Optional[str]` field defaulting to `None`. */
  function OptStrField(body: Dict, key: string): (c: Check<Option<string>>)
    ensures key !in body || body[key] == Null ==> c == Valid(None)
    ensures key in body && body[key].Str? ==> c == Valid(Some(body[key].s))
    ensures c.Invalid? <==> key in body && body[key] != Null && !body[key].Str?
  {
    if key !in body || body[key] == Null then Valid(None)
    else if body[key].Str? then Valid(Some(body[key].s))
    else Invalid(FieldError(key, "Input should be a valid string"))
  }

  /** A `Literal[...]` field with a default. */
  function LiteralField(body: Dict, key: string, allowed: seq<string>, default: string): (c: Check<string>)
    ensures key !in body ==> c == Valid(default)
    ensures key in body ==> (c.Valid? <==> body[key].Str? && body[key].s in allowed)
    ensures key in body && c.Valid? ==> c.value == body[key].s
  {
    if key !in body then Valid(default)
    else if body[key].Str? && body[key].s in allowed then Valid(body[key].s)
    else Invalid(FieldError(key, "Input should be one of the allowed literals"))
  }

  /** A `float` field with bounds `ge`/`le` and a default; `null` is rejected. */
  function FloatField(body: Dict, key: string, default: real, lo: real, hi: real): (c: Check<real>)
    ensures key !in body ==> c == Valid(default)
    ensures key in body ==> (c.Valid? <==> AsReal(body[key]).Some? && InBounds(AsReal(body[key]).value, lo, hi))
    ensures key in body && c.Valid? ==> c.value == AsReal(body[key]).value
  {
    if key !in body then Valid(default)
    else match AsReal(body[key])
      case None => Invalid(FieldError(key, "Input should be a valid number"))
      case Some(x) => if InBounds(x, lo, hi) then Valid(x) else Invalid(FieldError(key, "Input should be within bounds"))
  }

  /** An `Optional[float]` field with bounds and a default; `null` gives `None`. */
  function OptFloatField(body: Dict, key: string, default: real, lo: real, hi: real): (c: Check<Option<real>>)
    ensures key !in body ==> c == Valid(Some(default))
    ensures key in body && body[key] == Null ==> c == Valid(None)
    ensures key in body && body[key] != Null ==>
      (c.Valid? <==> AsReal(body[key]).Some? && InBounds(AsReal(body[key]).value, lo, hi))
    ensures key in body && body[key] != Null && c.Valid? ==> c.value == AsReal(body[key])
  {
    if key !in body then Valid(Some(default))
    else if body[key] == Null then Valid(None)
    else match AsReal(body[key])
      case None => Invalid(FieldError(key, "Input should be a valid number"))
      case Some(x) => if InBounds(x, lo, hi) then Valid(Some(x)) else Invalid(FieldError(key, "Input should be within bounds"))
  }

  /** The `Optional[int]` field `top_k`, in [1, 100], default 20. */
  function TopKField(body: Dict): (c: Check<Option<int>>)
    ensures "top_k" !in body ==> c == Valid(Some(20))
    ensures "top_k" in body && body["top_k"] == Null ==> c == Valid(None)
    ensures "top_k" in body && body["top_k"] != Null ==>
      (c.Valid? <==> body["top_k"].Int? && 1 <= body["top_k"].i <= 100)
    ensures "top_k" in body && body["top_k"] != Null && c.Valid? ==> c.value == Some(body["top_k"].i)
  {
    if "top_k" !in body then Valid(Some(20))
    else match body["top_k"]
      case Null => Valid(None)
      case Int(i) => if 1 <= i <= 100 then Valid(Some(i)) else Invalid(FieldError("top_k", "Input should be within bounds"))
      case _ => Invalid(FieldError("top_k", "Input should be a valid integer"))
  }

  /** A `bool` field defaulting to `False`. */
  function BoolField(body: Dict, key: string): (c: Check<bool>)
    ensures key !in body ==> c == Valid(false)
    ensures key in body ==> (c.Valid? <==> body[key].Bool?) && (c.Valid? ==> c.value == body[key].b)
  {
    if key !in body then Valid(false)
    else if body[key].Bool? then Valid(body[key].b)
    else Invalid(FieldError(key, "Input should be a valid boolean"))
  }

  // ---------------------------------------------------------------- emo_vector

  predicate VectorEntryOk(x: real) {
    0.0 <= x <= 1.4
  }

  /** The first index from `k` on whose entry lies outside [0, 1.4]. */
  function FirstOutOfRange(v: seq<real>, k: nat): (r: Option<nat>)
    requires k <= |v|
    ensures r.None? <==> forall i :: k <= i < |v| ==> VectorEntryOk(v[i])
    ensures r.Some? ==> k <= r.value < |v| && !VectorEntryOk(v[r.value])
    ensures r.Some? ==> forall i :: k <= i < r.value ==> VectorEntryOk(v[i])
    decreases |v| - k
  {
    if k == |v| then None
    else if !VectorEntryOk(v[k]) then Some(k)
    else FirstOutOfRange(v, k + 1)
  }

  /** An acceptable vector: eight entries, each in [0, 1.4]; nothing about its sum. */
  predicate VectorOk(v: seq<real>) {
    |v| == 8 && forall i :: 0 <= i < |v| ==> VectorEntryOk(v[i])
  }

  /** `validate_emo_vector`: the length is checked first, then the first offending index is named. */
  function EmoVectorError(v: seq<real>): (e: Option<string>)
    ensures e.None? <==> VectorOk(v)
    ensures |v| != 8 ==> e == Some("emo_vector 必须是长度为 8 的列表")
    ensures |v| == 8 && e.Some? ==>
      exists i :: 0 <= i < 8 && FirstOutOfRange(v, 0) == Some(i)
                  && e.value == "emo_vector[" + NatToString(i) + "] 必须在 [0, 1.4] 范围内"
  {
    if |v| != 8 then Some("emo_vector 必须是长度为 8 的列表")
    else match FirstOutOfRange(v, 0)
      case None => None
      case Some(i) => Some("emo_vector[" + NatToString(i) + "] 必须在 [0, 1.4] 范围内")
  }

  /** The validator's scan itself: the length first, then the entries in order up to the first one out of range. */
  method ValidateEmoVector(v: seq<real>) returns (e: Option<string>)
    ensures e == EmoVectorError(v)
  {
    if |v| != 8 {
      return Some("emo_vector 必须是长度为 8 的列表");
    }
    var i := 0;
    while i < |v|
      invariant 0 <= i <= |v|
      invariant FirstOutOfRange(v, i) == FirstOutOfRange(v, 0)
    {
      if !VectorEntryOk(v[i]) {
        return Some("emo_vector[" + NatToString(i) + "] 必须在 [0, 1.4] 范围内");
      }
      i := i + 1;
    }
    return None;
  }

  function EmoVectorField(body: Dict): (c: Check<Option<seq<real>>>)
    ensures "emo_vector" !in body || body["emo_vector"] == Null ==> c == Valid(None)
    ensures "emo_vector" in body && body["emo_vector"] != Null ==>
      (c.Valid? <==> body["emo_vector"].Reals? && VectorOk(body["emo_vector"].rs))
    ensures c.Valid? && c.value.Some? ==> c.value == Some(body["emo_vector"].rs)
  {
    if "emo_vector" !in body || body["emo_vector"] == Null then Valid(None)
    else match body["emo_vector"]
      case Reals(rs) =>
        (match EmoVectorError(rs)
         case None => Valid(Some(rs))
         case Some(msg) => Invalid(FieldError("emo_vector", "Value error, " + msg)))
      case _ => Invalid(FieldError("emo_vector", "Input should be a valid list"))
  }

  // ---------------------------------------------------------------- the model

  /** Every bound the request model declares. */
  predicate WellFormed(r: GatewayRequest) {
    && 1 <= |r.input| <= MaxInputLength
    && r.responseFormat in ResponseFormats
    && InBounds(r.speed, 0.5, 2.0)
    && OptInBounds(r.temperature, 0.1, 2.0)
    && OptInBounds(r.topP, 0.0, 1.0)
    && (r.topK.None? || 1 <= r.topK.value <= 100)
    && OptInBounds(r.repetitionPenalty, 0.1, 2.0)
    && r.emotionMode in EmotionModes
    && OptInBounds(r.emoAlpha, 0.0, 1.6)
    && (r.emoVector.None? || VectorOk(r.emoVector.value))
  }

  /** The outcome of a group of fields: its errors, and its values when there are none. */
  datatype Part<+T> = Part(errors: seq<FieldError>, value: Option<T>)

  predicate Coherent<T>(p: Part<T>) {
    p.errors == [] <==> p.value.Some?
  }

  datatype Basics = Basics(model: string, input: string, voice: string, responseFormat: string,
                           speed: real, language: string, refAudioId: Option<string>, emotion: string)

  datatype Sampling = Sampling(temperature: Option<real>, topP: Option<real>, topK: Option<int>,
                               repetitionPenalty: Option<real>)

  datatype EmotionFields = EmotionFields(mode: string, emoAudioPath: Option<string>, emoAlpha: Option<real>,
                                         emoVector: Option<seq<real>>, useEmoText: bool, emoText: Option<string>)

  datatype SaveFields = SaveFields(saveAudio: bool, saveName: Option<string>)

  /** The basic and Qwen fields. */
  function ParseBasics(body: Dict): (p: Part<Basics>)
    ensures Coherent(p)
    ensures p.value.Some? ==> (var b := p.value.value;
      1 <= |b.input| <= MaxInputLength && b.responseFormat in ResponseFormats && InBounds(b.speed, 0.5, 2.0))
  {
    var model := StrField(body, "model", "auto");
    var input := InputField(body);
    var voice := StrField(body, "voice", "default");
    var format := LiteralField(body, "response_format", ResponseFormats, "wav");
    var speed := FloatField(body, "speed", 1.0, 0.5, 2.0);
    var language := StrField(body, "language", "Chinese");
    var refAudioId := OptStrField(body, "ref_audio_id");
    var emotion := StrField(body, "emotion", "default");
    var errors := Errors(model) + Errors(input) + Errors(voice) + Errors(format) + Errors(speed)
      + Errors(language) + Errors(refAudioId) + Errors(emotion);
    if errors != [] then Part(errors, None)
    else Part([], Some(Basics(model.value, input.value, voice.value, format.value, speed.value,
                              language.value, refAudioId.value, emotion.value)))
  }

  /** The four sampling parameters. */
  function ParseSampling(body: Dict): (p: Part<Sampling>)
    ensures Coherent(p)
    ensures p.value.Some? ==> (var g := p.value.value;
      OptInBounds(g.temperature, 0.1, 2.0) && OptInBounds(g.topP, 0.0, 1.0)
      && (g.topK.None? || 1 <= g.topK.value <= 100) && OptInBounds(g.repetitionPenalty, 0.1, 2.0))
  {
    var temperature := OptFloatField(body, "temperature", 1.0, 0.1, 2.0);
    var topP := OptFloatField(body, "top_p", 0.8, 0.0, 1.0);
    var topK := TopKField(body);
    var penalty := OptFloatField(body, "repetition_penalty", 1.0, 0.1, 2.0);
    var errors := Errors(temperature) + Errors(topP) + Errors(topK) + Errors(penalty);
    if errors != [] then Part(errors, None)
    else Part([], Some(Sampling(temperature.value, topP.value, topK.value, penalty.value)))
  }

  /** The IndexTTS 2.0 emotion-control fields. */
  function ParseEmotion(body: Dict): (p: Part<EmotionFields>)
    ensures Coherent(p)
    ensures p.value.Some? ==> (var e := p.value.value;
      e.mode in EmotionModes && OptInBounds(e.emoAlpha, 0.0, 1.6) && (e.emoVector.None? || VectorOk(e.emoVector.value)))
  {
    var mode := LiteralField(body, "emotion_mode", EmotionModes, "preset");
    var emoAudioPath := OptStrField(body, "emo_audio_path");
    var emoAlpha := OptFloatField(body, "emo_alpha", 1.0, 0.0, 1.6);
    var emoVector := EmoVectorField(body);
    var useEmoText := BoolField(body, "use_emo_text");
    var emoText := OptStrField(body, "emo_text");
    var errors := Errors(mode) + Errors(emoAudioPath) + Errors(emoAlpha) + Errors(emoVector)
      + Errors(useEmoText) + Errors(emoText);
    if errors != [] then Part(errors, None)
    else Part([], Some(EmotionFields(mode.value, emoAudioPath.value, emoAlpha.value, emoVector.value,
                                     useEmoText.value, emoText.value)))
  }

  function ParseSave(body: Dict): (p: Part<SaveFields>)
    ensures Coherent(p)
  {
    var saveAudio := BoolField(body, "save_audio");
    var saveName := OptStrField(body, "save_name");
    var errors := Errors(saveAudio) + Errors(saveName);
    if errors != [] then Part(errors, None)
    else Part([], Some(SaveFields(saveAudio.value, saveName.value)))
  }

  function Assemble(b: Basics, g: Sampling, e: EmotionFields, s: SaveFields): GatewayRequest {
    GatewayRequest(b.model, b.input, b.voice, b.responseFormat, b.speed, b.language, b.refAudioId,
                   b.emotion, g.temperature, g.topP, g.topK, g.repetitionPenalty, e.mode, e.emoAudioPath,
                   e.emoAlpha, e.emoVector, e.useEmoText, e.emoText, s.saveAudio, s.saveName)
  }

  /**
   * `TTSRequest(**body)`: unknown keys are ignored, a missing key takes its
   * default, and every failing field contributes an error, in field order.
   */
  function ParseRequest(body: Dict): (v: Validated)
    ensures v.Accepted? ==> WellFormed(v.request)
    ensures v.Rejected? ==> v.errors != []
  {
    var b := ParseBasics(body);
    var g := ParseSampling(body);
    var e := ParseEmotion(body);
    var s := ParseSave(body);
    var errors := b.errors + g.errors + e.errors + s.errors;
    if errors != [] then Rejected(errors)
    else Accepted(Assemble(b.value.value, g.value.value, e.value.value, s.value.value))
  }

  function OptStrValue(s: Option<string>): Value {
    if s.Some? then Str(s.value) else Null
  }

  function OptNumValue(x: Option<real>): Value {
    if x.Some? then Num(x.value) else Null
  }

  /** The twenty keys of the request body. */
  const RequestKeys: set<string> := {"model", "input", "voice", "response_format", "speed", "language",
    "ref_audio_id", "emotion", "temperature", "top_p", "top_k", "repetition_penalty",
    "emotion_mode", "emo_audio_path", "emo_alpha", "emo_vector", "use_emo_text", "emo_text",
    "save_audio", "save_name"}

  /** The JSON value a request field is written as; `None` becomes `null`. */
  function FieldValue(r: GatewayRequest, key: string): Value {
    match key
    case "model" => Str(r.model)
    case "input" => Str(r.input)
    case "voice" => Str(r.voice)
    case "response_format" => Str(r.responseFormat)
    case "speed" => Num(r.speed)
    case "language" => Str(r.language)
    case "ref_audio_id" => OptStrValue(r.refAudioId)
    case "emotion" => Str(r.emotion)
    case "temperature" => OptNumValue(r.temperature)
    case "top_p" => OptNumValue(r.topP)
    case "top_k" => if r.topK.Some? then Int(r.topK.value) else Null
    case "repetition_penalty" => OptNumValue(r.repetitionPenalty)
    case "emotion_mode" => Str(r.emotionMode)
    case "emo_audio_path" => OptStrValue(r.emoAudioPath)
    case "emo_alpha" => OptNumValue(r.emoAlpha)
    case "emo_vector" => if r.emoVector.Some? then Reals(r.emoVector.value) else Null
    case "use_emo_text" => Bool(r.useEmoText)
    case "emo_text" => OptStrValue(r.emoText)
    case "save_audio" => Bool(r.saveAudio)
    case "save_name" => OptStrValue(r.saveName)
    case _ => Null
  }

  /** The request written back as a JSON body, every field present. */
  function EncodeRequest(r: GatewayRequest): (body: Dict)
  {
    map key | key in RequestKeys :: FieldValue(r, key)
  }

  /**
   * A request is accepted exactly when it is well formed: encoding any
   * well-formed request and validating it gives it back unchanged, whatever
   * its mode and vector (there is no cross-field rule and no sum limit).
   */
  lemma ParseEncodeRoundTrip(r: GatewayRequest)
    requires WellFormed(r)
    ensures ParseRequest(EncodeRequest(r)) == Accepted(r)
  {
    var body := EncodeRequest(r);
    EncodedBasics(r);
    BasicsRoundTrip(body, r);
    EncodedSampling(r);
    SamplingRoundTrip(body, r);
    EncodedEmotion(r);
    EmotionRoundTrip(body, r);
    EncodedSave(r);
    SaveRoundTrip(body, r);
  }

  lemma EncodedBasics(r: GatewayRequest)
    ensures var body := EncodeRequest(r);
      body["model"] == Str(r.model) && body["input"] == Str(r.input) && body["voice"] == Str(r.voice)
      && body["response_format"] == Str(r.responseFormat) && body["speed"] == Num(r.speed)
      && body["language"] == Str(r.language) && body["ref_audio_id"] == OptStrValue(r.refAudioId)
      && body["emotion"] == Str(r.emotion)
  {
  }

  lemma EncodedSampling(r: GatewayRequest)
    ensures var body := EncodeRequest(r);
      body["temperature"] == OptNumValue(r.temperature)
      && body["top_p"] == OptNumValue(r.topP) && body["repetition_penalty"] == OptNumValue(r.repetitionPenalty)
      && body["top_k"] == if r.topK.Some? then Int(r.topK.value) else Null
  {
  }

  lemma EncodedEmotion(r: GatewayRequest)
    ensures var body := EncodeRequest(r);
      body["emotion_mode"] == Str(r.emotionMode) && body["emo_audio_path"] == OptStrValue(r.emoAudioPath)
      && body["emo_alpha"] == OptNumValue(r.emoAlpha)
      && body["emo_vector"] == (if r.emoVector.Some? then Reals(r.emoVector.value) else Null)
      && body["use_emo_text"] == Bool(r.useEmoText) && body["emo_text"] == OptStrValue(r.emoText)
  {
  }

  lemma EncodedSave(r: GatewayRequest)
    ensures var body := EncodeRequest(r);
      body["save_audio"] == Bool(r.saveAudio) && body["save_name"] == OptStrValue(r.saveName)
  {
  }

  lemma BasicsRoundTrip(body: Dict, r: GatewayRequest)
    requires WellFormed(r)
    requires body.Keys >= {"model", "input", "voice", "response_format", "speed", "language", "ref_audio_id", "emotion"}
    requires body["model"] == Str(r.model) && body["input"] == Str(r.input) && body["voice"] == Str(r.voice)
    requires body["response_format"] == Str(r.responseFormat) && body["speed"] == Num(r.speed)
    requires body["language"] == Str(r.language) && body["ref_audio_id"] == OptStrValue(r.refAudioId)
    requires body["emotion"] == Str(r.emotion)
    ensures ParseBasics(body) == Part([], Some(Basics(r.model, r.input, r.voice, r.responseFormat, r.speed,
                                                      r.language, r.refAudioId, r.emotion)))
  {
    assert OptStrField(body, "ref_audio_id") == Valid(r.refAudioId);
  }

  lemma SamplingRoundTrip(body: Dict, r: GatewayRequest)
    requires WellFormed(r)
    requires body.Keys >= {"temperature", "top_p", "top_k", "repetition_penalty"}
    requires body["temperature"] == OptNumValue(r.temperature)
    requires body["top_p"] == OptNumValue(r.topP) && body["repetition_penalty"] == OptNumValue(r.repetitionPenalty)
    requires body["top_k"] == if r.topK.Some? then Int(r.topK.value) else Null
    ensures ParseSampling(body) == Part([], Some(Sampling(r.temperature, r.topP, r.topK, r.repetitionPenalty)))
  {
    assert OptFloatField(body, "temperature", 1.0, 0.1, 2.0) == Valid(r.temperature);
    assert OptFloatField(body, "top_p", 0.8, 0.0, 1.0) == Valid(r.topP);
    assert OptFloatField(body, "repetition_penalty", 1.0, 0.1, 2.0) == Valid(r.repetitionPenalty);
    assert TopKField(body) == Valid(r.topK);
  }

  lemma EmotionRoundTrip(body: Dict, r: GatewayRequest)
    requires WellFormed(r)
    requires body.Keys >= {"emotion_mode", "emo_audio_path", "emo_alpha", "emo_vector", "use_emo_text", "emo_text"}
    requires body["emotion_mode"] == Str(r.emotionMode) && body["emo_audio_path"] == OptStrValue(r.emoAudioPath)
    requires body["emo_alpha"] == OptNumValue(r.emoAlpha)
    requires body["emo_vector"] == if r.emoVector.Some? then Reals(r.emoVector.value) else Null
    requires body["use_emo_text"] == Bool(r.useEmoText) && body["emo_text"] == OptStrValue(r.emoText)
    ensures ParseEmotion(body) == Part([], Some(EmotionFields(r.emotionMode, r.emoAudioPath, r.emoAlpha,
                                                              r.emoVector, r.useEmoText, r.emoText)))
  {
    assert OptStrField(body, "emo_audio_path") == Valid(r.emoAudioPath);
    assert OptStrField(body, "emo_text") == Valid(r.emoText);
    assert OptFloatField(body, "emo_alpha", 1.0, 0.0, 1.6) == Valid(r.emoAlpha);
    assert EmoVectorField(body) == Valid(r.emoVector);
  }

  lemma SaveRoundTrip(body: Dict, r: GatewayRequest)
    requires body.Keys >= {"save_audio", "save_name"}
    requires body["save_audio"] == Bool(r.saveAudio) && body["save_name"] == OptStrValue(r.saveName)
    ensures ParseSave(body) == Part([], Some(SaveFields(r.saveAudio, r.saveName)))
  {
    assert OptStrField(body, "save_name") == Valid(r.saveName);
  }

  /** The defaults: a body holding only `input` takes every other field's default. */
  function DefaultRequest(input: string): (r: GatewayRequest)
    ensures r.model == "auto" && r.voice == "default" && r.responseFormat == "wav" && r.speed == 1.0
    ensures r.language == "Chinese" && r.refAudioId == None && r.emotion == "default"
    ensures r.temperature == Some(1.0) && r.topP == Some(0.8) && r.topK == Some(20) && r.repetitionPenalty == Some(1.0)
    ensures r.emotionMode == "preset" && r.emoAudioPath == None && r.emoAlpha == Some(1.0) && r.emoVector == None
    ensures !r.useEmoText && r.emoText == None && !r.saveAudio && r.saveName == None
  {
    GatewayRequest("auto", input, "default", "wav", 1.0, "Chinese", None, "default", Some(1.0), Some(0.8),
                   Some(20), Some(1.0), "preset", None, Some(1.0), None, false, None, false, None)
  }

  lemma OnlyInputTakesDefaults(input: string)
    requires 1 <= |input| <= MaxInputLength
    ensures ParseRequest(map["input" := Str(input)]) == Accepted(DefaultRequest(input))
  {
    InputOnlyBasics(input);
    InputOnlySampling(input);
    InputOnlyEmotion(input);
    InputOnlySave(input);
  }

  lemma InputOnlyBasics(input: string)
    requires 1 <= |input| <= MaxInputLength
    ensures ParseBasics(map["input" := Str(input)])
         == Part([], Some(Basics("auto", input, "default", "wav", 1.0, "Chinese", None, "default")))
  {
  }

  lemma InputOnlySampling(input: string)
    ensures ParseSampling(map["input" := Str(input)]) == Part([], Some(Sampling(Some(1.0), Some(0.8), Some(20), Some(1.0))))
  {
  }

  lemma InputOnlyEmotion(input: string)
    ensures ParseEmotion(map["input" := Str(input)]) == Part([], Some(EmotionFields("preset", None, Some(1.0), None, false, None)))
  {
  }

  lemma InputOnlySave(input: string)
    ensures ParseSave(map["input" := Str(input)]) == Part([], Some(SaveFields(false, None)))
  {
  }

  /** `input` is required: a body without it is rejected. */
  lemma InputRequired(body: Dict)
    requires "input" !in body
    ensures ParseRequest(body).Rejected?
    ensures FieldError("input", "Field required") in ParseRequest(body).errors
  {
  }

  /** `VoiceUploadRequest` with its defaults. */
  datatype VoiceUploadRequest = VoiceUploadRequest(voiceId: string, emotion: string, refText: Option<string>, backend: string)

  function DefaultVoiceUploadRequest(): (r: VoiceUploadRequest)
    ensures r.voiceId == "default" && r.emotion == "default" && r.refText == None && r.backend == "indextts"
  {
    VoiceUploadRequest("default", "default", None, "indextts")
  }
}
