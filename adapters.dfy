/**
 * What the gateway knows of a TTS backend adapter: its kind, its base URL and
 * timeout, the status it reports and the voices it lists
 * (gateway/adapters/base.py).
 */
module Adapters {
  import opened Wrappers
  import opened PyValues

  /** The adapter classes; any other adapter registered by hand keeps its own id. */
  datatype AdapterKind = QwenAdapter | IndexAdapter | OtherAdapter(id: string)

  datatype Adapter = Adapter(kind: AdapterKind, baseUrl: string, timeout: real)
  {
    /** `backend_id`: fixed by the adapter's class. */
    function BackendId(): string {
      match kind
      case QwenAdapter => "qwen3-tts"
      case IndexAdapter => "indextts-2.0"
      case OtherAdapter(id) => id
    }
  }

  /** `str.rstrip("/")`. */
  function StripTrailingSlashes(s: string): (r: string)
    ensures |r| <= |s| && r == s[..|r|]
    ensures r == [] || r[|r| - 1] != '/'
    ensures forall i :: |r| <= i < |s| ==> s[i] == '/'
  {
    if s == [] || s[|s| - 1] != '/' then s else StripTrailingSlashes(s[..|s| - 1])
  }

  /** `TTSAdapter.__init__`: the base URL loses its trailing slashes. */
  function NewAdapter(kind: AdapterKind, baseUrl: string, timeout: real): (a: Adapter)
    ensures a.kind == kind && a.timeout == timeout
    ensures a.baseUrl == StripTrailingSlashes(baseUrl)
  {
    Adapter(kind, StripTrailingSlashes(baseUrl), timeout)
  }

  /** Stripping trailing slashes twice is stripping them once. */
  lemma {:induction false} StripIdempotent(s: string)
    ensures StripTrailingSlashes(StripTrailingSlashes(s)) == StripTrailingSlashes(s)
  {
  }

  /** Audio bytes. */
  type Bytes = seq<bv8>

  /**
   * The parameter names that travel from the service to an adapter as keyword
   * arguments, and from an adapter to its backend as JSON or form fields.
   */
  datatype Param =
    | Input | SpeechText | Voice | Speed | ResponseFormat | Language | RefAudioId | Emotion
    | Temperature | TopP | TopK | RepetitionPenalty
    | EmotionMode | EmoAudioPath | EmoAlpha | EmoVector | UseEmoText | EmoText
  {
    function Name(): string {
      match this
      case Input => "input"
      case SpeechText => "text"
      case Voice => "voice"
      case Speed => "speed"
      case ResponseFormat => "response_format"
      case Language => "language"
      case RefAudioId => "ref_audio_id"
      case Emotion => "emotion"
      case Temperature => "temperature"
      case TopP => "top_p"
      case TopK => "top_k"
      case RepetitionPenalty => "repetition_penalty"
      case EmotionMode => "emotion_mode"
      case EmoAudioPath => "emo_audio_path"
      case EmoAlpha => "emo_alpha"
      case EmoVector => "emo_vector"
      case UseEmoText => "use_emo_text"
      case EmoText => "emo_text"
    }
  }

  /** Keyword arguments, or a request body, keyed by parameter. */
  type Params = map<Param, Value>

  /** `kwargs.get(p)`: a missing key reads as `None`. */
  function GetParam(kw: Params, p: Param): Value {
    if p in kw then kw[p] else Null
  }

  /** `kwargs.get(p, default)`. */
  function GetParamOr(kw: Params, p: Param, default: Value): Value {
    if p in kw then kw[p] else default
  }

  /** `BackendStatus`, as an adapter's `get_status` reports it. */
  datatype BackendStatus = BackendStatus(online: bool, modelLoaded: bool, modelName: Option<string>, error: Option<string>)

  /**
   * What one HTTP exchange yields: a response with its status code, its
   * decoded body and the text of the error `raise_for_status` raises when the
   * status is not 2xx; or the message of the exception the client raised
   * before there was a usable response (connection, timeout, undecodable body).
   */
  datatype Reply<T> = Response(status: nat, body: T, statusError: string) | Failed(message: string)

  /** `response.raise_for_status()` lets only a 2xx status through. */
  predicate IsSuccess(status: nat) {
    200 <= status < 300
  }

  /** A multipart upload: `files={"file": (filename, content, contentType)}` and the fields sent with it. */
  datatype Upload = Upload(filename: string, content: Bytes, contentType: string, fields: Dict)

  /** `VoiceItem`. */
  datatype VoiceItem = VoiceItem(id: string, name: string, emotions: seq<string>, refText: Option<string>, hasDefault: bool)
}
