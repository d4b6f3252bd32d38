/** The wire shapes shared by the frontend and the gateway (frontend/types/api.ts). */
module ApiTypes {
  import opened Wrappers

  /** `ModelType`: the three model selectors the frontend can send. */
  datatype ModelType = Qwen3Tts | IndexTts20 | Auto {
    function Id(): string {
      match this
      case Qwen3Tts => "qwen3-tts"
      case IndexTts20 => "indextts-2.0"
      case Auto => "auto"
    }
  }

  datatype ResponseFormat = Wav | Mp3 {
    function Id(): string {
      match this
      case Wav => "wav"
      case Mp3 => "mp3"
    }
  }

  /** The four emotion-control modes. */
  datatype EmotionMode = Preset | AudioRef | VectorMode | TextMode {
    function Id(): string {
      match this
      case Preset => "preset"
      case AudioRef => "audio"
      case VectorMode => "vector"
      case TextMode => "text"
    }
  }

  datatype Visibility = Public | Private

  /** A voice of the catalogue, as the frontend receives it. */
  datatype VoiceInfo = VoiceInfo(
    id: string,
    name: string,
    backend: string,
    emotions: seq<string>,
    refText: Option<string>,
    hasDefault: bool,
    visibility: Visibility)

  /** One backend's entry in the health report. */
  datatype BackendStatus = BackendStatus(id: string, name: string, status: string, modelLoaded: bool)

  /** The speech request as the frontend serialises it; `None` is an omitted key. */
  datatype TtsRequest = TtsRequest(
    model: ModelType,
    input: string,
    voice: string,
    responseFormat: ResponseFormat,
    speed: real,
    language: string,
    refAudioId: Option<string>,
    emotion: string,
    temperature: Option<real>,
    topP: Option<real>,
    topK: Option<int>,
    repetitionPenalty: Option<real>,
    emotionMode: EmotionMode,
    emoAudioPath: Option<string>,
    emoAlpha: Option<real>,
    emoVector: Option<seq<real>>,
    useEmoText: bool,
    emoText: Option<string>,
    saveAudio: bool,
    saveName: Option<string>)

  datatype VerifyKeyResponse = VerifyKeyResponse(valid: bool, voiceCount: int, voiceIds: seq<string>)
}
