/** Frontend state shapes and their defaults (frontend/types/models.ts). */
module Models {
  import opened Wrappers
  import opened ApiTypes

  /** The eight emotion dimensions, in the order the vector's keys are declared. */
  datatype Dimension = Happy | Angry | Sad | Fear | Disgust | Low | Surprise | Calm {
    function Key(): string {
      match this
      case Happy => "happy"
      case Angry => "angry"
      case Sad => "sad"
      case Fear => "fear"
      case Disgust => "disgust"
      case Low => "low"
      case Surprise => "surprise"
      case Calm => "calm"
    }
  }

  datatype EmotionVector = EmotionVector(
    happy: real, angry: real, sad: real, fear: real,
    disgust: real, low: real, surprise: real, calm: real)

  /** The value stored under one dimension's key. */
  function Component(v: EmotionVector, d: Dimension): real {
    match d
    case Happy => v.happy
    case Angry => v.angry
    case Sad => v.sad
    case Fear => v.fear
    case Disgust => v.disgust
    case Low => v.low
    case Surprise => v.surprise
    case Calm => v.calm
  }

  /** Upper bound of every dimension, shared by the knob and the gateway check. */
  const MaxComponent: real := 1.4

  /** Above this sum the studio shows a warning. */
  const SoftSumLimit: real := 1.5

  predicate InRange(v: EmotionVector) {
    forall d: Dimension :: 0.0 <= Component(v, d) <= MaxComponent
  }

  function Sum(v: EmotionVector): real {
    v.happy + v.angry + v.sad + v.fear + v.disgust + v.low + v.surprise + v.calm
  }

  datatype DimensionInfo = DimensionInfo(key: Dimension, caption: string)

  /** `EMOTION_DIMENSIONS`: each key exactly once, in declaration order. */
  function EmotionDimensions(): (ds: seq<DimensionInfo>)
    ensures |ds| == 8
    ensures forall d: Dimension :: ds[DimensionIndex(d)].key == d
    ensures forall i, j :: 0 <= i < j < 8 ==> ds[i].key != ds[j].key
    ensures [ds[0].key, ds[1].key, ds[2].key, ds[3].key, ds[4].key, ds[5].key, ds[6].key, ds[7].key]
         == [Happy, Angry, Sad, Fear, Disgust, Low, Surprise, Calm]
  {
    var ds := [DimensionInfo(Happy, "喜"), DimensionInfo(Angry, "怒"), DimensionInfo(Sad, "哀"),
               DimensionInfo(Fear, "惧"), DimensionInfo(Disgust, "厌"), DimensionInfo(Low, "低落"),
               DimensionInfo(Surprise, "惊喜"), DimensionInfo(Calm, "平静")];
    ds
  }

  /** Where a dimension sits in `EMOTION_DIMENSIONS`. */
  function DimensionIndex(d: Dimension): (i: nat)
    ensures i < 8
  {
    match d
    case Happy => 0
    case Angry => 1
    case Sad => 2
    case Fear => 3
    case Disgust => 4
    case Low => 5
    case Surprise => 6
    case Calm => 7
  }

  /** `Object.values(v)`: the eight values in dimension order. */
  function Values(v: EmotionVector): (r: seq<real>)
    ensures |r| == 8
    ensures forall i :: 0 <= i < 8 ==> r[i] == Component(v, EmotionDimensions()[i].key)
  {
    [v.happy, v.angry, v.sad, v.fear, v.disgust, v.low, v.surprise, v.calm]
  }

  /** `DEFAULT_EMOTION_VECTOR`: calm at 0.5, every other dimension 0. */
  function DefaultEmotionVector(): (v: EmotionVector)
    ensures Component(v, Calm) == 0.5
    ensures forall d: Dimension :: d != Calm ==> Component(v, d) == 0.0
    ensures InRange(v)
    ensures Sum(v) == 0.5 <= SoftSumLimit
  {
    EmotionVector(0.0, 0.0, 0.0, 0.0, 0.0, 0.0, 0.0, 0.5)
  }

  /**
   * The emotion control: the active mode plus every mode's payload, which is
   * kept while another mode is active.
   */
  datatype EmotionControl = EmotionControl(
    mode: EmotionMode,
    emoAudioPath: Option<string>,
    emoAlpha: real,
    emoVector: EmotionVector,
    emoText: string)

  function DefaultEmotionControl(): (c: EmotionControl)
    ensures c.mode == Preset && c.emoAudioPath == None && c.emoAlpha == 1.0
    ensures c.emoText == "" && c.emoVector == DefaultEmotionVector()
  {
    EmotionControl(Preset, None, 1.0, DefaultEmotionVector(), "")
  }

  datatype TtsConfig = TtsConfig(
    model: ModelType,
    voice: string,
    responseFormat: ResponseFormat,
    speed: real,
    language: string,
    refAudioId: Option<string>,
    emotion: string,
    temperature: real,
    topP: real,
    topK: int,
    repetitionPenalty: real,
    emotionControl: EmotionControl)

  function DefaultTtsConfig(): (c: TtsConfig)
    ensures c.model == Auto && c.voice == "default" && c.responseFormat == Wav && c.speed == 1.0
    ensures c.language == "Chinese" && c.refAudioId == None && c.emotion == "default"
    ensures c.temperature == 1.0 && c.topP == 0.8 && c.topK == 20 && c.repetitionPenalty == 1.0
    ensures c.emotionControl == DefaultEmotionControl()
  {
    TtsConfig(Auto, "default", Wav, 1.0, "Chinese", None, "default", 1.0, 0.8, 20, 1.0,
              DefaultEmotionControl())
  }

  /** Audio bytes. */
  type Blob = seq<bv8>

  /** One successful generation, held by the session list together with its blob. */
  datatype AudioResult = AudioResult(
    id: string,
    text: string,
    audioUrl: string,
    audioBlob: Option<Blob>,
    model: ModelType,
    voice: string,
    duration: Option<real>,
    timestamp: int)

  /** `Omit<AudioResult, 'audioBlob'>`: the persisted history record. */
  datatype HistoryEntry = HistoryEntry(
    id: string,
    text: string,
    audioUrl: string,
    model: ModelType,
    voice: string,
    duration: Option<real>,
    timestamp: int)

  function WithoutBlob(r: AudioResult): (h: HistoryEntry)
    ensures h.id == r.id && h.text == r.text && h.audioUrl == r.audioUrl
    ensures h.model == r.model && h.voice == r.voice && h.duration == r.duration
    ensures h.timestamp == r.timestamp
  {
    HistoryEntry(r.id, r.text, r.audioUrl, r.model, r.voice, r.duration, r.timestamp)
  }
}
