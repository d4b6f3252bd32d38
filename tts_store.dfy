/** The studio's configuration store (frontend/lib/store/ttsStore.ts). */
module TtsStore {
  import opened Wrappers
  import opened ApiTypes
  import opened Models

  /** `Partial<TTSConfig>`: the keys present in a `setConfig` argument. */
  datatype ConfigPatch = ConfigPatch(
    model: Option<ModelType> := None,
    voice: Option<string> := None,
    responseFormat: Option<ResponseFormat> := None,
    speed: Option<real> := None,
    language: Option<string> := None,
    refAudioId: Option<Option<string>> := None,
    emotion: Option<string> := None,
    temperature: Option<real> := None,
    topP: Option<real> := None,
    topK: Option<int> := None,
    repetitionPenalty: Option<real> := None,
    emotionControl: Option<EmotionControl> := None)

  /** `Partial<EmotionControl>`. `emoAudioPath` may be set to `null`. */
  datatype ControlPatch = ControlPatch(
    mode: Option<EmotionMode> := None,
    emoAudioPath: Option<Option<string>> := None,
    emoAlpha: Option<real> := None,
    emoVector: Option<EmotionVector> := None,
    emoText: Option<string> := None)

  /** `Partial<EmotionVector>`. */
  datatype VectorPatch = VectorPatch(
    happy: Option<real> := None, angry: Option<real> := None, sad: Option<real> := None,
    fear: Option<real> := None, disgust: Option<real> := None, low: Option<real> := None,
    surprise: Option<real> := None, calm: Option<real> := None)

  function PatchComponent(p: VectorPatch, d: Dimension): Option<real> {
    match d
    case Happy => p.happy
    case Angry => p.angry
    case Sad => p.sad
    case Fear => p.fear
    case Disgust => p.disgust
    case Low => p.low
    case Surprise => p.surprise
    case Calm => p.calm
  }

  /** `{ ...config, ...patch }`: the keys present in the patch win. */
  function MergeConfig(c: TtsConfig, p: ConfigPatch): TtsConfig {
    TtsConfig(
      p.model.GetOr(c.model), p.voice.GetOr(c.voice), p.responseFormat.GetOr(c.responseFormat),
      p.speed.GetOr(c.speed), p.language.GetOr(c.language), p.refAudioId.GetOr(c.refAudioId),
      p.emotion.GetOr(c.emotion), p.temperature.GetOr(c.temperature), p.topP.GetOr(c.topP),
      p.topK.GetOr(c.topK), p.repetitionPenalty.GetOr(c.repetitionPenalty),
      p.emotionControl.GetOr(c.emotionControl))
  }

  /** `{ ...emotionControl, ...patch }`. */
  function MergeControl(ec: EmotionControl, p: ControlPatch): EmotionControl {
    EmotionControl(p.mode.GetOr(ec.mode), p.emoAudioPath.GetOr(ec.emoAudioPath),
                   p.emoAlpha.GetOr(ec.emoAlpha), p.emoVector.GetOr(ec.emoVector),
                   p.emoText.GetOr(ec.emoText))
  }

  /** `{ ...emoVector, ...patch }`: exactly the named dimensions change, unclamped. */
  function MergeVector(v: EmotionVector, p: VectorPatch): (r: EmotionVector)
    ensures forall d: Dimension :: Component(r, d) == PatchComponent(p, d).GetOr(Component(v, d))
  {
    EmotionVector(p.happy.GetOr(v.happy), p.angry.GetOr(v.angry), p.sad.GetOr(v.sad),
                  p.fear.GetOr(v.fear), p.disgust.GetOr(v.disgust), p.low.GetOr(v.low),
                  p.surprise.GetOr(v.surprise), p.calm.GetOr(v.calm))
  }

  function WithVector(c: TtsConfig, v: EmotionVector): TtsConfig {
    c.(emotionControl := c.emotionControl.(emoVector := v))
  }

  /** The subset of the state written to durable storage: `config` only. */
  datatype PersistedTts = PersistedTts(config: TtsConfig)

  class ConfigStore {
    var config: TtsConfig
    var inputText: string

    constructor ()
      ensures config == DefaultTtsConfig() && inputText == ""
    {
      config := DefaultTtsConfig();
      inputText := "";
    }

    /** `partialize`: what survives a reload. */
    function Persisted(): (p: PersistedTts)
      reads this
      ensures p.config == config
    {
      PersistedTts(config)
    }

    method SetConfig(patch: ConfigPatch)
      modifies this
      ensures config == MergeConfig(old(config), patch) && inputText == old(inputText)
    {
      config := MergeConfig(config, patch);
    }

    method SetModel(model: ModelType)
      modifies this
      ensures config == old(config).(model := model) && inputText == old(inputText)
    {
      config := config.(model := model);
    }

    method SetInputText(text: string)
      modifies this
      ensures inputText == text && config == old(config)
    {
      inputText := text;
    }

    method SetEmotionControl(patch: ControlPatch)
      modifies this
      ensures config == old(config).(emotionControl := MergeControl(old(config.emotionControl), patch))
      ensures inputText == old(inputText)
    {
      config := config.(emotionControl := MergeControl(config.emotionControl, patch));
    }

    method SetEmotionVector(patch: VectorPatch)
      modifies this
      ensures config == WithVector(old(config), MergeVector(old(config.emotionControl.emoVector), patch))
      ensures inputText == old(inputText)
    {
      config := WithVector(config, MergeVector(config.emotionControl.emoVector, patch));
    }

    method ResetEmotionVector()
      modifies this
      ensures config == WithVector(old(config), DefaultEmotionVector()) && inputText == old(inputText)
    {
      config := WithVector(config, DefaultEmotionVector());
    }

    method ResetConfig()
      modifies this
      ensures config == DefaultTtsConfig() && inputText == ""
    {
      config := DefaultTtsConfig();
      inputText := "";
    }
  }

  /** `setModel(m)` is `setConfig({ model: m })`. */
  lemma SetModelIsModelPatch(c: TtsConfig, m: ModelType)
    ensures MergeConfig(c, ConfigPatch(model := Some(m))) == c.(model := m)
  {
  }

  /** A key absent from a patch keeps its value; a present one takes the patch's value. */
  predicate Overwrites<T(==)>(key: Option<T>, before: T, after: T) {
    (key.None? ==> after == before) && (key.Some? ==> after == key.value)
  }

  /** A `setConfig` patch overwrites exactly the keys it carries. */
  lemma MergeConfigOverwritesExactlyPatchKeys(c: TtsConfig, p: ConfigPatch)
    ensures var r := MergeConfig(c, p);
      && Overwrites(p.model, c.model, r.model)
      && Overwrites(p.voice, c.voice, r.voice)
      && Overwrites(p.responseFormat, c.responseFormat, r.responseFormat)
      && Overwrites(p.speed, c.speed, r.speed)
      && Overwrites(p.language, c.language, r.language)
      && Overwrites(p.refAudioId, c.refAudioId, r.refAudioId)
      && Overwrites(p.emotion, c.emotion, r.emotion)
      && Overwrites(p.temperature, c.temperature, r.temperature)
      && Overwrites(p.topP, c.topP, r.topP)
      && Overwrites(p.topK, c.topK, r.topK)
      && Overwrites(p.repetitionPenalty, c.repetitionPenalty, r.repetitionPenalty)
      && Overwrites(p.emotionControl, c.emotionControl, r.emotionControl)
    ensures p == ConfigPatch() ==> MergeConfig(c, p) == c
  {
  }

  /** Merging the same patch twice is merging it once. */
  lemma MergesIdempotent(c: TtsConfig, p: ConfigPatch, q: ControlPatch, vp: VectorPatch)
    ensures MergeConfig(MergeConfig(c, p), p) == MergeConfig(c, p)
    ensures MergeControl(MergeControl(c.emotionControl, q), q) == MergeControl(c.emotionControl, q)
    ensures MergeVector(MergeVector(c.emotionControl.emoVector, vp), vp) == MergeVector(c.emotionControl.emoVector, vp)
  {
  }

  /**
   * Switching modes keeps every mode's payload: after vector, text and vector
   * again, only the mode differs from where the first switch started.
   */
  lemma ModeSwitchesKeepPayloads(ec: EmotionControl, m1: EmotionMode, m2: EmotionMode)
    ensures var r := MergeControl(MergeControl(ec, ControlPatch(mode := Some(m1))), ControlPatch(mode := Some(m2)));
      r == ec.(mode := m2) && r.emoVector == ec.emoVector && r.emoAudioPath == ec.emoAudioPath
      && r.emoAlpha == ec.emoAlpha && r.emoText == ec.emoText
  {
  }

  /** Resetting the vector is idempotent and touches nothing but the vector. */
  lemma ResetVectorIdempotent(c: TtsConfig)
    ensures WithVector(WithVector(c, DefaultEmotionVector()), DefaultEmotionVector()) == WithVector(c, DefaultEmotionVector())
    ensures WithVector(c, DefaultEmotionVector()).(emotionControl := c.emotionControl) == c
    ensures WithVector(c, DefaultEmotionVector()).emotionControl.(emoVector := c.emotionControl.emoVector) == c.emotionControl
  {
  }
}
