/** Request assembly and result construction (frontend/lib/api/tts.ts). */
module TtsApi {
  import opened Wrappers
  import opened ApiTypes
  import opened Models

  /** JavaScript's `s || undefined` on a `string | null`: empty strings are dropped too. */
  function OmitEmpty(s: Option<string>): (r: Option<string>)
    ensures r.Some? <==> s.Some? && s.value != ""
    ensures r.Some? ==> r == s
  {
    if s.Some? && s.value != "" then s else None
  }

  /** `configToRequest`: the wire request for `text` under `config`. */
  function ConfigToRequest(config: TtsConfig, text: string): (r: TtsRequest)
    // copied from the configuration
    ensures r.model == config.model && r.voice == config.voice && r.input == text
    ensures r.responseFormat == config.responseFormat && r.speed == config.speed
    ensures r.language == config.language && r.emotion == config.emotion
    // both backends' sampling parameters are always sent, whatever the model
    ensures r.temperature == Some(config.temperature) && r.topP == Some(config.topP)
    ensures r.topK == Some(config.topK) && r.repetitionPenalty == Some(config.repetitionPenalty)
    ensures r.emotionMode == config.emotionControl.mode
    ensures r.emoAlpha == Some(config.emotionControl.emoAlpha)
    // optional strings: omitted when null or empty, whatever the mode
    ensures r.refAudioId.Some? <==> config.refAudioId.Some? && config.refAudioId.value != ""
    ensures r.refAudioId.Some? ==> r.refAudioId == config.refAudioId
    ensures r.emoAudioPath.Some? <==> config.emotionControl.emoAudioPath.Some? && config.emotionControl.emoAudioPath.value != ""
    ensures r.emoAudioPath.Some? ==> r.emoAudioPath == config.emotionControl.emoAudioPath
    ensures r.emoText.Some? <==> config.emotionControl.emoText != ""
    ensures r.emoText.Some? ==> r.emoText.value == config.emotionControl.emoText
    // the vector travels only in vector mode, as eight values in dimension order
    ensures r.emoVector.Some? <==> config.emotionControl.mode == VectorMode
    ensures r.emoVector.Some? ==> (|r.emoVector.value| == 8 &&
      forall i :: 0 <= i < 8 ==> r.emoVector.value[i] == Component(config.emotionControl.emoVector, EmotionDimensions()[i].key))
    ensures r.useEmoText <==> config.emotionControl.mode == TextMode
    // nothing is saved unless the caller opts in
    ensures !r.saveAudio && r.saveName == None
  {
    var ec := config.emotionControl;
    TtsRequest(
      model := config.model,
      input := text,
      voice := config.voice,
      responseFormat := config.responseFormat,
      speed := config.speed,
      language := config.language,
      refAudioId := OmitEmpty(config.refAudioId),
      emotion := config.emotion,
      temperature := Some(config.temperature),
      topP := Some(config.topP),
      topK := Some(config.topK),
      repetitionPenalty := Some(config.repetitionPenalty),
      emotionMode := ec.mode,
      emoAudioPath := OmitEmpty(ec.emoAudioPath),
      emoAlpha := Some(ec.emoAlpha),
      emoVector := if ec.mode == VectorMode then Some(Values(ec.emoVector)) else None,
      useEmoText := ec.mode == TextMode,
      emoText := OmitEmpty(Some(ec.emoText)),
      saveAudio := false,
      saveName := None)
  }

  /**
   * Switching the emotion mode changes only the mode-dependent keys of the
   * request; every other key, and the inactive modes' payloads, stay as they were.
   */
  lemma ModeOnlyAffectsModeKeys(config: TtsConfig, m: EmotionMode, text: string)
    ensures var a := ConfigToRequest(config, text);
            var b := ConfigToRequest(config.(emotionControl := config.emotionControl.(mode := m)), text);
            b == a.(emotionMode := m, useEmoText := m == TextMode,
                    emoVector := if m == VectorMode then Some(Values(config.emotionControl.emoVector)) else None)
  {
  }

  /** The `options` argument of `generateSpeech`. */
  datatype SaveOptions = SaveOptions(saveAudio: Option<bool>, saveName: Option<string>)

  /** The request `generateSpeech` sends: the save fields are set only when the caller opts in. */
  function SpeechRequest(config: TtsConfig, text: string, options: Option<SaveOptions>): (r: TtsRequest)
    ensures r.saveAudio <==> options.Some? && options.value.saveAudio == Some(true)
    ensures r.saveAudio ==> r.saveName == options.value.saveName
    ensures !r.saveAudio ==> r.saveName == None
    ensures r.(saveAudio := false, saveName := None) == ConfigToRequest(config, text)
  {
    var base := ConfigToRequest(config, text);
    if options.Some? && options.value.saveAudio == Some(true)
    then base.(saveAudio := true, saveName := options.value.saveName)
    else base
  }

  /** The result built around the returned blob: it echoes the text, model and voice. */
  function SpeechResult(config: TtsConfig, text: string, blob: Blob, freshId: string, url: string, now: int): (r: AudioResult)
    ensures r.text == text && r.model == config.model && r.voice == config.voice
    ensures r.audioBlob == Some(blob) && r.audioUrl == url
    ensures r.id == freshId && r.timestamp == now && r.duration == None
  {
    AudioResult(
      id := freshId, text := text, audioUrl := url, audioBlob := Some(blob),
      model := config.model, voice := config.voice, duration := None, timestamp := now)
  }

  /**
   * `generateSpeech`: builds the request, sets the save fields when the caller
   * opts in, and on the backend's reply wraps the blob into a fresh result.
   * `reply` is the outcome of the HTTP call; `freshId`, `url` and `now` stand
   * for `crypto.randomUUID()`, `URL.createObjectURL(blob)` and `Date.now()`.
   */
  method GenerateSpeech(config: TtsConfig, text: string, options: Option<SaveOptions>,
                        reply: Outcome<Blob>, freshId: string, url: string, now: int)
    returns (sent: TtsRequest, result: Outcome<AudioResult>)
    ensures sent == SpeechRequest(config, text, options)
    ensures reply.Raise? ==> result == Raise(reply.message)
    ensures reply.Ok? ==> result == Ok(SpeechResult(config, text, reply.value, freshId, url, now))
  {
    sent := ConfigToRequest(config, text);
    if options.Some? && options.value.saveAudio == Some(true) {
      sent := sent.(saveAudio := true, saveName := options.value.saveName);
    }
    match reply
    case Raise(msg) =>
      result := Raise(msg);
    case Ok(blob) =>
      result := Ok(AudioResult(
        id := freshId, text := text, audioUrl := url, audioBlob := Some(blob),
        model := config.model, voice := config.voice, duration := None, timestamp := now));
  }
}
