/**
 * The studio's request as the gateway reads it: the JSON body the frontend
 * posts (frontend/lib/api/tts.ts) arrives at the gateway's `TTSRequest`
 * (gateway/schemas/request.py), enumerations as their wire strings.
 */
module WireFormat {
  import opened Wrappers
  import opened ApiTypes
  import opened Models
  import TtsApi
  import RequestSchema

  /** The frontend request with its enumerations written as the strings JSON carries. */
  function OnTheWire(r: TtsRequest): (g: RequestSchema.GatewayRequest)
    ensures g.model == r.model.Id() && g.responseFormat == r.responseFormat.Id() && g.emotionMode == r.emotionMode.Id()
    ensures g.input == r.input && g.voice == r.voice && g.speed == r.speed && g.emoVector == r.emoVector
    ensures g.temperature == r.temperature && g.topP == r.topP && g.topK == r.topK
    ensures g.repetitionPenalty == r.repetitionPenalty && g.emoAlpha == r.emoAlpha
  {
    RequestSchema.GatewayRequest(
      r.model.Id(), r.input, r.voice, r.responseFormat.Id(), r.speed, r.language, r.refAudioId, r.emotion,
      r.temperature, r.topP, r.topK, r.repetitionPenalty, r.emotionMode.Id(), r.emoAudioPath, r.emoAlpha,
      r.emoVector, r.useEmoText, r.emoText, r.saveAudio, r.saveName)
  }

  /** Every default number lies inside the range the gateway accepts for it. */
  lemma DefaultsInGatewayBounds()
    ensures var c := DefaultTtsConfig();
      && RequestSchema.InBounds(c.speed, 0.5, 2.0)
      && RequestSchema.InBounds(c.temperature, 0.1, 2.0)
      && RequestSchema.InBounds(c.topP, 0.0, 1.0)
      && 1 <= c.topK <= 100
      && RequestSchema.InBounds(c.repetitionPenalty, 0.1, 2.0)
      && RequestSchema.InBounds(c.emotionControl.emoAlpha, 0.0, 1.6)
    ensures forall d: Dimension :: RequestSchema.VectorEntryOk(Component(DefaultEmotionVector(), d))
    ensures DefaultTtsConfig().responseFormat.Id() in RequestSchema.ResponseFormats
  {
  }

  /** Every mode's wire string is one the gateway accepts. */
  lemma ModeIdsAccepted(m: EmotionMode)
    ensures m.Id() in RequestSchema.EmotionModes
  {
  }

  /**
   * The studio's default configuration, in any of the four emotion modes,
   * yields a request the gateway accepts unchanged for any text of 1 to 5000
   * characters.
   */
  lemma DefaultConfigRequestAccepted(text: string, mode: EmotionMode)
    requires 1 <= |text| <= RequestSchema.MaxInputLength
    ensures var config := DefaultTtsConfig().(emotionControl := DefaultEmotionControl().(mode := mode));
      var sent := OnTheWire(TtsApi.ConfigToRequest(config, text));
      RequestSchema.ParseRequest(RequestSchema.EncodeRequest(sent)) == RequestSchema.Accepted(sent)
  {
    var config := DefaultTtsConfig().(emotionControl := DefaultEmotionControl().(mode := mode));
    var r := TtsApi.ConfigToRequest(config, text);
    var sent := OnTheWire(r);
    DefaultsInGatewayBounds();
    ModeIdsAccepted(mode);
    if r.emoVector.Some? {
      var v := r.emoVector.value;
      forall i | 0 <= i < |v| ensures RequestSchema.VectorEntryOk(v[i]) {
        assert v[i] == Component(DefaultEmotionVector(), EmotionDimensions()[i].key);
      }
    }
    assert RequestSchema.WellFormed(sent);
    RequestSchema.ParseEncodeRoundTrip(sent);
  }
}
