/**
 * The IndexTTS 2.0 adapter: the JSON body it posts for a synthesis request and
 * what becomes of the reply, the mapping of the voices the backend lists, and
 * the upload request and its result (gateway/adapters/indextts_adapter.py).
 * Each HTTP exchange is a parameter: the reply the backend would give.
 */
module IndexTtsAdapter {
  import opened Wrappers
  import opened PyValues
  import opened Adapters

  // ---------------------------------------------------------------- generate_speech

  /** `kwargs.get("emotion_mode", "preset")`. */
  function Mode(kw: Params): Value {
    GetParamOr(kw, EmotionMode, Str("preset"))
  }

  /**
   * The JSON body posted to `/v1/audio/speech`. A field of `Option` type is a
   * key the body may lack: `None` means the key is absent.
   */
  datatype SpeechBody = SpeechBody(
    input: string, voice: string, emotion: Value, speed: Value, responseFormat: Value,
    temperature: Option<Value>, topP: Option<Value>, topK: Option<Value>, repetitionPenalty: Option<Value>,
    emotionMode: Option<Value>,
    emoAudioPath: Option<Value>, emoAlpha: Option<Value>, emoVector: Option<Value>,
    useEmoText: Option<Value>, emoText: Option<Value>)
  {
    /** No emotion-control key at all. */
    predicate NoEmotionFields() {
      emoAudioPath.None? && emoAlpha.None? && emoVector.None? && useEmoText.None? && emoText.None?
    }
  }

  /** The value of `kwargs[p]`, when the key is to be copied. */
  function CopiedIf(kw: Params, p: Param, copy: bool): (v: Option<Value>)
    ensures v.Some? <==> copy
    ensures v.Some? ==> v.value == GetParam(kw, p)
  {
    if copy then Some(GetParam(kw, p)) else None
  }

  /**
   * The body `generate_speech` posts, field by field: the fixed fields with
   * their defaults, each sampling parameter that is not `None`, and the
   * emotion-control fields of the chosen mode only.
   */
  function Body(text: string, voice: string, kw: Params): (b: SpeechBody)
    ensures b.input == text && b.voice == voice && b.emotionMode == Some(GetParamOr(kw, EmotionMode, Str("preset")))
    ensures b.emoAlpha.Some? ==> b.emoAudioPath.Some?
    ensures b.emoAudioPath.Some? ==> b.emoVector.None? && b.useEmoText.None? && b.emoText.None?
    ensures b.emoVector.Some? ==> b.useEmoText.None? && b.emoText.None?
    ensures b.emoText.Some? ==> b.useEmoText.Some?
  {
    ModeNamesDiffer();
    var mode := Mode(kw);
    var audio := mode == Str("audio") && Truthy(GetParam(kw, EmoAudioPath));
    SpeechBody(
      text, voice,
      GetParamOr(kw, Emotion, Str("default")), GetParamOr(kw, Speed, Num(1.0)), GetParamOr(kw, ResponseFormat, Str("wav")),
      CopiedIf(kw, Temperature, GetParam(kw, Temperature) != Null),
      CopiedIf(kw, TopP, GetParam(kw, TopP) != Null),
      CopiedIf(kw, TopK, GetParam(kw, TopK) != Null),
      CopiedIf(kw, RepetitionPenalty, GetParam(kw, RepetitionPenalty) != Null),
      Some(mode),
      CopiedIf(kw, EmoAudioPath, audio),
      CopiedIf(kw, EmoAlpha, audio && GetParam(kw, EmoAlpha) != Null),
      CopiedIf(kw, EmoVector, mode == Str("vector") && Truthy(GetParam(kw, EmoVector))),
      if mode == Str("text") then Some(GetParamOr(kw, UseEmoText, Bool(true))) else None,
      CopiedIf(kw, EmoText, mode == Str("text") && Truthy(GetParam(kw, EmoText))))
  }

  /** The mode names differ from one another (already in their first letters). */
  lemma ModeNamesDiffer()
    ensures Str("audio") != Str("vector") && Str("audio") != Str("text") && Str("vector") != Str("text")
    ensures Str("preset") != Str("audio") && Str("preset") != Str("vector") && Str("preset") != Str("text")
  {
    assert "audio"[0] != "vector"[0] && "audio"[0] != "text"[0] && "vector"[0] != "text"[0];
    assert "preset"[0] != "audio"[0] && "preset"[0] != "vector"[0] && "preset"[0] != "text"[0];
  }

  /** The request-body construction of `generate_speech`, one insertion at a time. */
  method BuildRequestBody(text: string, voice: string, kw: Params) returns (body: SpeechBody)
    ensures body == Body(text, voice, kw)
  {
    body := SpeechBody(text, voice,
                       GetParamOr(kw, Emotion, Str("default")),
                       GetParamOr(kw, Speed, Num(1.0)),
                       GetParamOr(kw, ResponseFormat, Str("wav")),
                       None, None, None, None, None, None, None, None, None, None);
    if GetParam(kw, Temperature) != Null {
      body := body.(temperature := Some(kw[Temperature]));
    }
    if GetParam(kw, TopP) != Null {
      body := body.(topP := Some(kw[TopP]));
    }
    if GetParam(kw, TopK) != Null {
      body := body.(topK := Some(kw[TopK]));
    }
    if GetParam(kw, RepetitionPenalty) != Null {
      body := body.(repetitionPenalty := Some(kw[RepetitionPenalty]));
    }
    var mode := GetParamOr(kw, EmotionMode, Str("preset"));
    body := body.(emotionMode := Some(mode));
    if mode == Str("audio") && Truthy(GetParam(kw, EmoAudioPath)) {
      body := body.(emoAudioPath := Some(kw[EmoAudioPath]));
      if GetParam(kw, EmoAlpha) != Null {
        body := body.(emoAlpha := Some(kw[EmoAlpha]));
      }
    }
    if mode == Str("vector") && Truthy(GetParam(kw, EmoVector)) {
      body := body.(emoVector := Some(kw[EmoVector]));
    }
    if mode == Str("text") {
      body := body.(useEmoText := Some(GetParamOr(kw, UseEmoText, Bool(true))));
      if Truthy(GetParam(kw, EmoText)) {
        body := body.(emoText := Some(kw[EmoText]));
      }
    }
  }

  /** The body always carries the six fixed fields, with their defaults when the keyword is absent. */
  lemma BodyFixedFields(text: string, voice: string, kw: Params)
    ensures var b := Body(text, voice, kw);
      && b.input == text && b.voice == voice && b.emotionMode.Some?
      && (Emotion !in kw ==> b.emotion == Str("default"))
      && (Speed !in kw ==> b.speed == Num(1.0))
      && (ResponseFormat !in kw ==> b.responseFormat == Str("wav"))
      && (EmotionMode !in kw ==> b.emotionMode == Some(Str("preset")))
      && (Emotion in kw ==> b.emotion == kw[Emotion])
      && (Speed in kw ==> b.speed == kw[Speed])
      && (ResponseFormat in kw ==> b.responseFormat == kw[ResponseFormat])
      && (EmotionMode in kw ==> b.emotionMode == Some(kw[EmotionMode]))
  {
  }

  /** Each sampling parameter is in the body exactly when its keyword is not `None`, and then with that value. */
  lemma BodySamplingFields(text: string, voice: string, kw: Params)
    ensures var b := Body(text, voice, kw);
      && (b.temperature.Some? <==> GetParam(kw, Temperature) != Null)
      && (b.topP.Some? <==> GetParam(kw, TopP) != Null)
      && (b.topK.Some? <==> GetParam(kw, TopK) != Null)
      && (b.repetitionPenalty.Some? <==> GetParam(kw, RepetitionPenalty) != Null)
      && (b.temperature.Some? ==> b.temperature.value == kw[Temperature])
      && (b.topP.Some? ==> b.topP.value == kw[TopP])
      && (b.topK.Some? ==> b.topK.value == kw[TopK])
      && (b.repetitionPenalty.Some? ==> b.repetitionPenalty.value == kw[RepetitionPenalty])
  {
  }

  /**
   * Each emotion-control field belongs to one mode: the audio path and alpha to
   * "audio", the vector to "vector", `use_emo_text` and the text to "text".
   */
  lemma BodyEmotionFieldsFollowMode(text: string, voice: string, kw: Params)
    ensures var b := Body(text, voice, kw);
      && (b.emoAudioPath.Some? <==> Mode(kw) == Str("audio") && Truthy(GetParam(kw, EmoAudioPath)))
      && (b.emoAlpha.Some? <==> b.emoAudioPath.Some? && GetParam(kw, EmoAlpha) != Null)
      && (b.emoVector.Some? <==> Mode(kw) == Str("vector") && Truthy(GetParam(kw, EmoVector)))
      && (b.useEmoText.Some? <==> Mode(kw) == Str("text"))
      && (b.emoText.Some? <==> b.useEmoText.Some? && Truthy(GetParam(kw, EmoText)))
      && (b.emoAudioPath.Some? ==> b.emoVector.None? && b.useEmoText.None?)
      && (b.emoVector.Some? ==> b.useEmoText.None?)
  {
    ModeNamesDiffer();
  }

  /** `use_emo_text` is the passed value; `True` only when the keyword is absent. */
  lemma BodyUseEmoTextDefault(text: string, voice: string, kw: Params)
    requires Mode(kw) == Str("text")
    ensures var b := Body(text, voice, kw);
      && (UseEmoText in kw ==> b.useEmoText == Some(kw[UseEmoText]))
      && (UseEmoText !in kw ==> b.useEmoText == Some(Bool(true)))
  {
  }

  /** In "preset" mode (the default) the body has no emotion-control key. */
  lemma PresetBodyHasNoEmotionFields(text: string, voice: string, kw: Params)
    requires Mode(kw) == Str("preset")
    ensures Body(text, voice, kw).NoEmotionFields()
  {
    ModeNamesDiffer();
  }

  /**
   * The reply to the synthesis POST: a response with its status, its audio
   * bytes and the error detail (`e.response.json().get("detail", str(e))`,
   * formatted) that goes with a non-2xx status; or the message of any other
   * exception.
   */
  datatype SpeechReply = SpeechResponse(status: nat, content: Bytes, detail: string) | SpeechFailed(message: string)

  /** What `generate_speech` makes of the reply: the audio, or the exception it raises. */
  function SpeechOutcome(reply: SpeechReply): (r: Outcome<Bytes>)
    ensures r.Ok? <==> reply.SpeechResponse? && IsSuccess(reply.status)
    ensures r.Ok? ==> r.value == reply.content
    ensures r.Raise? && reply.SpeechResponse? ==> r.message == "IndexTTS 请求失败: " + reply.detail
    ensures reply.SpeechFailed? ==> r == Raise(reply.message)
  {
    match reply
    case SpeechFailed(message) => Raise(message)
    case SpeechResponse(status, content, detail) =>
      if IsSuccess(status) then Ok(content) else Raise("IndexTTS 请求失败: " + detail)
  }

  /**
   * `generate_speech`: builds the body, posts it (`post` is the backend's
   * answer to a body) and returns the audio or raises.
   */
  method GenerateSpeech(text: string, voice: string, kw: Params, post: SpeechBody -> SpeechReply)
    returns (r: Outcome<Bytes>)
    ensures r == SpeechOutcome(post(Body(text, voice, kw)))
    ensures r.Ok? ==> post(Body(text, voice, kw)).SpeechResponse?
  {
    var body := BuildRequestBody(text, voice, kw);
    r := SpeechOutcome(post(body));
  }

  // ---------------------------------------------------------------- list_voices

  /**
   * `VoiceItem(id=v.get("id"), name=v.get("name", v.get("id")),
   * emotions=v.get("emotions", ["default"]), has_default=v.get("has_default", False))`:
   * `None` when validation fails (the id or name is not a string, the emotions
   * not a list of strings, `has_default` not a boolean).
   */
  function ItemFromJson(v: Dict): (r: Option<VoiceItem>)
    ensures r.Some? ==> Get(v, "id") == Str(r.value.id) && r.value.refText.None?
    ensures r.Some? ==> GetOr(v, "name", Get(v, "id")) == Str(r.value.name)
    ensures r.Some? ==> GetOr(v, "emotions", Strs(["default"])) == Strs(r.value.emotions)
    ensures r.Some? ==> GetOr(v, "has_default", Bool(false)) == Bool(r.value.hasDefault)
    ensures !Get(v, "id").Str? ==> r.None?
    ensures r.Some? <==>
              && Get(v, "id").Str?
              && GetOr(v, "name", Get(v, "id")).Str?
              && GetOr(v, "emotions", Strs(["default"])).Strs?
              && GetOr(v, "has_default", Bool(false)).Bool?
  {
    var id := Get(v, "id");
    var name := GetOr(v, "name", id);
    var emotions := GetOr(v, "emotions", Strs(["default"]));
    var hasDefault := GetOr(v, "has_default", Bool(false));
    if id.Str? && name.Str? && emotions.Strs? && hasDefault.Bool? then
      Some(VoiceItem(id.s, name.s, emotions.ss, None, hasDefault.b))
    else None
  }

  /** An entry with only a string id gets the id as its name, the emotion "default" and no default flag. */
  lemma ItemDefaults(id: string)
    ensures ItemFromJson(map["id" := Str(id)]) == Some(VoiceItem(id, id, ["default"], None, false))
  {
    var v := map["id" := Str(id)];
    assert "name" !in v && "emotions" !in v && "has_default" !in v by {
      assert "name"[0] != "id"[0] && "emotions"[0] != "id"[0] && "has_default"[0] != "id"[0];
    }
  }

  /**
   * `list_voices`. `reply` is the answer to `GET /v1/voices`, its body the
   * `voices` array (`None` when the key is missing). Every entry is converted
   * in order; any failure, of the request or of one entry, yields `[]`.
   */
  method ListVoices(reply: Reply<Option<seq<Dict>>>) returns (voices: seq<VoiceItem>)
    ensures !(reply.Response? && IsSuccess(reply.status)) ==> voices == []
    ensures reply.Response? && IsSuccess(reply.status) && reply.body.Some? ==>
      var entries := reply.body.value;
      && ((forall i :: 0 <= i < |entries| ==> ItemFromJson(entries[i]).Some?) ==>
            |voices| == |entries| && forall i :: 0 <= i < |entries| ==> ItemFromJson(entries[i]) == Some(voices[i]))
      && ((exists i :: 0 <= i < |entries| && ItemFromJson(entries[i]).None?) ==> voices == [])
    ensures reply.Response? && reply.body.None? ==> voices == []
  {
    if !(reply.Response? && IsSuccess(reply.status)) || reply.body.None? {
      return [];
    }
    var entries := reply.body.value;
    voices := [];
    var i := 0;
    while i < |entries|
      invariant 0 <= i <= |entries|
      invariant |voices| == i
      invariant forall j :: 0 <= j < i ==> ItemFromJson(entries[j]) == Some(voices[j])
    {
      var item := ItemFromJson(entries[i]);
      if item.None? {
        return [];
      }
      voices := voices + [item.value];
      i := i + 1;
    }
  }

  // ---------------------------------------------------------------- upload_voice

  /** The upload: the file as `audio/wav`, with `voice_id` and `emotion` (default "default") as query parameters. */
  function UploadRequest(content: Bytes, filename: string, voiceId: string, kw: Dict): (u: Upload)
    ensures u.filename == filename && u.content == content && u.contentType == "audio/wav"
    ensures u.fields.Keys == {"voice_id", "emotion"} && u.fields["voice_id"] == Str(voiceId)
    ensures "emotion" in kw ==> u.fields["emotion"] == kw["emotion"]
    ensures "emotion" !in kw ==> u.fields["emotion"] == Str("default")
  {
    Upload(filename, content, "audio/wav", map["voice_id" := Str(voiceId), "emotion" := GetOr(kw, "emotion", Str("default"))])
  }

  /**
   * What `upload_voice` returns for the backend's reply: the backend's
   * `success`, `message`, `voice_id` and `emotion` on a 2xx response, or
   * `success` False with the exception's message.
   */
  function UploadResult(reply: Reply<Dict>): (r: Dict)
    ensures "success" in r && "message" in r
    ensures Truthy(r["success"]) ==> reply.Response? && IsSuccess(reply.status) && Truthy(Get(reply.body, "success"))
    ensures reply.Failed? ==> r == map["success" := Bool(false), "message" := Str(reply.message)]
    ensures reply.Response? && !IsSuccess(reply.status) ==>
      r == map["success" := Bool(false), "message" := Str(reply.statusError)]
    ensures reply.Response? && IsSuccess(reply.status) ==>
      && r.Keys == {"success", "message", "voice_id", "emotion"}
      && r["voice_id"] == Get(reply.body, "voice_id") && r["emotion"] == Get(reply.body, "emotion")
      && ("success" in reply.body ==> r["success"] == reply.body["success"])
      && ("success" !in reply.body ==> r["success"] == Bool(false))
      && ("message" in reply.body ==> r["message"] == reply.body["message"])
      && ("message" !in reply.body ==> r["message"] == Str(""))
  {
    match reply
    case Failed(message) => map["success" := Bool(false), "message" := Str(message)]
    case Response(status, result, statusError) =>
      if !IsSuccess(status) then map["success" := Bool(false), "message" := Str(statusError)]
      else map["success" := GetOr(result, "success", Bool(false)),
               "message" := GetOr(result, "message", Str("")),
               "voice_id" := Get(result, "voice_id"),
               "emotion" := Get(result, "emotion")]
  }
}
