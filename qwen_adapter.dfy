/**
 * The Qwen3-TTS adapter: the form it posts for a synthesis request and the
 * checks on the backend's answer, the mapping of the reference audios it lists,
 * and the upload with its `ref_text` guard (gateway/adapters/qwen_adapter.py).
 * Each HTTP exchange is a parameter: the reply the backend would give.
 */
module QwenTtsAdapter {
  import opened Wrappers
  import opened PyValues
  import opened Adapters
  import Text

  // ---------------------------------------------------------------- generate_speech

  /**
   * The form of `generate_speech`: exactly `text`, `language` (default
   * "Chinese") and `ref_audio_id` (`kwargs.get("ref_audio_id") or voice`).
   */
  function SpeechForm(text: string, voice: string, kw: Params): (form: Dict)
    ensures form.Keys == {"text", "language", "ref_audio_id"}
    ensures form["text"] == Str(text)
    ensures Language in kw ==> form["language"] == kw[Language]
    ensures Language !in kw ==> form["language"] == Str("Chinese")
    ensures Truthy(GetParam(kw, RefAudioId)) ==> form["ref_audio_id"] == kw[RefAudioId]
    ensures !Truthy(GetParam(kw, RefAudioId)) ==> form["ref_audio_id"] == Str(voice)
  {
    var refAudioId := if Truthy(GetParam(kw, RefAudioId)) then kw[RefAudioId] else Str(voice);
    map["text" := Str(text), "language" := GetParamOr(kw, Language, Str("Chinese")), "ref_audio_id" := refAudioId]
  }

  /** The message of the `HTTPStatusError` handler. */
  function StatusFailure(status: nat): string {
    "Qwen3-TTS 请求失败: " + Text.NatToString(status)
  }

  /**
   * What `generate_speech` makes of the two exchanges: `reply` answers the
   * form POST with its JSON result, `download` answers the GET of the audio
   * URL that result names. A status outside 2xx raises with the status code;
   * a result without `success` raises its `message` (or "TTS 生成失败"); one
   * without `audio_url` raises "未返回音频 URL"; any other exception is
   * re-raised unchanged.
   */
  function SpeechOutcome(reply: Reply<Dict>, download: Value -> Reply<Bytes>): (r: Outcome<Bytes>)
    ensures r.Ok? ==>
      && reply.Response? && IsSuccess(reply.status)
      && Truthy(Get(reply.body, "success")) && Truthy(Get(reply.body, "audio_url"))
      && var audio := download(Get(reply.body, "audio_url"));
         audio.Response? && IsSuccess(audio.status) && r.value == audio.body
    ensures reply.Failed? ==> r == Raise(reply.message)
    ensures reply.Response? && !IsSuccess(reply.status) ==> r == Raise(StatusFailure(reply.status))
    ensures reply.Response? && IsSuccess(reply.status) && !Truthy(Get(reply.body, "success")) ==>
      r == Raise(ValueText(GetOr(reply.body, "message", Str("TTS 生成失败"))))
    ensures (reply.Response? && IsSuccess(reply.status) && Truthy(Get(reply.body, "success")) &&
             !Truthy(Get(reply.body, "audio_url"))) ==> r == Raise("未返回音频 URL")
    ensures (reply.Response? && IsSuccess(reply.status) && Truthy(Get(reply.body, "success")) &&
             Truthy(Get(reply.body, "audio_url"))) ==>
      var audio := download(Get(reply.body, "audio_url"));
      && (audio.Failed? ==> r == Raise(audio.message))
      && (audio.Response? && !IsSuccess(audio.status) ==> r == Raise(StatusFailure(audio.status)))
      && (audio.Response? && IsSuccess(audio.status) ==> r == Ok(audio.body))
  {
    match reply
    case Failed(message) => Raise(message)
    case Response(status, result, _) =>
      if !IsSuccess(status) then Raise(StatusFailure(status))
      else if !Truthy(Get(result, "success")) then Raise(ValueText(GetOr(result, "message", Str("TTS 生成失败"))))
      else if !Truthy(Get(result, "audio_url")) then Raise("未返回音频 URL")
      else
        match download(Get(result, "audio_url"))
        case Failed(message) => Raise(message)
        case Response(audioStatus, content, _) =>
          if IsSuccess(audioStatus) then Ok(content) else Raise(StatusFailure(audioStatus))
  }

  /** `generate_speech`: builds the form, posts it and downloads the audio the result names. */
  method GenerateSpeech(text: string, voice: string, kw: Params, post: Dict -> Reply<Dict>, download: Value -> Reply<Bytes>)
    returns (r: Outcome<Bytes>)
    ensures r == SpeechOutcome(post(SpeechForm(text, voice, kw)), download)
  {
    var form := SpeechForm(text, voice, kw);
    r := SpeechOutcome(post(form), download);
  }

  /** A gateway request without a reference audio id uses the voice as the reference audio. */
  lemma VoiceIsDefaultReference(text: string, voice: string, kw: Params)
    requires RefAudioId !in kw || kw[RefAudioId] == Null || kw[RefAudioId] == Str("")
    ensures SpeechForm(text, voice, kw)["ref_audio_id"] == Str(voice)
  {
  }

  // ---------------------------------------------------------------- list_voices

  /**
   * `VoiceItem(id=a.get("id"), name=a.get("filename", a.get("id")),
   * ref_text=a.get("ref_text"), emotions=["default"], has_default=True)`:
   * `None` when validation fails (the id or name is not a string, or the
   * reference text is neither a string nor `None`).
   */
  function ItemFromJson(a: Dict): (r: Option<VoiceItem>)
    ensures r.Some? ==> Get(a, "id") == Str(r.value.id)
    ensures r.Some? ==> GetOr(a, "filename", Get(a, "id")) == Str(r.value.name)
    ensures r.Some? ==> r.value.emotions == ["default"] && r.value.hasDefault
    ensures r.Some? ==> (r.value.refText.None? <==> Get(a, "ref_text") == Null)
    ensures r.Some? && r.value.refText.Some? ==> Get(a, "ref_text") == Str(r.value.refText.value)
    ensures !Get(a, "id").Str? ==> r.None?
    ensures r.Some? <==>
              && Get(a, "id").Str?
              && GetOr(a, "filename", Get(a, "id")).Str?
              && (Get(a, "ref_text").Null? || Get(a, "ref_text").Str?)
  {
    var id := Get(a, "id");
    var name := GetOr(a, "filename", id);
    var refText := Get(a, "ref_text");
    if id.Str? && name.Str? && (refText.Null? || refText.Str?) then
      Some(VoiceItem(id.s, name.s, ["default"], if refText.Str? then Some(refText.s) else None, true))
    else None
  }

  /** An audio with only a string id is named by its id and has no reference text. */
  lemma ItemDefaults(id: string)
    ensures ItemFromJson(map["id" := Str(id)]) == Some(VoiceItem(id, id, ["default"], None, true))
  {
    var a := map["id" := Str(id)];
    assert "filename" !in a && "ref_text" !in a by {
      assert "filename"[0] != "id"[0] && "ref_text"[0] != "id"[0];
    }
  }

  /**
   * `list_voices`. `reply` is the answer to `GET /api/ref_audios`, its body
   * the `audios` array (`None` when the key is missing). Every entry is
   * converted in order; any failure, of the request or of one entry, yields `[]`.
   */
  method ListVoices(reply: Reply<Option<seq<Dict>>>) returns (voices: seq<VoiceItem>)
    ensures !(reply.Response? && IsSuccess(reply.status)) ==> voices == []
    ensures reply.Response? && IsSuccess(reply.status) && reply.body.Some? ==>
      var entries := reply.body.value;
      && ((forall i :: 0 <= i < |entries| ==> ItemFromJson(entries[i]).Some?) ==>
            |voices| == |entries| && forall i :: 0 <= i < |entries| ==> ItemFromJson(entries[i]) == Some(voices[i]))
      && ((exists i :: 0 <= i < |entries| && ItemFromJson(entries[i]).None?) ==> voices == [])
    ensures reply.Response? && reply.body.None? ==> voices == []
    ensures forall v :: v in voices ==> v.hasDefault && v.emotions == ["default"]
  {
    if !(reply.Response? && IsSuccess(reply.status)) || reply.body.None? {
      return [];
    }
    var entries := reply.body.value;
    voices := [];
    var i := 0;
    while i < |entries|
      invariant 0 <= i <= |entries|
      invariant |voices| == i
      invariant forall j :: 0 <= j < i ==> ItemFromJson(entries[j]) == Some(voices[j])
    {
      var item := ItemFromJson(entries[i]);
      if item.None? {
        return [];
      }
      voices := voices + [item.value];
      i := i + 1;
    }
  }

  // ---------------------------------------------------------------- upload_voice

  const MissingRefText := "Qwen3-TTS 需要提供参考文本 (ref_text)"

  /**
   * The upload request: the file as `audio/wav` with the form field
   * `ref_text`; `None`, and no request at all, when `ref_text` is missing or
   * falsy. The gateway's voice id is not sent.
   */
  function UploadRequest(content: Bytes, filename: string, kw: Dict): (u: Option<Upload>)
    ensures u.None? <==> !Truthy(GetOr(kw, "ref_text", Str("")))
    ensures u.Some? ==> u.value == Upload(filename, content, "audio/wav", map["ref_text" := kw["ref_text"]])
  {
    var refText := GetOr(kw, "ref_text", Str(""));
    if !Truthy(refText) then None
    else Some(Upload(filename, content, "audio/wav", map["ref_text" := refText]))
  }

  /**
   * `upload_voice`: the guard's failure when there is no reference text;
   * otherwise, for the backend's reply to the upload, its `success` and
   * `message` and its `ref_id` as `voice_id` on a 2xx response, or `success`
   * False with the exception's message.
   */
  function UploadVoice(content: Bytes, filename: string, voiceId: string, kw: Dict, post: Upload -> Reply<Dict>)
    : (r: Dict)
    ensures "success" in r && "message" in r
    ensures UploadRequest(content, filename, kw).None? ==>
      r == map["success" := Bool(false), "message" := Str(MissingRefText)]
    ensures Truthy(r["success"]) ==>
      && UploadRequest(content, filename, kw).Some?
      && var reply := post(UploadRequest(content, filename, kw).value);
         reply.Response? && IsSuccess(reply.status) && Truthy(Get(reply.body, "success"))
    ensures UploadRequest(content, filename, kw).Some? ==>
      var reply := post(UploadRequest(content, filename, kw).value);
      && (reply.Failed? ==> r == map["success" := Bool(false), "message" := Str(reply.message)])
      && (reply.Response? && !IsSuccess(reply.status) ==>
            r == map["success" := Bool(false), "message" := Str(reply.statusError)])
      && (reply.Response? && IsSuccess(reply.status) ==>
            && r.Keys == {"success", "message", "voice_id"} && r["voice_id"] == Get(reply.body, "ref_id")
            && ("success" in reply.body ==> r["success"] == reply.body["success"])
            && ("success" !in reply.body ==> r["success"] == Bool(false))
            && ("message" in reply.body ==> r["message"] == reply.body["message"])
            && ("message" !in reply.body ==> r["message"] == Str("")))
  {
    match UploadRequest(content, filename, kw)
    case None => map["success" := Bool(false), "message" := Str(MissingRefText)]
    case Some(upload) =>
      match post(upload)
      case Failed(message) => map["success" := Bool(false), "message" := Str(message)]
      case Response(status, result, statusError) =>
        if !IsSuccess(status) then map["success" := Bool(false), "message" := Str(statusError)]
        else map["success" := GetOr(result, "success", Bool(false)),
                 "message" := GetOr(result, "message", Str("")),
                 "voice_id" := Get(result, "ref_id")]
  }

  /** The voice id the gateway passes plays no part in a Qwen3-TTS upload. */
  lemma UploadIgnoresVoiceId(content: Bytes, filename: string, a: string, b: string, kw: Dict, post: Upload -> Reply<Dict>)
    ensures UploadVoice(content, filename, a, kw, post) == UploadVoice(content, filename, b, kw, post)
  {
  }
}
