/**
 * The voices routes: the listing, dispatched on the `backend` query
 * parameter, and the upload with its file-name and size checks and the
 * mapping of the service's result to the response (gateway/api/v1/voices.py).
 */
module VoicesApi {
  import opened Wrappers
  import opened PyValues
  import opened Text
  import opened Adapters
  import opened AdapterRegistry
  import opened GatewayConfig
  import opened ApiTypes
  import opened VoiceService

  /** `GET /voices`: with a non-empty `backend` only that backend's voices, otherwise all of them. */
  method ListVoices(reg: Registry, backend: Option<string>, listing: Listing) returns (response: VoicesResponse)
    requires reg.Valid()
    ensures backend.Some? && backend.value != "" ==> response == ListVoicesByBackend(reg, backend.value, listing)
    ensures !(backend.Some? && backend.value != "") ==>
      response.voices == AllVoices(reg.ids, reg.adapters, listing) && response.total == |response.voices|
  {
    if backend.Some? && backend.value != "" {
      return ListVoicesByBackend(reg, backend.value, listing);
    }
    response := ListAllVoices(reg, listing);
  }

  /** The upload form as sent: a field the client left out is `None`. */
  datatype UploadForm = UploadForm(voiceId: Option<string>, backend: Option<string>, emotion: Option<string>,
                                   refText: Option<string>)

  /** The form fields after their declared defaults apply. */
  datatype UploadFields = UploadFields(voiceId: string, backend: string, emotion: string, refText: Option<string>)

  /** `Form(default=...)`: voice id "default", backend "indextts-2.0", emotion "default", no reference text. */
  function WithDefaults(form: UploadForm): (f: UploadFields)
    ensures form.voiceId.None? ==> f.voiceId == "default"
    ensures form.backend.None? ==> f.backend == IndexId
    ensures form.emotion.None? ==> f.emotion == "default"
    ensures f.refText == form.refText
    ensures form.voiceId.Some? ==> f.voiceId == form.voiceId.value
    ensures form.backend.Some? ==> f.backend == form.backend.value
    ensures form.emotion.Some? ==> f.emotion == form.emotion.value
  {
    UploadFields(form.voiceId.GetOr("default"), form.backend.GetOr(IndexId), form.emotion.GetOr("default"), form.refText)
  }

  /** `VoiceUploadResponse`; `visibility` is never set by this route. */
  datatype UploadResponse = UploadResponse(success: bool, message: string, voiceId: Option<string>,
                                           emotion: Option<string>, backend: Option<string>,
                                           visibility: Option<Visibility>)

  /** The route's answer: the response, an `HTTPException`, or a result the response model rejects. */
  datatype Answer = Answered(response: UploadResponse) | HttpError(status: nat, detail: string) | InvalidResult

  /** An optional string field of the response: `None` or a string. */
  function OptionalText(v: Value): Option<Option<string>> {
    match v
    case Null => Some(None)
    case Str(s) => Some(Some(s))
    case _ => None
  }

  /**
   * The response built from the service's result: `success` defaults to
   * False and `message` to "", `voice_id`, `emotion` and `backend` to `None`.
   */
  function ToResponse(result: Dict): (a: Answer)
    ensures !a.HttpError?
    ensures a.Answered? ==> Bool(a.response.success) == GetOr(result, "success", Bool(false))
    ensures a.Answered? ==> Str(a.response.message) == GetOr(result, "message", Str(""))
    ensures a.Answered? ==> a.response.visibility.None?
  {
    var success := GetOr(result, "success", Bool(false));
    var message := GetOr(result, "message", Str(""));
    var voiceId := OptionalText(Get(result, "voice_id"));
    var emotion := OptionalText(Get(result, "emotion"));
    var backend := OptionalText(Get(result, "backend"));
    if success.Bool? && message.Str? && voiceId.Some? && emotion.Some? && backend.Some? then
      Answered(UploadResponse(success.b, message.s, voiceId.value, emotion.value, backend.value, None))
    else InvalidResult
  }

  /** A result without `success` and `message` answers a failure with an empty message. */
  lemma ResponseDefaults(result: Dict)
    requires "success" !in result && "message" !in result
    requires "voice_id" !in result && "emotion" !in result && "backend" !in result
    ensures ToResponse(result) == Answered(UploadResponse(false, "", None, None, None, None))
  {
  }

  /** The extra keywords the route passes on: the emotion, and the reference text or `None`. */
  function UploadKwargs(f: UploadFields): (kw: Dict)
    ensures kw.Keys == {"emotion", "ref_text"}
    ensures kw["emotion"] == Str(f.emotion)
    ensures f.refText.None? <==> kw["ref_text"] == Null
    ensures f.refText.Some? ==> kw["ref_text"] == Str(f.refText.value)
  {
    map["emotion" := Str(f.emotion), "ref_text" := if f.refText.Some? then Str(f.refText.value) else Null]
  }

  /** The largest accepted upload, 10 MiB. */
  const MaxUploadSize: nat := 10 * 1024 * 1024

  /**
   * `POST /voices/upload`: a missing file name or one not ending in ".wav"
   * (in any case) is refused with 400, and so is content over 10 MiB; otherwise
   * the service uploads with the form's emotion and reference text as extra
   * keywords. `upload` is what the backend's adapter does with a call.
   */
  function UploadVoice(filename: Option<string>, content: Bytes, form: UploadForm, reg: Registry, upload: Uploader)
    : (a: Answer)
    ensures filename.None? || !IsWavName(filename.value) ==> a == HttpError(400, "仅支持 .wav 格式")
    ensures filename.Some? && IsWavName(filename.value) && |content| > MaxUploadSize ==>
      a == HttpError(400, "文件过大，最大支持 10MB")
    ensures a.HttpError? ==> filename.None? || !IsWavName(filename.value) || |content| > MaxUploadSize
    ensures filename.Some? && IsWavName(filename.value) && |content| <= MaxUploadSize ==>
      var f := WithDefaults(form);
      a == ToResponse(VoiceService.UploadVoice(reg, f.backend, UploadCall(content, filename.value, f.voiceId, UploadKwargs(f)), upload))
  {
    if filename.None? || filename.value == "" || !IsWavName(filename.value) then HttpError(400, "仅支持 .wav 格式")
    else if |content| > MaxUploadSize then HttpError(400, "文件过大，最大支持 10MB")
    else
      var f := WithDefaults(form);
      ToResponse(VoiceService.UploadVoice(reg, f.backend, UploadCall(content, filename.value, f.voiceId, UploadKwargs(f)), upload))
  }

  /**
   * A valid upload whose adapter raises answers a failure carrying the
   * exception's message and the backend, with no voice id or emotion.
   */
  lemma AdapterFailureAnswered(filename: string, content: Bytes, form: UploadForm, reg: Registry, upload: Uploader)
    requires IsWavName(filename) && |content| <= MaxUploadSize
    requires var f := WithDefaults(form);
      f.backend in reg.adapters && upload(reg.adapters[f.backend], UploadCall(content, filename, f.voiceId, UploadKwargs(f))).Raise?
    ensures var f := WithDefaults(form);
      var m := upload(reg.adapters[f.backend], UploadCall(content, filename, f.voiceId, UploadKwargs(f))).message;
      UploadVoice(Some(filename), content, form, reg, upload) == Answered(UploadResponse(false, m, None, None, Some(f.backend), None))
  {
    assert "voice_id"[0] != "success"[0] && "voice_id"[0] != "message"[0] && "voice_id"[0] != "backend"[0];
    assert "emotion"[0] != "success"[0] && "emotion"[0] != "message"[0] && "emotion"[0] != "backend"[0];
  }

  /**
   * A valid upload whose adapter reports success with string fields answers
   * success with the adapter's message, voice id and emotion, and the backend.
   */
  lemma AdapterSuccessAnswered(filename: string, content: Bytes, form: UploadForm, reg: Registry, upload: Uploader,
                               message: string, voiceId: string, emotion: string)
    requires IsWavName(filename) && |content| <= MaxUploadSize
    requires var f := WithDefaults(form);
      && f.backend in reg.adapters
      && upload(reg.adapters[f.backend], UploadCall(content, filename, f.voiceId, UploadKwargs(f)))
         == Ok(map["success" := Bool(true), "message" := Str(message), "voice_id" := Str(voiceId), "emotion" := Str(emotion)])
    ensures UploadVoice(Some(filename), content, form, reg, upload)
         == Answered(UploadResponse(true, message, Some(voiceId), Some(emotion), Some(WithDefaults(form).backend), None))
  {
  }

  /** A ".wav" file of exactly 10 MiB passes both checks. */
  lemma ExactlyMaxSizeAccepted(filename: string, content: Bytes, form: UploadForm, reg: Registry, upload: Uploader)
    requires IsWavName(filename) && |content| == MaxUploadSize
    ensures !UploadVoice(Some(filename), content, form, reg, upload).HttpError?
  {
  }

  /**
   * The frontend uploads IndexTTS voices under the backend id "indextts",
   * which the gateway never registers: from a freshly initialised registry
   * the upload answers a failure naming that backend, without any adapter.
   */
  lemma IndexAliasUploadFails(settings: Settings, filename: string, content: Bytes, form: UploadForm, upload: Uploader)
    requires IsWavName(filename) && |content| <= MaxUploadSize
    requires form.backend == Some("indextts")
    ensures UploadVoice(Some(filename), content, form, Initialized(EmptyRegistry, settings), upload)
         == Answered(UploadResponse(false, "后端不存在: indextts", None, None, None, None))
  {
    InitializedFromEmpty(settings);
    var reg := Initialized(EmptyRegistry, settings);
    assert "indextts" != QwenId && "indextts" != IndexId by {
      assert "indextts"[0] != QwenId[0] && |"indextts"| != |IndexId|;
    }
    assert "indextts" !in reg.adapters;
    assert "后端不存在: " + "indextts" == "后端不存在: indextts";
    var r := VoiceService.UploadVoice(reg, "indextts", UploadCall(content, filename, WithDefaults(form).voiceId,
      map["emotion" := Str(WithDefaults(form).emotion), "ref_text" := if form.refText.Some? then Str(form.refText.value) else Null]), upload);
    assert r == map["success" := Bool(false), "message" := Str("后端不存在: indextts")];
    assert "voice_id" !in r && "emotion" !in r && "backend" !in r by {
      assert "voice_id"[0] != "success"[0] && "voice_id"[0] != "message"[0];
      assert "emotion"[0] != "success"[0] && "emotion"[0] != "message"[0];
      assert "backend"[0] != "success"[0] && "backend"[0] != "message"[0];
    }
  }
}
