/** The voice upload form (frontend/components/voices/VoiceUploader.tsx). */
module VoiceUploader {
  import opened Wrappers
  import opened Text

  /** The form's backend choice; its values are the literal strings below. */
  datatype UploadBackend = QwenUpload | IndexUpload {
    function Id(): string {
      match this
      case QwenUpload => "qwen3-tts"
      case IndexUpload => "indextts"
    }
  }

  datatype PickedFile = PickedFile(name: string, size: int)

  /** The arguments handed to the upload mutation. */
  datatype UploadCall = UploadCall(file: PickedFile, voiceId: string, backend: UploadBackend,
                                   emotion: Option<string>, refText: Option<string>)

  const MaxVoiceFileBytes := 50 * 1024 * 1024

  /** `name.replace(/\.wav$/i, '')`: the name without a trailing `.wav` in any case. */
  function StripWav(name: string): (r: string)
    ensures r <= name
    ensures IsWavName(name) ==> |r| == |name| - 4
    ensures !IsWavName(name) ==> r == name
  {
    if IsWavName(name) then name[..|name| - 4] else name
  }

  /** What `handleSubmit` sends for the given form state, if anything. */
  function SubmitCall(file: Option<PickedFile>, voiceId: string, backend: UploadBackend,
                      emotion: string, refText: string): (c: Option<UploadCall>)
    ensures c.Some? <==> file.Some? && !IsBlank(voiceId)
    ensures c.Some? ==> c.value.file == file.value && c.value.voiceId == Trim(voiceId, JavaScript) && c.value.backend == backend
    ensures c.Some? ==> (c.value.emotion.Some? <==> backend == IndexUpload) && (c.value.refText.Some? <==> backend == QwenUpload)
    ensures c.Some? && backend == IndexUpload ==> c.value.emotion == Some(emotion)
    ensures c.Some? && backend == QwenUpload ==> c.value.refText == Some(refText)
  {
    if file.None? || IsBlank(voiceId) then None
    else Some(UploadCall(file.value, Trim(voiceId, JavaScript), backend,
                         if backend == IndexUpload then Some(emotion) else None,
                         if backend == QwenUpload then Some(refText) else None))
  }

  /** A submitted id is never blank, and only one backend-specific option travels. */
  lemma SubmittedCallShape(file: Option<PickedFile>, voiceId: string, backend: UploadBackend, emotion: string, refText: string)
    requires SubmitCall(file, voiceId, backend, emotion, refText).Some?
    ensures var c := SubmitCall(file, voiceId, backend, emotion, refText).value;
      Trim(c.voiceId, JavaScript) == c.voiceId && c.voiceId != [] && !(c.emotion.Some? && c.refText.Some?)
  {
    var c := SubmitCall(file, voiceId, backend, emotion, refText).value;
    TrimIdempotent(voiceId);
  }

  lemma TrimIdempotent(s: string)
    ensures Trim(Trim(s, JavaScript), JavaScript) == Trim(s, JavaScript)
    ensures IsBlank(s) <==> Trim(s, JavaScript) == []
  {
    var t := Trim(s, JavaScript);
    if t != [] {
      assert !IsJsSpace(t[0]) && !IsJsSpace(t[|t| - 1]) by {
        var e := TrimEnd(s, JavaScript);
        assert t == e[|e| - |t|..];
      }
    }
  }

  class VoiceUploaderForm {
    var file: Option<PickedFile>
    var voiceId: string
    var backend: UploadBackend
    var emotion: string
    var refText: string
    var error: Option<string>

    constructor ()
      ensures file == None && voiceId == "" && backend == IndexUpload
      ensures emotion == "default" && refText == "" && error == None
    {
      file := None;
      voiceId := "";
      backend := IndexUpload;
      emotion := "default";
      refText := "";
      error := None;
    }

    method HandleFileChange(selected: Option<PickedFile>)
      modifies this
      ensures backend == old(backend) && emotion == old(emotion) && refText == old(refText)
      ensures selected.None? ==> file == old(file) && voiceId == old(voiceId) && error == old(error)
      ensures selected.Some? && !IsWavName(selected.value.name) ==>
        (error == Some("仅支持 .wav 格式") && file == old(file) && voiceId == old(voiceId))
      ensures selected.Some? && IsWavName(selected.value.name) && selected.value.size > MaxVoiceFileBytes ==>
        (error == Some("文件过大，最大支持 50MB") && file == old(file) && voiceId == old(voiceId))
      ensures selected.Some? && IsWavName(selected.value.name) && selected.value.size <= MaxVoiceFileBytes ==>
        (file == selected && error == None
         && voiceId == if old(voiceId) == "" then StripWav(selected.value.name) else old(voiceId))
    {
      if selected.None? {
        return;
      }
      var f := selected.value;
      if !IsWavName(f.name) {
        error := Some("仅支持 .wav 格式");
        return;
      }
      if f.size > MaxVoiceFileBytes {
        error := Some("文件过大，最大支持 50MB");
        return;
      }
      file := selected;
      error := None;
      if voiceId == "" {
        voiceId := StripWav(f.name);
      }
    }

    /**
     * `handleSubmit`. `reply` is the upload mutation's outcome; `closed`
     * says whether the dialog's `onClose` ran.
     */
    method HandleSubmit(reply: Outcome<()>) returns (call: Option<UploadCall>, closed: bool)
      modifies this
      ensures call == SubmitCall(old(file), old(voiceId), old(backend), old(emotion), old(refText))
      ensures backend == old(backend)
      ensures call.None? ==> (error == Some("请选择文件并填写音色 ID") && !closed && file == old(file)
        && voiceId == old(voiceId) && emotion == old(emotion) && refText == old(refText))
      ensures call.Some? && reply.Ok? ==> (closed && file == None && voiceId == "" && emotion == "default"
        && refText == "" && error == old(error))
      ensures call.Some? && reply.Raise? ==> (!closed && error == Some(reply.message) && file == old(file)
        && voiceId == old(voiceId) && emotion == old(emotion) && refText == old(refText))
    {
      call := SubmitCall(file, voiceId, backend, emotion, refText);
      closed := false;
      if call.None? {
        error := Some("请选择文件并填写音色 ID");
        return;
      }
      match reply {
        case Ok(_) =>
          closed := true;
          file := None;
          voiceId := "";
          emotion := "default";
          refText := "";
        case Raise(msg) =>
          error := Some(msg);
      }
    }

    method HandleClearFile()
      modifies this
      ensures file == None && voiceId == old(voiceId) && backend == old(backend)
      ensures emotion == old(emotion) && refText == old(refText) && error == old(error)
    {
      file := None;
    }
  }
}
