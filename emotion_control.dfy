/** The emotion panel of the studio (frontend/components/studio/EmotionControl.tsx). */
module EmotionControlPanel {
  import opened Wrappers
  import opened ApiTypes
  import opened Models
  import opened Text
  import TtsStore

  // ---------------------------------------------------------------- knob

  function Clamp(x: real, lo: real, hi: real): (r: real)
    requires lo <= hi
    ensures lo <= r <= hi
    ensures lo <= x <= hi ==> r == x
  {
    if x < lo then lo else if x > hi then hi else x
  }

  /** `Math.round(x)`: the nearest integer, halves rounded up. */
  function JsRound(x: real): (k: int)
    ensures x - 0.5 < k as real <= x + 0.5
  {
    (x + 0.5).Floor
  }

  /** The knob's new value in tenths: `Math.round(clamp(value + dy * 0.01, 0, 1.4) * 10)`. */
  function KnobTenths(value: real, deltaY: real): (k: int)
    ensures 0 <= k <= 14
  {
    JsRound(Clamp(value + deltaY * 0.01, 0.0, MaxComponent) * 10.0)
  }

  /** The value a knob drag stores: always in [0, 1.4] and on the 0.1 grid. */
  function KnobValue(value: real, deltaY: real): (r: real)
    ensures 0.0 <= r <= MaxComponent
    ensures r * 10.0 == KnobTenths(value, deltaY) as real
    ensures var c := Clamp(value + deltaY * 0.01, 0.0, MaxComponent); c - 0.05 < r <= c + 0.05
  {
    KnobTenths(value, deltaY) as real / 10.0
  }

  /** A knob already on the grid stays put when the drag does not move it. */
  lemma KnobStableOnGrid(k: int)
    requires 0 <= k <= 14
    ensures KnobValue(k as real / 10.0, 0.0) == k as real / 10.0
  {
    var v := k as real / 10.0;
    assert Clamp(v + 0.0 * 0.01, 0.0, MaxComponent) == v;
    assert v * 10.0 == k as real;
    assert JsRound(k as real) == k;
  }

  // ---------------------------------------------------------------- sum and warning

  /** `values.reduce((a, b) => a + b, 0)`. */
  function FoldSum(xs: seq<real>): real {
    if xs == [] then 0.0 else FoldSum(xs[..|xs| - 1]) + xs[|xs| - 1]
  }

  /** The displayed sum is the sum of the eight dimensions. */
  function VectorSum(v: EmotionVector): (s: real)
    ensures s == Sum(v)
  {
    FoldSumEight(Values(v));
    FoldSum(Values(v))
  }

  lemma FoldSumEight(xs: seq<real>)
    requires |xs| == 8
    ensures FoldSum(xs) == xs[0] + xs[1] + xs[2] + xs[3] + xs[4] + xs[5] + xs[6] + xs[7]
  {
    assert xs[..0] == [];
    FoldSumStep(xs, 0); FoldSumStep(xs, 1); FoldSumStep(xs, 2); FoldSumStep(xs, 3);
    FoldSumStep(xs, 4); FoldSumStep(xs, 5); FoldSumStep(xs, 6); FoldSumStep(xs, 7);
    assert xs[..8] == xs;
  }

  lemma FoldSumStep(xs: seq<real>, k: nat)
    requires k < |xs|
    ensures FoldSum(xs[..k + 1]) == FoldSum(xs[..k]) + xs[k]
  {
    assert xs[..k + 1][..k] == xs[..k];
  }

  /** The warning is shown iff the sum exceeds 1.5; it changes nothing else. */
  predicate IsVectorWarning(v: EmotionVector): (b: bool)
    ensures b <==> v.happy + v.angry + v.sad + v.fear + v.disgust + v.low + v.surprise + v.calm > 1.5
  {
    VectorSum(v) > SoftSumLimit
  }

  lemma DefaultVectorNoWarning()
    ensures !IsVectorWarning(DefaultEmotionVector())
  {
  }

  // ---------------------------------------------------------------- ambient colour

  /**
   * `entries.reduce((a, b) => a[1] > b[1] ? a : b)` started at entry `best`
   * and continued from entry `k`: the kept entry is replaced on ties.
   */
  function ArgMaxFrom(xs: seq<real>, best: nat, k: nat): (i: nat)
    requires best < k <= |xs|
    requires forall j :: 0 <= j < k ==> xs[j] <= xs[best]
    requires forall j :: best < j < k ==> xs[j] < xs[best]
    ensures i < |xs|
    ensures forall j :: 0 <= j < |xs| ==> xs[j] <= xs[i]
    ensures forall j :: i < j < |xs| ==> xs[j] < xs[i]
    decreases |xs| - k
  {
    if k == |xs| then best
    else ArgMaxFrom(xs, if xs[best] > xs[k] then best else k, k + 1)
  }

  /** The last position holding the maximum. */
  function DominantIndex(xs: seq<real>): (i: nat)
    requires |xs| > 0
    ensures i < |xs|
    ensures forall j :: 0 <= j < |xs| ==> xs[j] <= xs[i]
    ensures forall j :: i < j < |xs| ==> xs[j] < xs[i]
  {
    ArgMaxFrom(xs, 0, 1)
  }

  function GlowColor(d: Dimension): (c: string)
    ensures c != "" && c != "transparent"
  {
    match d
    case Happy => "rgba(16, 185, 129, 0.1)"
    case Angry => "rgba(239, 68, 68, 0.1)"
    case Sad => "rgba(59, 130, 246, 0.1)"
    case Fear => "rgba(245, 158, 11, 0.1)"
    case Disgust => "rgba(168, 85, 247, 0.1)"
    case Surprise => "rgba(236, 72, 153, 0.1)"
    case Calm => "rgba(6, 182, 212, 0.1)"
    case Low => "rgba(100, 116, 139, 0.1)"
  }

  /** The dominant dimension: maximal, and later dimensions win ties. */
  function Dominant(v: EmotionVector): (d: Dimension)
    ensures forall e: Dimension :: Component(v, e) <= Component(v, d)
    ensures forall e: Dimension :: DimensionIndex(d) < DimensionIndex(e) ==> Component(v, e) < Component(v, d)
  {
    var xs := Values(v);
    var i := DominantIndex(xs);
    var ds := EmotionDimensions();
    assert forall e: Dimension :: xs[DimensionIndex(e)] == Component(v, e);
    assert forall j :: 0 <= j < 8 ==> DimensionIndex(ds[j].key) == j;
    ds[i].key
  }

  /** `getAmbientColor()`. */
  function AmbientColor(v: EmotionVector): (c: string)
    ensures c == "transparent" <==> forall d: Dimension :: Component(v, d) <= 0.3
    ensures c != "transparent" ==> c == GlowColor(Dominant(v))
  {
    var d := Dominant(v);
    if Component(v, d) > 0.3 then GlowColor(d) else "transparent"
  }

  /** The default vector glows in the calm colour. */
  lemma DefaultGlowIsCalm()
    ensures AmbientColor(DefaultEmotionVector()) == GlowColor(Calm)
  {
    assert Dominant(DefaultEmotionVector()) == Calm;
  }

  // ---------------------------------------------------------------- handlers

  datatype PickedFile = PickedFile(name: string, size: int)

  /** The emotion-audio upload endpoint's reply. */
  datatype UploadReply = UploadReply(success: bool, filePath: Option<string>, message: Option<string>)

  const MaxEmotionAudioBytes := 10 * 1024 * 1024

  /** The patch a knob sends: one dimension, the value as given. */
  function SingleDimension(d: Dimension, x: real): (p: TtsStore.VectorPatch)
    ensures TtsStore.PatchComponent(p, d) == Some(x)
    ensures forall e: Dimension :: e != d ==> TtsStore.PatchComponent(p, e) == None
  {
    match d
    case Happy => TtsStore.VectorPatch(happy := Some(x))
    case Angry => TtsStore.VectorPatch(angry := Some(x))
    case Sad => TtsStore.VectorPatch(sad := Some(x))
    case Fear => TtsStore.VectorPatch(fear := Some(x))
    case Disgust => TtsStore.VectorPatch(disgust := Some(x))
    case Low => TtsStore.VectorPatch(low := Some(x))
    case Surprise => TtsStore.VectorPatch(surprise := Some(x))
    case Calm => TtsStore.VectorPatch(calm := Some(x))
  }

  /** A knob change moves one dimension to the given value and keeps the rest. */
  lemma KnobChangesOneDimension(v: EmotionVector, d: Dimension, x: real)
    ensures Component(TtsStore.MergeVector(v, SingleDimension(d, x)), d) == x
    ensures forall e: Dimension :: e != d ==> Component(TtsStore.MergeVector(v, SingleDimension(d, x)), e) == Component(v, e)
  {
  }

  function WithControl(c: TtsConfig, p: TtsStore.ControlPatch): TtsConfig {
    c.(emotionControl := TtsStore.MergeControl(c.emotionControl, p))
  }

  class EmotionPanel {
    var isUploading: bool
    var uploadError: Option<string>
    var uploadedFileName: Option<string>

    constructor ()
      ensures !isUploading && uploadError == None && uploadedFileName == None
    {
      isUploading := false;
      uploadError := None;
      uploadedFileName := None;
    }

    method HandleModeChange(mode: EmotionMode, store: TtsStore.ConfigStore)
      modifies this, store
      ensures store.config == WithControl(old(store.config), TtsStore.ControlPatch(mode := Some(mode)))
      ensures store.inputText == old(store.inputText)
      ensures uploadError == None && isUploading == old(isUploading) && uploadedFileName == old(uploadedFileName)
    {
      store.SetEmotionControl(TtsStore.ControlPatch(mode := Some(mode)));
      uploadError := None;
    }

    /**
     * `handleFileUpload`. `reply` is the endpoint's answer (or the thrown
     * error's message); `called` says whether the upload was attempted.
     */
    method HandleFileUpload(file: Option<PickedFile>, reply: Outcome<UploadReply>, store: TtsStore.ConfigStore)
      returns (called: bool)
      modifies this, store
      ensures called <==> file.Some? && IsWavName(file.value.name) && file.value.size <= MaxEmotionAudioBytes
      ensures store.inputText == old(store.inputText)
      ensures file.None? ==> (store.config == old(store.config) && uploadError == old(uploadError)
        && uploadedFileName == old(uploadedFileName) && isUploading == old(isUploading))
      ensures file.Some? && !IsWavName(file.value.name) ==>
        (uploadError == Some("Only .wav format supported") && store.config == old(store.config)
        && uploadedFileName == old(uploadedFileName) && isUploading == old(isUploading))
      ensures file.Some? && IsWavName(file.value.name) && file.value.size > MaxEmotionAudioBytes ==>
        (uploadError == Some("File too large (max 10MB)") && store.config == old(store.config)
        && uploadedFileName == old(uploadedFileName) && isUploading == old(isUploading))
      ensures called ==> !isUploading
      ensures called && reply.Ok? && reply.value.success && reply.value.filePath.Some? && reply.value.filePath.value != "" ==>
        (store.config == WithControl(old(store.config), TtsStore.ControlPatch(emoAudioPath := Some(reply.value.filePath)))
        && uploadedFileName == Some(file.value.name) && uploadError == None)
      ensures called && reply.Ok? && !(reply.value.success && reply.value.filePath.Some? && reply.value.filePath.value != "") ==>
        (store.config == old(store.config) && uploadedFileName == old(uploadedFileName)
        && uploadError == Some(if reply.value.message.Some? && reply.value.message.value != "" then reply.value.message.value else "Upload failed"))
      ensures called && reply.Raise? ==>
        (store.config == old(store.config) && uploadedFileName == old(uploadedFileName) && uploadError == Some(reply.message))
    {
      if file.None? {
        return false;
      }
      var f := file.value;
      if !IsWavName(f.name) {
        uploadError := Some("Only .wav format supported");
        return false;
      }
      if f.size > MaxEmotionAudioBytes {
        uploadError := Some("File too large (max 10MB)");
        return false;
      }
      called := true;
      isUploading := true;
      uploadError := None;
      match reply {
        case Ok(r) =>
          if r.success && r.filePath.Some? && r.filePath.value != "" {
            store.SetEmotionControl(TtsStore.ControlPatch(emoAudioPath := Some(r.filePath)));
            uploadedFileName := Some(f.name);
          } else {
            uploadError := Some(if r.message.Some? && r.message.value != "" then r.message.value else "Upload failed");
          }
        case Raise(msg) =>
          uploadError := Some(msg);
      }
      isUploading := false;
    }

    method HandleClearUpload(store: TtsStore.ConfigStore)
      modifies this, store
      ensures store.config == old(store.config).(emotionControl := old(store.config.emotionControl).(emoAudioPath := None))
      ensures store.inputText == old(store.inputText)
      ensures uploadedFileName == None && uploadError == old(uploadError) && isUploading == old(isUploading)
    {
      store.SetEmotionControl(TtsStore.ControlPatch(emoAudioPath := Some(None)));
      uploadedFileName := None;
    }

    /** A knob's `onChange`: `setEmotionVector({ [key]: value })`. */
    method HandleVectorChange(d: Dimension, x: real, store: TtsStore.ConfigStore)
      modifies store
      ensures store.config == TtsStore.WithVector(old(store.config), TtsStore.MergeVector(old(store.config.emotionControl.emoVector), SingleDimension(d, x)))
      ensures store.inputText == old(store.inputText)
    {
      store.SetEmotionVector(SingleDimension(d, x));
    }
  }
}
