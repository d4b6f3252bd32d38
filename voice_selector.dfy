/** The studio's voice picker (frontend/components/studio/VoiceSelector.tsx). */
module VoiceSelector {
  import opened Wrappers
  import opened Seqs
  import opened ApiTypes
  import VoicesPage
  import TtsStore

  /** The backend string the picker filters by: 'qwen3-tts', or the literal 'indextts' for any other model. */
  function PickerBackend(model: ModelType): (b: string)
    requires model != Auto
    ensures model == Qwen3Tts ==> b == "qwen3-tts"
    ensures model != Qwen3Tts ==> b == "indextts"
  {
    if model == Qwen3Tts then "qwen3-tts" else "indextts"
  }

  /** `filteredVoices`: all voices under 'auto', otherwise those of the model's backend string. */
  function FilterByModel(voices: Option<seq<VoiceInfo>>, model: ModelType): (r: seq<VoiceInfo>)
    ensures voices.None? ==> r == []
    ensures voices.Some? && model == Auto ==> r == voices.value
    ensures voices.Some? ==> IsSubsequence(r, voices.value)
    ensures model != Auto ==> forall v :: v in r <==> voices.Some? && v in voices.value && v.backend == PickerBackend(model)
  {
    match voices
    case None => []
    case Some(vs) =>
      SubsequenceReflexive(vs);
      if model == Auto then vs else Filter(vs, (v: VoiceInfo) => v.backend == PickerBackend(model))
  }

  /**
   * The gateway tags IndexTTS voices with its backend id 'indextts-2.0', so
   * under the IndexTTS model the picker shows none of them.
   */
  lemma GatewayIndexVoicesHidden(vs: seq<VoiceInfo>, v: VoiceInfo)
    requires v.backend == "indextts-2.0"
    ensures v !in FilterByModel(Some(vs), IndexTts20)
  {
  }

  /** `groupedVoices`: the shared per-backend grouping over the filtered list. */
  method GroupedVoices(voices: Option<seq<VoiceInfo>>, model: ModelType)
    returns (groups: map<string, seq<VoiceInfo>>, order: seq<string>)
    ensures forall b :: b in groups ==> groups[b] == VoicesPage.OfBackend(FilterByModel(voices, model), b)
    ensures forall v :: v in FilterByModel(voices, model) ==> v.backend in groups
    ensures order == VoicesPage.FirstSeen(FilterByModel(voices, model))
    ensures Distinct(order) && forall b :: b in order <==> b in groups
  {
    var filtered := FilterByModel(voices, model);
    groups, order := VoicesPage.GroupByBackend(filtered);
  }

  /** A model other than 'auto' yields at most one group, keyed by its backend string. */
  lemma SingleGroupForModel(voices: Option<seq<VoiceInfo>>, model: ModelType, b: string)
    requires model != Auto
    requires VoicesPage.OfBackend(FilterByModel(voices, model), b) != []
    ensures b == PickerBackend(model)
  {
    var r := FilterByModel(voices, model);
    VoicesPage.OfBackendCounts(r, b);
    var g := VoicesPage.OfBackend(r, b);
    assert g[0] in g;
  }

  /** Clicking a voice card: `setConfig({ voice: voice.id })`. */
  method PickVoice(store: TtsStore.ConfigStore, voiceId: string)
    modifies store
    ensures store.config == old(store.config).(voice := voiceId) && store.inputText == old(store.inputText)
  {
    store.SetConfig(TtsStore.ConfigPatch(voice := Some(voiceId)));
  }
}
