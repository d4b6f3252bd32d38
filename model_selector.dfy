/** The model cards of the studio (frontend/components/studio/ModelSelector.tsx). */
module ModelSelector {
  import opened Wrappers
  import opened ApiTypes
  import TtsStore

  /** The status id a card looks up: 'qwen3-tts', or the literal 'indextts' for any other model. */
  function StatusId(model: ModelType): (id: string)
    ensures model == Qwen3Tts ==> id == "qwen3-tts"
    ensures model != Qwen3Tts ==> id == "indextts"
  {
    if model == Qwen3Tts then "qwen3-tts" else "indextts"
  }

  /** `statuses.find(s => s.id === id)`, as the index of the first match. */
  function FindStatus(statuses: seq<BackendStatus>, id: string): (r: Option<nat>)
    ensures r.None? <==> forall i :: 0 <= i < |statuses| ==> statuses[i].id != id
    ensures r.Some? ==> r.value < |statuses| && statuses[r.value].id == id
    ensures r.Some? ==> forall j :: 0 <= j < r.value ==> statuses[j].id != id
  {
    if statuses == [] then None
    else if statuses[0].id == id then Some(0)
    else match FindStatus(statuses[1..], id)
      case None => None
      case Some(k) => Some(k + 1)
  }

  /** `getBackendStatus(model)`. */
  function BackendStatusOf(model: ModelType, statuses: Option<seq<BackendStatus>>): (s: string)
    ensures model == Auto ==> s == "online"
    ensures s != ""
    ensures model != Auto && (statuses.None? || FindStatus(statuses.value, StatusId(model)).None?) ==> s == "unknown"
    ensures model != Auto && statuses.Some? && FindStatus(statuses.value, StatusId(model)).Some? ==>
      var st := statuses.value[FindStatus(statuses.value, StatusId(model)).value].status;
      s == if st != "" then st else "unknown"
  {
    if model == Auto then "online"
    else if statuses.None? then "unknown"
    else match FindStatus(statuses.value, StatusId(model))
      case None => "unknown"
      case Some(i) => if statuses.value[i].status != "" then statuses.value[i].status else "unknown"
  }

  /**
   * The gateway reports IndexTTS under 'indextts-2.0'; with no 'indextts'
   * entry the IndexTTS card reads 'unknown' whatever that backend's state.
   */
  lemma IndexCardUnknownUnderGatewayIds(statuses: seq<BackendStatus>)
    requires forall i :: 0 <= i < |statuses| ==> statuses[i].id != "indextts"
    ensures BackendStatusOf(IndexTts20, Some(statuses)) == "unknown"
  {
  }

  /** Clicking a card: `setModel(model.id)`. */
  method SelectCard(model: ModelType, store: TtsStore.ConfigStore)
    modifies store
    ensures store.config == old(store.config).(model := model) && store.inputText == old(store.inputText)
  {
    store.SetModel(model);
  }
}
