/** The generation hook (frontend/lib/hooks/useTTS.ts). */
module UseTts {
  import opened Wrappers
  import opened ApiTypes
  import opened Models
  import opened Text
  import TtsApi
  import TtsStore
  import HistoryStore
  import UiStore

  /** What the hook does, in order, as seen from outside. */
  datatype HookEvent = FlagSet(generating: bool) | BackendCall(request: TtsRequest) | ResultAdded(id: string)

  /** `text || inputText`: an empty argument falls back to the store's text. */
  function TextToGenerate(arg: Option<string>, inputText: string): (t: string)
    ensures arg.Some? && arg.value != "" ==> t == arg.value
    ensures arg.None? || arg.value == "" ==> t == inputText
  {
    if arg.Some? && arg.value != "" then arg.value else inputText
  }

  /** The events of one backend round trip; `addFirst` is `generateWithOptions`' order. */
  function RoundTrip(request: TtsRequest, added: Option<string>, addFirst: bool): (es: seq<HookEvent>)
    ensures |es| == if added.Some? then 4 else 3
    ensures es[0] == FlagSet(true) && es[1] == BackendCall(request)
    ensures forall i :: 0 <= i < |es| ==> (es[i] == FlagSet(false) <==> i == if added.Some? && !addFirst then 2 else |es| - 1)
    ensures added.Some? ==> ResultAdded(added.value) in es
  {
    match added
    case None => [FlagSet(true), BackendCall(request), FlagSet(false)]
    case Some(id) =>
      if addFirst then [FlagSet(true), BackendCall(request), ResultAdded(id), FlagSet(false)]
      else [FlagSet(true), BackendCall(request), FlagSet(false), ResultAdded(id)]
  }

  /**
   * What the hook leaves alone in the two stores it touches: every UI field
   * but the generating flag, and the history's limit and revoked URLs.
   */
  twostate predicate OthersKept(ui: UiStore.UiStore, history: HistoryStore.HistoryStore)
    reads ui, history
  {
    && ui.sidebarCollapsed == old(ui.sidebarCollapsed) && ui.activePanel == old(ui.activePanel)
    && ui.voicesTab == old(ui.voicesTab) && ui.modals == old(ui.modals)
    && history.maxHistoryItems == old(history.maxHistoryItems) && history.revoked == old(history.revoked)
  }

  /** The object URLs minted by recording a result with `url`: it alone, or none when it is empty. */
  function MintedBy(url: string): (m: set<string>)
    ensures url != "" <==> m == {url}
    ensures url == "" <==> m == {}
  {
    if url != "" then {url} else {}
  }

  class TtsHook {
    var currentResult: Option<AudioResult>
    /** The mutation's `error`. */
    var error: Option<string>
    ghost var events: seq<HookEvent>

    constructor ()
      ensures currentResult == None && error == None && events == []
    {
      currentResult := None;
      error := None;
      events := [];
    }

    /**
     * `generate(text?)`. The backend's reply, the fresh id, the object URL and
     * the clock are inputs; a blank text returns before anything happens.
     */
    method Generate(text: Option<string>, store: TtsStore.ConfigStore, ui: UiStore.UiStore,
                    history: HistoryStore.HistoryStore,
                    reply: Outcome<Blob>, freshId: string, url: string, now: int)
      returns (called: bool)
      requires ui.Valid() && history.Valid()
      requires url == "" || url !in history.minted
      modifies this, ui, history
      ensures ui.Valid() && history.Valid()
      ensures OthersKept(ui, history)
      ensures called <==> !IsBlank(TextToGenerate(text, store.inputText))
      ensures !called ==> events == old(events) && ui.generatingLog == old(ui.generatingLog)
      ensures !called ==> ui.isGenerating == old(ui.isGenerating)
      ensures !called || reply.Raise? ==> history.minted == old(history.minted)
      ensures !called ==> currentResult == old(currentResult) && error == old(error)
      ensures !called || reply.Raise? ==> history.sessionResults == old(history.sessionResults)
      ensures !called || reply.Raise? ==> history.history == old(history.history)
      ensures called ==> ui.generatingLog == old(ui.generatingLog) + [true, false] && !ui.isGenerating
      ensures called && reply.Raise? ==> error == Some(reply.message) && currentResult == old(currentResult)
      ensures called && reply.Raise? ==>
        events == old(events) + RoundTrip(TtsApi.SpeechRequest(store.config, TextToGenerate(text, store.inputText), None), None, false)
      ensures called && reply.Ok? ==>
        events == old(events) + RoundTrip(TtsApi.SpeechRequest(store.config, TextToGenerate(text, store.inputText), None), Some(freshId), false)
      ensures called && reply.Ok? ==> error == None
      ensures called && reply.Ok? ==>
        currentResult == Some(TtsApi.SpeechResult(store.config, TextToGenerate(text, store.inputText), reply.value, freshId, url, now))
      ensures called && reply.Ok? ==> history.sessionResults == [currentResult.value] + old(history.sessionResults)
      ensures called && reply.Ok? ==> history.minted == old(history.minted) + MintedBy(url)
      ensures called && reply.Ok? ==>
        history.history == HistoryStore.Capped([WithoutBlob(currentResult.value)] + old(history.history), old(history.maxHistoryItems))
    {
      var t := TextToGenerate(text, store.inputText);
      if IsBlank(t) {
        return false;
      }
      called := true;
      Mutate(t, store, ui, history, reply, freshId, url, now);
    }

    /** `mutation.mutate(text)`: the flag brackets the call; `onSuccess` runs after `finally`. */
    method Mutate(t: string, store: TtsStore.ConfigStore, ui: UiStore.UiStore,
                  history: HistoryStore.HistoryStore,
                  reply: Outcome<Blob>, freshId: string, url: string, now: int)
      requires ui.Valid() && history.Valid()
      requires url == "" || url !in history.minted
      modifies this, ui, history
      ensures ui.Valid() && history.Valid()
      ensures OthersKept(ui, history)
      ensures ui.generatingLog == old(ui.generatingLog) + [true, false] && !ui.isGenerating
      ensures reply.Raise? ==> history.sessionResults == old(history.sessionResults)
      ensures reply.Raise? ==> history.minted == old(history.minted)
      ensures reply.Ok? ==> history.minted == old(history.minted) + MintedBy(url)
      ensures reply.Raise? ==> history.history == old(history.history)
      ensures reply.Raise? ==> error == Some(reply.message) && currentResult == old(currentResult)
      ensures reply.Raise? ==> events == old(events) + RoundTrip(TtsApi.SpeechRequest(store.config, t, None), None, false)
      ensures reply.Ok? ==> events == old(events) + RoundTrip(TtsApi.SpeechRequest(store.config, t, None), Some(freshId), false)
      ensures reply.Ok? ==> error == None
      ensures reply.Ok? ==> currentResult == Some(TtsApi.SpeechResult(store.config, t, reply.value, freshId, url, now))
      ensures reply.Ok? ==> history.sessionResults == [currentResult.value] + old(history.sessionResults)
      ensures reply.Ok? ==>
        history.history == HistoryStore.Capped([WithoutBlob(currentResult.value)] + old(history.history), old(history.maxHistoryItems))
    {
      ghost var log := ui.generatingLog;
      ghost var before := events;
      error := None;
      ui.SetIsGenerating(true);
      var sent, result := TtsApi.GenerateSpeech(store.config, t, None, reply, freshId, url, now);
      ui.SetIsGenerating(false);
      assert ui.generatingLog == log + [true, false];
      if result.Raise? {
        error := Some(result.message);
      } else {
        Record(result.value, history);
      }
      events := before + RoundTrip(sent, if result.Ok? then Some(freshId) else None, false);
    }

    /** `onSuccess`: the result becomes the current one and goes into the history store. */
    method Record(r: AudioResult, history: HistoryStore.HistoryStore)
      requires history.Valid()
      requires r.audioUrl == "" || r.audioUrl !in history.minted
      modifies this, history
      ensures history.Valid()
      ensures currentResult == Some(r) && error == old(error)
      ensures events == old(events) + [ResultAdded(r.id)]
      ensures history.sessionResults == [r] + old(history.sessionResults)
      ensures history.history == HistoryStore.Capped([WithoutBlob(r)] + old(history.history), old(history.maxHistoryItems))
      ensures history.maxHistoryItems == old(history.maxHistoryItems) && history.revoked == old(history.revoked)
      ensures history.minted == old(history.minted) + MintedBy(r.audioUrl)
    {
      currentResult := Some(r);
      history.AddResult(r);
      events := events + [ResultAdded(r.id)];
    }

    /**
     * `generateWithOptions(text, options)`: no blank-text guard, the save
     * options are forwarded, and the result is recorded before the flag drops.
     */
    method GenerateWithOptions(text: string, options: Option<TtsApi.SaveOptions>, store: TtsStore.ConfigStore,
                               ui: UiStore.UiStore, history: HistoryStore.HistoryStore,
                               reply: Outcome<Blob>, freshId: string, url: string, now: int)
      returns (result: Outcome<AudioResult>)
      requires ui.Valid() && history.Valid()
      requires url == "" || url !in history.minted
      modifies this, ui, history
      ensures ui.Valid() && history.Valid()
      ensures OthersKept(ui, history)
      ensures ui.generatingLog == old(ui.generatingLog) + [true, false] && !ui.isGenerating
      ensures error == old(error)
      ensures reply.Raise? ==> history.minted == old(history.minted)
      ensures reply.Raise? ==> result == Raise(reply.message) && currentResult == old(currentResult)
      ensures reply.Raise? ==> events == old(events) + RoundTrip(TtsApi.SpeechRequest(store.config, text, options), None, true)
      ensures reply.Raise? ==> history.sessionResults == old(history.sessionResults) && history.history == old(history.history)
      ensures reply.Ok? ==> result == Ok(TtsApi.SpeechResult(store.config, text, reply.value, freshId, url, now))
      ensures reply.Ok? ==> currentResult == Some(result.value)
      ensures reply.Ok? ==> events == old(events) + RoundTrip(TtsApi.SpeechRequest(store.config, text, options), Some(freshId), true)
      ensures reply.Ok? ==> history.sessionResults == [result.value] + old(history.sessionResults)
      ensures reply.Ok? ==>
        history.history == HistoryStore.Capped([WithoutBlob(result.value)] + old(history.history), old(history.maxHistoryItems))
      ensures reply.Ok? ==> history.minted == old(history.minted) + MintedBy(url)
    {
      ghost var log := ui.generatingLog;
      ghost var before := events;
      ui.SetIsGenerating(true);
      var sent;
      sent, result := TtsApi.GenerateSpeech(store.config, text, options, reply, freshId, url, now);
      if result.Ok? {
        Record(result.value, history);
      }
      ui.SetIsGenerating(false);
      assert ui.generatingLog == log + [true, false];
      events := before + RoundTrip(sent, if result.Ok? then Some(freshId) else None, true);
    }

    /** `reset`: the mutation state and the current result are cleared. */
    method Reset()
      modifies this
      ensures currentResult == None && error == None && events == old(events)
    {
      currentResult := None;
      error := None;
    }
  }

  /** The generate button is disabled while generating or when the text is blank. */
  predicate GenerateButtonDisabled(isGenerating: bool, inputText: string): (b: bool)
    ensures b <==> isGenerating || forall i :: 0 <= i < |inputText| ==> IsJsSpace(inputText[i])
  {
    BlankIffAllSpace(inputText);
    isGenerating || IsBlank(inputText)
  }

  /** An enabled button always leads to a backend call. */
  lemma EnabledButtonCalls(isGenerating: bool, inputText: string)
    requires !GenerateButtonDisabled(isGenerating, inputText)
    ensures !IsBlank(TextToGenerate(None, inputText))
    ensures !IsBlank(TextToGenerate(Some(""), inputText))
  {
  }

  /** Every round trip leaves the flag down, whatever the outcome. */
  lemma RoundTripEndsIdle(request: TtsRequest, added: Option<string>, addFirst: bool)
    ensures FlagSet(false) in RoundTrip(request, added, addFirst)
    ensures !addFirst ==> RoundTrip(request, added, addFirst)[2] == FlagSet(false)
    ensures addFirst ==> RoundTrip(request, added, addFirst)[|RoundTrip(request, added, addFirst)| - 1] == FlagSet(false)
  {
  }
}
