/** Transient UI state (frontend/lib/store/uiStore.ts). */
module UiStore {
  datatype Panel = SettingsPanel | ResultsPanel

  /** The tab of the voice library page; its wire ids are literal strings. */
  datatype VoicesTab = AllTab | QwenTab | IndexTab {
    function Id(): string {
      match this
      case AllTab => "all"
      case QwenTab => "qwen3-tts"
      case IndexTab => "indextts"
    }
  }

  datatype ModalName = VoiceUploadModal | SettingsModal | AudioPreviewModal

  datatype Modals = Modals(voiceUpload: bool, settings: bool, audioPreview: bool)

  function IsOpen(ms: Modals, name: ModalName): bool {
    match name
    case VoiceUploadModal => ms.voiceUpload
    case SettingsModal => ms.settings
    case AudioPreviewModal => ms.audioPreview
  }

  /** `{ ...modals, [name]: value }`: one flag changes, the others stay. */
  function SetModal(ms: Modals, name: ModalName, value: bool): (r: Modals)
    ensures IsOpen(r, name) == value
    ensures forall other: ModalName :: other != name ==> IsOpen(r, other) == IsOpen(ms, other)
  {
    match name
    case VoiceUploadModal => ms.(voiceUpload := value)
    case SettingsModal => ms.(settings := value)
    case AudioPreviewModal => ms.(audioPreview := value)
  }

  const AllClosed := Modals(false, false, false)

  class UiStore {
    var sidebarCollapsed: bool
    var isGenerating: bool
    var activePanel: Panel
    var voicesTab: VoicesTab
    var modals: Modals
    /** Every value passed to `setIsGenerating`, in order. */
    ghost var generatingLog: seq<bool>

    ghost predicate Valid()
      reads this
    {
      isGenerating == (if generatingLog == [] then false else generatingLog[|generatingLog| - 1])
    }

    constructor ()
      ensures Valid()
      ensures !sidebarCollapsed && !isGenerating && activePanel == SettingsPanel && voicesTab == AllTab
      ensures modals == AllClosed && generatingLog == []
    {
      sidebarCollapsed := false;
      isGenerating := false;
      activePanel := SettingsPanel;
      voicesTab := AllTab;
      modals := AllClosed;
      generatingLog := [];
    }

    method ToggleSidebar()
      modifies this
      ensures sidebarCollapsed == !old(sidebarCollapsed)
      ensures isGenerating == old(isGenerating) && activePanel == old(activePanel)
      ensures voicesTab == old(voicesTab) && modals == old(modals) && generatingLog == old(generatingLog)
    {
      sidebarCollapsed := !sidebarCollapsed;
    }

    method SetSidebarCollapsed(collapsed: bool)
      modifies this
      ensures sidebarCollapsed == collapsed
      ensures isGenerating == old(isGenerating) && activePanel == old(activePanel)
      ensures voicesTab == old(voicesTab) && modals == old(modals) && generatingLog == old(generatingLog)
    {
      sidebarCollapsed := collapsed;
    }

    method SetIsGenerating(generating: bool)
      requires Valid()
      modifies this
      ensures Valid()
      ensures isGenerating == generating && generatingLog == old(generatingLog) + [generating]
      ensures sidebarCollapsed == old(sidebarCollapsed) && activePanel == old(activePanel)
      ensures voicesTab == old(voicesTab) && modals == old(modals)
    {
      isGenerating := generating;
      generatingLog := generatingLog + [generating];
    }

    method SetActivePanel(panel: Panel)
      modifies this
      ensures activePanel == panel
      ensures sidebarCollapsed == old(sidebarCollapsed) && isGenerating == old(isGenerating)
      ensures voicesTab == old(voicesTab) && modals == old(modals) && generatingLog == old(generatingLog)
    {
      activePanel := panel;
    }

    method SetVoicesTab(tab: VoicesTab)
      modifies this
      ensures voicesTab == tab
      ensures sidebarCollapsed == old(sidebarCollapsed) && isGenerating == old(isGenerating)
      ensures activePanel == old(activePanel) && modals == old(modals) && generatingLog == old(generatingLog)
    {
      voicesTab := tab;
    }

    method OpenModal(name: ModalName)
      modifies this
      ensures modals == SetModal(old(modals), name, true)
      ensures sidebarCollapsed == old(sidebarCollapsed) && isGenerating == old(isGenerating)
      ensures activePanel == old(activePanel) && voicesTab == old(voicesTab) && generatingLog == old(generatingLog)
    {
      modals := SetModal(modals, name, true);
    }

    method CloseModal(name: ModalName)
      modifies this
      ensures modals == SetModal(old(modals), name, false)
      ensures sidebarCollapsed == old(sidebarCollapsed) && isGenerating == old(isGenerating)
      ensures activePanel == old(activePanel) && voicesTab == old(voicesTab) && generatingLog == old(generatingLog)
    {
      modals := SetModal(modals, name, false);
    }

    method CloseAllModals()
      modifies this
      ensures modals == AllClosed
      ensures sidebarCollapsed == old(sidebarCollapsed) && isGenerating == old(isGenerating)
      ensures activePanel == old(activePanel) && voicesTab == old(voicesTab) && generatingLog == old(generatingLog)
    {
      modals := AllClosed;
    }
  }

  /** Opening and then closing a modal restores its flag and leaves the others alone. */
  lemma OpenThenClose(ms: Modals, name: ModalName)
    ensures SetModal(SetModal(ms, name, true), name, false) == SetModal(ms, name, false)
    ensures !IsOpen(ms, name) ==> SetModal(SetModal(ms, name, true), name, false) == ms
  {
  }

  /** Closing every modal one by one is `closeAllModals`. */
  lemma CloseEachIsCloseAll(ms: Modals)
    ensures SetModal(SetModal(SetModal(ms, VoiceUploadModal, false), SettingsModal, false), AudioPreviewModal, false) == AllClosed
    ensures forall name: ModalName :: !IsOpen(AllClosed, name)
  {
  }
}
