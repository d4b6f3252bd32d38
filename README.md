# TTS gateway and studio — a Dafny model

This project models the logic underneath a text-to-speech system. The system has two halves.

- **The studio**, a Next.js frontend. It keeps a configuration store, a generation history, a private-key session and UI flags. It assembles the wire request from the studio configuration and its four-mode emotion control. It also validates voice uploads and filters the voice and history lists.
- **The gateway**, a FastAPI service. It validates the OpenAI-style speech request and routes it to one of two backends, Qwen3-TTS or IndexTTS 2.0. It projects each request onto that backend's own body, and it aggregates and uploads voices. It keeps a voice metadata store with public and private (key-locked) voices. Two middlewares run in front of it: a per-client token-bucket rate limiter and an access log. It reads its settings from a YAML file.

Each source file of this core is one Dafny module.

- Code that is pure becomes datatypes, functions and lemmas.
- A store or component whose fields the source updates becomes a `class`. Its methods state the whole new state and keep a `Valid()` invariant.
- A loop in the source becomes a `while` loop with its invariants. Each such loop is proved against a specification function; the properties the source promises are then proved about that function.

Everything the source does through the outside world is a parameter. This covers the network (a backend's reply, an adapter's listing, a download), the clock, fresh ids and salts, and object URLs.

Shared helper modules:

| module | file | holds |
|---|---|---|
| `Wrappers` | `wrappers.dfy` | `Option` (JavaScript `null`/`undefined`, Python `None`) and `Outcome` (a value, or the message of a raised exception) |
| `Text` | `text.dfy` | ASCII lower-casing, trimming with JavaScript's and Python's whitespace sets, suffix tests, decimal rendering |
| `Seqs` | `seqs.dfy` | filtering, distinctness and subsequences |
| `PyValues` | `pyvalues.dfy` | the values that flow through Python dictionaries, with Python's truthiness |
| `HttpExchange` | `http.dfy` | the part of a request and response that the middlewares read and write |
| `WireFormat` | `wire_format.dfy` | the studio's request as the gateway reads it, joining the two halves |

## Model

| member | source | states |
|---|---|---|
| Models.EmotionDimensions | frontend/types/models.ts:96-105 | the eight dimensions, each exactly once, in the declared order happy … calm |
| Models.Values | frontend/types/models.ts:6-15 | `Object.values` of a vector lists the eight components in `EMOTION_DIMENSIONS` order |
| Models.DefaultEmotionVector | frontend/types/models.ts:108-117 | calm is 0.5 and every other dimension 0; the vector is in range and its sum stays under the warning limit |
| Models.DefaultEmotionControl | frontend/types/models.ts:119-125 | preset mode, no reference audio, alpha 1.0, the default vector, empty emotion text |
| Models.DefaultTtsConfig | frontend/types/models.ts:127-140 | the studio's starting configuration: auto model, voice "default", wav, speed 1, Chinese, sampling 1.0/0.8/20/1.0 |
| TtsApi.OmitEmpty | frontend/lib/api/tts.ts:18 | `s \|\| undefined` drops null and the empty string and keeps every other string |
| TtsApi.ConfigToRequest | frontend/lib/api/tts.ts:8-41 | fields copied from the configuration; both backends' sampling values always sent; optional strings omitted when empty; the vector only in vector mode, in dimension order; `use_emo_text` iff text mode; nothing saved |
| TtsApi.ModeOnlyAffectsModeKeys | frontend/lib/api/tts.ts:28-35 | switching the emotion mode changes only `emotion_mode`, `use_emo_text` and `emo_vector` of the request |
| TtsApi.SpeechRequest | frontend/lib/api/tts.ts:49-54 | the save fields are set iff the caller passes `saveAudio: true`; everything else is `configToRequest` |
| TtsApi.SpeechResult | frontend/lib/api/tts.ts:59-67 | the result echoes the text, model and voice and carries the returned blob, a fresh id and the object URL |
| TtsApi.GenerateSpeech | frontend/lib/api/tts.ts:44-68 | sends `SpeechRequest`; a failed call propagates its error, a successful one yields `SpeechResult` |
| TtsStore.MergeVector | frontend/lib/store/ttsStore.ts:63 | exactly the dimensions named in the patch take the patch's value; the others keep theirs (no clamping) |
| TtsStore.ConfigStore.constructor | frontend/lib/store/ttsStore.ts:33-34 | the store starts at the default configuration with empty input |
| TtsStore.ConfigStore.Persisted | frontend/lib/store/ttsStore.ts:85-90 | only `config` is persisted, never `inputText` |
| TtsStore.ConfigStore.SetConfig | frontend/lib/store/ttsStore.ts:36-39 | the configuration becomes the shallow merge with the patch; the input text is unchanged |
| TtsStore.ConfigStore.SetModel | frontend/lib/store/ttsStore.ts:41-44 | only the model changes |
| TtsStore.ConfigStore.SetInputText | frontend/lib/store/ttsStore.ts:46-47 | only the input text changes |
| TtsStore.ConfigStore.SetEmotionControl | frontend/lib/store/ttsStore.ts:49-55 | only the emotion control changes, merged with the patch |
| TtsStore.ConfigStore.SetEmotionVector | frontend/lib/store/ttsStore.ts:57-66 | only the vector changes, merged with the patch |
| TtsStore.ConfigStore.ResetEmotionVector | frontend/lib/store/ttsStore.ts:68-77 | only the vector changes, back to the default |
| TtsStore.ConfigStore.ResetConfig | frontend/lib/store/ttsStore.ts:79-83 | configuration and input text return to their defaults |
| TtsStore.SetModelIsModelPatch | frontend/lib/store/ttsStore.ts:36-44 | `setModel(m)` has the same effect as `setConfig({model: m})` |
| TtsStore.MergeConfigOverwritesExactlyPatchKeys | frontend/lib/store/ttsStore.ts:38 | a key present in the patch wins, an absent key keeps its value, the empty patch changes nothing |
| TtsStore.MergesIdempotent | frontend/lib/store/ttsStore.ts:36-66 | applying the same patch twice equals applying it once, for the configuration, the control and the vector |
| TtsStore.ModeSwitchesKeepPayloads | frontend/lib/store/ttsStore.ts:49-55 | two mode switches leave every mode's payload (vector, audio path, alpha, text) untouched |
| TtsStore.ResetVectorIdempotent | frontend/lib/store/ttsStore.ts:68-77 | resetting the vector is idempotent and touches nothing but the vector |
| Models.WithoutBlob | frontend/lib/store/historyStore.ts:39 | the history record keeps every field of the result except the blob |
| HistoryStore.SliceTo | frontend/lib/store/historyStore.ts:44 | `slice(0, end)` is a prefix of the list, of length `end` clipped to the list, with a negative end counting from the back |
| HistoryStore.Capped | frontend/lib/store/historyStore.ts:41-46 | the capped history is a prefix of the new list, no longer than a non-negative limit, and the whole list when it fits |
| HistoryStore.WithoutId | frontend/lib/store/historyStore.ts:58-59 | one definition for both `filter` calls: keeps exactly the session results, or the history records, whose id differs, and never lengthens the list |
| HistoryStore.FindIndex | frontend/lib/store/historyStore.ts:52 | `find` yields the first result with the id, or nothing iff there is none |
| HistoryStore.LiveUrls | frontend/lib/store/historyStore.ts:65-69 | the URLs revoked when the session is cleared: every truthy URL and no empty one |
| HistoryStore.LiveUrlsAppend | frontend/lib/store/historyStore.ts:65-69 | revoking over a concatenation revokes the two parts in order |
| HistoryStore.LiveUrlsFromResults | frontend/lib/store/historyStore.ts:65-69 | every revoked URL belongs to some session result |
| HistoryStore.RevokedBy | frontend/lib/store/historyStore.ts:52-55 | at most one URL is revoked: the truthy URL of the first result with the id, and none when there is no such result |
| HistoryStore.RemoveKeepsUrlsLive | frontend/lib/store/historyStore.ts:50-61 | removing a result keeps every held URL distinct, minted and unrevoked, and revokes no URL twice |
| HistoryStore.FilterKeepsUrlsDistinct | frontend/lib/store/historyStore.ts:58 | removing results keeps the URLs of the rest pairwise distinct |
| HistoryStore.HistoryStore.constructor | frontend/lib/store/historyStore.ts:28-30 | empty session and history, limit 100 |
| HistoryStore.HistoryStore.Persisted | frontend/lib/store/historyStore.ts:80-85 | history and limit are persisted, session results (with their blobs) are not |
| HistoryStore.HistoryStore.AddResult | frontend/lib/store/historyStore.ts:32-48 | the result is prepended to the session; its blob-less record is prepended to the history, capped at the limit; no URL is revoked and the URL lifetime invariant holds |
| HistoryStore.HistoryStore.RemoveResult | frontend/lib/store/historyStore.ts:50-61 | removes the id from both lists and revokes the URL of the first matching session result, if truthy, exactly once |
| HistoryStore.HistoryStore.ClearSessionResults | frontend/lib/store/historyStore.ts:63-72 | revokes every truthy session URL once, in order, and empties the session; history untouched |
| HistoryStore.HistoryStore.ClearHistory | frontend/lib/store/historyStore.ts:74-75 | empties the history only; session blobs stay live |
| HistoryStore.HistoryStore.SetMaxHistoryItems | frontend/lib/store/historyStore.ts:77-78 | sets the limit without trimming the current history |
| HistoryStore.AddThenRemove | frontend/lib/store/historyStore.ts:32-61 | removing a freshly added result restores the session, and the history up to the cap |
| HistoryStore.WithoutIdKeepsAll | frontend/lib/store/historyStore.ts:58-59 | filtering out an id no element has changes nothing |
| HistoryStore.AddRespectsLimit | frontend/lib/store/historyStore.ts:41-46 | after an addition the history is the first `limit` records of the new list |
| PrivateKeyStore.DedupFrom | frontend/lib/store/privateKeyStore.ts:32 | the `Set`-spread keeps first occurrences: the result has no repeats, extends what was collected, and holds exactly the elements of both |
| PrivateKeyStore.Union | frontend/lib/store/privateKeyStore.ts:32 | the new unlocked list has no repeats and holds exactly the old ids and the new ones |
| PrivateKeyStore.DedupFromAppend | frontend/lib/store/privateKeyStore.ts:32 | deduplicating a concatenation is deduplicating the parts one after the other |
| PrivateKeyStore.DedupFromDistinct | frontend/lib/store/privateKeyStore.ts:32 | a list without repeats is kept as it is |
| PrivateKeyStore.DedupFromAllSeen | frontend/lib/store/privateKeyStore.ts:32 | ids already collected add nothing |
| PrivateKeyStore.UnionKeepsCurrentFirst | frontend/lib/store/privateKeyStore.ts:32 | the ids already unlocked stay first, in their order |
| PrivateKeyStore.UnionIdempotent | frontend/lib/store/privateKeyStore.ts:30-37 | unlocking the same ids twice equals unlocking them once |
| PrivateKeyStore.PrivateKeyStore.constructor | frontend/lib/store/privateKeyStore.ts:23-26 | no key, nothing unlocked, count 0 |
| PrivateKeyStore.PrivateKeyStore.SetActiveKey | frontend/lib/store/privateKeyStore.ts:28 | only the key changes |
| PrivateKeyStore.PrivateKeyStore.AddUnlockedVoices | frontend/lib/store/privateKeyStore.ts:30-37 | the list becomes the deduplicated union and the count stays equal to its length |
| PrivateKeyStore.PrivateKeyStore.ClearSession | frontend/lib/store/privateKeyStore.ts:39-44 | key, list and count return to empty |
| PrivateKeyStore.UnlockedAfterAdd | frontend/lib/store/privateKeyStore.ts:30-48 | after an addition a voice is unlocked iff it was before or is among the added ids; the list grows by at most the number added |
| PrivateKeyStore.PrivateKeyStore.IsVoiceUnlocked | frontend/lib/store/privateKeyStore.ts:46-48 | `includes`: true exactly when some position of the unlocked list holds the id |
| PrivateKeyStore.DedupLength | frontend/lib/store/privateKeyStore.ts:32 | deduplication never lengthens the input |
| UiStore.SetModal | frontend/lib/store/uiStore.ts:62-70 | `{...modals, [name]: v}` sets exactly that modal's flag and keeps the other two |
| UiStore.UiStore.constructor | frontend/lib/store/uiStore.ts:36-45 | sidebar open, not generating, settings panel, "all" tab, every modal closed |
| UiStore.UiStore.ToggleSidebar | frontend/lib/store/uiStore.ts:47-48 | only the sidebar flag flips |
| UiStore.UiStore.SetSidebarCollapsed | frontend/lib/store/uiStore.ts:50-51 | only the sidebar flag changes |
| UiStore.UiStore.SetIsGenerating | frontend/lib/store/uiStore.ts:53-54 | only the generating flag changes, and the call is recorded |
| UiStore.UiStore.SetActivePanel | frontend/lib/store/uiStore.ts:56-57 | only the panel changes |
| UiStore.UiStore.SetVoicesTab | frontend/lib/store/uiStore.ts:59-60 | only the tab changes |
| UiStore.UiStore.OpenModal | frontend/lib/store/uiStore.ts:62-65 | only the named modal opens |
| UiStore.UiStore.CloseModal | frontend/lib/store/uiStore.ts:67-70 | only the named modal closes |
| UiStore.UiStore.CloseAllModals | frontend/lib/store/uiStore.ts:72-79 | every modal closes and nothing else changes |
| UiStore.OpenThenClose | frontend/lib/store/uiStore.ts:62-70 | open then close equals close, and restores a modal that was closed |
| UiStore.CloseEachIsCloseAll | frontend/lib/store/uiStore.ts:67-79 | closing the three modals one by one equals `closeAllModals` |
| Text.BlankIffAllSpace | frontend/lib/hooks/useTTS.ts:36 | `!text.trim()` holds exactly when every character is JavaScript whitespace, which takes in the no-break and ideographic spaces and the byte-order mark |
| Text.JsLength | frontend/components/voices/PrivateKeyModal.tsx:25 | `inputKey.length`: one code unit per character up to U+FFFF and two above it, so between the number of characters and twice it, equal to it exactly when no character lies above U+FFFF |
| UseTts.TextToGenerate | frontend/lib/hooks/useTTS.ts:35 | `text \|\| inputText`: a non-empty argument wins, otherwise the store's text |
| UseTts.RoundTrip | frontend/lib/hooks/useTTS.ts:17-31 | one round trip raises the flag, calls the backend, and lowers the flag exactly once: third in `generate`, last in `generateWithOptions`; a success adds the result |
| UseTts.TtsHook.constructor | frontend/lib/hooks/useTTS.ts:15-17 | no current result and no error |
| UseTts.TtsHook.Generate | frontend/lib/hooks/useTTS.ts:33-42 | a blank text changes nothing in the hook, the UI store or the history store; otherwise exactly one backend call for the chosen text, the generating flag goes true then false, and a success becomes the current result and is added to the session list and the capped history, minting its URL, while a failure only sets the error; the other UI fields and the history's limit and revoked URLs never change |
| UseTts.TtsHook.Mutate | frontend/lib/hooks/useTTS.ts:17-31 | the flag brackets the call (`finally`), then `onSuccess` sets the current result and adds it to history, minting its URL; the other UI fields and the history's limit and revoked URLs are kept |
| UseTts.TtsHook.Record | frontend/lib/hooks/useTTS.ts:27-30 | `onSuccess`: the result becomes the current one, goes to the front of the session results and, without its blob, into the capped history; its URL is minted; the limit, the revoked URLs and the error are untouched |
| UseTts.TtsHook.GenerateWithOptions | frontend/lib/hooks/useTTS.ts:44-57 | no blank guard; the options reach the request; on success the result is recorded in the session list and the capped history before the flag drops; a failure is propagated to the caller and leaves both lists and the minted URLs alone; the other UI fields and the history's limit and revoked URLs are kept |
| UseTts.TtsHook.Reset | frontend/lib/hooks/useTTS.ts:65-68 | clears the current result and the error |
| UseTts.EnabledButtonCalls | frontend/components/studio/GenerateButton.tsx:18 | when the button is enabled, `generate()` with no or an empty argument reaches the backend |
| UseTts.GenerateButtonDisabled | frontend/components/studio/GenerateButton.tsx:18 | disabled exactly while generating or when every character of the text is JavaScript whitespace |
| UseTts.RoundTripEndsIdle | frontend/lib/hooks/useTTS.ts:19-25 | every round trip, successful or not, ends with the generating flag down |
| EmotionControlPanel.Clamp | frontend/components/studio/EmotionControl.tsx:72 | `Math.max(lo, Math.min(hi, x))` lies in the interval and is the identity inside it |
| EmotionControlPanel.JsRound | frontend/components/studio/EmotionControl.tsx:73 | `Math.round` gives the nearest integer, halves rounded up |
| EmotionControlPanel.KnobTenths | frontend/components/studio/EmotionControl.tsx:72-73 | a drag lands on one of the tenths 0 … 14 |
| EmotionControlPanel.KnobValue | frontend/components/studio/EmotionControl.tsx:67-74 | the stored knob value is in [0, 1.4], on the 0.1 grid, and within 0.05 of the clamped drag value |
| EmotionControlPanel.KnobStableOnGrid | frontend/components/studio/EmotionControl.tsx:72-73 | a knob on the grid stays put when the drag does not move it |
| EmotionControlPanel.VectorSum | frontend/components/studio/EmotionControl.tsx:217 | the left fold over `Object.values` equals the sum of the eight dimensions |
| EmotionControlPanel.FoldSumEight | frontend/components/studio/EmotionControl.tsx:217 | the fold over eight values is their sum |
| EmotionControlPanel.FoldSumStep | frontend/components/studio/EmotionControl.tsx:217 | one more element adds itself to the fold |
| EmotionControlPanel.DefaultVectorNoWarning | frontend/components/studio/EmotionControl.tsx:218 | the default vector does not trigger the sum warning |
| EmotionControlPanel.IsVectorWarning | frontend/components/studio/EmotionControl.tsx:217-218 | the warning shows exactly when the eight components add up to more than 1.5 |
| EmotionControlPanel.ArgMaxFrom | frontend/components/studio/EmotionControl.tsx:223 | the `reduce` keeps a maximal entry, and on ties the later entry replaces the kept one |
| EmotionControlPanel.DominantIndex | frontend/components/studio/EmotionControl.tsx:223 | the last position holding the maximum |
| EmotionControlPanel.GlowColor | frontend/components/studio/EmotionControl.tsx:224-233 | every dimension has a colour, none of them transparent |
| EmotionControlPanel.Dominant | frontend/components/studio/EmotionControl.tsx:222-223 | the dominant dimension is maximal and later dimensions win ties |
| EmotionControlPanel.AmbientColor | frontend/components/studio/EmotionControl.tsx:221-235 | transparent iff no dimension exceeds 0.3; otherwise the dominant dimension's colour |
| EmotionControlPanel.DefaultGlowIsCalm | frontend/components/studio/EmotionControl.tsx:221-235 | the default vector glows in the calm colour |
| EmotionControlPanel.SingleDimension | frontend/components/studio/EmotionControl.tsx:212 | `{[key]: value}` names exactly one dimension |
| EmotionControlPanel.KnobChangesOneDimension | frontend/components/studio/EmotionControl.tsx:210-215 | a knob change sets its dimension and keeps the other seven |
| EmotionControlPanel.EmotionPanel.constructor | frontend/components/studio/EmotionControl.tsx:154-156 | not uploading, no error, no file name |
| EmotionControlPanel.EmotionPanel.HandleModeChange | frontend/components/studio/EmotionControl.tsx:159-165 | only the mode changes (payloads kept) and the upload error is cleared |
| EmotionControlPanel.EmotionPanel.HandleFileUpload | frontend/components/studio/EmotionControl.tsx:167-200 | the upload is attempted iff a `.wav` file of at most 10 MB was picked; each rejection sets its message; a success with a path stores it and the file name; a failure sets the reply's message or "Upload failed"; the busy flag ends false |
| EmotionControlPanel.EmotionPanel.HandleClearUpload | frontend/components/studio/EmotionControl.tsx:202-208 | the audio path becomes null and the file name is cleared |
| EmotionControlPanel.EmotionPanel.HandleVectorChange | frontend/components/studio/EmotionControl.tsx:210-215 | the store's vector is merged with the one-dimension patch |
| VoiceUploader.StripWav | frontend/components/voices/VoiceUploader.tsx:46 | the name minus a trailing `.wav` in any case; other names unchanged |
| VoiceUploader.SubmitCall | frontend/components/voices/VoiceUploader.tsx:51-66 | a call is made iff a file is chosen and the id is not blank; it carries the trimmed id, the emotion only for "indextts" and the reference text only for "qwen3-tts" |
| VoiceUploader.SubmittedCallShape | frontend/components/voices/VoiceUploader.tsx:52-65 | a submitted id is trimmed and non-empty, and never both backend options travel |
| VoiceUploader.TrimIdempotent | frontend/components/voices/VoiceUploader.tsx:52-60 | trimming twice is trimming once; blank iff the trim is empty |
| VoiceUploader.VoiceUploaderForm.constructor | frontend/components/voices/VoiceUploader.tsx:17-22 | no file, empty id, backend "indextts", emotion "default", empty reference text, no error |
| VoiceUploader.VoiceUploaderForm.HandleFileChange | frontend/components/voices/VoiceUploader.tsx:27-49 | non-wav and over-50 MB files are rejected with their messages; an accepted file is kept and fills an empty id from its name |
| VoiceUploader.VoiceUploaderForm.HandleSubmit | frontend/components/voices/VoiceUploader.tsx:51-80 | without a file or id the form only shows its error; a success closes the dialog and resets the fields; a failure shows the error and keeps the form |
| VoiceUploader.VoiceUploaderForm.HandleClearFile | frontend/components/voices/VoiceUploader.tsx:82-87 | only the file is cleared |
| PrivateKeyModal.EnabledKeyPassesGuard | frontend/components/voices/PrivateKeyModal.tsx:25-161 | the Enter/button condition (at least four UTF-16 code units) is exactly the negation of the handler's too-short guard |
| PrivateKeyModal.TwoAstralCharactersSuffice | frontend/components/voices/PrivateKeyModal.tsx:25-129 | a key of two characters above U+FFFF is four code units long, so the guard lets it through and Enter fires |
| PrivateKeyModal.KeyDialog.constructor | frontend/components/voices/PrivateKeyModal.tsx:17-19 | empty key, no error, no success |
| PrivateKeyModal.KeyDialog.HandleInput | frontend/components/voices/PrivateKeyModal.tsx:124-127 | typing replaces the key and clears the error |
| PrivateKeyModal.KeyDialog.HandleUnlock | frontend/components/voices/PrivateKeyModal.tsx:24-49 | a key shorter than four UTF-16 code units (`inputKey.length`) is refused without a request; a valid key shows success and clears the input; an invalid one sets its message; a transport error sets the error's message |
| PrivateKeyModal.KeyDialog.HandleKeyDown | frontend/components/voices/PrivateKeyModal.tsx:128-132 | Enter unlocks only a key of at least four UTF-16 code units; other keys change nothing |
| PrivateKeyModal.KeyDialog.AfterSuccessDelay | frontend/components/voices/PrivateKeyModal.tsx:37-40 | the delayed callback clears the success flag and closes |
| PrivateKeyModal.KeyDialog.HandleClearSession | frontend/components/voices/PrivateKeyModal.tsx:51-56 | the session store is emptied and the dialog reset |
| PrivateKeyModal.KeyDialog.HandleClose | frontend/components/voices/PrivateKeyModal.tsx:58-63 | the dialog is reset and closed |
| VoicesPage.FilteredVoices | frontend/app/voices/page.tsx:25-47 | no data gives no voices; otherwise an order-preserving sub-list holding exactly the voices on the tab that match the lower-cased query on name, id or an emotion (all of them when the query is blank) |
| VoicesPage.PrivateVoicesListed | frontend/app/voices/page.tsx:25-47 | the page applies no visibility rule: a private voice is listed like any other |
| VoicesPage.IndexTabEmptyOnGatewayVoices | frontend/app/voices/page.tsx:13-33 | the "indextts" tab never matches the gateway's "indextts-2.0" voices, so it is empty on gateway data |
| VoicesPage.OfBackendCounts | frontend/app/voices/page.tsx:56-61 | a backend's group is the order-preserving filter of its voices |
| VoicesPage.OfBackendSnoc | frontend/app/voices/page.tsx:56-61 | one more voice extends only its own backend's group |
| VoicesPage.NoGroupYet | frontend/app/voices/page.tsx:57-59 | a backend not seen yet has no group |
| VoicesPage.FirstSeenCovers | frontend/app/voices/page.tsx:55-62 | the key order lists every backend of the voices and no other, each once |
| VoicesPage.GroupByBackend | frontend/app/voices/page.tsx:55-62 | every voice lands in its backend's group, in input order, and every group is non-empty; the keys come in the order their backends first appear |
| VoicesPage.GroupedVoices | frontend/app/voices/page.tsx:50-63 | a specific tab gives one group keyed by the tab; "all" gives one group per backend, keyed in order of first appearance |
| VoicesPage.TabGroupIsOfBackend | frontend/app/voices/page.tsx:31-53 | on a specific tab every listed voice has that backend |
| VoiceSelector.PickerBackend | frontend/components/studio/VoiceSelector.tsx:23 | Qwen3-TTS picks "qwen3-tts"; the IndexTTS model picks the literal "indextts" |
| VoiceSelector.FilterByModel | frontend/components/studio/VoiceSelector.tsx:19-25 | no data gives nothing; "auto" shows every voice; another model shows exactly the voices of its backend string, in order |
| VoiceSelector.GatewayIndexVoicesHidden | frontend/components/studio/VoiceSelector.tsx:23-24 | a voice tagged "indextts-2.0" is never shown under the IndexTTS model |
| VoiceSelector.GroupedVoices | frontend/components/studio/VoiceSelector.tsx:28-37 | every shown voice lands in its backend's group, in order, and the groups are keyed in order of first appearance |
| VoiceSelector.SingleGroupForModel | frontend/components/studio/VoiceSelector.tsx:19-37 | under a specific model there is at most one group, keyed by the model's backend string |
| VoiceSelector.PickVoice | frontend/components/studio/VoiceSelector.tsx:81 | clicking a card sets only the configured voice |
| ModelSelector.StatusId | frontend/components/studio/ModelSelector.tsx:40 | Qwen3-TTS looks up "qwen3-tts"; IndexTTS looks up the literal "indextts" |
| ModelSelector.FindStatus | frontend/components/studio/ModelSelector.tsx:41 | `find` yields the first status with the id, or nothing iff none has it |
| ModelSelector.BackendStatusOf | frontend/components/studio/ModelSelector.tsx:38-43 | "auto" is always online; otherwise the found status if non-empty, else "unknown" |
| ModelSelector.IndexCardUnknownUnderGatewayIds | frontend/components/studio/ModelSelector.tsx:40-42 | with no "indextts" entry (the gateway reports "indextts-2.0") the IndexTTS card reads "unknown" |
| ModelSelector.SelectCard | frontend/components/studio/ModelSelector.tsx:59 | clicking a card sets only the model |
| HistoryPage.FilteredHistory | frontend/app/history/page.tsx:28-38 | a blank query shows the whole history; otherwise exactly the items whose text, model or voice contains the lower-cased query, in order |
| HistoryPage.SearchIdempotent | frontend/app/history/page.tsx:28-38 | searching the search result again with the same query changes nothing |
| HistoryPage.HandleClear | frontend/app/history/page.tsx:113-114 | the history is emptied only when the user confirms; session results are untouched |
| HistoryPage.HandleDelete | frontend/app/history/page.tsx:241 | the item leaves the history and the session list; the first matching session URL is revoked; the limit and the minted URLs are kept |
| GatewayConfig.ConfigDict | gateway/config.py:92-130 | the flat dictionary holds a key exactly when its YAML source is present, and never `log_level` |
| GatewayConfig.LoadYaml | gateway/config.py:74-84 | a missing file, or a falsy document, reads as the empty mapping |
| GatewayConfig.CopyIfPresent | gateway/config.py:97-100 | a leaf is copied under its flat key when present, and the dictionary is otherwise unchanged |
| GatewayConfig.CopyServer | gateway/config.py:95-100 | after the `server` block the dictionary agrees with the document on `host` and `port` and on every key done before |
| GatewayConfig.CopyBackend | gateway/config.py:103-122 | after one backend block the dictionary agrees with the document on its url, timeout and enabled keys and on every key done before |
| GatewayConfig.CopyRateLimit | gateway/config.py:125-130 | after the `rate_limit` block the dictionary agrees with the document on both rate-limit keys |
| GatewayConfig.BuildConfigDict | gateway/config.py:87-130 | the successive insertions build exactly the declarative flat dictionary |
| GatewayConfig.StrSetting | gateway/config.py:49-66 | an absent key takes its default; a present one is accepted exactly when it is a string, and becomes the setting |
| GatewayConfig.IntSetting | gateway/config.py:50-63 | an absent key takes its default; a present one is accepted exactly when it is an integer, and becomes the setting |
| GatewayConfig.RealSetting | gateway/config.py:54-58 | an absent key takes its default; a present one is accepted exactly when it is an integer or a float, and becomes the setting as a float |
| GatewayConfig.BoolSetting | gateway/config.py:55-62 | an absent key takes its default; a present one is accepted exactly when it is a boolean, and becomes the setting |
| GatewayConfig.MakeSettings | gateway/config.py:45-133 | the empty dictionary gives every default; `log_level` is always `INFO` |
| GatewayConfig.PresentKeysReachSettings | gateway/config.py:45-66 | when the settings are built, every key the flat dictionary holds has reached its setting unchanged |
| GatewayConfig.GetSettings | gateway/config.py:87-133 | the settings are those built from the flattened loaded document |
| GatewayConfig.MissingFileGivesDefaults | gateway/config.py:80-133 | without a configuration file every setting is at its default |
| GatewayConfig.AbsentSourceKeepsDefault | gateway/config.py:45-130 | every key whose YAML source is absent keeps its default |
| GatewayConfig.ConfigDictAt | gateway/config.py:92-130 | a key is in the flat dictionary exactly when its YAML source is present, and then holds that source's value |
| GatewayConfig.PresentSourceOverrides | gateway/config.py:99-130 | each of the ten YAML values, when present and the settings are built, reaches its setting unchanged |
| AdapterRegistry.Registry.Put | gateway/adapters/factory.py:47 | inserting keeps the keys distinct and in insertion order: a new id goes last, an existing one keeps its place with the new adapter |
| AdapterRegistry.Registry.Get | gateway/adapters/factory.py:55 | the adapter under the id, or nothing exactly when the id is not registered |
| AdapterRegistry.Initialized | gateway/adapters/factory.py:26-40 | registering the enabled backends keeps the registry well formed |
| AdapterRegistry.InitializedFromEmpty | gateway/adapters/factory.py:26-40 | from an empty registry each backend is registered exactly when the settings enable it, with an adapter of its own kind, and no other id appears |
| AdapterRegistry.InitializedKeys | gateway/adapters/factory.py:26-40 | initialising adds exactly the enabled backends' ids to the keys already present |
| AdapterRegistry.AutoChoice | gateway/adapters/factory.py:85-121 | nothing is chosen exactly when neither backend is registered; whatever is chosen is one of the two registered adapters |
| AdapterRegistry.AutoChoicePriority | gateway/adapters/factory.py:76-112 | with both backends registered: a reference audio id picks qwen3-tts, then a non-preset emotion mode picks indextts-2.0, then a language other than Chinese or English picks qwen3-tts, else indextts-2.0 |
| AdapterRegistry.AutoChoiceSingleBackend | gateway/adapters/factory.py:85-118 | with exactly one backend registered every request goes to it |
| AdapterRegistry.AdapterFactory.constructor | gateway/adapters/factory.py:17-18 | the factory starts with an empty registry and uninitialised |
| AdapterRegistry.AdapterFactory.Initialize | gateway/adapters/factory.py:21-42 | the first call registers the enabled backends; later calls change nothing; afterwards the factory is initialised |
| AdapterRegistry.AdapterFactory.Register | gateway/adapters/factory.py:45-48 | exactly one key is inserted or overwritten; the flag is unchanged |
| AdapterRegistry.AdapterFactory.Get | gateway/adapters/factory.py:51-55 | initialises on first use, then answers the lookup |
| AdapterRegistry.AdapterFactory.GetAll | gateway/adapters/factory.py:58-62 | initialises on first use, then hands back the registry |
| AdapterRegistry.AdapterFactory.ListBackendIds | gateway/adapters/factory.py:65-69 | initialises on first use; the ids are distinct and are exactly the registered keys |
| AdapterRegistry.AdapterFactory.AutoSelect | gateway/adapters/factory.py:72-121 | initialises on first use, then makes the automatic choice over the registry |
| AdapterRegistry.AdapterFactory.GetHealthyAdapter | gateway/adapters/factory.py:124-135 | an adapter comes back exactly when it is registered and reports itself online with the model loaded |
| AdapterRegistry.AdapterFactory.Reset | gateway/adapters/factory.py:138-141 | the registry is emptied and the flag cleared |
| RequestSchema.AsReal | gateway/schemas/request.py:30-52 | a JSON integer or float reads as a float; nothing else does |
| RequestSchema.InputField | gateway/schemas/request.py:16-21 | `input` is accepted exactly when it is a string of 1 to 5000 characters, and is kept as sent |
| RequestSchema.StrField | gateway/schemas/request.py:12-51 | an absent key takes its default; a present one is accepted exactly when it is a string |
| RequestSchema.OptStrField | gateway/schemas/request.py:42-113 | absent or `null` gives `None`; a string is kept; anything else is an error |
| RequestSchema.LiteralField | gateway/schemas/request.py:26-81 | an absent key takes its default; a present one is accepted exactly when it is one of the allowed literals |
| RequestSchema.FloatField | gateway/schemas/request.py:30-35 | an absent key takes its default; a present one is accepted exactly when it is a number within the bounds |
| RequestSchema.OptFloatField | gateway/schemas/request.py:52-91 | absent gives the default, `null` gives `None`, otherwise a number within the bounds |
| RequestSchema.TopKField | gateway/schemas/request.py:64-69 | absent gives 20, `null` gives `None`, otherwise an integer in [1, 100] |
| RequestSchema.BoolField | gateway/schemas/request.py:96-109 | an absent key gives `False`; a present one must be a boolean |
| RequestSchema.FirstOutOfRange | gateway/schemas/request.py:121-123 | the first index from which on an entry lies outside [0, 1.4], or none exactly when every later entry is in range |
| RequestSchema.EmoVectorError | gateway/schemas/request.py:117-124 | no error exactly when the vector has eight entries all in [0, 1.4]; a wrong length is reported first, otherwise the first offending index is named |
| RequestSchema.ValidateEmoVector | gateway/schemas/request.py:117-124 | the scan reports exactly the error the validator defines |
| RequestSchema.EmoVectorField | gateway/schemas/request.py:92-124 | absent or `null` gives `None`; a list is accepted exactly when the validator finds no error |
| RequestSchema.ParseBasics | gateway/schemas/request.py:12-51 | the basic fields are accepted exactly when none has an error, and then meet their bounds |
| RequestSchema.ParseSampling | gateway/schemas/request.py:52-75 | the sampling fields are accepted exactly when none has an error, and then meet their bounds |
| RequestSchema.ParseEmotion | gateway/schemas/request.py:77-103 | the emotion fields are accepted exactly when none has an error, and then meet their bounds |
| RequestSchema.ParseSave | gateway/schemas/request.py:105-113 | the save fields are accepted exactly when neither has an error |
| RequestSchema.ParseRequest | gateway/schemas/request.py:8-124 | an accepted request meets every declared bound; a rejected one carries at least one error |
| RequestSchema.ParseEncodeRoundTrip | gateway/schemas/request.py:8-124 | every well-formed request, written out as a body, validates back to itself: the model has no cross-field rule |
| RequestSchema.DefaultRequest | gateway/schemas/request.py:12-113 | each optional field's declared default |
| RequestSchema.OnlyInputTakesDefaults | gateway/schemas/request.py:12-113 | a body holding only a valid `input` gives the request with every default |
| RequestSchema.InputRequired | gateway/schemas/request.py:16-21 | a body without `input` is rejected with a "Field required" error on `input` |
| WireFormat.OnTheWire | frontend/lib/api/tts.ts:56 | the posted body carries every request field unchanged, the model, format and emotion mode as their wire strings |
| WireFormat.DefaultsInGatewayBounds | frontend/types/models.ts:108-140 | every default number of the studio lies inside the range the gateway accepts for it, and the default format is one it knows |
| WireFormat.ModeIdsAccepted | gateway/schemas/request.py:78-81 | each of the studio's four emotion modes is a mode the gateway accepts |
| WireFormat.DefaultConfigRequestAccepted | gateway/schemas/request.py:8-124 | the request the studio builds from its default configuration, in any emotion mode and for any text of 1 to 5000 characters, is accepted by the gateway unchanged |
| RequestSchema.DefaultVoiceUploadRequest | gateway/schemas/request.py:127-144 | the upload request's defaults, with `indextts` as the backend |
| TtsService.Selection | gateway/services/tts_service.py:57-87 | a selected adapter is always a registered one; nothing is selected only for `auto` with neither backend registered |
| TtsService.LowerIdempotent | gateway/services/tts_service.py:59 | lower-casing twice is lower-casing once |
| TtsService.SelectionIgnoresCase | gateway/services/tts_service.py:59 | model names are matched without regard to ASCII case |
| TtsService.LowerKeepsLowercase | gateway/services/tts_service.py:59 | a name without capital letters is unchanged by lower-casing |
| TtsService.IndexAliasSelectsIndex | gateway/services/tts_service.py:68-72 | `indextts` and `indextts-2.0` both reach the adapter registered as indextts-2.0, or fail with the IndexTTS-disabled message |
| TtsService.NamedBackendNeverFallsBack | gateway/services/tts_service.py:62-66 | naming qwen3-tts succeeds exactly when it is registered and then selects it; there is no fallback |
| TtsService.SelectAdapter | gateway/services/tts_service.py:57-87 | the registry is initialised on first use and the answer is the selection over it |
| TtsService.KwargKeys | gateway/services/tts_service.py:91-115 | every backend receives `speed` and `response_format` |
| TtsService.KwargsOn | gateway/services/tts_service.py:91-115 | the dictionary holds exactly the named keyword arguments |
| TtsService.Kwargs | gateway/services/tts_service.py:89-117 | the dictionary holds exactly the chosen backend's keyword arguments |
| TtsService.BackendIdsDiffer | gateway/services/tts_service.py:96-101 | the two backend ids are different, so at most one branch applies |
| TtsService.PrepareKwargs | gateway/services/tts_service.py:89-117 | the successive insertions build exactly the backend's keyword arguments |
| TtsService.QwenKwargsByKey | gateway/services/tts_service.py:91-99 | the Qwen branch builds the Qwen keyword arguments |
| TtsService.IndexKwargsByKey | gateway/services/tts_service.py:91-115 | the IndexTTS branch builds the IndexTTS keyword arguments |
| TtsService.QwenKwargsFallBackToVoice | gateway/services/tts_service.py:98-99 | Qwen receives the reference audio id, or the voice when that is absent or empty, and no emotion fields |
| TtsService.IndexKwargsCarryEveryField | gateway/services/tts_service.py:103-115 | IndexTTS receives the sampling and emotion fields even when they are `None`, and no language or reference id |
| TtsService.GenerateSpeech | gateway/services/tts_service.py:15-55 | a selection error is raised as is; no adapter raises "no backend"; otherwise the adapter is called with the text, the voice and its keyword arguments, and the audio comes back with the adapter's own id as `model_used` |
| TtsService.ModelUsedIsRegistered | gateway/services/tts_service.py:49-53 | the reported `model_used` belongs to a registered adapter |
| Adapters.StripTrailingSlashes | gateway/adapters/base.py:31 | the result is a prefix of the URL, does not end in `/`, and only slashes were removed |
| Adapters.NewAdapter | gateway/adapters/base.py:30-32 | the adapter keeps its class and timeout and stores the URL without trailing slashes |
| Adapters.StripIdempotent | gateway/adapters/base.py:31 | stripping twice is stripping once, so a stored base URL is already normalised |
| IndexTtsAdapter.CopiedIf | gateway/adapters/indextts_adapter.py:77-84 | a keyword is copied into the body exactly when its condition holds, and then with its value |
| IndexTtsAdapter.ModeNamesDiffer | gateway/adapters/indextts_adapter.py:87-98 | the four emotion-mode names are pairwise different |
| IndexTtsAdapter.BuildRequestBody | gateway/adapters/indextts_adapter.py:67-101 | the successive insertions build exactly the declared request body |
| IndexTtsAdapter.BodyFixedFields | gateway/adapters/indextts_adapter.py:68-88 | text, voice, emotion, speed, format and mode are always sent, with their defaults when the keyword is absent |
| IndexTtsAdapter.Body | gateway/adapters/indextts_adapter.py:67-101 | text, voice and the mode (default "preset") are always sent; `emo_alpha` only with `emo_audio_path`; the audio, vector and text fields never mix; `emo_text` only with `use_emo_text` |
| IndexTtsAdapter.BodySamplingFields | gateway/adapters/indextts_adapter.py:77-84 | each sampling parameter is sent exactly when its keyword is not `None`, with that value |
| IndexTtsAdapter.BodyEmotionFieldsFollowMode | gateway/adapters/indextts_adapter.py:90-101 | the audio path and alpha are sent only in audio mode, the vector only in vector mode, `use_emo_text` and the text only in text mode, each under the stated condition |
| IndexTtsAdapter.BodyUseEmoTextDefault | gateway/adapters/indextts_adapter.py:98-99 | in text mode `use_emo_text` is the value passed, `True` only when none is |
| IndexTtsAdapter.PresetBodyHasNoEmotionFields | gateway/adapters/indextts_adapter.py:87-101 | in preset mode no emotion-control key is sent |
| IndexTtsAdapter.SpeechOutcome | gateway/adapters/indextts_adapter.py:103-124 | audio comes back exactly for a 2xx reply; another status raises with the backend's detail; any other failure is re-raised unchanged |
| IndexTtsAdapter.GenerateSpeech | gateway/adapters/indextts_adapter.py:56-124 | the outcome is what the reply to the built body yields |
| IndexTtsAdapter.ItemFromJson | gateway/adapters/indextts_adapter.py:137-142 | an entry is accepted exactly when its id, name (else the id), emotions (else `["default"]`) and flag (else false) have the declared types; it then keeps those values |
| IndexTtsAdapter.ItemDefaults | gateway/adapters/indextts_adapter.py:138-141 | an entry with only an id gets the id as name, the emotion "default" and no default flag |
| IndexTtsAdapter.ListVoices | gateway/adapters/indextts_adapter.py:126-148 | a failed request, or a body without voices, gives `[]`; otherwise every entry converted in order, or `[]` as soon as one entry is invalid |
| IndexTtsAdapter.UploadRequest | gateway/adapters/indextts_adapter.py:162-178 | the file goes as `audio/wav` with exactly `voice_id` and `emotion` (default "default") as parameters |
| IndexTtsAdapter.UploadResult | gateway/adapters/indextts_adapter.py:179-194 | success only on a 2xx reply that says so; a 2xx reply passes on the body's `success` and `message` (false and "" when absent), `voice_id` and `emotion`; any failure gives `success` false with the error's message |
| QwenTtsAdapter.SpeechForm | gateway/adapters/qwen_adapter.py:64-72 | the form holds exactly the text, the language (default "Chinese") and the reference audio id, falling back to the voice when that is missing or falsy |
| QwenTtsAdapter.SpeechOutcome | gateway/adapters/qwen_adapter.py:74-105 | audio comes back only from a 2xx reply reporting success with an audio URL whose download is also 2xx; a non-2xx status raises with its code; an unsuccessful result raises its message or the default; a missing URL raises; once the URL is known, a 2xx download gives exactly its body, a failed download is re-raised and a non-2xx one raises with its code; other failures are re-raised |
| QwenTtsAdapter.GenerateSpeech | gateway/adapters/qwen_adapter.py:53-105 | the outcome is what the two replies to the built form yield |
| QwenTtsAdapter.VoiceIsDefaultReference | gateway/adapters/qwen_adapter.py:64 | without a reference audio id the voice is sent as the reference audio |
| QwenTtsAdapter.ItemFromJson | gateway/adapters/qwen_adapter.py:118-124 | an audio is accepted exactly when its id and filename (else the id) are strings and its reference text is a string or `None`; it then keeps those values, with the emotion "default" and a default flag |
| QwenTtsAdapter.ItemDefaults | gateway/adapters/qwen_adapter.py:119-123 | an audio with only an id is named by its id and has no reference text |
| QwenTtsAdapter.ListVoices | gateway/adapters/qwen_adapter.py:107-130 | a failed request, or a body without audios, gives `[]`; otherwise every entry converted in order, or `[]` as soon as one is invalid; every voice has the default flag |
| QwenTtsAdapter.UploadRequest | gateway/adapters/qwen_adapter.py:144-164 | no request is made exactly when `ref_text` is missing or falsy; otherwise the file goes as `audio/wav` with only `ref_text` |
| QwenTtsAdapter.UploadVoice | gateway/adapters/qwen_adapter.py:132-179 | a missing reference text fails with the guard's message; success only on a 2xx reply that says so; a 2xx reply passes on the body's `success` and `message` (false and "" when absent) and `ref_id` as `voice_id`; any failure gives `success` false with the error's message |
| QwenTtsAdapter.UploadIgnoresVoiceId | gateway/adapters/qwen_adapter.py:132-172 | the voice id the gateway passes makes no difference to the upload |
| VoiceMetadata.FieldNamesDiffer | gateway/services/metadata_service.py:66-78 | the salt and hash keys never collide with the fixed fields of a record |
| VoiceMetadata.NewRecord | gateway/services/metadata_service.py:66-78 | a saved record always carries its id, backend, visibility and creation time |
| VoiceMetadata.RecordLockedIffPrivateWithKey | gateway/services/metadata_service.py:74-78 | the salt and the hash of the key under that salt are stored exactly for a private voice saved with a non-empty key |
| VoiceMetadata.RecordKeepsNonNoneExtras | gateway/services/metadata_service.py:71 | an extra field is saved with its value exactly when it is not `None` |
| VoiceMetadata.Records | gateway/services/metadata_service.py:96-113 | the records in the order of their ids, one per id |
| VoiceMetadata.PublicVoices | gateway/services/metadata_service.py:91-98 | a record is listed exactly when it is stored and its visibility is "public" |
| VoiceMetadata.Access | gateway/services/metadata_service.py:125-155 | access is granted exactly to a voice without metadata, a public voice, or a private voice whose stored salt and hash match a non-empty key |
| VoiceMetadata.VisibilityMap | gateway/services/metadata_service.py:189-200 | one entry per stored voice: its visibility, "public" when it has none |
| VoiceMetadata.MetadataService.VerifyVoiceAccess | gateway/services/metadata_service.py:125-155 | granted for a voice without metadata or a public one; for a private one exactly when a non-empty key matches a truthy stored salt and hash; refused for any other visibility |
| VoiceMetadata.MetadataService.VoiceIdsWithVisibility | gateway/services/metadata_service.py:189-200 | one entry per stored voice: its visibility, "public" when it has none |
| VoiceMetadata.MissingVisibilityDisagrees | gateway/services/metadata_service.py:97-198 | a record without a visibility shows as "public" in the visibility map, yet is not listed among the public voices |
| VoiceMetadata.AccessAgreesWithListing | gateway/services/metadata_service.py:100-155 | for a private voice and a non-empty key, access is granted exactly when listing by that key shows the voice |
| VoiceMetadata.ScanStep | gateway/services/metadata_service.py:113-121 | scanning one more record keeps it exactly when the key unlocks it |
| VoiceMetadata.IdsOf | gateway/services/metadata_service.py:174 | one id per record, in order |
| VoiceMetadata.MetadataService.constructor | gateway/services/metadata_service.py:17-28 | a new store holds no voice |
| VoiceMetadata.MetadataService.SaveVoiceMetadata | gateway/services/metadata_service.py:43-84 | exactly the entry for the voice id is written or overwritten with the new record, a new id going last |
| VoiceMetadata.MetadataService.GetVoiceMetadata | gateway/services/metadata_service.py:86-89 | the stored record, or none exactly when the id has no metadata |
| VoiceMetadata.MetadataService.ListPublicVoices | gateway/services/metadata_service.py:91-98 | only public records, and every public record |
| VoiceMetadata.MetadataService.ListPrivateVoicesByKey | gateway/services/metadata_service.py:100-123 | the scan keeps exactly the private records the key unlocks, in order |
| VoiceMetadata.MetadataService.VerifyKeyAndListVoices | gateway/services/metadata_service.py:157-175 | the key is valid exactly when it unlocks at least one voice; the count and the ids are those of the unlocked voices |
| VoiceMetadata.MetadataService.DeleteMetadata | gateway/services/metadata_service.py:177-187 | reports whether the id had metadata and removes exactly that entry |
| VoiceMetadata.SavedPrivateVoiceUnlocks | gateway/services/metadata_service.py:74-153 | once a private voice is saved with a non-empty key, that key opens it and lists it |
| VoiceService.Tag | gateway/services/voice_service.py:30-37 | the voice keeps the adapter item's fields, takes the backend id, and has the default visibility |
| VoiceService.TagAll | gateway/services/voice_service.py:67-77 | one tagged voice per item, in order |
| VoiceService.TagAllStep | gateway/services/voice_service.py:29-37 | tagging one more item appends its tagged voice |
| VoiceService.AppendTagged | gateway/services/voice_service.py:29-37 | the inner loop appends exactly the backend's items, tagged, in order |
| VoiceService.ListAllVoices | gateway/services/voice_service.py:15-45 | the voices of every adapter in registry order, an adapter that raises contributing none; `total` is their number |
| VoiceService.AllVoicesStep | gateway/services/voice_service.py:26-40 | the listing of one more backend extends the listing so far by that backend's contribution |
| VoiceService.AllVoicesTagged | gateway/services/voice_service.py:26-40 | every listed voice names a registered backend whose adapter answered |
| VoiceService.ListVoicesByBackend | gateway/services/voice_service.py:47-86 | an unknown backend or a raising adapter gives an empty list with total 0; otherwise every voice is tagged with the backend and `total` is their number |
| VoiceService.AllVoicesOfOneBackend | gateway/services/voice_service.py:26-40 | keeping one backend's voices from the full listing leaves exactly that backend's contribution |
| VoiceService.ByBackendIsPartOfAll | gateway/services/voice_service.py:15-86 | one backend's listing is exactly its part of the listing of all backends |
| VoiceService.UploadVoice | gateway/services/voice_service.py:88-132 | an unknown backend fails with "后端不存在" before any adapter is called; otherwise the adapter's result, or its failure's message, with the backend id added |
| VoiceService.UnknownBackendResultLacksBackend | gateway/services/voice_service.py:110-132 | the result lacks a `backend` key exactly when the backend is unknown |
| VoicesApi.ListVoices | gateway/api/v1/voices.py:16-30 | a non-empty `backend` gives that backend's listing; otherwise the listing of all backends with its count |
| VoicesApi.WithDefaults | gateway/api/v1/voices.py:36-39 | each form field left out takes its declared default (voice "default", backend "indextts-2.0", emotion "default", no reference text); a given one is kept |
| VoicesApi.ToResponse | gateway/api/v1/voices.py:73-79 | the answer is never an HTTP error; `success` defaults to false and `message` to "", and no visibility is set |
| VoicesApi.ResponseDefaults | gateway/api/v1/voices.py:73-79 | a result without any of the five keys answers a failure with an empty message |
| VoicesApi.UploadVoice | gateway/api/v1/voices.py:33-79 | a missing or non-".wav" file name (in any case) is refused with 400, then content over 10 MiB; an HTTP error happens only for those two reasons; any other upload answers the service's result for the form's backend, voice id, emotion and reference text, mapped to the response |
| VoicesApi.UploadKwargs | gateway/api/v1/voices.py:64-71 | the service receives exactly the emotion and the reference text, `None` when the form has none |
| VoicesApi.AdapterFailureAnswered | gateway/api/v1/voices.py:64-79 | a valid upload whose adapter raises answers `success` false with the exception's message and the backend |
| VoicesApi.AdapterSuccessAnswered | gateway/api/v1/voices.py:64-79 | a valid upload the adapter accepts answers success with its message, voice id and emotion and the backend |
| VoicesApi.ExactlyMaxSizeAccepted | gateway/api/v1/voices.py:59-61 | a ".wav" file of exactly 10 MiB passes both checks |
| VoicesApi.IndexAliasUploadFails | gateway/api/v1/voices.py:64-79 | an upload for the backend "indextts", which is never registered, answers a failure naming that backend without calling any adapter |
| Text.NatToStringReadsBack | gateway/middleware/rate_limit.py:104-105 | `str()` of a natural number: decimal digits without a leading zero that read back as the number |
| RateLimit.ClientIp | gateway/middleware/rate_limit.py:31-46 | a non-empty X-Forwarded-For gives its first hop (which holds no comma); else a non-empty X-Real-IP as is; else the peer's address; else "unknown" |
| RateLimit.TrimmedFirstHop | gateway/middleware/rate_limit.py:36 | the first hop of a forwarded-for list holds no comma |
| RateLimit.TrimKeepsAbsent | gateway/middleware/rate_limit.py:36 | trimming adds no character |
| RateLimit.ForwardedForFirstHop | gateway/middleware/rate_limit.py:34-36 | for a header `first,rest` the client is `first` with surrounding blanks removed |
| RateLimit.Refilled | gateway/middleware/rate_limit.py:59-63 | the refilled count never exceeds the limit and, for a clock that has not gone back, never falls below the old count unless capped |
| RateLimit.Check | gateway/middleware/rate_limit.py:55-72 | a request is allowed exactly when the limit is at least 1 and the refilled count reaches 1; an allowed one leaves between 0 and `rpm - 1` tokens, a denied one fewer than 1; the bucket is stamped with the current time and stays within bounds |
| RateLimit.BurstSpendsOnePerCheck | gateway/middleware/rate_limit.py:65-68 | at a fixed instant each allowed check spends exactly one token |
| RateLimit.FullBucketAllowsExactlyRpm | gateway/middleware/rate_limit.py:27-72 | a new client may make exactly `rpm` requests in the same instant; the next is denied |
| RateLimit.LongIdleRefillsToLimit | gateway/middleware/rate_limit.py:59-63 | after a minute without requests the bucket is full again |
| RateLimit.Truncate | gateway/middleware/rate_limit.py:98-105 | `int()` truncates toward zero |
| RateLimit.TooManyRequests | gateway/middleware/rate_limit.py:87-100 | the denial is a 429 with `X-RateLimit-Remaining` "0", the limit, and `Retry-After` the whole seconds per token |
| RateLimit.RetryAfterWholeSeconds | gateway/middleware/rate_limit.py:93-98 | the `Retry-After` header is the whole part of the `retry_after` seconds, `60 / rpm` |
| RateLimit.RateLimiter.constructor | gateway/middleware/rate_limit.py:21-29 | a new limiter has its limit and no client buckets |
| RateLimit.RateLimiter.CheckRateLimit | gateway/middleware/rate_limit.py:48-72 | the verdict and the new bucket are those of the check on the client's bucket (a full one for a new client); only that client's bucket changes |
| RateLimit.RateLimiter.Dispatch | gateway/middleware/rate_limit.py:74-107 | with limiting off or on an exempt path the request passes untouched and no bucket changes; otherwise the client's bucket is charged, a denial answers 429 (or fails dividing by zero when the limit is 0), and an allowed request's response gains the limit and remaining headers |
| RateLimit.RemainingHeaderBounds | gateway/middleware/rate_limit.py:68-105 | the remaining count an allowed client is told lies between 0 and `rpm - 1` |
| AccessLog.SameClientAsRateLimit | gateway/middleware/logging.py:63-76 | the access log attributes every request to the same client as the rate limiter |
| AccessLog.ClientIp | gateway/middleware/logging.py:63-76 | a forwarded address is the first hop, without commas; otherwise `X-Real-IP`, then the connection's host, then "unknown" |
| AccessLog.LevelFor | gateway/middleware/logging.py:44-50 | error exactly from 500 on, warning exactly from 400 to 499, information below 400 |
| AccessLog.Hundredths | gateway/middleware/logging.py:59 | the duration in hundredths is within half a hundredth of the exact value |
| AccessLog.TwoDigits | gateway/middleware/logging.py:59 | two decimal digits that read back as the number |
| AccessLog.Fixed2 | gateway/middleware/logging.py:59 | a minus sign exactly for a negative number, then the hundreds of its rounded magnitude in hundredths, a point, and the last two digits |
| AccessLog.Fixed2ReadsBack | gateway/middleware/logging.py:59 | the written digits read back to the magnitude in hundredths, within half a hundredth |
| AccessLog.Dispatch | gateway/middleware/logging.py:21-61 | a raised exception passes through and is logged as an error; a response keeps its status, body and other headers, gains `X-Response-Time` (the duration in milliseconds written by `Fixed2`, then `ms`), and is logged at the level its status calls for; every line starts with address, method and path |
| AccessLog.LineFor | gateway/middleware/logging.py:32-56 | the line of a raised exception is an error, that of a response is at the level its status calls for, and either starts with address, method and path |
| AccessLog.RateLimitedRequestLoggedAsWarning | gateway/main.py:76-82 | the log middleware wraps the rate limiter, so a turned-away request is logged as a warning |
| HttpExchange.WithHeader | gateway/middleware/rate_limit.py:104-105 | setting a header on a response keeps its status, body and other headers; an exception passes through unchanged |


## Left out
- UseTts.TtsHook.Generate: each call runs to completion before the next starts. In the hook, `mutation.mutate` and `generateWithOptions` do not wait for one another (frontend/lib/hooks/useTTS.ts:17-31, 39, 44-57), so two requests can overlap: the first to finish lowers `isGenerating` while the other is still running, and results are recorded in completion order. The model does not capture that interleaving. The same holds for `UseTts.TtsHook.Mutate` and `UseTts.TtsHook.GenerateWithOptions`.

- Network, files and processes: every HTTP exchange, the YAML and JSON files, and the browser are parameters or in-memory values.
  - A backend's reply is a `Reply` value, or a function from the request to the reply.
  - The metadata file is the store's `ids` and `voices` fields.
  - The YAML document is a `Yaml` value.
- Time and randomness are parameters: `time.time`, `datetime.utcnow`, `Date.now`, `crypto.randomUUID`, `secrets.token_hex` and `URL.createObjectURL`.
- The key-hashing function is abstract: PBKDF2-HMAC-SHA256 is a function-typed constant `H(key, salt)` of the metadata store.
- `VoiceMetadata.VerifyKey`: a stored salt or hash that is not a string reads as a failed check, whereas the source would raise while encoding it. A record written by the service always stores strings.
- `VoiceMetadata.IdsOf`: a record without an `id` contributes `None`, whereas the source raises `KeyError`. A record written by the service always has an id.
- A metadata file that cannot be read or decoded is not modelled. The source then reads it as an empty store; the model starts from the store's fields as they are.
- The adapter registry's lazy initialisation is modelled in the factory class. `VoiceService` and `VoicesApi` receive the registry `get_all` returns, so they do not initialise it themselves.
- Pydantic validation is modelled strictly: each field accepts only its own JSON type, except that an integer is accepted where a float is expected. Lax coercions are not modelled, such as the string "1.5" for a float or 1 for a boolean.
  - `RequestSchema.ParseRequest` reports every failing field. The text of each message is a fixed string, not Pydantic's full wording.
- Environment variables and the `.env` file are not read by the model. The YAML values reach `Settings` as initialiser arguments (gateway/config.py:133), and pydantic-settings ranks initialiser arguments above `TTS_GATEWAY_*` variables. So the environment can only set keys the YAML leaves out, such as `log_level`, whatever the comment at gateway/config.py:132 says. The settings come from the YAML document and the declared defaults only.
- `GatewayConfig.MakeSettings`: states `log_level == "INFO"`, which holds only when no `TTS_GATEWAY_LOG_LEVEL` variable or `.env` entry is set. The YAML never supplies `log_level`, so the environment is its only other source.
- `GatewayConfig.GetSettings`: requires the document itself to be a mapping, and the `server`, `rate_limit` and backend sections, when present, to be mappings too (`SectionsAreMappings`). Where one is not, the source fails with a Python type error, and the model does not describe that failure.
- `Text.Lower`: folds only A-Z. `toLowerCase` and `str.lower` also fold letters outside ASCII, such as `É` or `Σ`. So the searches of `VoicesPage.FilteredVoices` and `HistoryPage.FilteredHistory`, the model-name match of `TtsService.Selection`, and the `.wav` tests of `Text.IsWavName` and `VoiceUploader.StripWav` are exact only for ASCII letters.
- `PyValues.ValueText`: renders only `None`, booleans, integers and strings, the values whose `str()` the model needs. Float and list renderings are not modelled.
- The order of keys inside a JSON object is not modelled. The order of dictionaries the source iterates is modelled: the adapter registry and the metadata store keep their ids in insertion order.
- Floating point: token counts, durations and the emotion knob are exact `real` numbers, and IEEE-754 rounding is not modelled.
  - `AccessLog.Fixed2` rounds the exact duration half-to-even, not its binary approximation.
- `RateLimit.RateLimiter.CheckRateLimit`: requires the clock not to have gone back since the client was last counted. The source has no such guard, and bounds on the tokens are proved only for a non-decreasing clock.
- `RateLimit.RateLimiter.Dispatch`: carries the same requirement, that the clock has not gone back since the client was last counted, because it charges the client's bucket through `CheckRateLimit`.
- A new client's bucket is stamped with the same clock reading as the check that creates it. The source reads the clock twice, once in the default factory and once in the check.
- Header names are matched as written; HTTP's case-insensitive header lookup is not modelled.
- The adapters' `get_status`, `backend_name` and `features` are not modelled: they report static text or one HTTP probe. `GetHealthyAdapter` takes the reported status as a parameter.
- The CORS middleware and the routes of `gateway/main.py`, `gateway/api/v1/audio.py` and `gateway/api/v1/models.py` are not part of this model. Only the middleware order from `gateway/main.py` is used, in `AccessLog.RateLimitedRequestLoggedAsWarning`.
- `gateway/adapters/mock_adapter.py` is not part of this model: it synthesises audio from sine waves and random noise.
- Frontend ids are modelled exactly as the code writes them. The studio names the IndexTTS model `indextts`, while the gateway registers `indextts-2.0`. The lemmas `VoicesPage.IndexTabEmptyOnGatewayVoices` and `VoicesApi.IndexAliasUploadFails` state what follows from that mismatch.
- An upload to an unknown backend returns a result without the `backend` key (`VoiceService.UnknownBackendResultLacksBackend`), which is what the code does.
- The private-key verification request is not modelled. The dialog imports a `useVerifyPrivateKey` hook that the frontend does not define, and nothing calls `setActiveKey` or `addUnlockedVoices`. The dialog's own state handling is modelled; the outcome of verification is a parameter.
- The history page's grouping by date is not modelled, because it depends on the current date and the locale.
- Presentation components are not modelled: layout, cards, buttons, sliders, the audio player and the waveform view. `GenerateButton` contributes only its disable rule, as the precondition of `UseTts.EnabledButtonCalls`.
- The zustand `persist` middleware and local storage are not modelled. Each store states only which fields it persists (`Persisted`).
- `HistoryStore.HistoryStore.AddResult`: requires the result's object URL to be fresh, a guarantee `URL.createObjectURL` gives. The ghost `minted` and `revoked` sets record which URLs were created and revoked.
