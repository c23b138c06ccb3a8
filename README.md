# Polyglot Lens — a Dafny model of its scan logic

Polyglot Lens is a browser app: the user photographs text, and the picture
is sent either to a cloud vision-language model (online) or to a stubbed
on-device pipeline (offline) for text extraction and translation. The
results show up as a history of scans. This project models the logic that
sits between the camera and the two backends, and proves what it promises:

- `history.dfy` (module `ScanHistory`): the scan history held by the app
  component. A capture appends a `scanning` record whose mode is fixed by
  the connectivity flag at that moment. When the chosen backend settles, the
  record with the capture's id is replaced by a `complete` or `error` copy.
  Clearing the history needs a confirmation.
- `offline.dfy` (module `OfflineService`): the offline pack registry. It is
  a string-to-string store with one `"true"` flag per language under the
  prefix `polyglot_offline_pack_`. The offline translation fails with a
  message that names the language when the pack is missing, and otherwise
  returns a fixed placeholder.
- `gemini.dfy` (module `GeminiService`): the pure parts of the cloud call.
  These are the API-key gate, stripping the `data:image/<word>;base64,`
  prefix, the placeholder texts for empty fields, and collapsing every inner
  failure into one message. The model request and the JSON parser are
  function parameters.
- `camera.dfy` (module `Camera`): the camera view's control logic. It covers
  device cycling, the capability fallback when a stream opens, zoom clamping,
  the pinch gesture, and the zoom and torch guards. Opening a stream and
  applying constraints are outcomes passed in as parameters.
- `types.dfy` and `wrappers.dfy`: the 13 languages with their names, the
  reply shape, `Option` and `Result`, and a substring predicate.

## Model

| member | source | states |
|---|---|---|
| `Types.LanguageName` | types.ts:1-15 | each language's enum string, as used in storage keys, prompts and messages; never empty |
| `Types.NameInjective` | types.ts:1-15 | distinct languages have distinct enum strings |
| `OfflineService.PackKey` | services/offlineService.ts:3-6 | a pack key is the fixed prefix followed by something non-empty |
| `OfflineService.PackKeyInjective` | services/offlineService.ts:3-7 | two languages never share a storage key |
| `OfflineService.OnlyTrueMarksInstalled` | services/offlineService.ts:5-7 | a language counts as installed exactly when its key holds the string "true"; any other stored value means not installed |
| `OfflineService.WithPack` | services/offlineService.ts:12 | after a completed download the pack counts as installed; every other key keeps its presence and value |
| `OfflineService.WithoutPack` | services/offlineService.ts:16 | after a delete the key is gone and the pack is not installed; every other key keeps its presence and value |
| `OfflineService.OtherPacksUnaffected` | services/offlineService.ts:12-16 | installing or removing one language leaves every other language's installed status unchanged |
| `OfflineService.InstallRemoveIdempotent` | services/offlineService.ts:12-16 | downloading twice equals downloading once; deleting twice equals deleting once |
| `OfflineService.MissingPackMessageIsActionable` | services/offlineService.ts:24-26 | the missing-pack error names the language and contains "download" |
| `OfflineService.PlaceholderNamesLanguage` | services/offlineService.ts:38-42 | the placeholder translation contains the target language's name; the detected language is "Detected (Local)" |
| `OfflineService.OfflineOutcome` | services/offlineService.ts:19-43 | the offline result fails iff the flag is not exactly "true"; the failure carries the missing-pack message and a success is the placeholder |
| `OfflineService.PackStore.DownloadPack` | services/offlineService.ts:9-13 | the store gains the flag for this language only, and the pack is then installed |
| `OfflineService.PackStore.DeletePack` | services/offlineService.ts:15-17 | the store loses this language's key only, and the pack is then not installed |
| `OfflineService.PackStore.IsPackDownloaded` | services/offlineService.ts:5-7 | true iff the key is present and holds exactly "true"; a missing key is never downloaded |
| `OfflineService.PackStore.OfflineScanAndTranslate` | services/offlineService.ts:19-43 | the result is the gate's outcome against the current store; the store is only read |
| `OfflineService.InstallThenTranslate` | services/offlineService.ts:9-43 | after a download the offline call succeeds with the placeholder; after a delete it fails with the missing-pack message |
| `GeminiService.WordRunLength` | services/geminiService.ts:40 | the result is the length of the longest prefix of word characters: all characters before it are in `\w` and the next one is not |
| `GeminiService.WordRunStopsAt` | services/geminiService.ts:40 | the greedy `\w+` stops exactly where a run of word characters meets a non-word character |
| `GeminiService.StripDataUrlPrefix` | services/geminiService.ts:40 | the result is a suffix of the input; when it differs from the input, the input is a data URL with a word subtype and the result is its payload |
| `GeminiService.StripDataUrl` | services/geminiService.ts:40 | for a non-empty word subtype, stripping `data:image/<w>;base64,<payload>` returns exactly the payload |
| `GeminiService.StripKeepsNonDataUrl` | services/geminiService.ts:40 | a string that is not such a data URL is returned unchanged |
| `GeminiService.ApiKeyMissing` | services/geminiService.ts:35 | an absent key and the empty key are both missing; any non-empty key is present |
| `GeminiService.OrElse` | services/geminiService.ts:81-82 | a non-empty value is kept verbatim; an empty or absent one becomes the fallback |
| `GeminiService.NormalizeReply` | services/geminiService.ts:80-84 | both texts are non-empty, each is the reply's value or its fixed placeholder, and the detected language is passed through (possibly absent) |
| `GeminiService.ScanAndTranslate` | services/geminiService.ts:31-90 | with no API key the call fails with the configuration message, whatever the model would answer; with a key every failure is the generic message; a success has non-empty texts |
| `GeminiService.ScanSucceedsExactly` | services/geminiService.ts:42-89 | with a key, the call succeeds iff the model answers with non-empty text that parses, and it then yields the normalised reply |
| `ScanHistory.NewScan` | App.tsx:45-57 | a new record is `scanning` with empty texts, the capture's id, time, image and language, and mode online iff the app is online |
| `ScanHistory.Settle` | App.tsx:69-89 | a settled copy keeps id, timestamp, image, language and mode, and is no longer scanning; on success it is complete with the reply's three fields; on failure it is an error with the message, or "Unknown error occurred" for an empty message |
| `ScanHistory.MarkSettled` | App.tsx:69-89 | the settled list has the same length and every record keeps its id, timestamp, image, language and mode |
| `ScanHistory.SettleOnlyTouchesId` | App.tsx:69-89 | a settlement keeps the length and order; records with the id become their settled copy and all others are identical |
| `ScanHistory.NeverBackToScanning` | App.tsx:55-89 | a record still scanning after a settlement was not touched by it |
| `ScanHistory.FreshIdChangesExactlyOne` | App.tsx:69-81 | when one scanning record alone has the id, exactly that record changes and it leaves `scanning` |
| `ScanHistory.SettleAppended` | App.tsx:59-89 | settling a fresh id right after its record was appended settles exactly that last record |
| `ScanHistory.BackendResult` | App.tsx:62-67 | offline, the result fails iff the pack is not installed, with the missing-pack message; online without a key it fails with the configuration message; online with a key every failure is the generic message; a success always has non-empty texts; online the result is the remote call's, offline the pack gate's, so an offline success is the placeholder and an online success is the normalised model reply |
| `ScanHistory.OnlineReplyCompletes` | App.tsx:61-81 | online, a reply "Hola"/"Hello" for Spanish ends the record complete with those texts, in online mode |
| `ScanHistory.TransportFailureFails` | App.tsx:61-89 | online, a transport failure ends the record as an error with "Failed to process image. Please try again." |
| `ScanHistory.OfflineFrenchScan` | App.tsx:61-89 | offline French without its pack ends as an error naming French and "download"; with the pack it ends complete with the placeholder |
| `ScanHistory.ScanSession.constructor` | App.tsx:12-15 | the history starts empty with the default language Vietnamese |
| `ScanHistory.ScanSession.SetOnline` | App.tsx:24-35 | the connectivity events set the flag |
| `ScanHistory.ScanSession.SetTargetLanguage` | App.tsx:14 | the selector sets the target language |
| `ScanHistory.ScanSession.BeginCapture` | App.tsx:42-59 | exactly one pending record is appended at the end and earlier records are unchanged; ids stay distinct and a record is scanning iff its call is in flight |
| `ScanHistory.ScanSession.FinishCapture` | App.tsx:69-89 | the list becomes the settlement by id of the old list; the id leaves the in-flight set, so no record is settled twice |
| `ScanHistory.ScanSession.HandleCapture` | App.tsx:42-91 | the list grows by exactly one record: the new pending record settled with the result of the backend the online flag selects |
| `ScanHistory.ScanSession.ClearHistory` | App.tsx:93-97 | a confirmed clear empties the list; otherwise it is unchanged |
| `Camera.CapabilitiesFrom` | components/CameraView.tsx:62-74 | zoom is supported iff reported; a missing range falls back to min 1, max 1, step 0.1; torch is true iff reported true |
| `Camera.Clamp` | components/CameraView.tsx:198 | inside a non-empty range the result lies in `[min, max]`; in-range values are kept; values below go to min and above go to max; with min above max the result is min |
| `Camera.PinchZoom` | components/CameraView.tsx:194-198 | the pinch zoom is never below min, and never above max when the range is non-empty |
| `Camera.PinchZoomInRange` | components/CameraView.tsx:194-198 | a pinch zoom lies in `[min, max]`; unmoved fingers keep an in-range start zoom |
| `Camera.PinchZoomMonotonic` | components/CameraView.tsx:194-198 | spreading the fingers further never gives a smaller zoom |
| `Camera.VideoInputs` | components/CameraView.tsx:87-89 | the refreshed list holds only video inputs, holds every enumerated video input, and is never longer than the enumeration |
| `Camera.VideoInputsAppend` | components/CameraView.tsx:87-89 | filtering a concatenation is the concatenation of the filtered parts, so the list keeps the enumeration's order and repeats |
| `Camera.VideoInputsSingle` | components/CameraView.tsx:87-89 | a single device survives the filter iff it is a video input; with `VideoInputsAppend` this determines the list element by element |
| `Camera.FindIndex` | components/CameraView.tsx:121 | the result is the first position with the id, or -1 exactly when no device has it |
| `Camera.FindIndexOfListed` | components/CameraView.tsx:121 | with distinct ids, a listed device is found at its own position |
| `Camera.NextIndex` | components/CameraView.tsx:123 | the next index is in `[0, n)`: one up, wrapping from the last to 0; an unknown device (-1) gives 0 |
| `Camera.Advance` | components/CameraView.tsx:123 | repeated steps stay in `[0, n)` |
| `Camera.AdvanceCountsUp` | components/CameraView.tsx:123 | steps that do not pass the end count up one by one |
| `Camera.AdvanceCompose` | components/CameraView.tsx:123 | `a` steps then `b` steps equal `a + b` steps |
| `Camera.CycleReturns` | components/CameraView.tsx:123 | `n` steps through `n` devices return to the start index |
| `Camera.SwitchTarget` | components/CameraView.tsx:118-126 | no switch with fewer than 2 devices; otherwise a listed device is requested, the first one when the current device is unknown |
| `Camera.SwitchFromListed` | components/CameraView.tsx:119-124 | with distinct ids, a switch from the device at `a` requests the device at the next index |
| `Camera.SwitchTargetListed` | components/CameraView.tsx:118-126 | with at least two devices with non-empty ids, a switch always requests a specific (non-empty) device id |
| `Camera.SwitchTimesAdvances` | components/CameraView.tsx:118-126 | `k` switches from the device at `i` reach the device `k` steps further on |
| `Camera.SwitchTimesStep` | components/CameraView.tsx:118-126 | `k + 1` switches are one switch from where `k` switches ended |
| `Camera.SwitchCycleReturns` | components/CameraView.tsx:118-126 | with `n >= 2` distinct devices and no hot-plug, `n` switches return to the starting device |
| `Camera.RequestFor` | components/CameraView.tsx:39-47 | a non-empty device id requests exactly that device; an empty one keeps the facing-mode preference |
| `Camera.CameraController.constructor` | components/CameraView.tsx:16-30 | zoom 1, fallback capabilities, torch off, no devices, no gesture |
| `Camera.CameraController.StartCamera` | components/CameraView.tsx:32-95 | the old stream stops and the requested device (or the facing-mode preference) is recorded; on success the new track is held with no zoom applied and its torch off, the capabilities are refreshed with the fallback, zoom resets to min only when zoom is reported, the device id follows the track's settings when it reports one, and the device list is re-read (a failed enumeration sets the error); a refusal sets the error and changes nothing else; the gesture and the torch flag are never touched |
| `Camera.CameraController.AdoptTrack` | components/CameraView.tsx:53-89 | the success path of a reopen: each field takes the value read from the new track or the enumeration, as `StartCamera` states |
| `Camera.CameraController.RefreshDevices` | components/CameraView.tsx:102-106 | a device change replaces the list with the video inputs |
| `Camera.CameraController.SwitchCamera` | components/CameraView.tsx:118-127 | nothing changes with fewer than 2 devices; otherwise the switch target is requested and the state is exactly what `StartCamera` gives for that device |
| `Camera.CameraController.ApplyZoom` | components/CameraView.tsx:129-139 | the track's zoom changes only when a track is held, zoom is supported and the device accepts the value |
| `Camera.CameraController.HandleZoomChange` | components/CameraView.tsx:141-145 | the slider value becomes the zoom and is sent to the track under the same guard |
| `Camera.CameraController.ToggleTorch` | components/CameraView.tsx:147-158 | the torch flag flips only when a track is held, torch is supported and the device accepts; otherwise it is unchanged |
| `Camera.CameraController.TouchStart` | components/CameraView.tsx:177-185 | a two-finger touch records the distance and the current zoom; other touches change nothing |
| `Camera.CameraController.TouchMove` | components/CameraView.tsx:187-203 | with two touches, a recorded start and zoom support, zoom becomes the clamped scaled start zoom, within `[min, max]` when min ≤ max; otherwise zoom is unchanged |
| `Camera.CameraController.TouchEnd` | components/CameraView.tsx:205-207 | lifting the fingers clears the start distance |
| `Camera.PinchAfterEnd` | components/CameraView.tsx:177-207 | a move after a gesture ends leaves zoom at its old value; the next gesture scales the old zoom by its own start distance only; without zoom support the zoom never moves; the capabilities are untouched |
| `Camera.SwitchToRequested` | components/CameraView.tsx:80-127 | when the opened track reports the requested device and the list is re-read unchanged, one switch makes the switch target current |
| `Camera.SwitchRepeatedly` | components/CameraView.tsx:118-127 | under the same conditions, `n` switches end on the device `SwitchTimes` gives and keep the list |
| `Camera.CycleThroughDevices` | components/CameraView.tsx:118-127 | with `n >= 2` distinct non-empty ids, `n` switches return to the device the user started on |
| `Camera.TorchFlagAfterReopen` | components/CameraView.tsx:32-158 | after the torch is turned on and the camera reopens, the flag still reads on while the new track's torch is off; the next tap leaves both the flag and the device off |

## Left out

- Rendering: components/ChatMessage.tsx, components/LanguageSelector.tsx and the JSX of App.tsx and components/CameraView.tsx map state to the view. Display fallbacks such as "Auto" are not modelled.
- Device I/O: `getUserMedia`, stopping tracks, `enumerateDevices`, the `devicechange` subscription and `applyConstraints` are outcomes passed in (`OpenOutcome`, `accepted`). The track's own zoom and torch are recorded in `trackZoom` and `trackTorch`; a freshly opened track starts with no zoom applied and its torch off.
- Still capture: drawing the frame on a canvas and `toDataURL` (components/CameraView.tsx:160-174) are foreign calls. The image is an opaque string parameter.
- The model client, its prompt, the response schema and `JSON.parse` are function parameters (`generate`, `parse`). JSON values that are not strings (a number in `originalText`, say) are not modelled: every reply field is an optional string.
- The module-load warning and the dummy key used when `API_KEY` is absent (services/geminiService.ts:5-10) are not modelled. The key is an `Option<string>` parameter.
- `setTimeout` delays and the interleaving of several in-flight scans are not modelled. A capture is `BeginCapture` followed later by one atomic `FinishCapture`. Other session operations may run in between, but their order against the backend's own steps is not captured.
- `localStorage` is the `store` map, `window.confirm` is the `confirmed` parameter, and the online/offline listeners are `SetOnline`.
- The re-render counter around downloads and deletes (App.tsx:99-107) has no behaviour beyond refreshing the view.
- Floating point: distances and zoom values are reals, and `Math.hypot` is replaced by the distance it computes, passed as a parameter.
- Camera.CameraController.TouchStart: requires a positive distance for a two-finger touch. The source also records 0 for two touches at the same point, and a later move then divides by zero, giving Infinity or NaN, which reals cannot express.
- ScanHistory.ScanSession.BeginCapture: requires an id not used before in the session. The source uses `Date.now()`, which two captures in the same millisecond would share; the model takes the id as a fresh parameter instead.
- ScanHistory.ScanSession.HandleCapture: requires a fresh id, for the same reason as `BeginCapture`.
- Camera.PinchZoomMonotonic: assumes a non-negative start zoom. With a negative zoom the scaled value would decrease as the fingers spread.
- A reported `zoom` key whose value is falsy (which would make `'zoom' in caps` true while the fallback range is used) is not modelled. A reported torch is an optional boolean.
- Only the pinch handler clamps the zoom (components/CameraView.tsx:198). The slider handler (`HandleZoomChange`) passes its value on unclamped and relies on the range input's bounds; the model does the same.

## Observations

- Camera.TorchFlagAfterReopen: `startCamera` (components/CameraView.tsx:32-95) never resets `isTorchOn`, while a newly opened track has its torch off. After the torch is turned on and the camera is switched, the button shows the torch on with the light off, and the next tap (components/CameraView.tsx:147-158) sends "off": the light stays off and only the button switches to off. This follows from the model; it was not executed.
