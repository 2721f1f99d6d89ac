# Transparent: a verified model of the overlay chat app's core

Transparent is an Electron overlay: a small always-on-top window that grows once into a chat
panel and sends text, screenshots, recorded audio and files to a Gemini gateway. This project
models, in Dafny, the rules underneath the plumbing and proves them:

- the shared constant tables (`constants.dfy`);
- the window manager's state machine (`window.dfy`): visibility toggling, the one-shot
  upward expansion, the reported state, and where the window is created;
- the AI gateway (`ai.dfy`): request building, role renaming, the MIME allow-list checked
  before any call, response extraction, and the fixed apologies on failure;
- the capture adapters: the file handler (`file_handler.dfy`) with its extension table,
  staging copies, per-file processing and the sweep of old uploads; the screenshot adapter
  (`screenshot.dfy`); the audio adapter (`audio.dfy`);
- the main process's IPC handlers (`main_ipc.dfy`) and the preload channel whitelist
  (`preload.dfy`);
- the renderer's storage service (`storage.dfy`), chat log (`chat.dfy`) and controller
  (`app.dfy`).

How the outside world enters the model:

- The Gemini SDK is a total function `Client = Request -> Io<Response>` passed in. A reply is
  either a response (text, candidates, parts, inline data) or a thrown value.
- Every main-process operation returns `Run(result, trace)`. The trace lists the effects in
  order: file reads, writes, copies and deletes, window resizes, and gateway calls
  (`Called(request)`). "No gateway call" therefore means "no `Called` in the trace".
- The file system is a value `Fs`: a map from path to contents and modification time, the
  subdirectories a directory listing can meet with their modification times, and the paths
  whose writes are refused. `ApplyAll(fs, trace)` is the file system after a trace.
- `Date.now()` readings, `Math.random()` digits, the file picker's answer, the listed screen
  sources, the directory listing and the renderer's backend replies are all parameters.
- Objects whose fields the source updates are classes: `WindowManager`, `AIService`,
  `FileHandlerService`, `ScreenshotService`, `AudioService`, `Host`, `StorageService`,
  `ChatComponent` and `App`. Their methods are specified by pure step functions, or by pure
  functions of the old state.
- Local storage is a map from key to stored item plus the key order. A stored JSON text is
  kept as the value it encodes, so parsing what was stringified gives that value back.

On these points the model follows the code:

- The screenshot adapter uses the first of one or more screen sources; it does not require
  exactly one.
- A refused screenshot write fails the whole capture. It is not fire-and-forget.
- An expansion keeps the window's bottom edge only when the window was at its collapsed
  height of 50 (`Window.ExpansionKeepsBottomEdgeIff`). On a reachable window that is always
  so (`Window.FirstExpansionKeepsBottomEdge`).
- The MIME type of a processed file is checked twice: by the file handler, then again by the
  gateway's `readFile`.

## Model

| member | source | states |
|---|---|---|
| Constants.SupportedFileTypesAreDistinct | src/shared/constants.ts:16-35 | the allow-list has 18 entries, no two alike |
| Constants.OctetStreamIsNotSupported | src/shared/constants.ts:16-35 | `application/octet-stream`, the type of unknown extensions, is not on the allow-list |
| Constants.ExpansionGrowthIs300 | src/shared/constants.ts:4-8 | the expanded height exceeds the collapsed one by exactly 300 |
| Constants.FlattenedChannels | src/shared/constants.ts:43-71 | flattening the channel table group by group yields the fifteen leaf strings in order |
| Constants.IpcChannelsAreDistinct | src/shared/constants.ts:43-71 | the fifteen channel strings are pairwise distinct |
| Constants.StorageKeysAreDistinct | src/shared/constants.ts:37-41 | the three storage keys are pairwise distinct, so no two slots collide |
| Window.StateOf | src/main/window.ts:119-139 | with no window the reported state is 600x50 at (100, 0), not visible; otherwise it is the window's bounds and the visibility flag |
| Window.ToggleFlipsVisibility | src/main/window.ts:88-98 | with no window a toggle changes nothing; with one it flips visibility and shows or hides the window to match; two toggles restore visibility; the other flags are untouched |
| Window.ShowHideNeedAWindow | src/main/window.ts:141-153 | show and hide change nothing without a window; with one they set visibility true or false and show or hide it |
| Window.ExpandIsOneShot | src/main/window.ts:100-116 | an expansion that does not apply changes nothing; afterwards `heightUpdated` is set exactly when a window existed; a second call changes nothing |
| Window.ExpansionGeometry | src/main/window.ts:103-114 | an effective expansion keeps x, sets width 600 and height 350, and lowers y by exactly 300 |
| Window.ExpansionKeepsBottomEdgeIff | src/main/window.ts:103-114 | an expansion keeps `y + height` if and only if the prior height was 50 |
| Window.AtMostOneExpansion | src/main/window.ts:100-117 | over any sequence of operations, closes and re-creations included, at most one expansion happens, and none once `heightUpdated` is set, which is never cleared |
| Window.ReachableIsCollapsed | src/main/window.ts:100-117 | every reachable window is either still 600x50 and unexpanded, or has been expanded once |
| Window.FirstExpansionKeepsBottomEdge | src/main/window.ts:103-116 | from the initial state, the one expansion that happens keeps the window's bottom edge |
| Window.CreatedPosition | src/main/window.ts:8-49 | a created window sits at x = 100, y = work-area height - 50 - 80, is 600x50, and is not cloaked; the manager's visibility flag starts false |
| Window.FirstToggleKeepsWindowOnScreen | src/main/window.ts:88-98 | Electron shows a new window, yet `isVisible` starts false, so the first toggle after creation leaves the window on screen and only the second hides it |
| Window.WindowManager.CreateWindow | src/main/window.ts:13-68 | the manager's state moves by the creation step, which keeps `heightUpdated` and `isHidden` |
| Window.WindowManager.Toggle | src/main/window.ts:88-98 | the manager's state moves by the toggle step |
| Window.WindowManager.ExpandIfNeeded | src/main/window.ts:100-117 | the state moves by the expansion step; it reports the new bounds exactly when the expansion applies |
| Window.WindowManager.GetState | src/main/window.ts:119-139 | the reported state as above; reading it changes nothing |
| Window.WindowManager.Show | src/main/window.ts:141-146 | the state moves by the show step |
| Window.WindowManager.Hide | src/main/window.ts:148-153 | the state moves by the hide step |
| Window.WindowManager.Close | src/main/window.ts:155-160 | the window is dropped and the flags, `heightUpdated` included, are kept |
| Window.WindowManager.SetHidden | src/main/window.ts:170-178 | `isHidden` is set, and an existing window is cloaked to match |
| Window.WindowManager.OnCaptureShortcut | src/main/window.ts:75-85 | a capture shortcut expands if needed and forwards its channel exactly when a window exists |
| Ai.GenerateText | src/main/services/ai.ts:15-49 | one call with the message turns; on success the text plus the first candidate's metadata and no error; a thrown reply or a missing candidate gives the fixed apology with the error text |
| Ai.TextRequestPreservesMessages | src/main/services/ai.ts:31-34 | one turn per message in order, "assistant" renamed to "model", "user" kept, the content as the only text part |
| Ai.TranscribeAudio | src/main/services/ai.ts:51-76 | one call with the prompt (default "Transcribe this audio") and the audio as `audio/webm`; the reply text, or the apology with the error |
| Ai.GenerateAudio | src/main/services/ai.ts:78-115 | one call; no audio and no error when the first part lacks inline data; no audio and an error on failure |
| Ai.GenerateImage | src/main/services/ai.ts:117-150 | one call; the response text and no image when the parts are missing or the first has no inline data, otherwise the first part's text and its image; the apology on failure |
| Ai.GenerateImageFailsExactlyWhen | src/main/services/ai.ts:117-150 | the apology, no image and an error come back exactly when the call throws, the candidate list is missing or empty, the first candidate has no content, the part list is empty, or the first part's inline data has no `data`; a thrown reply's message is the error |
| Ai.ReadFile | src/main/services/ai.ts:152-184 | a type outside the allow-list gives the literal unsupported-type message and makes no call; an allowed type makes one call, inline data first and the prompt second |
| Ai.RequestsSnapshotConfig | src/main/services/ai.ts:186-192 | a request carries the key and instruction of the configuration it was built from, so a later change affects only later requests |
| Ai.AtMostOneCall | src/main/services/ai.ts:15-184 | each gateway operation makes exactly one call; `readFile` makes none for a rejected type |
| Ai.AIService.constructor | src/main/services/ai.ts:5-13 | the key comes from the environment and the instruction is the default one |
| Ai.AIService.SetApiKey | src/main/services/ai.ts:186-188 | the key is replaced and the instruction kept |
| Ai.AIService.SetSystemInstruction | src/main/services/ai.ts:190-192 | the instruction is replaced and the key kept |
| FileHandler.LastDot | src/main/services/file-handler.ts:85 | the position of the last dot, with no dot after it, or none when there is no dot |
| FileHandler.ExtNameShape | src/main/services/file-handler.ts:85 | an extension is empty or is one dot followed by dot-free, slash-free text |
| FileHandler.GetMimeType | src/main/services/file-handler.ts:84-110 | the answer is on the allow-list or is the generic `application/octet-stream` |
| FileHandler.GetMimeTypeAgreesWithAllowList | src/main/services/file-handler.ts:84-110 | the type is the table entry for the lowercased extension, and octet-stream exactly when there is none; it is on the allow-list exactly when it is not octet-stream |
| FileHandler.MimeTableIsSupported | src/main/services/file-handler.ts:87-107 | every table value is on the allow-list, and none is octet-stream |
| FileHandler.PythonSourceResolves | src/main/services/file-handler.ts:90 | a `.py` path resolves to `text/x-python` |
| FileHandler.UpperCaseExtensionResolves | src/main/services/file-handler.ts:84-88 | the extension is lowercased first: `.PDF` resolves to `application/pdf` |
| FileHandler.NoExtensionIsGeneric | src/main/services/file-handler.ts:84-109 | a path whose last segment has no dot resolves to octet-stream |
| FileHandler.FileHandlerService.constructor | src/main/services/file-handler.ts:8-12 | staging starts in the "uploads" directory |
| FileHandler.FileHandlerService.SetUploadDir | src/main/services/file-handler.ts:116-119 | later staging paths use the new directory |
| FileHandler.FileHandlerService.ProcessFile | src/main/services/file-handler.ts:20-60 | every result names the file's basename and carries the given type |
| FileHandler.FileHandlerService.ProcessFileRejectsUnsupported | src/main/services/file-handler.ts:22-29 | an absent or disallowed type gives "Unsupported file type: <type>" with that error, and reads, copies and calls nothing |
| FileHandler.FileHandlerService.ProcessFileSupported | src/main/services/file-handler.ts:31-59 | an allowed type reads the file, copies it to `<uploadDir>/<ts>_<basename>`, and only then calls the gateway with its contents and the prompt or the default one; a missing file or refused copy ends with "Failed to process file" before any call |
| FileHandler.FileHandlerService.ProcessAllOnePerPath | src/main/services/file-handler.ts:62-82 | one result per input path, in order, each naming its path's basename and resolved type |
| FileHandler.FileHandlerService.ProcessFiles | src/main/services/file-handler.ts:62-82 | the loop's results and effects are those of processing the paths one after another |
| FileHandler.FileHandlerService.SweepDeletesOnlyExpired | src/main/services/file-handler.ts:121-139 | the sweep deletes only listed files older than the maximum age, adds nothing and leaves subdirectories alone |
| FileHandler.FileHandlerService.SweepDeletesExactlyExpired | src/main/services/file-handler.ts:127-135 | when every listed entry is a file or a subdirectory no older than the maximum age, and every expired file can be deleted, exactly the files with `now - mtime > maxAge` are gone; fresh subdirectories are passed over |
| FileHandler.FileHandlerService.CleanupOldFiles | src/main/services/file-handler.ts:121-139 | a failed listing changes nothing; otherwise the file system is the sweep's, which stops only where `statSync` or `unlinkSync` would throw: a missing entry, an expired subdirectory, or a protected expired file |
| FileHandler.StagingNamesAreDistinct | src/main/services/file-handler.ts:36-38 | copies of one file staged at different timestamps get different paths |
| Screenshot.Split | src/main/services/screenshot.ts:36 | splitting yields at least one field, none containing the separator |
| Screenshot.SplitJoin | src/main/services/screenshot.ts:36 | joining the fields with the separator gives back the data URL |
| Screenshot.SplitDataUrl | src/main/services/screenshot.ts:35-36 | a data URL `header,payload` splits into exactly the header and the payload |
| Screenshot.ScreenshotService.constructor | src/main/services/screenshot.ts:8-12 | screenshots start in the "screenshots" directory |
| Screenshot.ScreenshotService.SetScreenshotDir | src/main/services/screenshot.ts:105-108 | later screenshot paths use the new directory |
| Screenshot.ScreenshotService.Take | src/main/services/screenshot.ts:22-42 | zero sources is reported as such; a saved shot comes from the first source, holds the second comma-separated field, and lies at `screenshot_<ts>.png` |
| Screenshot.ScreenshotService.Capture | src/main/services/screenshot.ts:20-63 | zero sources gives the fixed message and error with no effects; no path is returned exactly when nothing was written, and then there is an error and, unless there were no sources, the text "Failed to capture screenshot" |
| Screenshot.ScreenshotService.CaptureSendsWhatItSaves | src/main/services/screenshot.ts:39-55 | a successful capture writes the payload, then makes one call with that payload as `image/png` and the fixed prompt, and returns the reply's text and error |
| Screenshot.ScreenshotService.CaptureWithoutAI | src/main/services/screenshot.ts:65-99 | the same capture with no gateway call, answering "Screenshot captured successfully" with the path; a failure other than zero sources answers "Failed to capture screenshot" |
| Screenshot.ScreenshotService.CaptureFailureCauses | src/main/services/screenshot.ts:20-99 | for both captures, a thrown listing, a first data URL without a comma (an `undefined` payload the write rejects) and a denied write each give "Failed to capture screenshot" with that exception's message |
| Screenshot.ScreenshotService.CaptureExtendsCaptureWithoutAI | src/main/services/screenshot.ts:20-99 | both captures write the same file, and a capture calls the gateway exactly when the save-only capture succeeds |
| Audio.AudioService.constructor | src/main/services/audio.ts:7-11 | recordings start in the "audio" directory |
| Audio.AudioService.SetAudioDir | src/main/services/audio.ts:94-97 | later recordings use the new directory |
| Audio.AudioService.Capture | src/main/services/audio.ts:19-46 | the recording is written to `audio_<ts>.webm` before one transcription call, whose text and error are returned with the path; a refused write gives "Failed to process audio", no path and no call |
| Audio.AudioService.SaveAudio | src/main/services/audio.ts:48-67 | the same write, no call, "Audio saved successfully" with the path |
| Audio.AudioService.TranscribeFile | src/main/services/audio.ts:69-88 | a stored file is read and transcribed, returning the input path with the transcription's text, or the transcription apology and the thrown message; a missing one gives "Failed to transcribe audio file" |
| Audio.AudioService.TranscribeFileOfCapture | src/main/services/audio.ts:19-88 | transcribing a file that a capture saved sends the same request and gives the same result |
| MainIpc.HandledChannelsAreWhitelisted | src/main/index.ts:37-103 | every handled channel passes the preload whitelist; the resize and storage channels pass it but have no handler |
| MainIpc.Resizes | src/main/window.ts:100-117 | an expansion produces one resize and no gateway call exactly when it applies |
| MainIpc.Host.Ready | src/main/index.ts:16-22 | start-up creates the window |
| MainIpc.Host.Activate | src/main/index.ts:30-34 | activation creates a window only when none is open |
| MainIpc.Host.HandleGenerateText | src/main/index.ts:37-41 | the window expands if needed before the gateway call; the service's result is returned unchanged |
| MainIpc.Host.HandleTranscribeAudio | src/main/index.ts:43-47 | the same, for transcription |
| MainIpc.Host.HandleGenerateAudio | src/main/index.ts:49-53 | the same, for speech |
| MainIpc.Host.HandleGenerateImage | src/main/index.ts:55-59 | the same, for images |
| MainIpc.Host.HandleReadFile | src/main/index.ts:61-65 | the same, for documents |
| MainIpc.Host.HandleScreenshot | src/main/index.ts:67-71 | the same, for a screenshot, with the disk updated by the capture's effects |
| MainIpc.Host.HandleAudioCapture | src/main/index.ts:73-77 | the same, for a recording |
| MainIpc.Host.HandlePickFile | src/main/index.ts:79-88 | a `null` pick returns `null` without expanding; otherwise the window expands and the path is returned |
| MainIpc.Host.HandleProcessFile | src/main/index.ts:90-94 | processing never expands and passes the renderer's prompt as the MIME type, with no prompt |
| MainIpc.Host.ProcessHandlerRejectsPickedFiles | src/main/index.ts:90-94 | as written, a file sent without a prompt is rejected as "Unsupported file type: undefined" with no effects |
| MainIpc.Host.HandleProcessFileIntended | src/main/index.ts:90-94 | the corrected handler passes the path's resolved type and the prompt |
| MainIpc.Host.IntendedProcessHandlerSendsKnownFiles | src/main/index.ts:90-94 | with the correction, a readable file with a known extension reaches the gateway once with its type and the prompt |
| MainIpc.Host.HandleToggle | src/main/index.ts:96-99 | toggles, then answers with the state read after toggling |
| MainIpc.Host.HandleGetState | src/main/index.ts:101-103 | answers with the reported state of the window manager's current state, changing nothing |
| MainIpc.Host.BeforeQuit | src/main/index.ts:106-109 | quitting sweeps the staging directory with the seven-day default |
| Preload.Invoke | src/preload/index.ts:7-14 | a call is forwarded exactly when the channel is one of the fifteen channel strings; any other channel throws "Invalid channel: <channel>" |
| Preload.On | src/preload/index.ts:15-20 | only the two shortcut channels get a listener; others are ignored |
| Preload.RemoveAllListeners | src/preload/index.ts:21-23 | any channel's listeners are removed, with no whitelist, and other channels' are kept |
| Preload.OnlyShortcutListeners | src/preload/index.ts:15-23 | whatever the calls, only shortcut channels ever hold listeners |
| Storage.ConversationsOf | src/renderer/services/storage.ts:21-29 | a slot holding a parsed list gives exactly that list; a non-empty result always comes from the slot, so an absent, empty or unparsable slot gives `[]` |
| Storage.SettingsOf | src/renderer/services/storage.ts:53-83 | every key of a stored settings object has its stored value; every default key the stored object lacks has its default value; no other key appears |
| Storage.ApiKeyOf | src/renderer/services/storage.ts:91-93 | the stored key, or `null` when there is none |
| Storage.First | src/renderer/services/storage.ts:31-34 | the first entry with the id, no earlier entry having it, or `null` exactly when no entry has the id |
| Storage.Upsert | src/renderer/services/storage.ts:8-16 | the first entry with the id is replaced by the conversation and every other entry, later duplicates included, is kept; a new id is appended |
| Storage.UpsertThenFirst | src/renderer/services/storage.ts:8-34 | after saving, the id finds exactly the saved conversation, and other ids find what they found before |
| Storage.Without | src/renderer/services/storage.ts:36-40 | the result holds exactly the entries with another id |
| Storage.WithoutDistributes | src/renderer/services/storage.ts:38 | deletion distributes over concatenation, so survivors keep their order |
| Storage.WithoutAbsentId | src/renderer/services/storage.ts:38 | deleting an id that no entry has changes nothing |
| Storage.WithoutThenFirst | src/renderer/services/storage.ts:31-40 | after deleting, the id finds nothing and other ids find what they found before |
| Storage.SavedSettingsReadBack | src/renderer/services/storage.ts:47-68 | the stored merge keeps the partial's values and the current values elsewhere, and reading settings back gives exactly that merge |
| Storage.SizeIgnoresUnlisted | src/renderer/services/storage.ts:104-113 | only the listed keys count towards the size |
| Storage.NewApiKeyGrowsSize | src/renderer/services/storage.ts:87-113 | storing an API key in a fresh slot grows the size by the key's length |
| Storage.Imported | src/renderer/services/storage.ts:124-138 | an import writes at most the two sections' slots and keeps every other slot |
| Storage.ImportedKeys | src/renderer/services/storage.ts:127-132 | an import keeps the existing key order and only appends the keys of sections it writes, conversations before settings |
| Storage.ImportedSections | src/renderer/services/storage.ts:124-138 | each section present is written as given; an absent one leaves its slot as it was |
| Storage.ImportExportRoundTrip | src/renderer/services/storage.ts:115-138 | importing what was exported gives back the same conversations and settings |
| Storage.StorageService.SaveConversation | src/renderer/services/storage.ts:8-19 | the conversations slot holds the upserted list |
| Storage.StorageService.GetConversations | src/renderer/services/storage.ts:21-29 | the stored list; `[]` when the slot is absent or does not hold a list |
| Storage.StorageService.GetConversation | src/renderer/services/storage.ts:30-33 | `null` exactly when no stored conversation has the id; otherwise a stored conversation with that id |
| Storage.StorageService.DeleteConversation | src/renderer/services/storage.ts:36-40 | the conversations slot holds the filtered list |
| Storage.StorageService.ClearConversations | src/renderer/services/storage.ts:42-44 | the slot is removed, so the list reads as empty |
| Storage.StorageService.SaveSettings | src/renderer/services/storage.ts:47-51 | the settings slot holds the current settings merged with the partial |
| Storage.StorageService.GetSettings | src/renderer/services/storage.ts:53-84 | every default key is present; the defaults when nothing parses, else the defaults overridden by the stored object |
| Storage.StorageService.SaveApiKey | src/renderer/services/storage.ts:87-89 | the key reads back as stored |
| Storage.StorageService.GetApiKey | src/renderer/services/storage.ts:91-93 | the stored key exactly when one is stored, else `null` |
| Storage.StorageService.ClearApiKey | src/renderer/services/storage.ts:95-97 | the key reads back as `null` |
| Storage.StorageService.ClearAll | src/renderer/services/storage.ts:100-102 | local storage is empty |
| Storage.StorageService.GetStorageSize | src/renderer/services/storage.ts:104-113 | the loop adds up the stored lengths of the listed keys, skipping the empty key |
| Storage.StorageService.ExportData | src/renderer/services/storage.ts:115-122 | the backup carries the export time, and importing it gives back the current conversations and settings |
| Storage.StorageService.ImportData | src/renderer/services/storage.ts:124-138 | true exactly when the text parsed; a parse failure writes nothing; otherwise the slots are the import's and each newly written section's key is appended to the key order |
| Chat.ChatComponent.AddMessage | src/renderer/components/chat.ts:23-31 | the message is appended at the end; `animate-in` is added exactly when it is the first |
| Chat.ChatComponent.ShowLoading | src/renderer/components/chat.ts:47-55 | loading is set; a second call changes nothing, so there is never more than one loader |
| Chat.ChatComponent.HideLoading | src/renderer/components/chat.ts:57-63 | loading is cleared and no loader is left |
| Chat.ChatComponent.Clear | src/renderer/components/chat.ts:65-69 | the log and the output are emptied; the loading flag stays |
| Chat.ChatComponent.GetMessages | src/renderer/components/chat.ts:71-73 | the logged messages, all of them, in the order they were added |
| Chat.ChatComponent.SetMessages | src/renderer/components/chat.ts:75-85 | the log becomes the given messages, re-rendered into an emptied output |
| Chat.ChatComponent.IsLoading | src/renderer/components/chat.ts:87-89 | the loading flag; while it is clear no loader is shown |
| App.GenerateId | src/renderer/index.ts:221-223 | ids start with `msg_` and are never empty |
| App.Title | src/renderer/index.ts:231 | a first message of at most 50 characters is the title as it is; a longer one is cut to its first 50 characters plus "..." |
| App.TitlesOfLongTexts | src/renderer/index.ts:231 | two long first messages share a title exactly when their first 50 characters agree |
| App.ConversationId | src/renderer/index.ts:230 | the current id is kept when there is one; otherwise a fresh one, never empty |
| App.Saved | src/renderer/index.ts:229-235 | the saved conversation holds the whole log, the title of its first message, the id chosen above, and the save's clock reading as both `createdAt` and `updatedAt` |
| App.RepeatedSavesUpdateOneEntry | src/renderer/index.ts:229-238 | a later save keeps the first save's id, so it updates the same stored entry without growing the list |
| App.RepeatedSavesResetCreatedAt | src/renderer/index.ts:229-238 | as written, a later save at another time leaves the stored entry with the later save's time as its `createdAt` |
| App.SavedKeepingCreatedAt | src/renderer/index.ts:229-235 | the corrected conversation: as `Saved`, but an entry already stored under the id lends its `createdAt` |
| App.RepeatedCorrectedSavesKeepCreatedAt | src/renderer/index.ts:229-238 | with the correction, a later save updates the same entry, refreshes `updatedAt` and keeps the first save's `createdAt` |
| App.App.SaveConversation | src/renderer/index.ts:225-239 | an empty log saves nothing; otherwise the log is upserted and its id becomes the current one |
| App.App.HandleSendMessage | src/renderer/index.ts:57-91 | while loading nothing happens; otherwise the user's message is appended, the whole log is sent, one reply or the apology is appended, a success is saved, and loading ends. After a success, the stored log and the key order are the save's, and the current id is the saved conversation's, so later saves update the same entry |
| App.App.HandleScreenshot | src/renderer/index.ts:93-130 | the fixed request, then the capture's text or the apology, then loading ends. After a success, the stored log and the key order are the save's, and the current id is the saved conversation's, so later saves update the same entry |
| App.App.HandleAudioCaptured | src/renderer/index.ts:144-173 | the transcription is appended as a user message; a throw appends an assistant apology; loading ends. After a success, the stored log and the key order are the save's, and the current id is the saved conversation's, so later saves update the same entry |
| App.App.HandleFilePick | src/renderer/index.ts:175-219 | a `null` pick returns before the loading check and changes nothing; otherwise "File: <path>", then the reply or the apology, then loading ends. After a success, the stored log and the key order are the save's, and the current id is the saved conversation's, so later saves update the same entry |

## Left out

- Directory creation (`ensureUploadDir`, `ensureScreenshotDir`, `ensureAudioDir`) is not modelled. Writes to a missing directory are not distinguished from other writes.
- The BrowserWindow options, content protection, page loading, DevTools, the dock and the global-shortcut registration are not modelled. Only their effect on the manager's state is.
- `window-all-closed` and the quit path of `electron-squirrel-startup` are not modelled.
- `fileHandlerService.pickFile` and the renderer's `apiService.pickFile` are not defined in the code. Both become a given `Option<string>` answer.
- The renderer's API service is a pass-through over IPC and is not part of this model. The renderer's handlers take the main process's reply as a parameter.
- JSON encoding and decoding are not modelled. Stored JSON keeps the value it encodes, and `exportData` returns the document it would stringify. A stored text that parses to a value of another shape is treated as unparsable.
- Storage.StorageService.GetStorageSize: the length of a stored JSON text is a parameter, since the model does not encode JSON.
- Storage.StorageService.ImportData: a document that parses to `null` is grouped with a parse failure. A falsy section counts as absent.
- Base64 encoding and decoding, MediaRecorder, markdown rendering, DOM updates, scrolling, and the input and file-picker components are not modelled.
- UTF-16 code units are not modelled. `Title` counts Dafny characters, so a title cut inside a surrogate pair is not modelled.
- `path.extname` on a leading-dot name such as `.bashrc` returns an empty extension. The model follows that rule. Lowercasing covers ASCII letters only; other locale-dependent case mappings are not modelled.
- Each renderer handler uses one timestamp for each message and one for the save. `Date.now()` calls within the same step are not told apart.
- Concurrent IPC calls and renderer handlers that interleave at their awaits are not modelled. Each call runs to completion.
- The legacy entry points (`src/main.ts`, `src/gemini.ts`, `src/renderer.ts`, `src/preload.ts`) are not part of this model. They are not built.
- App.App.HandleSendMessage: a `localStorage.setItem` that throws (quota exceeded) during the save is not modelled. The source then appends the apology after the reply that is already shown.
- App.App.HandleScreenshot: a throwing `localStorage.setItem` during the save is not modelled, as for HandleSendMessage.
- App.App.HandleAudioCaptured: a throwing `localStorage.setItem` during the save is not modelled, as for HandleSendMessage.
- App.App.HandleFilePick: a throwing `localStorage.setItem` during the save is not modelled, as for HandleSendMessage.
- Storage.StorageService.SetItem: local storage never refuses a write here, so quota errors are not modelled.
- Window.ReachableIsCollapsed: covers only the manager's own operations. The window is `movable: true`, and bounds the user changes by dragging are not modelled.
- Window.FirstExpansionKeepsBottomEdge: holds for windows only the manager has moved; a user drag before the expansion is not modelled.
- FileHandler.FileHandlerService.SweepDeletesExactlyExpired: a staged copy's modification time is taken to be the copy time. A platform whose `copyFileSync` keeps the source's time would sweep differently.
- Effects.Fs: subdirectories are seen only by the clean-up sweep. Reading a path that names a subdirectory fails as for a missing file (`ENOENT` rather than `EISDIR`), and writing or copying onto one succeeds instead of failing.
- Effects.Join: does not normalise `.`, `..` or repeated slashes the way `path.join` does, so directories holding those give other paths than Node's.
- The SDK's `response.text` and `part.text` can be `undefined`. They are modelled as strings, so an undefined reply text is not represented.
- App.SavedKeepingCreatedAt: the corrected definition is stated beside the code as written; the handlers keep using `Saved`, as the source does.
- FileHandler.FileHandlerService.ProcessFiles: its per-file catch is unreachable, because `processFile` catches everything itself. The model has no such branch.

## Findings

| source | as written | input that shows it | evidently intended | confidence | as-written member | corrected member |
|---|---|---|---|---|---|---|
| src/renderer/index.ts:233 | `createdAt: this.currentConversationId ? Date.now() : Date.now()` reads the clock on both arms | two saves of one conversation at times 1 and 2: the stored entry's `createdAt` becomes 2 | keep the stored conversation's `createdAt` when the id is already saved | not executed | App.RepeatedSavesResetCreatedAt | App.RepeatedCorrectedSavesKeepCreatedAt |
| src/main/index.ts:92 | `processFile(filePath, prompt)` passes the renderer's optional prompt as the MIME type and leaves the prompt undefined | a picked `report.pdf` sent with no prompt: the reply is "Unsupported file type: undefined" and the file is never read | pass the type resolved from the path as the MIME type and the renderer's prompt as the prompt | not executed | MainIpc.Host.ProcessHandlerRejectsPickedFiles | MainIpc.Host.IntendedProcessHandlerSendsKnownFiles |
