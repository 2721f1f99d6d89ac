/** The shared constant tables of the application (src/shared/constants.ts). */
module Constants {

  /** WINDOW_DEFAULTS: the collapsed and expanded geometry of the overlay window. */
  const WindowWidth: int := 600
  const WindowHeight: int := 50
  const ExpandedHeight: int := 350

  /** SHORTCUTS: the global accelerators. */
  const ToggleAccelerator := "Cmd+\\"
  const ScreenshotAccelerator := "Cmd+Shift+S"
  const AudioAccelerator := "Cmd+Shift+A"

  /** SUPPORTED_FILE_TYPES: the MIME allow-list enforced before any document is sent. */
  const SupportedFileTypes: seq<string> := [
    "application/pdf",
    "application/x-javascript",
    "text/javascript",
    "application/x-python",
    "text/x-python",
    "text/plain",
    "text/html",
    "text/css",
    "text/md",
    "text/csv",
    "text/xml",
    "text/rtf",
    "image/png",
    "image/jpeg",
    "image/gif",
    "image/webp",
    "image/svg+xml",
    "image/tiff"
  ]

  /** The generic binary type that unknown extensions resolve to. */
  const OctetStream := "application/octet-stream"

  /** STORAGE_KEYS: the renderer's local-storage slots. */
  const ConversationsKey := "conversations"
  const SettingsKey := "settings"
  const ApiKeyKey := "api_key"

  /** IPC_CHANNELS, one constant per leaf. */
  const GenerateTextChannel := "ai:generateText"
  const TranscribeAudioChannel := "ai:transcribeAudio"
  const GenerateAudioChannel := "ai:generateAudio"
  const GenerateImageChannel := "ai:generateImage"
  const ReadFileChannel := "ai:readFile"
  const ScreenshotCaptureChannel := "screenshot:capture"
  const AudioCaptureChannel := "audio:capture"
  const PickFileChannel := "files:pickFile"
  const ProcessFileChannel := "files:process"
  const ToggleChannel := "window:toggle"
  const ResizeChannel := "window:resize"
  const GetStateChannel := "window:getState"
  const StorageGetChannel := "storage:get"
  const StorageSetChannel := "storage:set"
  const StorageDeleteChannel := "storage:delete"

  /** IPC_CHANNELS as nested groups, in declaration order (AI, SCREENSHOT, AUDIO, FILES, WINDOW, STORAGE). */
  const IpcChannels: seq<seq<string>> := [
    [GenerateTextChannel, TranscribeAudioChannel, GenerateAudioChannel, GenerateImageChannel, ReadFileChannel],
    [ScreenshotCaptureChannel],
    [AudioCaptureChannel],
    [PickFileChannel, ProcessFileChannel],
    [ToggleChannel, ResizeChannel, GetStateChannel],
    [StorageGetChannel, StorageSetChannel, StorageDeleteChannel]
  ]

  /** No value occurs twice in `s`. */
  predicate Distinct<T(==)>(s: seq<T>) {
    forall i, j :: 0 <= i < j < |s| ==> s[i] != s[j]
  }

  /** The leaves of a two-level table, group by group (`Object.values(t).flatMap(Object.values)`). */
  function Flatten<T>(groups: seq<seq<T>>): (r: seq<T>)
    ensures forall g, x :: 0 <= g < |groups| && x in groups[g] ==> x in r
    ensures forall x :: x in r ==> exists g :: 0 <= g < |groups| && x in groups[g]
  {
    if groups == [] then [] else groups[0] + Flatten(groups[1..])
  }

  lemma SupportedFileTypesAreDistinct()
    ensures |SupportedFileTypes| == 18 && Distinct(SupportedFileTypes)
  {
  }

  lemma OctetStreamIsNotSupported()
    ensures OctetStream !in SupportedFileTypes
  {
  }

  lemma ExpansionGrowthIs300()
    ensures ExpandedHeight - WindowHeight == 300 > 0
  {
  }

  lemma StorageKeysAreDistinct()
    ensures ConversationsKey != SettingsKey && SettingsKey != ApiKeyKey && ConversationsKey != ApiKeyKey
  {
  }

  /** Every leaf of IPC_CHANNELS, in the order the preload script flattens them. */
  const AllChannels: seq<string> := [
    GenerateTextChannel, TranscribeAudioChannel, GenerateAudioChannel, GenerateImageChannel, ReadFileChannel,
    ScreenshotCaptureChannel, AudioCaptureChannel, PickFileChannel, ProcessFileChannel,
    ToggleChannel, ResizeChannel, GetStateChannel, StorageGetChannel, StorageSetChannel, StorageDeleteChannel
  ]

  lemma FlattenedChannels()
    ensures Flatten(IpcChannels) == AllChannels
  {
    var g := IpcChannels;
    assert Flatten(g[5..]) == g[5] + Flatten([]);
    assert Flatten(g[4..]) == g[4] + Flatten(g[5..]);
    assert Flatten(g[3..]) == g[3] + Flatten(g[4..]);
    assert Flatten(g[2..]) == g[2] + Flatten(g[3..]);
    assert Flatten(g[1..]) == g[1] + Flatten(g[2..]);
  }

  lemma IpcChannelsAreDistinct()
    ensures |Flatten(IpcChannels)| == 15 && Distinct(Flatten(IpcChannels))
  {
    FlattenedChannels();
  }
}
