/** The main process's wiring (src/main/index.ts): window creation on start-up and
    activation, the IPC handlers that expand the window and dispatch to a service, the window
    handlers, and the clean-up on quit. Each handler returns its service's result unchanged
    together with the trace of effects, window resizes included, in the order they happen. */
module MainIpc {
  import opened Wrappers
  import opened Types
  import opened Backend
  import opened Effects
  import Constants
  import Window
  import Ai
  import FileHandler
  import Screenshot
  import Audio

  /** The channels the main process registers a handler for. */
  const HandledChannels: seq<string> := [
    Constants.GenerateTextChannel, Constants.TranscribeAudioChannel, Constants.GenerateAudioChannel,
    Constants.GenerateImageChannel, Constants.ReadFileChannel, Constants.ScreenshotCaptureChannel,
    Constants.AudioCaptureChannel, Constants.PickFileChannel, Constants.ProcessFileChannel,
    Constants.ToggleChannel, Constants.GetStateChannel
  ]

  /** Every handled channel passes the preload whitelist; the whitelist also admits the resize
      and storage channels, which nobody handles. */
  lemma HandledChannelsAreWhitelisted()
    ensures forall ch :: ch in HandledChannels ==> ch in Constants.Flatten(Constants.IpcChannels)
    ensures Constants.ResizeChannel !in HandledChannels
    ensures Constants.StorageGetChannel !in HandledChannels && Constants.StorageSetChannel !in HandledChannels
    ensures Constants.StorageDeleteChannel !in HandledChannels
    ensures |HandledChannels| + 4 == |Constants.Flatten(Constants.IpcChannels)|
  {
    Constants.FlattenedChannels();
    var all := Constants.AllChannels;
    assert HandledChannels == all[..10] + [all[11]];
  }

  /** The resize an `expandIfNeeded` call performs in state `s`, if any. */
  function Resizes(s: Window.WmState): (t: seq<Effect>)
    ensures Calls(t) == 0 && |t| <= 1
    ensures |t| == 1 <==> Window.WillExpand(s)
  {
    if Window.WillExpand(s) then [Resized(Window.ExpandedBounds(s.mainWindow.value.bounds))] else []
  }

  class Host {
    const wm: Window.WindowManager
    const ai: Ai.AIService
    const files: FileHandler.FileHandlerService
    const shots: Screenshot.ScreenshotService
    const recorder: Audio.AudioService
    /** The file system the adapters read and write. */
    var disk: Fs

    constructor (environmentKey: Option<string>, fs: Fs)
      ensures wm.State() == Window.Initial && disk == fs
      ensures ai.Snapshot() == Ai.Config(environmentKey, Ai.DefaultSystemInstruction)
      ensures fresh(wm) && fresh(ai) && fresh(files) && fresh(shots) && fresh(recorder)
    {
      wm := new Window.WindowManager();
      ai := new Ai.AIService(environmentKey);
      files := new FileHandler.FileHandlerService();
      shots := new Screenshot.ScreenshotService();
      recorder := new Audio.AudioService();
      disk := fs;
    }

    /** `ready`: create the window. */
    method Ready(workAreaHeight: int)
      modifies wm
      ensures wm.State() == Window.Created(old(wm.State()), workAreaHeight)
    {
      wm.CreateWindow(workAreaHeight);
    }

    /** `activate`: create a window only when none is open. */
    method Activate(openWindows: nat, workAreaHeight: int)
      modifies wm
      ensures openWindows == 0 ==> wm.State() == Window.Created(old(wm.State()), workAreaHeight)
      ensures openWindows != 0 ==> wm.State() == old(wm.State())
    {
      if openWindows == 0 {
        wm.CreateWindow(workAreaHeight);
      }
    }

    method Expand() returns (resized: seq<Effect>)
      modifies wm
      ensures wm.State() == Window.ExpandedIfNeeded(old(wm.State()))
      ensures resized == Resizes(old(wm.State()))
    {
      var b := wm.ExpandIfNeeded();
      resized := if b.Some? then [Resized(b.value)] else [];
    }

    method HandleGenerateText(messages: seq<Message>, client: Client) returns (reply: AIResponse, trace: seq<Effect>)
      modifies wm
      ensures wm.State() == Window.ExpandedIfNeeded(old(wm.State()))
      ensures var run := Ai.GenerateText(old(ai.Snapshot()), messages, client);
        reply == run.result && trace == Resizes(old(wm.State())) + run.trace
    {
      var resized := Expand();
      var run := Ai.GenerateText(ai.Snapshot(), messages, client);
      reply, trace := run.result, resized + run.trace;
    }

    method HandleTranscribeAudio(audio: Base64, prompt: Option<string>, client: Client) returns (reply: AIResponse, trace: seq<Effect>)
      modifies wm
      ensures wm.State() == Window.ExpandedIfNeeded(old(wm.State()))
      ensures var run := Ai.TranscribeAudio(old(ai.Snapshot()), audio, prompt, client);
        reply == run.result && trace == Resizes(old(wm.State())) + run.trace
    {
      var resized := Expand();
      var run := Ai.TranscribeAudio(ai.Snapshot(), audio, prompt, client);
      reply, trace := run.result, resized + run.trace;
    }

    method HandleGenerateAudio(text: string, client: Client) returns (reply: Ai.MediaResult, trace: seq<Effect>)
      modifies wm
      ensures wm.State() == Window.ExpandedIfNeeded(old(wm.State()))
      ensures var run := Ai.GenerateAudio(old(ai.Snapshot()), text, client);
        reply == run.result && trace == Resizes(old(wm.State())) + run.trace
    {
      var resized := Expand();
      var run := Ai.GenerateAudio(ai.Snapshot(), text, client);
      reply, trace := run.result, resized + run.trace;
    }

    method HandleGenerateImage(text: string, client: Client) returns (reply: Ai.MediaResult, trace: seq<Effect>)
      modifies wm
      ensures wm.State() == Window.ExpandedIfNeeded(old(wm.State()))
      ensures var run := Ai.GenerateImage(old(ai.Snapshot()), text, client);
        reply == run.result && trace == Resizes(old(wm.State())) + run.trace
    {
      var resized := Expand();
      var run := Ai.GenerateImage(ai.Snapshot(), text, client);
      reply, trace := run.result, resized + run.trace;
    }

    method HandleReadFile(file: Base64, mimeType: string, prompt: string, client: Client) returns (reply: AIResponse, trace: seq<Effect>)
      modifies wm
      ensures wm.State() == Window.ExpandedIfNeeded(old(wm.State()))
      ensures var run := Ai.ReadFile(old(ai.Snapshot()), file, mimeType, prompt, client);
        reply == run.result && trace == Resizes(old(wm.State())) + run.trace
    {
      var resized := Expand();
      var run := Ai.ReadFile(ai.Snapshot(), file, mimeType, prompt, client);
      reply, trace := run.result, resized + run.trace;
    }

    method HandleScreenshot(sources: Io<seq<Screenshot.Source>>, now: nat, client: Client)
      returns (reply: CaptureResult, trace: seq<Effect>)
      modifies wm, this
      ensures wm.State() == Window.ExpandedIfNeeded(old(wm.State()))
      ensures var run := shots.Capture(sources, now, old(disk), old(ai.Snapshot()), client);
        && reply == run.result && trace == Resizes(old(wm.State())) + run.trace
        && disk == ApplyAll(old(disk), run.trace)
    {
      var resized := Expand();
      var run := shots.Capture(sources, now, disk, ai.Snapshot(), client);
      reply, trace, disk := run.result, resized + run.trace, ApplyAll(disk, run.trace);
    }

    method HandleAudioCapture(audio: seq<Byte>, now: nat, client: Client) returns (reply: CaptureResult, trace: seq<Effect>)
      modifies wm, this
      ensures wm.State() == Window.ExpandedIfNeeded(old(wm.State()))
      ensures var run := recorder.Capture(audio, now, old(disk), old(ai.Snapshot()), client);
        && reply == run.result && trace == Resizes(old(wm.State())) + run.trace
        && disk == ApplyAll(old(disk), run.trace)
    {
      var resized := Expand();
      var run := recorder.Capture(audio, now, disk, ai.Snapshot(), client);
      reply, trace, disk := run.result, resized + run.trace, ApplyAll(disk, run.trace);
    }

    /** The pick-file handler. `picked` is what the file picker yields; the picker itself is not
        part of the file handler, so it is taken as given. */
    method HandlePickFile(picked: Option<string>) returns (reply: Option<string>, trace: seq<Effect>)
      modifies wm
      ensures reply == picked
      ensures picked.None? ==> wm.State() == old(wm.State()) && trace == []
      ensures picked.Some? ==> wm.State() == Window.ExpandedIfNeeded(old(wm.State())) && trace == Resizes(old(wm.State()))
    {
      if picked.None? {
        return None, [];
      }
      trace := Expand();
      reply := picked;
    }

    /** The process-file handler, as written: it never expands, and it hands the renderer's
        optional second argument to the file handler's MIME-type parameter, leaving the
        prompt parameter undefined. */
    method HandleProcessFile(filePath: string, prompt: Option<string>, now: nat, client: Client)
      returns (reply: FileResult, trace: seq<Effect>)
      modifies this
      ensures var run := files.ProcessFile(filePath, prompt, None, now, old(disk), old(ai.Snapshot()), client);
        && reply == run.result && trace == run.trace
        && disk == ApplyAll(old(disk), run.trace)
    {
      var run := files.ProcessFile(filePath, prompt, None, now, disk, ai.Snapshot(), client);
      reply, trace := run.result, run.trace;
      disk := ApplyAll(disk, trace);
    }

    /** The process-file handler as evidently intended: the MIME type resolved from the path,
        the renderer's prompt as the prompt. */
    method HandleProcessFileIntended(filePath: string, prompt: Option<string>, now: nat, client: Client)
      returns (reply: FileResult, trace: seq<Effect>)
      modifies this
      ensures var run := files.ProcessFile(filePath, Some(FileHandler.GetMimeType(filePath)), prompt, now, old(disk), old(ai.Snapshot()), client);
        && reply == run.result && trace == run.trace
        && disk == ApplyAll(old(disk), run.trace)
    {
      var run := files.ProcessFile(filePath, Some(FileHandler.GetMimeType(filePath)), prompt, now, disk, ai.Snapshot(), client);
      reply, trace, disk := run.result, run.trace, ApplyAll(disk, run.trace);
    }

    /** As written, a file sent without a prompt, which is how the renderer sends every picked
        file, is rejected as "Unsupported file type: undefined" whatever its type, and a prompt
        that is not itself an allowed MIME type is rejected as that type. */
    lemma ProcessHandlerRejectsPickedFiles(filePath: string, prompt: Option<string>, now: nat, fs: Fs, cfg: Ai.Config, client: Client)
      requires prompt.None? || prompt.value !in Constants.SupportedFileTypes
      ensures var run := files.ProcessFile(filePath, prompt, None, now, fs, cfg, client);
        && run.trace == []
        && run.result.error == Some(Ai.UnsupportedError)
        && run.result.text == Ai.UnsupportedPrefix + Interpolate(prompt)
      ensures prompt.None? ==>
        files.ProcessFile(filePath, prompt, None, now, fs, cfg, client).result.text == Ai.UnsupportedPrefix + UndefinedText
    {
      files.ProcessFileRejectsUnsupported(filePath, prompt, None, now, fs, cfg, client);
    }

    /** As intended, a file with a known extension that exists and can be staged reaches the
        gateway once, with its resolved MIME type and the renderer's prompt. */
    lemma IntendedProcessHandlerSendsKnownFiles(filePath: string, prompt: Option<string>, now: nat, fs: Fs, cfg: Ai.Config, client: Client)
      ensures FileHandler.GetMimeType(filePath) != Constants.OctetStream &&
              filePath in fs.files && files.StagingPath(filePath, now) !in fs.readOnly ==>
        var run := files.ProcessFile(filePath, Some(FileHandler.GetMimeType(filePath)), prompt, now, fs, cfg, client);
        && |run.trace| == 3 && run.trace[2].Called?
        && run.trace[2].request.contents ==
             PartList([InlinePart(FileHandler.GetMimeType(filePath), EncodingOf(fs.files[filePath].data)),
                       TextPart(FileHandler.EffectivePrompt(prompt))])
    {
      if FileHandler.GetMimeType(filePath) != Constants.OctetStream {
        FileHandler.GetMimeTypeAgreesWithAllowList(filePath);
        files.ProcessFileSupported(filePath, Some(FileHandler.GetMimeType(filePath)), prompt, now, fs, cfg, client);
      }
    }

    /** The toggle handler answers with the state read after toggling. */
    method HandleToggle() returns (reply: WindowState)
      modifies wm
      ensures wm.State() == Window.Toggled(old(wm.State()))
      ensures reply == Window.StateOf(Window.Toggled(old(wm.State())))
    {
      wm.Toggle();
      reply := wm.GetState();
    }

    /** The get-state handler reads the window manager and changes nothing. */
    function HandleGetState(): (r: WindowState)
      reads wm
      ensures r == Window.StateOf(wm.State())
    {
      wm.GetState()
    }

    /** `before-quit`: sweep the staging directory with the default maximum age. */
    method BeforeQuit(listing: Io<seq<string>>, now: int)
      modifies this
      ensures listing.Threw? ==> disk == old(disk)
      ensures listing.Done? ==> disk == files.Sweep(old(disk), listing.value, now, FileHandler.DefaultMaxAge)
    {
      disk := files.CleanupOldFiles(disk, listing, now, FileHandler.DefaultMaxAge);
    }
  }
}
