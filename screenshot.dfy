/** The screen-capture adapter (src/main/services/screenshot.ts): takes the first screen
    source, extracts the base64 payload of its PNG data URL, saves it under a timestamped name
    and, in `Capture`, forwards it with a fixed prompt to the gateway's document operation. */
module Screenshot {
  import opened Wrappers
  import opened Types
  import opened Backend
  import opened Effects
  import Constants
  import Ai

  const DefaultScreenshotDir := "screenshots"
  const ScreenshotMimeType := "image/png"
  const ScreenshotPrompt := "This is a screenshot of the user computer screen. The user wants to know about the content of the screen. Do not describe the elements, just do a research and resume the content."
  const NoSourcesText := "No screen sources found"
  const NoSourcesError := "No screen sources available"
  const FailedText := "Failed to capture screenshot"
  const SavedText := "Screenshot captured successfully"

  /** The message of the TypeError `fs.writeFileSync` throws when its data is `undefined`. */
  const UndefinedData := "The \"data\" argument must be of type string or an instance of Buffer, TypedArray, or DataView. Received undefined"

  /** A screen source, reduced to the data URL its thumbnail renders to. */
  datatype Source = Source(dataUrl: string)

  /** The index of the first occurrence of `c` in `s`. */
  function FirstIndex(s: string, c: char): (i: nat)
    requires c in s
    ensures i < |s| && s[i] == c && c !in s[..i]
  {
    if s[0] == c then 0
    else
      var j := FirstIndex(s[1..], c);
      assert s[1..][..j] == s[1..j + 1];
      assert s[..j + 1] == [s[0]] + s[1..j + 1];
      j + 1
  }

  /** `s.split(sep)` for a one-character separator: the maximal separator-free pieces. */
  function Split(s: string, sep: char): (fields: seq<string>)
    ensures |fields| >= 1
    ensures forall k :: 0 <= k < |fields| ==> sep !in fields[k]
    decreases |s|
  {
    if sep !in s then [s]
    else
      var i := FirstIndex(s, sep);
      [s[..i]] + Split(s[i + 1..], sep)
  }

  /** `fields.join(sep)`. */
  function JoinWith(fields: seq<string>, sep: char): string
    requires |fields| >= 1
  {
    if |fields| == 1 then fields[0] else fields[0] + [sep] + JoinWith(fields[1..], sep)
  }

  /** Splitting loses nothing: joining the pieces back gives the original text. */
  lemma {:induction false} SplitJoin(s: string, sep: char)
    ensures JoinWith(Split(s, sep), sep) == s
    decreases |s|
  {
    if sep in s {
      var i := FirstIndex(s, sep);
      var rest := Split(s[i + 1..], sep);
      var fields := [s[..i]] + rest;
      assert Split(s, sep) == fields;
      assert fields[0] == s[..i] && fields[1..] == rest;
      SplitJoin(s[i + 1..], sep);
      assert s == s[..i] + [sep] + s[i + 1..];
    }
  }

  /** A data URL "header,payload" whose parts hold no comma splits into exactly those parts. */
  lemma SplitDataUrl(header: string, payload: string)
    requires ',' !in header && ',' !in payload
    ensures Split(header + "," + payload, ',') == [header, payload]
  {
    var s := header + "," + payload;
    assert s[|header|] == ',';
    assert forall j :: 0 <= j < |header| ==> s[j] == header[j];
    var i := FirstIndex(s, ',');
    assert i == |header|;
    assert s[..i] == header;
    assert s[i + 1..] == payload;
  }

  /** How far a capture gets before the gateway: no source, an exception, or the saved file. */
  datatype Shot = NoSources | Failed(thrown: Thrown) | Saved(path: string, payload: string)

  class ScreenshotService {
    var screenshotDir: string

    constructor ()
      ensures screenshotDir == DefaultScreenshotDir
    {
      screenshotDir := DefaultScreenshotDir;
    }

    /** setScreenshotDir: later captures save under the new directory. */
    method SetScreenshotDir(dir: string)
      modifies this
      ensures screenshotDir == dir
    {
      screenshotDir := dir;
    }

    function ScreenshotPath(now: nat): string
      reads this
    {
      Join(screenshotDir, "screenshot_" + DecimalString(now) + ".png")
    }

    /** The part both capture operations share: list the sources, take the first, split its data
        URL at the commas and save the second piece under a timestamped name. */
    function Take(sources: Io<seq<Source>>, now: nat, fs: Fs): (shot: Shot)
      reads this
      ensures shot.Saved? ==>
        && sources.Done? && sources.value != []
        && shot.path == ScreenshotPath(now) && shot.path !in fs.readOnly
        && |Split(sources.value[0].dataUrl, ',')| >= 2
        && shot.payload == Split(sources.value[0].dataUrl, ',')[1]
      ensures shot.NoSources? <==> sources == Done([])
    {
      match sources
      case Threw(t) => Failed(t)
      case Done(list) =>
        if list == [] then NoSources
        else
          var fields := Split(list[0].dataUrl, ',');
          if |fields| < 2 then Failed(ErrorValue(UndefinedData))
          else
            var path := ScreenshotPath(now);
            match WriteFault(fs, path)
            case Some(t) => Failed(t)
            case None => Saved(path, fields[1])
    }

    /** capture: save the screenshot, then ask the gateway about it. */
    function Capture(sources: Io<seq<Source>>, now: nat, fs: Fs, cfg: Ai.Config, client: Client): (run: Run<CaptureResult>)
      reads this
      ensures sources == Done([]) ==> run == Run(CaptureResult(NoSourcesText, None, Some(NoSourcesError)), [])
      ensures run.result.filePath.None? <==> run.trace == []
      ensures run.result.filePath.None? ==> run.result.error.Some?
      ensures run.result.filePath.None? && sources != Done([]) ==> run.result.text == FailedText
      ensures run.result.filePath.Some? ==> run.result.filePath.value == ScreenshotPath(now)
    {
      match Take(sources, now, fs)
      case NoSources => Run(CaptureResult(NoSourcesText, None, Some(NoSourcesError)), [])
      case Failed(t) => Run(CaptureResult(FailedText, None, Some(ErrorText(t))), [])
      case Saved(path, payload) =>
        var reply := Ai.ReadFile(cfg, Encoded(payload), ScreenshotMimeType, ScreenshotPrompt, client);
        Run(CaptureResult(reply.result.text, Some(path), reply.result.error),
            [Wrote(path, Decoded(payload), now)] + reply.trace)
    }

    /** captureWithoutAI: the same capture, saved only. */
    function CaptureWithoutAI(sources: Io<seq<Source>>, now: nat, fs: Fs): (run: Run<CaptureResult>)
      reads this
      ensures sources == Done([]) ==> run == Run(CaptureResult(NoSourcesText, None, Some(NoSourcesError)), [])
      ensures Calls(run.trace) == 0
      ensures run.result.filePath.None? <==> run.trace == []
      ensures run.result.filePath.None? ==> run.result.error.Some?
      ensures run.result.filePath.None? && sources != Done([]) ==> run.result.text == FailedText
      ensures run.result.filePath.Some? ==> run.result == CaptureResult(SavedText, Some(ScreenshotPath(now)), None)
    {
      match Take(sources, now, fs)
      case NoSources => Run(CaptureResult(NoSourcesText, None, Some(NoSourcesError)), [])
      case Failed(t) => Run(CaptureResult(FailedText, None, Some(ErrorText(t))), [])
      case Saved(path, payload) =>
        Run(CaptureResult(SavedText, Some(path), None), [Wrote(path, Decoded(payload), now)])
    }

    /** The three ways both captures fail with "Failed to capture screenshot", each with the
        message of what was thrown: the source listing throws; the first data URL has no
        comma, so the payload is `undefined` and the write refuses it; or the write is denied. */
    lemma CaptureFailureCauses(sources: Io<seq<Source>>, now: nat, fs: Fs, cfg: Ai.Config, client: Client)
      ensures var full := Capture(sources, now, fs, cfg, client).result;
        var saved := CaptureWithoutAI(sources, now, fs).result;
        && (sources.Threw? ==>
              var failed := CaptureResult(FailedText, None, Some(ErrorText(sources.thrown)));
              full == failed && saved == failed)
        && (sources.Done? && sources.value != [] && |Split(sources.value[0].dataUrl, ',')| < 2 ==>
              var failed := CaptureResult(FailedText, None, Some(ErrorText(ErrorValue(UndefinedData))));
              full == failed && saved == failed)
        && (sources.Done? && sources.value != [] && |Split(sources.value[0].dataUrl, ',')| >= 2 &&
            ScreenshotPath(now) in fs.readOnly ==>
              var failed := CaptureResult(FailedText, None, Some(ErrorText(Denied("open", ScreenshotPath(now)))));
              full == failed && saved == failed)
    {
    }

    /** A successful capture saves the payload of the first source's data URL, and sends that
        same payload, as a PNG with the fixed prompt, in the one gateway call that follows. */
    lemma CaptureSendsWhatItSaves(sources: Io<seq<Source>>, now: nat, fs: Fs, cfg: Ai.Config, client: Client)
      requires Capture(sources, now, fs, cfg, client).result.filePath.Some?
      ensures var run := Capture(sources, now, fs, cfg, client);
        && sources.Done? && sources.value != []
        && var fields := Split(sources.value[0].dataUrl, ',');
        && |fields| >= 2
        && |run.trace| == 2
        && run.trace[0] == Wrote(ScreenshotPath(now), Decoded(fields[1]), now)
        && run.trace[1].Called?
        && run.trace[1].request.contents ==
             PartList([InlinePart(ScreenshotMimeType, Encoded(fields[1])), TextPart(ScreenshotPrompt)])
        && var reply := client(run.trace[1].request);
        && (reply.Done? ==> run.result.text == reply.value.text && run.result.error.None?)
        && (reply.Threw? ==> run.result.text == Ai.ReadFileApology && run.result.error == Some(ErrorText(reply.thrown)))
    {
      assert Constants.SupportedFileTypes[12] == ScreenshotMimeType;
    }

    /** Both capture operations save the same file, and a capture calls the gateway exactly
        when the save-only capture would have succeeded. */
    lemma CaptureExtendsCaptureWithoutAI(sources: Io<seq<Source>>, now: nat, fs: Fs, cfg: Ai.Config, client: Client)
      ensures var full := Capture(sources, now, fs, cfg, client);
        var saved := CaptureWithoutAI(sources, now, fs);
        && saved.trace <= full.trace
        && full.result.filePath == saved.result.filePath
        && (Calls(full.trace) == 1 <==> saved.result.filePath.Some?)
        && (saved.result.filePath.None? ==> full == saved)
    {
      var full := Capture(sources, now, fs, cfg, client);
      match Take(sources, now, fs)
      case NoSources =>
      case Failed(t) =>
      case Saved(path, payload) =>
        assert Constants.SupportedFileTypes[12] == ScreenshotMimeType;
        var tail := Ai.ReadFile(cfg, Encoded(payload), ScreenshotMimeType, ScreenshotPrompt, client).trace;
        assert full.trace[1..] == tail && |tail| == 1 && tail[0].Called?;
        assert Calls(tail) == 1 by { assert tail[1..] == []; }
        assert CaptureWithoutAI(sources, now, fs).trace == full.trace[..1];
    }
  }
}
