/** The audio adapter (src/main/services/audio.ts): saves recorded audio under a timestamped
    name and sends it to the gateway's transcription operation, or transcribes a stored file. */
module Audio {
  import opened Wrappers
  import opened Types
  import opened Backend
  import opened Effects
  import Ai

  const DefaultAudioDir := "audio"
  const FailedCaptureText := "Failed to process audio"
  const SavedText := "Audio saved successfully"
  const FailedSaveText := "Failed to save audio"
  const FailedTranscribeText := "Failed to transcribe audio file"

  class AudioService {
    var audioDir: string

    constructor ()
      ensures audioDir == DefaultAudioDir
    {
      audioDir := DefaultAudioDir;
    }

    /** setAudioDir: later recordings are saved under the new directory. */
    method SetAudioDir(dir: string)
      modifies this
      ensures audioDir == dir
    {
      audioDir := dir;
    }

    function AudioPath(now: nat): string
      reads this
    {
      Join(audioDir, "audio_" + DecimalString(now) + ".webm")
    }

    /** capture: save the recording, then transcribe its base64 encoding with the default prompt.
        A refused write ends the operation before the gateway is called. */
    function Capture(audio: seq<Byte>, now: nat, fs: Fs, cfg: Ai.Config, client: Client): (run: Run<CaptureResult>)
      reads this
      ensures var path := AudioPath(now);
        if path in fs.readOnly then
          run == Run(CaptureResult(FailedCaptureText, None, Some(ErrorText(Denied("open", path)))), [])
        else
          && run.result.filePath == Some(path)
          && |run.trace| == 2
          && run.trace[0] == Wrote(path, Bytes(audio), now)
          && run.trace[1].Called?
          && run.trace[1].request.contents ==
               PartList([TextPart(Ai.DefaultTranscriptionPrompt), InlinePart(Ai.TranscriptionMimeType, EncodingOf(Bytes(audio)))])
          && var reply := client(run.trace[1].request);
          && (reply.Done? ==> run.result.text == reply.value.text && run.result.error.None?)
          && (reply.Threw? ==> run.result.text == Ai.TranscriptionApology && run.result.error == Some(ErrorText(reply.thrown)))
    {
      var path := AudioPath(now);
      match WriteFault(fs, path)
      case Some(t) => Run(CaptureResult(FailedCaptureText, None, Some(ErrorText(t))), [])
      case None =>
        var reply := Ai.TranscribeAudio(cfg, EncodingOf(Bytes(audio)), None, client);
        Run(CaptureResult(reply.result.text, Some(path), reply.result.error), [Wrote(path, Bytes(audio), now)] + reply.trace)
    }

    /** saveAudio: the same save, without transcription. */
    function SaveAudio(audio: seq<Byte>, now: nat, fs: Fs): (run: Run<CaptureResult>)
      reads this
      ensures Calls(run.trace) == 0
      ensures var path := AudioPath(now);
        if path in fs.readOnly then
          run == Run(CaptureResult(FailedSaveText, None, Some(ErrorText(Denied("open", path)))), [])
        else
          run == Run(CaptureResult(SavedText, Some(path), None), [Wrote(path, Bytes(audio), now)])
    {
      var path := AudioPath(now);
      match WriteFault(fs, path)
      case Some(t) => Run(CaptureResult(FailedSaveText, None, Some(ErrorText(t))), [])
      case None => Run(CaptureResult(SavedText, Some(path), None), [Wrote(path, Bytes(audio), now)])
    }

    /** transcribeFile: read a stored recording and transcribe it; a missing file ends the
        operation before the gateway is called. */
    function TranscribeFile(filePath: string, fs: Fs, cfg: Ai.Config, client: Client): (run: Run<CaptureResult>)
      ensures filePath !in fs.files ==>
        run == Run(CaptureResult(FailedTranscribeText, None, Some(ErrorText(NotFound("open", filePath)))), [])
      ensures filePath in fs.files ==>
        && run.result.filePath == Some(filePath)
        && |run.trace| == 2
        && run.trace[0] == ReadFrom(filePath)
        && run.trace[1].Called?
        && run.trace[1].request.contents ==
             PartList([TextPart(Ai.DefaultTranscriptionPrompt),
                       InlinePart(Ai.TranscriptionMimeType, EncodingOf(fs.files[filePath].data))])
        && var reply := client(run.trace[1].request);
        && (reply.Done? ==> run.result.text == reply.value.text && run.result.error.None?)
        && (reply.Threw? ==> run.result.text == Ai.TranscriptionApology && run.result.error == Some(ErrorText(reply.thrown)))
    {
      match ReadFileSync(fs, filePath)
      case Threw(t) => Run(CaptureResult(FailedTranscribeText, None, Some(ErrorText(t))), [])
      case Done(data) =>
        var reply := Ai.TranscribeAudio(cfg, EncodingOf(data), None, client);
        Run(CaptureResult(reply.result.text, Some(filePath), reply.result.error), [ReadFrom(filePath)] + reply.trace)
    }

    /** A recording that `Capture` saved and `TranscribeFile` later reads back is sent to the
        gateway as the very same request. */
    lemma TranscribeFileOfCapture(audio: seq<Byte>, now: nat, fs: Fs, cfg: Ai.Config, client: Client)
      requires AudioPath(now) !in fs.readOnly
      ensures var captured := Capture(audio, now, fs, cfg, client);
        var later := TranscribeFile(AudioPath(now), ApplyAll(fs, captured.trace), cfg, client);
        && later.trace == [ReadFrom(AudioPath(now))] + captured.trace[1..]
        && later.result == captured.result
    {
      var captured := Capture(audio, now, fs, cfg, client);
      var path := AudioPath(now);
      var t := captured.trace;
      var fs0 := Apply(fs, t[0]);
      assert t[1..][1..] == [];
      assert ApplyAll(fs0, t[1..]) == ApplyAll(Apply(fs0, t[1]), []);
      var fs1 := ApplyAll(fs, t);
      assert fs1 == Apply(fs0, t[1]) == fs0;
      assert path in fs1.files && fs1.files[path].data == Bytes(audio);
    }
  }
}
