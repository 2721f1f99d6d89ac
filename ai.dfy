/** The backend gateway (src/main/services/ai.ts): one operation per modality. Each builds
    its request from an explicit configuration snapshot, issues at most one backend call,
    and turns every failure into a fixed apology plus an error description. */
module Ai {
  import opened Wrappers
  import opened Types
  import opened Backend
  import opened Effects
  import Constants

  /** The configuration a request is built from: the client's API key and the system instruction. */
  datatype Config = Config(apiKey: Option<string>, systemInstruction: string)

  /** The result of generateAudio and generateImage: text plus the decoded artifact, if any. */
  datatype MediaResult = MediaResult(text: string, media: Option<Blob>, error: Option<string>)

  const TextModel := "gemini-2.5-flash"
  const TranscriptionModel := "gemini-2.5-pro"
  const SpeechModel := "gemini-2.5-flash-preview-tts"
  const ImageModel := "gemini-2.0-flash-preview-image-generation"
  const DocumentModel := "gemini-2.5-flash"

  const DefaultSystemInstruction := "You are a helpful assistant."
  const DefaultTranscriptionPrompt := "Transcribe this audio"
  const TranscriptionMimeType := "audio/webm"

  const TextApology := "I'm sorry, I'm having trouble generating a response. Please try again."
  const TranscriptionApology := "I'm sorry, I'm having trouble transcribing the audio. Please try again."
  const AudioApology := "I'm sorry, I'm having trouble generating the audio. Please try again."
  const ImageApology := "I'm sorry, I'm having trouble generating the image. Please try again."
  const ReadFileApology := "I'm sorry, I'm having trouble reading the file. Please try again."
  const UnsupportedError := "Unsupported file type"

  /** The message readFile returns for a MIME type outside the allow-list. */
  function UnsupportedText(mimeType: string): string {
    UnsupportedPrefix + mimeType + SupportedTypesNote
  }

  const UnsupportedPrefix := "Unsupported file type: "
  const SupportedTypesNote := ". Supported types are: PDF, JavaScript, Python, TXT, HTML, CSS, Markdown, CSV, XML, RTF, PNG, JPEG, GIF, WEBP, SVG, TIFF"

  /** The TypeError `Buffer.from(undefined, "base64")` raises. */
  const BufferFromUndefined := "The first argument must be of type string or an instance of Buffer, ArrayBuffer, or Array or an Array-like Object. Received undefined"

  // ---------------------------------------------------------------- requests

  /** The backend's name for a chat role: "assistant" is renamed "model". */
  function BackendRole(r: Role): string {
    match r
    case Assistant => "model"
    case User => "user"
  }

  /** `messages.map(...)`: one turn per message, in order, with the content as its only part. */
  function ToTurns(messages: seq<Message>): seq<Turn> {
    seq(|messages|, i requires 0 <= i < |messages| =>
      Turn(Some(BackendRole(messages[i].role)), [TextPart(messages[i].content)]))
  }

  function TextRequest(cfg: Config, messages: seq<Message>): Request {
    Request(cfg.apiKey, TextModel, ChatConfig(cfg.systemInstruction, "text/plain", [GoogleSearch, UrlContext]),
            Turns(ToTurns(messages)))
  }

  function TranscriptionRequest(cfg: Config, audio: Base64, prompt: string): Request {
    Request(cfg.apiKey, TranscriptionModel, NoConfig,
            PartList([TextPart(prompt), InlinePart(TranscriptionMimeType, audio)]))
  }

  function SpeechRequest(cfg: Config, text: string): Request {
    Request(cfg.apiKey, SpeechModel, SpeechConfig([AudioModality], "en-US", "alloy"),
            Turns([Turn(None, [TextPart(text)])]))
  }

  function ImageRequest(cfg: Config, text: string): Request {
    Request(cfg.apiKey, ImageModel, ImageConfig([TextModality, ImageModality]), PlainText(text))
  }

  function DocumentRequest(cfg: Config, file: Base64, mimeType: string, prompt: string): Request {
    Request(cfg.apiKey, DocumentModel, NoConfig,
            PartList([InlinePart(mimeType, file), TextPart(prompt)]))
  }

  // ---------------------------------------------------------------- operations

  /** The fallback result every text-shaped operation returns on a failure. */
  function Apology(text: string, t: Thrown): AIResponse {
    AIResponse(text, None, None, Some(ErrorText(t)))
  }

  /** generateText. A response without a first candidate makes the metadata read throw,
      which is caught like a backend failure. */
  function GenerateText(cfg: Config, messages: seq<Message>, client: Client): (run: Run<AIResponse>)
    ensures run.trace == [Called(TextRequest(cfg, messages))]
    ensures client(TextRequest(cfg, messages)).Threw? ==>
      run.result == Apology(TextApology, client(TextRequest(cfg, messages)).thrown)
    ensures run.result.error.None? <==>
      (client(TextRequest(cfg, messages)).Done? &&
       var cs := client(TextRequest(cfg, messages)).value.candidates; cs.Some? && |cs.value| > 0)
    ensures run.result.error.None? ==>
      var resp := client(TextRequest(cfg, messages)).value;
      run.result == AIResponse(resp.text, resp.candidates.value[0].groundingMetadata,
                               resp.candidates.value[0].urlContextMetadata, None)
    ensures run.result.error.Some? ==> run.result.text == TextApology
  {
    var req := TextRequest(cfg, messages);
    var result :=
      match client(req)
      case Threw(t) => Apology(TextApology, t)
      case Done(resp) =>
        match resp.candidates
        case None => Apology(TextApology, ErrorValue(UndefinedRead("0")))
        case Some(cs) =>
          if |cs| == 0 then Apology(TextApology, ErrorValue(UndefinedRead("groundingMetadata")))
          else AIResponse(resp.text, cs[0].groundingMetadata, cs[0].urlContextMetadata, None);
    Run(result, [Called(req)])
  }

  /** transcribeAudio; an absent prompt takes the default, an empty one is kept. */
  function TranscribeAudio(cfg: Config, audio: Base64, prompt: Option<string>, client: Client): (run: Run<AIResponse>)
    ensures |run.trace| == 1 && run.trace[0].Called?
    ensures var req := run.trace[0].request;
      && req.contents == PartList([TextPart(if prompt.Some? then prompt.value else "Transcribe this audio"),
                                   InlinePart("audio/webm", audio)])
      && (client(req).Done? ==> run.result == AIResponse(client(req).value.text, None, None, None))
      && (client(req).Threw? ==>
            run.result.text == TranscriptionApology && run.result.error == Some(ErrorText(client(req).thrown)))
  {
    var req := TranscriptionRequest(cfg, audio, prompt.GetOr(DefaultTranscriptionPrompt));
    match client(req)
    case Done(resp) => Run(AIResponse(resp.text, None, None, None), [Called(req)])
    case Threw(t) => Run(Apology(TranscriptionApology, t), [Called(req)])
  }

  /** `response.candidates?.[0]?.content?.parts?.[0]?.inlineData?.data`. */
  function FirstInlineData(resp: Response): Option<string> {
    if resp.candidates.None? || |resp.candidates.value| == 0 then None
    else
      var c := resp.candidates.value[0];
      if c.content.None? || c.content.value.parts.None? || |c.content.value.parts.value| == 0 then None
      else
        var p := c.content.value.parts.value[0];
        if p.inlineData.None? then None else p.inlineData.value.data
  }

  /** generateAudio. A reply without (non-empty) inline data is a success with no audio. */
  function GenerateAudio(cfg: Config, text: string, client: Client): (run: Run<MediaResult>)
    ensures run.trace == [Called(SpeechRequest(cfg, text))]
    ensures run.result.error.Some? <==> client(SpeechRequest(cfg, text)).Threw?
    ensures run.result.error.Some? ==> run.result.text == AudioApology && run.result.media.None?
    ensures run.result.error.None? ==>
      var resp := client(SpeechRequest(cfg, text)).value;
      && run.result.text == resp.text
      && (run.result.media.Some? <==> FirstInlineData(resp).Some? && FirstInlineData(resp).value != "")
      && (run.result.media.Some? ==> run.result.media.value == Decoded(FirstInlineData(resp).value))
  {
    var req := SpeechRequest(cfg, text);
    match client(req)
    case Threw(t) => Run(MediaResult(AudioApology, None, Some(ErrorText(t))), [Called(req)])
    case Done(resp) =>
      var data := FirstInlineData(resp);
      var audio := if data.Some? && data.value != "" then Some(Decoded(data.value)) else None;
      Run(MediaResult(resp.text, audio, None), [Called(req)])
  }

  /** The replies on which generateImage's unguarded reads throw: no candidate list, an empty
      one, a first candidate without content, an empty part list, or inline data without
      `data` (which `Buffer.from` refuses). */
  predicate ImageReplyBroken(resp: Response) {
    || resp.candidates.None?
    || |resp.candidates.value| == 0
    || resp.candidates.value[0].content.None?
    || var parts := resp.candidates.value[0].content.value.parts;
       && parts.Some?
       && (|parts.value| == 0 || (parts.value[0].inlineData.Some? && parts.value[0].inlineData.value.data.None?))
  }

  /** generateImage. Unlike generateAudio it reads `candidates[0].content.parts` and
      `parts[0]` without optional chaining, so those missing make it fail. */
  function GenerateImage(cfg: Config, text: string, client: Client): (run: Run<MediaResult>)
    ensures run.trace == [Called(ImageRequest(cfg, text))]
    ensures run.result.error.Some? ==> run.result.text == ImageApology && run.result.media.None?
    ensures client(ImageRequest(cfg, text)).Threw? ==> run.result.error.Some?
    ensures client(ImageRequest(cfg, text)).Done? ==>
      var resp := client(ImageRequest(cfg, text)).value;
      (resp.candidates.Some? && |resp.candidates.value| > 0 && resp.candidates.value[0].content.Some?) ==>
        var parts := resp.candidates.value[0].content.value.parts;
        && (parts.None? ==> run.result == MediaResult(resp.text, None, None))
        && (parts.Some? && |parts.value| > 0 && parts.value[0].inlineData.None? ==>
              run.result == MediaResult(resp.text, None, None))
        && (parts.Some? && |parts.value| > 0 && parts.value[0].inlineData.Some? &&
            parts.value[0].inlineData.value.data.Some? ==>
              run.result == MediaResult(parts.value[0].text, Some(Decoded(parts.value[0].inlineData.value.data.value)), None))
  {
    var req := ImageRequest(cfg, text);
    var fail := (t: Thrown) => MediaResult(ImageApology, None, Some(ErrorText(t)));
    var result :=
      match client(req)
      case Threw(t) => fail(t)
      case Done(resp) =>
        if resp.candidates.None? then fail(ErrorValue(UndefinedRead("0")))
        else if |resp.candidates.value| == 0 then fail(ErrorValue(UndefinedRead("content")))
        else if resp.candidates.value[0].content.None? then fail(ErrorValue(UndefinedRead("parts")))
        else
          var parts := resp.candidates.value[0].content.value.parts;
          if parts.None? then MediaResult(resp.text, None, None)
          else if |parts.value| == 0 then fail(ErrorValue(UndefinedRead("inlineData")))
          else if parts.value[0].inlineData.None? then MediaResult(resp.text, None, None)
          else if parts.value[0].inlineData.value.data.None? then fail(ErrorValue(BufferFromUndefined))
          else MediaResult(parts.value[0].text, Some(Decoded(parts.value[0].inlineData.value.data.value)), None);
    Run(result, [Called(req)])
  }

  /** readFile: the allow-list is checked before anything is sent. */
  function ReadFile(cfg: Config, file: Base64, mimeType: string, prompt: string, client: Client): (run: Run<AIResponse>)
    ensures run.trace == [] <==> mimeType !in Constants.SupportedFileTypes
    ensures run.trace == [] ==>
      run.result == AIResponse(UnsupportedText(mimeType), None, None, Some(UnsupportedError))
    ensures run.trace != [] ==>
      && |run.trace| == 1 && run.trace[0].Called?
      && var req := run.trace[0].request;
      && req.contents == PartList([InlinePart(mimeType, file), TextPart(prompt)])
      && (client(req).Done? ==> run.result == AIResponse(client(req).value.text, None, None, None))
      && (client(req).Threw? ==>
            run.result.text == ReadFileApology && run.result.error == Some(ErrorText(client(req).thrown)))
  {
    if mimeType !in Constants.SupportedFileTypes then
      Run(AIResponse(UnsupportedText(mimeType), None, None, Some(UnsupportedError)), [])
    else
      var req := DocumentRequest(cfg, file, mimeType, prompt);
      match client(req)
      case Done(resp) => Run(AIResponse(resp.text, None, None, None), [Called(req)])
      case Threw(t) => Run(Apology(ReadFileApology, t), [Called(req)])
  }

  // ---------------------------------------------------------------- properties

  /** generateImage fails, with the apology and no image, exactly when the backend throws or
      its reply is one the unguarded reads throw on; a thrown reply's message is passed on. */
  lemma GenerateImageFailsExactlyWhen(cfg: Config, text: string, client: Client)
    ensures var reply := client(ImageRequest(cfg, text));
      var run := GenerateImage(cfg, text, client);
      && (run.result.error.Some? <==> reply.Threw? || ImageReplyBroken(reply.value))
      && (run.result.error.Some? ==> run.result.text == ImageApology && run.result.media.None?)
      && (reply.Threw? ==> run.result.error == Some(ErrorText(reply.thrown)))
  {
  }

  /** The request of generateText carries one turn per message, in order: assistant
      messages under the role "model", user messages under "user", the content as the only part. */
  lemma TextRequestPreservesMessages(cfg: Config, messages: seq<Message>)
    ensures var turns := TextRequest(cfg, messages).contents.turns;
      && |turns| == |messages|
      && forall i :: 0 <= i < |messages| ==>
           && turns[i].parts == [TextPart(messages[i].content)]
           && turns[i].role == Some(if messages[i].role == Assistant then "model" else "user")
  {
  }

  /** Requests carry the configuration they were built from, so a reconfiguration between
      two calls affects exactly the later one. */
  lemma RequestsSnapshotConfig(cfg: Config, cfg': Config, messages: seq<Message>, file: Base64, mimeType: string, prompt: string)
    ensures TextRequest(cfg, messages).apiKey == cfg.apiKey
    ensures TextRequest(cfg, messages).config.systemInstruction == cfg.systemInstruction
    ensures cfg != cfg' ==> TextRequest(cfg, messages) != TextRequest(cfg', messages)
    ensures cfg.apiKey != cfg'.apiKey ==> DocumentRequest(cfg, file, mimeType, prompt) != DocumentRequest(cfg', file, mimeType, prompt)
  {
  }

  /** Every operation of the gateway makes at most one backend call; only readFile with an
      unsupported type makes none. */
  lemma AtMostOneCall(cfg: Config, messages: seq<Message>, b: Base64, mimeType: string, text: string, prompt: Option<string>, client: Client)
    ensures Calls(GenerateText(cfg, messages, client).trace) == 1
    ensures Calls(TranscribeAudio(cfg, b, prompt, client).trace) == 1
    ensures Calls(GenerateAudio(cfg, text, client).trace) == 1
    ensures Calls(GenerateImage(cfg, text, client).trace) == 1
    ensures Calls(ReadFile(cfg, b, mimeType, text, client).trace) == (if mimeType in Constants.SupportedFileTypes then 1 else 0)
  {
    CallsOfOne(GenerateText(cfg, messages, client).trace);
    CallsOfOne(TranscribeAudio(cfg, b, prompt, client).trace);
    CallsOfOne(GenerateAudio(cfg, text, client).trace);
    CallsOfOne(GenerateImage(cfg, text, client).trace);
    var file := ReadFile(cfg, b, mimeType, text, client).trace;
    if file != [] {
      CallsOfOne(file);
    }
  }

  /** The mutable half of the gateway: the client's credential and the system instruction. */
  class AIService {
    var apiKey: Option<string>
    var systemInstruction: string

    /** The service starts with the API key from the environment and the default instruction. */
    constructor (environmentKey: Option<string>)
      ensures apiKey == environmentKey && systemInstruction == DefaultSystemInstruction
    {
      apiKey := environmentKey;
      systemInstruction := DefaultSystemInstruction;
    }

    /** The snapshot a request is built from at the moment it is issued. */
    function Snapshot(): Config
      reads this
    {
      Config(apiKey, systemInstruction)
    }

    /** setApiKey: replaces the client; later requests carry the new key. */
    method SetApiKey(key: string)
      modifies this
      ensures apiKey == Some(key) && systemInstruction == old(systemInstruction)
    {
      apiKey := Some(key);
    }

    method SetSystemInstruction(instruction: string)
      modifies this
      ensures systemInstruction == instruction && apiKey == old(apiKey)
    {
      systemInstruction := instruction;
    }
  }
}
