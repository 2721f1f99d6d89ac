/** The narrow interface of the generative backend client (`ai.models.generateContent`):
    the request the services build and the response they read. The backend itself is a
    total function from request to outcome, supplied by the caller of each operation. */
module Backend {
  import opened Wrappers
  import opened Types

  datatype Modality = TextModality | ImageModality | AudioModality

  datatype Tool = GoogleSearch | UrlContext

  /** One part of a request: text, or inline data with its declared MIME type. */
  datatype Part = TextPart(text: string) | InlinePart(mimeType: string, data: Base64)

  /** A request turn; `role` is absent when the caller gives only parts. */
  datatype Turn = Turn(role: Option<string>, parts: seq<Part>)

  /** The `contents` field: a list of turns, a bare list of parts, or a plain string. */
  datatype Contents = Turns(turns: seq<Turn>) | PartList(parts: seq<Part>) | PlainText(text: string)

  /** The `config` field of each kind of request. */
  datatype GenConfig =
    | NoConfig
    | ChatConfig(systemInstruction: string, responseMimeType: string, tools: seq<Tool>)
    | SpeechConfig(modalities: seq<Modality>, languageCode: string, voiceName: string)
    | ImageConfig(modalities: seq<Modality>)

  /** A generateContent call, including the API key of the client it was issued on. */
  datatype Request = Request(apiKey: Option<string>, model: string, config: GenConfig, contents: Contents)

  /** Response shapes; every field the services read through optional chaining is an Option. */
  datatype InlineData = InlineData(mimeType: Option<string>, data: Option<string>)
  datatype ResponsePart = ResponsePart(text: string, inlineData: Option<InlineData>)
  datatype CandidateContent = CandidateContent(parts: Option<seq<ResponsePart>>)
  datatype Candidate = Candidate(content: Option<CandidateContent>, groundingMetadata: Option<Metadata>, urlContextMetadata: Option<Metadata>)
  datatype Response = Response(text: string, candidates: Option<seq<Candidate>>)

  /** The backend: for each request, the response it resolves with or what it rejects with. */
  type Client = Request -> Io<Response>
}
