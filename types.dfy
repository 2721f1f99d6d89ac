/** Records shared by the main process and the renderer (src/shared/types.ts), and the
    few JavaScript value conventions the services rely on. */
module Types {
  import opened Wrappers

  type Byte = bv8

  /** The content of a Node `Buffer` or of a file on disk. A buffer made with
      `Buffer.from(s, "base64")` is kept as the base64 text it was decoded from:
      the model never needs the decoded bytes themselves. */
  datatype Blob = Bytes(raw: seq<Byte>) | Decoded(base64: string)

  /** A base64 string as the backend receives it: either text that arrived already encoded
      (over IPC, or split out of a data URL) or the encoding of a buffer (`buffer.toString("base64")`). */
  datatype Base64 = Encoded(text: string) | EncodingOf(blob: Blob)

  /** Message.role, restricted by its type to the two chat roles. */
  datatype Role = User | Assistant

  /** Message: one entry of the chat log; `timestamp` and `id` are optional. */
  datatype Message = Message(role: Role, content: string, timestamp: Option<nat>, id: Option<string>)

  /** Conversation: a stored chat. */
  datatype Conversation = Conversation(id: string, title: string, messages: seq<Message>, createdAt: nat, updatedAt: nat)

  /** Grounding or URL-context metadata, passed through uninterpreted. */
  datatype Metadata = Metadata(json: string)

  /** AIResponse: text plus optional metadata and an optional error description. */
  datatype AIResponse = AIResponse(text: string, groundingMetadata: Option<Metadata>, urlContextMetadata: Option<Metadata>, error: Option<string>)

  /** ScreenshotResult and AudioResult, which have the same shape. */
  datatype CaptureResult = CaptureResult(text: string, filePath: Option<string>, error: Option<string>)

  /** FileResult. `fileType` is `None` when the caller passed `undefined` as the MIME type. */
  datatype FileResult = FileResult(text: string, fileName: string, fileType: Option<string>, error: Option<string>)

  /** The integer rectangle Electron reports through getBounds(). */
  datatype Bounds = Bounds(x: int, y: int, width: int, height: int)

  /** WindowState, the snapshot returned to the renderer. */
  datatype WindowState = WindowState(width: int, height: int, x: int, y: int, isVisible: bool)

  /** A value thrown by a callee: an `Error` object with its message, or anything else. */
  datatype Thrown = ErrorValue(message: string) | OtherValue

  /** The settled outcome of an awaited external call: its value, or what it threw. */
  datatype Io<T> = Done(value: T) | Threw(thrown: Thrown)

  /** The services' catch blocks: `error instanceof Error ? error.message : 'Unknown error'`. */
  function ErrorText(t: Thrown): string {
    match t
    case ErrorValue(m) => m
    case OtherValue => "Unknown error"
  }

  /** The TypeError V8 raises when a property is read from `undefined`. */
  function UndefinedRead(property: string): string {
    "Cannot read properties of undefined (reading '" + property + "')"
  }

  /** How a template literal renders `undefined`. */
  const UndefinedText := "undefined"

  /** Template-literal rendering of a possibly undefined string (`${x}`). */
  function Interpolate(s: Option<string>): string {
    match s
    case Some(v) => v
    case None => UndefinedText
  }

  predicate IsDigit(c: char) {
    '0' <= c <= '9'
  }

  function DigitChar(d: nat): (c: char)
    requires d < 10
    ensures IsDigit(c)
  {
    ('0' as int + d) as char
  }

  /** The decimal rendering of a non-negative integer, as `${n}` renders a `Date.now()` value. */
  function DecimalString(n: nat): (s: string)
    ensures 1 <= |s| && forall i :: 0 <= i < |s| ==> IsDigit(s[i])
    ensures |s| == 1 <==> n < 10
  {
    if n < 10 then [DigitChar(n)] else DecimalString(n / 10) + [DigitChar(n % 10)]
  }

  /** Different timestamps never render to the same text. */
  lemma {:induction false} DecimalStringInjective(a: nat, b: nat)
    requires DecimalString(a) == DecimalString(b)
    ensures a == b
  {
    if a >= 10 && b >= 10 {
      var sa, sb := DecimalString(a), DecimalString(b);
      assert sa[|sa| - 1] == sb[|sb| - 1];
      assert DecimalString(a / 10) == sa[..|sa| - 1] == sb[..|sb| - 1] == DecimalString(b / 10);
      DecimalStringInjective(a / 10, b / 10);
    }
  }

  /** Equal texts around a common prefix and suffix have equal middles. */
  lemma StripAffixes(p: string, a: string, b: string, q: string)
    requires p + a + q == p + b + q
    ensures a == b
  {
    assert |a| == |b|;
    forall i | 0 <= i < |a| ensures a[i] == b[i] {
      assert a[i] == (p + a + q)[|p| + i];
      assert b[i] == (p + b + q)[|p| + i];
    }
  }
}
