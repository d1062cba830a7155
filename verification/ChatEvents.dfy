// Chat stream events as both conversions read them, cut into pieces of meaning.
module ChatEvents {
  import opened Wrappers

  const MAX_FALLBACK_CHARS: nat := 4096

  type JsonText = s: string | s != "" witness "{}"

  datatype ContentPart = RawText(text: string) | TypedText(text: string) | ImagePart | OtherPart(json: JsonText)

  datatype Content = NoContent | TextContent(text: string) | PartsContent(parts: seq<ContentPart>)

  datatype ToolDelta = ToolDelta(index: nat, id: Option<string>, name: Option<string>, arguments: Option<string>)

  // The legacy field; `freshId` is the identifier the router would make up for it.
  datatype FunctionDelta = FunctionDelta(name: Option<string>, arguments: Option<string>, freshId: string)

  datatype Delta = Delta(
    reasoning: Option<string>, signature: Option<string>, content: Content, refusal: Option<string>,
    toolCalls: seq<ToolDelta>, functionCall: Option<FunctionDelta>,
    citations: Option<JsonText>, outputBlock: Option<JsonText>)

  datatype Finish = NoFinish | StringFinish(reason: string) | OddFinish

  datatype Choice = Choice(finish: Finish, delta: Delta)

  datatype Event =
    | Malformed
    | Event(error: Option<string>, id: Option<string>, model: Option<string>, tier: Option<string>,
            usage: Option<string>, choice: Option<Choice>)

  function Decimal(n: nat): (s: string)
    ensures s != ""
  {
    var digit := "0123456789"[n % 10];
    if n < 10 then [digit] else Decimal(n / 10) + [digit]
  }

  function BoundedJson(json: JsonText): (s: string)
    ensures s != ""
  {
    if |json| <= MAX_FALLBACK_CHARS then json
    else "[unsupported upstream content omitted: " + Decimal(|json|) + " chars]"
  }

  function PartText(p: ContentPart): string {
    match p
    case RawText(t) => t
    case TypedText(t) => t
    case ImagePart => "[generated image omitted]"
    case OtherPart(json) => BoundedJson(json)
  }

  function IncompleteToolText(name: string, raw: string): string {
    var bounded := if |raw| > MAX_FALLBACK_CHARS then raw[..MAX_FALLBACK_CHARS] + ['\U{2026}'] else raw;
    "[incomplete tool_use " + name + ": " + bounded + "]"
  }

  // ---- tool fragments ----

  datatype ToolBuffer = ToolBuffer(id: string, name: string, arguments: string)

  const EMPTY_TOOL := ToolBuffer("", "", "")

  predicate StartsWith(s: string, prefix: string) { prefix <= s }

  function StableIdentity(slot: string, incoming: Option<string>): Option<string> {
    if incoming == None || incoming.value == "" then Some(slot)
    else if slot == "" then incoming
    else if slot != incoming.value then None
    else Some(slot)
  }

  function MergedName(slot: string, incoming: Option<string>): string {
    if incoming == None || incoming.value == "" || slot == incoming.value then slot
    else if StartsWith(incoming.value, slot) then incoming.value
    else slot + incoming.value
  }

  function MergedTool(b: ToolBuffer, d: ToolDelta): Option<ToolBuffer> {
    match StableIdentity(b.id, d.id)
    case None => None
    case Some(id) => Some(ToolBuffer(id, MergedName(b.name, d.name), b.arguments + d.arguments.GetOr("")))
  }

  // ---- pieces ----

  datatype Piece =
    | Reasoning(text: string)
    | Signature(signature: string)
    | Say(text: string)
    | Refuse(text: string)
    | Tool(delta: ToolDelta)
    | Legacy(function_: FunctionDelta)

  function Spoken(text: string): seq<Piece> { if text == "" then [] else [Say(text)] }

  function SpokenParts(parts: seq<ContentPart>): seq<Piece> {
    if parts == [] then [] else Spoken(PartText(parts[0])) + SpokenParts(parts[1..])
  }

  function ContentPieces(content: Content): seq<Piece> {
    match content
    case NoContent => []
    case TextContent(t) => Spoken(t)
    case PartsContent(parts) => SpokenParts(parts)
  }

  function HeadPieces(d: Delta): seq<Piece> {
    (if d.reasoning.Some? && d.reasoning.value != "" then [Reasoning(d.reasoning.value)] else [])
    + (if d.signature.Some? then [Signature(d.signature.value)] else [])
    + ContentPieces(d.content)
    + (if d.refusal.Some? && d.refusal.value != "" then [Refuse(d.refusal.value)] else [])
  }

  function ToolList(calls: seq<ToolDelta>): (r: seq<Piece>)
    ensures |r| == |calls| && forall i :: 0 <= i < |r| ==> r[i] == Tool(calls[i])
  {
    if calls == [] then [] else [Tool(calls[0])] + ToolList(calls[1..])
  }

  function ToolPieces(d: Delta): seq<Piece> {
    ToolList(d.toolCalls) + (if d.functionCall.Some? then [Legacy(d.functionCall.value)] else [])
  }

  function NotePieces(d: Delta): seq<Piece> {
    (if d.citations.Some? then [Say(BoundedJson(d.citations.value))] else [])
    + (if d.outputBlock.Some? then [Say(BoundedJson(d.outputBlock.value))] else [])
  }

  // The live stream reads tool calls before annotations, the buffered path after them.
  function LivePieces(d: Delta): seq<Piece> { HeadPieces(d) + ToolPieces(d) + NotePieces(d) }

  function BufferedPieces(d: Delta): seq<Piece> { HeadPieces(d) + NotePieces(d) + ToolPieces(d) }

  // ---- deferred or collected meaning ----

  datatype Semantic = ToolAt(index: nat) | TextPart(text: string) | ThinkingPart(text: string, signature: Option<string>)

  function Last<T>(s: seq<T>): T
    requires s != []
  {
    s[|s| - 1]
  }

  function SetLast<T>(s: seq<T>, x: T): seq<T>
    requires s != []
  {
    s[..|s| - 1] + [x]
  }

  function AddText(parts: seq<Semantic>, text: string): seq<Semantic> {
    if parts != [] && Last(parts).TextPart? then SetLast(parts, TextPart(Last(parts).text + text))
    else parts + [TextPart(text)]
  }

  function AddThinking(parts: seq<Semantic>, text: string): seq<Semantic> {
    if parts != [] && Last(parts).ThinkingPart? then
      SetLast(parts, ThinkingPart(Last(parts).text + text, Last(parts).signature))
    else parts + [ThinkingPart(text, None)]
  }

  function AddTool(parts: seq<Semantic>, tools: map<nat, ToolBuffer>, index: nat): seq<Semantic> {
    if index in tools then parts else parts + [ToolAt(index)]
  }

  function ToolSoFar(tools: map<nat, ToolBuffer>, index: nat): ToolBuffer {
    if index in tools then tools[index] else EMPTY_TOOL
  }

  // ---- what surrounds a conversion ----

  // `parseObject` re-serialises tool arguments that decode to a JSON object; `encode` is the
  // router's own replay signature for reasoning text.
  datatype Codec = Codec(parseObject: string -> Option<string>, encode: string -> string)

  const CHAT_SIGNATURE_PREFIX: string := "ocr-chat-reasoning-v1:"
  const RESPONSES_SIGNATURE_PREFIX: string := "ocr-responses-reasoning-v1:"

  predicate IsRouterSignature(s: string) {
    StartsWith(s, CHAT_SIGNATURE_PREFIX) || StartsWith(s, RESPONSES_SIGNATURE_PREFIX)
  }

  function ReplaySafeSignature(signature: Option<string>, reasoning: string, omit: bool, codec: Codec): string {
    if omit && reasoning != "" && (signature.None? || !IsRouterSignature(signature.value)) then codec.encode(reasoning)
    else signature.GetOr(codec.encode(reasoning))
  }
}
