/**
 * What the AI layer exchanges with the outside world: parsed JSON values, the
 * failures a call can raise, and the requests and responses of the three
 * backends (the Gemini generative API, the Serper search API and the DeepSeek
 * chat API), which the model receives as functions.
 */
module Ai {
  import opened Wrappers
  import opened Records
  import opened Text

  /** A value `JSON.parse` can produce. */
  datatype Json =
    | JNull
    | JBool(b: bool)
    | JNumber(n: real)
    | JString(s: string)
    | JArray(items: seq<Json>)
    | JObject(fields: map<string, Json>)

  /** JavaScript truthiness of a parsed value (NaN is not modelled). */
  predicate Truthy(j: Json) {
    match j
    case JNull => false
    case JBool(b) => b
    case JNumber(n) => n != 0.0
    case JString(s) => s != ""
    case _ => true
  }

  /** The own enumerable properties `{...j}` copies: an object's fields, or an index per element or character. */
  function SpreadFields(j: Json): (f: map<string, Json>)
    ensures j.JObject? ==> f == j.fields
    ensures j.JArray? ==> forall i :: 0 <= i < |j.items| ==> NatToString(i) in f && f[NatToString(i)] == j.items[i]
    ensures j.JArray? ==> forall k :: k in f ==> exists i :: 0 <= i < |j.items| && k == NatToString(i)
    ensures j.JString? ==> forall i :: 0 <= i < |j.s| ==> NatToString(i) in f && f[NatToString(i)] == JString([j.s[i]])
    ensures j.JString? ==> forall k :: k in f ==> exists i :: 0 <= i < |j.s| && k == NatToString(i)
    ensures j.JNull? || j.JBool? || j.JNumber? ==> f == map[]
  {
    match j
    case JObject(fields) => fields
    case JArray(items) => IndexedFields(items)
    case JString(s) => IndexedFields(seq(|s|, i requires 0 <= i < |s| => JString([s[i]])))
    case _ => map[]
  }

  /** One field per position, keyed by the position's decimal text. */
  function IndexedFields(items: seq<Json>): (f: map<string, Json>)
    ensures forall i :: 0 <= i < |items| ==> NatToString(i) in f && f[NatToString(i)] == items[i]
    ensures forall k :: k in f ==> exists i :: 0 <= i < |items| && k == NatToString(i)
  {
    IndexKeysDistinct();
    map i | 0 <= i < |items| :: NatToString(i) := items[i]
  }

  lemma IndexKeysDistinct()
    ensures forall m: nat, n: nat :: NatToString(m) == NatToString(n) ==> m == n
  {
    forall m: nat, n: nat | NatToString(m) == NatToString(n) ensures m == n {
      NatToStringInjective(m, n);
    }
  }

  /** What a rejected promise or a thrown exception carries. */
  datatype Failure =
    | NetworkFailure(detail: string)
    | TypeFailure(detail: string)
    | SyntaxFailure(detail: string)

  /** An awaited call either answers or throws. */
  datatype Outcome<+T> = Answered(value: T) | Threw(error: Failure)

  /** `JSON.parse`: the text and the value, or the SyntaxError it throws. */
  type Parser = string -> Outcome<Json>

  /** The two facts about `JSON.parse` the callers rely on: it reads the literals "null" and "[]". */
  predicate ParsesLiterals(parse: Parser) {
    parse("null") == Answered(JNull) && parse("[]") == Answered(JArray([]))
  }

  /** A response schema, known to the model by its `JSON.stringify` text. */
  datatype Schema = Schema(serialized: string)

  /** Which engine produced an answer: "Gemini" or "DeepSeek+SERP". */
  datatype Engine = Gemini | DeepSeekSerp

  /** `{data, sources, engine}`: the raw text an engine returned and the pages it cites. */
  datatype Answer = Answer(data: string, sources: seq<Citation>, engine: Engine)

  /** A citation as the JSON object `{title, uri}`. */
  function CitationJson(c: Citation): Json {
    JObject(map["title" := JString(c.title), "uri" := JString(c.uri)])
  }

  // ------------------------------------------------------------ Gemini wire

  datatype Tool = GoogleSearch | GoogleMaps

  datatype LatLng = LatLng(latitude: real, longitude: real)

  /** `ai.models.generateContent({model, contents, config})`; `tools: undefined` is `[]`. */
  datatype GenerateRequest = GenerateRequest(
    model: string,
    contents: string,
    tools: seq<Tool>,
    responseMimeType: Option<string>,
    responseSchema: Option<Schema>,
    retrievalLatLng: Option<LatLng>)

  datatype WebRef = WebRef(uri: Option<string>, title: Option<string>)

  datatype MapsRef = MapsRef(uri: Option<string>, title: Option<string>)

  datatype GroundingChunk = GroundingChunk(web: Option<WebRef>, maps: Option<MapsRef>)

  /**
   * The response: `response.text`, and the grounding chunks of the first candidate
   * (`None` when any link of `candidates?.[0]?.groundingMetadata?.groundingChunks` is missing).
   */
  datatype GenerateResponse = GenerateResponse(
    text: Option<string>,
    groundingChunks: Option<seq<GroundingChunk>>)

  /** A maps place extracted from grounding chunks: `{uri, title}`. */
  datatype MapsLink = MapsLink(uri: string, title: string)

  // ------------------------------------------------------------ Serper wire

  /** The search request body `{q, gl}`. */
  datatype SerpRequest = SerpRequest(q: string, gl: string)

  datatype OrganicResult = OrganicResult(title: string, snippet: string, link: string)

  /** The parsed search response; `organic` may be absent. */
  datatype SerpResponse = SerpResponse(organic: Option<seq<OrganicResult>>)

  // ---------------------------------------------------------- DeepSeek wire

  datatype ResponseFormat = JsonObject | PlainText

  datatype ChatMessage = ChatMessage(role: string, content: string)

  datatype ChatRequest = ChatRequest(
    model: string,
    messages: seq<ChatMessage>,
    responseFormat: ResponseFormat)

  /** The parsed chat response: `choices[i].message.content` for each choice. */
  datatype ChatResponse = ChatResponse(choices: seq<string>)

  // ----------------------------------------------------- backends and traces

  /** One outbound request, as it was sent. */
  datatype Call =
    | GeminiCall(generate: GenerateRequest)
    | SerpCall(search: SerpRequest)
    | DeepSeekCall(chat: ChatRequest)

  /** The three remote services, each a function from the request sent to what the await yields. */
  datatype Backends = Backends(
    gemini: GenerateRequest -> Outcome<GenerateResponse>,
    serper: SerpRequest -> Outcome<SerpResponse>,
    deepseek: ChatRequest -> Outcome<ChatResponse>)

  /** The requests one operation sent, in order, and how it ended. */
  datatype Run<T> = Run(calls: seq<Call>, result: Outcome<T>)
}
