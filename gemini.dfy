/**
 * The AI query layer (services/geminiService.ts): the executor that asks Gemini
 * and falls back to search-then-DeepSeek, the extraction of citations and maps
 * links from grounding chunks, and the post-processing its callers apply to the
 * raw text. The remote services, `JSON.parse`, today's date and the random ids
 * are parameters.
 */
module GeminiService {
  import opened Wrappers
  import opened Records
  import opened Text
  import opened Ai
  import FallbackService

  const FlashModel := "gemini-3-flash-preview"
  const MapsModel := "gemini-2.5-flash"
  const JsonMime := "application/json"

  /** The executor's configuration; an absent `useSearch` is `false`. */
  datatype QueryConfig = QueryConfig(model: string, contents: string, responseSchema: Option<Schema>, useSearch: bool)

  /** The primary request: the search tool only with `useSearch`, JSON output only with a schema. */
  function PrimaryRequest(config: QueryConfig): (req: GenerateRequest)
    ensures req.model == config.model && req.contents == config.contents
    ensures GoogleSearch in req.tools <==> config.useSearch
    ensures GoogleMaps !in req.tools
    ensures req.responseMimeType.Some? <==> config.responseSchema.Some?
    ensures req.responseMimeType.Some? ==> req.responseMimeType.value == JsonMime
    ensures req.responseSchema == config.responseSchema && req.retrievalLatLng.None?
  {
    GenerateRequest(
      config.model,
      config.contents,
      if config.useSearch then [GoogleSearch] else [],
      if config.responseSchema.Some? then Some(JsonMime) else None,
      config.responseSchema,
      None)
  }

  /** `response.text || ""`. */
  function TextOrEmpty(text: Option<string>): string {
    text.GetOr("")
  }

  /** `candidates?.[0]?.groundingMetadata?.groundingChunks || []`. */
  function ChunksOf(response: GenerateResponse): seq<GroundingChunk> {
    response.groundingChunks.GetOr([])
  }

  // ------------------------------------------------------------ web sources

  /** `web && web.uri && web.title`: a web reference with a non-empty address and title. */
  predicate CitableWeb(chunk: GroundingChunk) {
    chunk.web.Some? && chunk.web.value.uri.Some? && chunk.web.value.uri.value != ""
    && chunk.web.value.title.Some? && chunk.web.value.title.value != ""
  }

  function CitationOf(chunk: GroundingChunk): Citation
    requires CitableWeb(chunk)
  {
    Citation(chunk.web.value.title.value, chunk.web.value.uri.value)
  }

  /**
   * The sources of a Gemini answer: the web part of each citable chunk, at most one
   * per chunk, each with a non-empty address and title.
   */
  function WebSources(chunks: seq<GroundingChunk>): (r: seq<Citation>)
    ensures |r| <= |chunks|
    ensures forall i :: 0 <= i < |r| ==> r[i].uri != "" && r[i].title != ""
  {
    if chunks == [] then []
    else
      var rest := WebSources(chunks[1..]);
      if CitableWeb(chunks[0]) then [CitationOf(chunks[0])] + rest else rest
  }

  /** Every source comes from a citable chunk and every citable chunk gives a source. */
  lemma {:induction false} WebSourcesExactly(chunks: seq<GroundingChunk>)
    ensures forall c :: c in WebSources(chunks) ==>
      exists k :: 0 <= k < |chunks| && CitableWeb(chunks[k]) && c == CitationOf(chunks[k])
    ensures forall k :: 0 <= k < |chunks| && CitableWeb(chunks[k]) ==> CitationOf(chunks[k]) in WebSources(chunks)
  {
    if chunks != [] {
      var rest := chunks[1..];
      WebSourcesExactly(rest);
      forall c | c in WebSources(chunks)
        ensures exists k :: 0 <= k < |chunks| && CitableWeb(chunks[k]) && c == CitationOf(chunks[k])
      {
        if CitableWeb(chunks[0]) && c == CitationOf(chunks[0]) {
          assert CitableWeb(chunks[0]);
        } else {
          var k :| 0 <= k < |rest| && CitableWeb(rest[k]) && c == CitationOf(rest[k]);
          assert rest[k] == chunks[k + 1];
        }
      }
      forall k | 0 <= k < |chunks| && CitableWeb(chunks[k]) ensures CitationOf(chunks[k]) in WebSources(chunks) {
        if k > 0 {
          assert chunks[k] == rest[k - 1];
        }
      }
    }
  }

  /** Sources keep the order of their chunks: extraction distributes over concatenation. */
  lemma {:induction false} WebSourcesAppend(a: seq<GroundingChunk>, b: seq<GroundingChunk>)
    ensures WebSources(a + b) == WebSources(a) + WebSources(b)
  {
    if a == [] {
      assert a + b == b;
    } else {
      assert (a + b)[1..] == a[1..] + b;
      WebSourcesAppend(a[1..], b);
    }
  }

  /** When every chunk is citable, there is one source per chunk, in chunk order. */
  lemma {:induction false} WebSourcesAllCitable(chunks: seq<GroundingChunk>)
    requires forall k :: 0 <= k < |chunks| ==> CitableWeb(chunks[k])
    ensures |WebSources(chunks)| == |chunks|
    ensures forall i :: 0 <= i < |chunks| ==> WebSources(chunks)[i] == CitationOf(chunks[i])
  {
    if chunks != [] {
      var rest := chunks[1..];
      assert forall k :: 0 <= k < |rest| ==> rest[k] == chunks[k + 1];
      WebSourcesAllCitable(rest);
      var tail := WebSources(rest);
      var r := WebSources(chunks);
      assert r == [CitationOf(chunks[0])] + tail;
      forall i | 1 <= i < |chunks| ensures r[i] == CitationOf(chunks[i]) {
        assert r[i] == tail[i - 1];
      }
    }
  }

  // --------------------------------------------------------------- executor

  /**
   * `executeWithFallback`. A Gemini answer is its text ("" when missing) with its web
   * sources, tagged "Gemini". When Gemini throws, a search-enabled query is handed to
   * the fallback with the same contents and schema, and its answer or error is the
   * result; any other query rethrows the original error. The fallback services are
   * called exactly when Gemini threw on a search-enabled query.
   */
  function ExecuteWithFallback(config: QueryConfig, backends: Backends): (r: Run<Answer>)
    ensures |r.calls| >= 1 && r.calls[0] == GeminiCall(PrimaryRequest(config))
    ensures |r.calls| == 1 <==> backends.gemini(PrimaryRequest(config)).Answered? || !config.useSearch
    ensures backends.gemini(PrimaryRequest(config)).Answered? ==>
      var response := backends.gemini(PrimaryRequest(config)).value;
      r.result == Answered(Answer(TextOrEmpty(response.text), WebSources(ChunksOf(response)), Gemini))
    ensures backends.gemini(PrimaryRequest(config)).Threw? && !config.useSearch ==>
      r.result == Threw(backends.gemini(PrimaryRequest(config)).error)
    ensures backends.gemini(PrimaryRequest(config)).Threw? && config.useSearch ==>
      var fallback := FallbackService.QueryDeepSeekWithSerp(config.contents, config.responseSchema, backends);
      r.calls == [GeminiCall(PrimaryRequest(config))] + fallback.calls && r.result == fallback.result
    ensures r.result.Answered? ==>
      (r.result.value.engine == Gemini <==> backends.gemini(PrimaryRequest(config)).Answered?)
  {
    var request := PrimaryRequest(config);
    match backends.gemini(request)
    case Answered(response) =>
      Run([GeminiCall(request)], Answered(Answer(TextOrEmpty(response.text), WebSources(ChunksOf(response)), Gemini)))
    case Threw(err) =>
      if config.useSearch then
        var fallback := FallbackService.QueryDeepSeekWithSerp(config.contents, config.responseSchema, backends);
        var result := match fallback.result
          case Answered(reply) => Answered(Answer(reply.data, reply.sources, DeepSeekSerp))
          case Threw(e) => Threw(e);
        Run([GeminiCall(request)] + fallback.calls, result)
      else
        Run([GeminiCall(request)], Threw(err))
  }

  /**
   * Unless Gemini threw on a search-enabled query, the outcome does not depend on
   * the fallback services at all.
   */
  lemma FallbackUnusedUnlessNeeded(config: QueryConfig, backends: Backends, other: Backends)
    requires other.gemini == backends.gemini
    requires backends.gemini(PrimaryRequest(config)).Answered? || !config.useSearch
    ensures ExecuteWithFallback(config, backends) == ExecuteWithFallback(config, other)
  {
    var request := PrimaryRequest(config);
    assert other.gemini(request) == backends.gemini(request);
  }

  // ----------------------------------------------------- parsing the answer

  /** `data || fallbackText`. */
  function DataOr(data: string, fallbackText: string): string {
    if data == "" then fallbackText else data
  }

  /** The literal a caller parses in place of an empty answer. */
  datatype EmptyAnswer = ParseNull | ParseEmptyList {
    function Literal(): string {
      match this
      case ParseNull => "null"
      case ParseEmptyList => "[]"
    }
    function Value(): Json {
      match this
      case ParseNull => JNull
      case ParseEmptyList => JArray([])
    }
  }

  /**
   * `JSON.parse(result.data || "null")` or `|| "[]"`, the step shared by the callers
   * that return parsed data: an executor error propagates, a parse error propagates,
   * and an empty answer parses as null or as the empty list.
   */
  function ParsedData(config: QueryConfig, empty: EmptyAnswer, backends: Backends, parse: Parser): (r: Outcome<Json>)
    ensures ExecuteWithFallback(config, backends).result.Threw? ==>
      r == Threw(ExecuteWithFallback(config, backends).result.error)
    ensures ExecuteWithFallback(config, backends).result.Answered? ==>
      var data := ExecuteWithFallback(config, backends).result.value.data;
      (data != "" ==> r == parse(data))
      && (data == "" && ParsesLiterals(parse) ==> r == Answered(empty.Value()))
  {
    match ExecuteWithFallback(config, backends).result
    case Threw(e) => Threw(e)
    case Answered(answer) => parse(DataOr(answer.data, empty.Literal()))
  }

  /** The citations as the JSON array the UI receives. */
  function SourcesJson(sources: seq<Citation>): (j: Json)
    ensures j.JArray? && |j.items| == |sources|
    ensures forall i :: 0 <= i < |sources| ==> j.items[i] == CitationJson(sources[i])
  {
    JArray(seq(|sources|, i requires 0 <= i < |sources| => CitationJson(sources[i])))
  }

  // -------------------------------------------------------- legal standing

  const LegalStandingSchema := Schema(
    "{\"type\":\"OBJECT\",\"properties\":{\"totalCases\":{\"type\":\"NUMBER\"},"
    + "\"seriousCriminalCases\":{\"type\":\"NUMBER\"},\"jailHistory\":{\"type\":\"STRING\"},"
    + "\"corruptionAllegations\":{\"type\":\"ARRAY\",\"items\":{\"type\":\"STRING\"}},"
    + "\"justification\":{\"type\":\"STRING\"}},\"required\":[\"totalCases\",\"seriousCriminalCases\","
    + "\"jailHistory\",\"corruptionAllegations\",\"justification\"]}")

  function LegalStandingQuery(name: string, constituency: string): QueryConfig {
    QueryConfig(
      FlashModel,
      "Analyze legal standing, criminal history, and corruption allegations for Indian leader: "
      + name + " (" + constituency + "). Cite sources.",
      Some(LegalStandingSchema),
      true)
  }

  /**
   * `{...parsed, lastUpdated, verificationSources}`, given the fields `spread` copies
   * out of `parsed`: every one is kept except the two stamped ones, which are today's
   * date and the executor's sources.
   */
  function StampedStanding(spread: map<string, Json>, today: string, sources: seq<Citation>): (m: map<string, Json>)
    ensures m.Keys == spread.Keys + {"lastUpdated", "verificationSources"}
    ensures m["lastUpdated"] == JString(today)
    ensures m["verificationSources"] == SourcesJson(sources)
    ensures forall k :: k in spread && k != "lastUpdated" && k != "verificationSources" ==> m[k] == spread[k]
  {
    spread["lastUpdated" := JString(today)]["verificationSources" := SourcesJson(sources)]
  }

  /**
   * `fetchLeaderLegalStanding`: null exactly when the parsed answer is falsy (so an
   * empty answer gives null); otherwise the parsed fields stamped with the date and
   * the executor's sources. Errors of the executor and of the parser propagate.
   */
  function FetchLeaderLegalStanding(name: string, constituency: string, today: string, backends: Backends, parse: Parser)
    : (r: Outcome<Option<map<string, Json>>>)
    ensures var run := ExecuteWithFallback(LegalStandingQuery(name, constituency), backends);
      (run.result.Threw? ==> r == Threw(run.result.error))
      && (run.result.Answered? ==>
            var parsed := parse(DataOr(run.result.value.data, "null"));
            (parsed.Threw? ==> r == Threw(parsed.error))
            && (parsed.Answered? && !Truthy(parsed.value) ==> r == Answered(None))
            && (parsed.Answered? && Truthy(parsed.value) ==>
                  r == Answered(Some(StampedStanding(SpreadFields(parsed.value), today, run.result.value.sources)))))
    ensures ParsesLiterals(parse) && ExecuteWithFallback(LegalStandingQuery(name, constituency), backends).result.Answered?
      && ExecuteWithFallback(LegalStandingQuery(name, constituency), backends).result.value.data == ""
      ==> r == Answered(None)
  {
    var run := ExecuteWithFallback(LegalStandingQuery(name, constituency), backends);
    match run.result
    case Threw(e) => Threw(e)
    case Answered(answer) =>
      match parse(DataOr(answer.data, "null"))
      case Threw(e) => Threw(e)
      case Answered(parsed) =>
        if !Truthy(parsed) then Answered(None)
        else Answered(Some(StampedStanding(SpreadFields(parsed), today, answer.sources)))
  }

  // ------------------------------------------------------------ notifications

  const NotificationsSchema := Schema(
    "{\"type\":\"ARRAY\",\"items\":{\"type\":\"OBJECT\",\"properties\":{\"title\":{\"type\":\"STRING\"},"
    + "\"message\":{\"type\":\"STRING\"},\"category\":{\"type\":\"STRING\"},"
    + "\"urgency\":{\"type\":\"STRING\",\"enum\":[\"low\",\"medium\",\"high\"]},"
    + "\"source\":{\"type\":\"STRING\"},\"timestamp\":{\"type\":\"STRING\"}},"
    + "\"required\":[\"title\",\"message\",\"category\",\"urgency\",\"source\",\"timestamp\"]}}")

  /** The prompt names the state, or India when none (or an empty one) is given. */
  function NotificationsQuery(state: Option<string>, today: string): (config: QueryConfig)
    ensures config.useSearch && config.responseSchema == Some(NotificationsSchema)
  {
    var place := if state.Some? && state.value != "" then state.value else "India";
    QueryConfig(
      FlashModel,
      "Generate 4-5 important civic notifications for " + place + ". Date: " + today,
      Some(NotificationsSchema),
      true)
  }

  /** `{...n, id, read: false}`, given the fields `spread` copies out of `n`. */
  function StampedNotification(spread: map<string, Json>, id: string): (m: map<string, Json>)
    ensures m.Keys == spread.Keys + {"id", "read"}
    ensures m["id"] == JString(id) && m["read"] == JBool(false)
    ensures forall k :: k in spread && k != "id" && k != "read" ==> m[k] == spread[k]
  {
    spread["id" := JString(id)]["read" := JBool(false)]
  }

  /**
   * `fetchCivicNotifications`: one notification per parsed item, in order, each
   * unread and with the id drawn for its position; a parsed value that is not an
   * array has no `map` and throws. `idFor(i)` stands for the i-th random id.
   */
  function FetchCivicNotifications(state: Option<string>, today: string, idFor: nat -> string, backends: Backends, parse: Parser)
    : (r: Outcome<seq<map<string, Json>>>)
    ensures var parsed := ParsedData(NotificationsQuery(state, today), ParseEmptyList, backends, parse);
      (parsed.Threw? ==> r == Threw(parsed.error))
      && (parsed.Answered? && !parsed.value.JArray? ==> r.Threw? && r.error.TypeFailure?)
      && (parsed.Answered? && parsed.value.JArray? ==>
            r.Answered? && |r.value| == |parsed.value.items|
            && forall i :: 0 <= i < |r.value| ==> r.value[i] == StampedNotification(SpreadFields(parsed.value.items[i]), idFor(i)))
    ensures r.Answered? ==> forall i :: 0 <= i < |r.value| ==> r.value[i]["read"] == JBool(false)
  {
    match ParsedData(NotificationsQuery(state, today), ParseEmptyList, backends, parse)
    case Threw(e) => Threw(e)
    case Answered(JArray(items)) =>
      Answered(seq(|items|, i requires 0 <= i < |items| => StampedNotification(SpreadFields(items[i]), idFor(i))))
    case Answered(_) => Threw(TypeFailure("notifications.map is not a function"))
  }

  // --------------------------------------------------------------- maps links

  /** `chunk.maps && chunk.maps.uri`. */
  predicate HasMapsUri(chunk: GroundingChunk) {
    chunk.maps.Some? && chunk.maps.value.uri.Some? && chunk.maps.value.uri.value != ""
  }

  /** `{uri: maps.uri, title: maps.title || untitled}`. */
  function MapsLinkOf(chunk: GroundingChunk, untitled: string): MapsLink
    requires HasMapsUri(chunk)
  {
    var title := chunk.maps.value.title;
    MapsLink(chunk.maps.value.uri.value, if title.Some? && title.value != "" then title.value else untitled)
  }

  /**
   * The maps places of a response: one per chunk with a maps address, the title
   * defaulting to `untitled`. Every link has an address and, with a non-empty
   * default, a title.
   */
  function MapsLinks(chunks: seq<GroundingChunk>, untitled: string): (r: seq<MapsLink>)
    ensures |r| <= |chunks|
    ensures forall i :: 0 <= i < |r| ==>
      exists k :: 0 <= k < |chunks| && HasMapsUri(chunks[k]) && r[i] == MapsLinkOf(chunks[k], untitled)
    ensures forall k :: 0 <= k < |chunks| && HasMapsUri(chunks[k]) ==> MapsLinkOf(chunks[k], untitled) in r
    ensures forall i :: 0 <= i < |r| ==> r[i].uri != "" && (untitled != "" ==> r[i].title != "")
  {
    if chunks == [] then []
    else
      var rest := MapsLinks(chunks[1..], untitled);
      assert forall k :: 1 <= k < |chunks| ==> chunks[k] == chunks[1..][k - 1];
      if HasMapsUri(chunks[0]) then [MapsLinkOf(chunks[0], untitled)] + rest else rest
  }

  /** Links keep the order of their chunks. */
  lemma {:induction false} MapsLinksAppend(a: seq<GroundingChunk>, b: seq<GroundingChunk>, untitled: string)
    ensures MapsLinks(a + b, untitled) == MapsLinks(a, untitled) + MapsLinks(b, untitled)
  {
    if a == [] {
      assert a + b == b;
    } else {
      assert (a + b)[1..] == a[1..] + b;
      MapsLinksAppend(a[1..], b, untitled);
    }
  }

  /** `latitude && longitude`: a position is sent only when both coordinates are present and non-zero. */
  function RetrievalPoint(latitude: Option<real>, longitude: Option<real>): (p: Option<LatLng>)
    ensures p.Some? <==> latitude.Some? && latitude.value != 0.0 && longitude.Some? && longitude.value != 0.0
    ensures p.Some? ==> p.value == LatLng(latitude.value, longitude.value)
  {
    if latitude.Some? && latitude.value != 0.0 && longitude.Some? && longitude.value != 0.0
    then Some(LatLng(latitude.value, longitude.value))
    else None
  }

  function PlaceRequest(query: string, latitude: Option<real>, longitude: Option<real>): GenerateRequest {
    GenerateRequest(MapsModel, "Find official Google Maps details for: " + query + ".", [GoogleMaps], None, None,
                    RetrievalPoint(latitude, longitude))
  }

  datatype PlaceAnswer = PlaceAnswer(text: string, mapsLinks: seq<MapsLink>)

  const LookupLimited := "Location lookup limited."

  /**
   * `searchPlaceOnMaps`: only Gemini is asked, with the maps tool. Its text ("" when
   * missing) and maps links titled 'Location' by default; any error gives the
   * limited-lookup text and no links.
   */
  function SearchPlaceOnMaps(query: string, latitude: Option<real>, longitude: Option<real>,
                             gemini: GenerateRequest -> Outcome<GenerateResponse>): (r: PlaceAnswer)
    ensures gemini(PlaceRequest(query, latitude, longitude)).Threw? ==> r == PlaceAnswer(LookupLimited, [])
    ensures gemini(PlaceRequest(query, latitude, longitude)).Answered? ==>
      var response := gemini(PlaceRequest(query, latitude, longitude)).value;
      r.text == TextOrEmpty(response.text) && r.mapsLinks == MapsLinks(ChunksOf(response), "Location")
    ensures forall i :: 0 <= i < |r.mapsLinks| ==> r.mapsLinks[i].uri != "" && r.mapsLinks[i].title != ""
  {
    match gemini(PlaceRequest(query, latitude, longitude))
    case Threw(_) => PlaceAnswer(LookupLimited, [])
    case Answered(response) => PlaceAnswer(TextOrEmpty(response.text), MapsLinks(ChunksOf(response), "Location"))
  }

  datatype CivicService = CivicService(name: string, link: string)

  function ServicesRequest(latitude: real, longitude: real): GenerateRequest {
    GenerateRequest(MapsModel, "Find 5 nearest civic services near my location.", [GoogleMaps], None, None,
                    Some(LatLng(latitude, longitude)))
  }

  /**
   * `findNearbyCivicServices`: one `{name, link}` per maps link (names default to
   * 'Service'), in order; any error gives no services.
   */
  function FindNearbyCivicServices(latitude: real, longitude: real,
                                   gemini: GenerateRequest -> Outcome<GenerateResponse>): (r: seq<CivicService>)
    ensures gemini(ServicesRequest(latitude, longitude)).Threw? ==> r == []
    ensures gemini(ServicesRequest(latitude, longitude)).Answered? ==>
      var links := MapsLinks(ChunksOf(gemini(ServicesRequest(latitude, longitude)).value), "Service");
      |r| == |links| && forall i :: 0 <= i < |r| ==> r[i] == CivicService(links[i].title, links[i].uri)
    ensures forall i :: 0 <= i < |r| ==> r[i].name != "" && r[i].link != ""
  {
    match gemini(ServicesRequest(latitude, longitude))
    case Threw(_) => []
    case Answered(response) =>
      var links := MapsLinks(ChunksOf(response), "Service");
      seq(|links|, i requires 0 <= i < |links| => CivicService(links[i].title, links[i].uri))
  }

  // -------------------------------------------------------------- live events

  const LiveEventsSchema := Schema(
    "{\"type\":\"ARRAY\",\"items\":{\"type\":\"OBJECT\",\"properties\":{\"id\":{\"type\":\"STRING\"},"
    + "\"title\":{\"type\":\"STRING\"},\"description\":{\"type\":\"STRING\"},\"category\":{\"type\":\"STRING\"},"
    + "\"status\":{\"type\":\"STRING\"},\"date\":{\"type\":\"STRING\"},\"time\":{\"type\":\"STRING\"},"
    + "\"views\":{\"type\":\"NUMBER\"},\"highlights\":{\"type\":\"ARRAY\",\"items\":{\"type\":\"STRING\"}}},"
    + "\"required\":[\"title\",\"description\",\"category\",\"status\",\"date\",\"time\",\"highlights\"]}}")

  const LiveEventsQuery := QueryConfig(
    FlashModel,
    "10 significant political events happening TODAY in India. Respond with ONLY raw JSON.",
    Some(LiveEventsSchema),
    true)

  const Fence := "```"
  const JsonFence := Fence + "json"

  /**
   * The text `fetchLiveEventsAndProjects` hands to `JSON.parse` before trimming.
   * Without a "```json" fence it is the whole text. Otherwise take what follows the
   * first "```json", cut it at its own next "```json" (the second piece of the first
   * split), then cut that at its first "```". The result sits right after the first
   * "```json", contains no "```", and is followed by a "```" or the end of the text.
   */
  method FencedPayload(data: string) returns (text: string)
    ensures !Includes(data, JsonFence) ==> text == data
    ensures Includes(data, JsonFence) ==>
      var start := IndexOf(data, JsonFence) + |JsonFence|;
      text == BeforeFirst(BeforeFirst(data[start..], JsonFence), Fence)
      && start + |text| <= |data| && data[start..start + |text|] == text
      && !Includes(text, Fence)
      && (start + |text| == |data| || OccursAt(data, Fence, start + |text|))
  {
    text := data;
    if Includes(data, JsonFence) {
      assert JsonFence[..|Fence|] == Fence;
      FencedFacts(data, JsonFence, Fence);
      text := Split(Split(data, JsonFence)[1], Fence)[0];
    }
  }

  /** Both characterisations of the fenced piece, for any fence pair whose inner fence opens the outer one. */
  lemma FencedFacts(data: string, outer: string, inner: string)
    requires inner != "" && |inner| <= |outer| && outer[..|inner|] == inner
    requires Includes(data, outer)
    ensures |Split(data, outer)| >= 2
    ensures var text := Split(Split(data, outer)[1], inner)[0];
      var start := IndexOf(data, outer) + |outer|;
      text == BeforeFirst(BeforeFirst(data[start..], outer), inner)
      && start + |text| <= |data| && data[start..start + |text|] == text
      && !Includes(text, inner)
      && (start + |text| == |data| || OccursAt(data, inner, start + |text|))
  {
    FencedPiece(data, outer, inner);
    CutTwice(data, outer, inner);
  }

  /**
   * The second piece of a split on `outer`, split again on `inner`, is a cut at the
   * first occurrence `IndexOf` finds, twice over.
   */
  lemma CutTwice(data: string, outer: string, inner: string)
    requires outer != "" && inner != "" && Includes(data, outer)
    ensures |Split(data, outer)| >= 2
    ensures Split(Split(data, outer)[1], inner)[0]
      == BeforeFirst(BeforeFirst(data[IndexOf(data, outer) + |outer|..], outer), inner)
  {
    var start := IndexOf(data, outer) + |outer|;
    var rest := data[start..];
    SplitSecond(data, outer);
    SplitFirst(rest, outer);
    var segment := BeforeFirst(rest, outer);
    assert Split(data, outer)[1] == segment;
    SplitFirst(segment, inner);
  }

  /**
   * The piece after the first `outer`, cut at its first `inner` (a prefix of `outer`),
   * as it sits in the text: free of `inner`, and followed by an `inner` or the end.
   */
  lemma FencedPiece(data: string, outer: string, inner: string)
    requires inner != "" && |inner| <= |outer| && outer[..|inner|] == inner
    requires Includes(data, outer)
    ensures |Split(data, outer)| >= 2
    ensures var start := IndexOf(data, outer) + |outer|;
      var piece := Split(Split(data, outer)[1], inner)[0];
      start + |piece| <= |data| && data[start..start + |piece|] == piece
      && !Includes(piece, inner)
      && (start + |piece| == |data| || OccursAt(data, inner, start + |piece|))
  {
    var start := IndexOf(data, outer) + |outer|;
    var rest := data[start..];
    SplitSecond(data, outer);
    var second := Split(data, outer)[1];
    assert second == Split(rest, outer)[0];
    PieceBeforeFence(rest, outer, inner);
    var piece := Split(second, inner)[0];
    PieceOfSuffix(data, start, piece, inner);
    assert !Includes(piece, inner);
  }

  /** What is found at the front of a suffix is found in the whole text, shifted. */
  lemma PieceOfSuffix(data: string, start: nat, piece: string, inner: string)
    requires start <= |data|
    requires |piece| <= |data| - start && data[start..][..|piece|] == piece
    requires |piece| == |data| - start || OccursAt(data[start..], inner, |piece|)
    ensures start + |piece| <= |data| && data[start..start + |piece|] == piece
    ensures start + |piece| == |data| || OccursAt(data, inner, start + |piece|)
  {
    assert data[start..start + |piece|] == data[start..][..|piece|];
    if start + |piece| < |data| {
      var e := |piece|;
      assert data[start + e..start + e + |inner|] == data[start..][e..e + |inner|];
    }
  }

  /**
   * The piece of `rest` before its first `outer`, cut again at its own first `inner`,
   * contains no `inner` and is followed in `rest` by an `inner` or by the end.
   */
  lemma PieceBeforeFence(rest: string, outer: string, inner: string)
    requires inner != "" && |inner| <= |outer| && outer[..|inner|] == inner
    ensures var piece := Split(Split(rest, outer)[0], inner)[0];
      |piece| <= |rest| && rest[..|piece|] == piece && !Includes(piece, inner)
      && (|piece| == |rest| || OccursAt(rest, inner, |piece|))
  {
    SplitFirstPiece(rest, outer);
    var segment := Split(rest, outer)[0];
    SplitFirstPiece(segment, inner);
    var piece := Split(segment, inner)[0];
    assert rest[..|piece|] == segment[..|piece|];
    if |piece| < |segment| {
      OccursInPrefix(rest, |segment|, inner, |piece|);
    } else if |segment| < |rest| {
      assert rest[|piece|..|piece| + |inner|] == rest[|piece|..|piece| + |outer|][..|inner|];
    }
  }

  datatype LiveFeed = LiveFeed(data: Json, sources: seq<Citation>)

  /** The empty-answer literal "[]" has no fence and nothing to trim. */
  lemma EmptyListLiteralPlain()
    ensures !Includes("[]", JsonFence) && Trim("[]") == "[]"
  {
    assert IndexOf("[]", JsonFence) == -1;
    assert TrimStart("[]") == "[]";
    assert TrimEnd("[]") == "[]";
  }

  /**
   * `fetchLiveEventsAndProjects`: the answer ("[]" when empty), cut to its fenced
   * payload and trimmed, is parsed and returned with the executor's sources.
   */
  method FetchLiveEventsAndProjects(backends: Backends, parse: Parser) returns (r: Outcome<LiveFeed>)
    ensures var run := ExecuteWithFallback(LiveEventsQuery, backends);
      (run.result.Threw? ==> r == Threw(run.result.error))
      && (run.result.Answered? && !Includes(DataOr(run.result.value.data, "[]"), JsonFence) ==>
            var parsed := parse(Trim(DataOr(run.result.value.data, "[]")));
            (parsed.Threw? ==> r == Threw(parsed.error))
            && (parsed.Answered? ==> r == Answered(LiveFeed(parsed.value, run.result.value.sources))))
    ensures ParsesLiterals(parse) && ExecuteWithFallback(LiveEventsQuery, backends).result.Answered?
      && ExecuteWithFallback(LiveEventsQuery, backends).result.value.data == ""
      ==> r == Answered(LiveFeed(JArray([]), ExecuteWithFallback(LiveEventsQuery, backends).result.value.sources))
  {
    var run := ExecuteWithFallback(LiveEventsQuery, backends);
    match run.result {
      case Threw(e) =>
        r := Threw(e);
      case Answered(answer) =>
        var data := DataOr(answer.data, "[]");
        var text := FencedPayload(data);
        if answer.data == "" {
          EmptyListLiteralPlain();
          assert text == "[]";
        }
        match parse(Trim(text)) {
          case Threw(e) =>
            r := Threw(e);
          case Answered(parsed) =>
            r := Answered(LiveFeed(parsed, answer.sources));
        }
    }
  }
}
