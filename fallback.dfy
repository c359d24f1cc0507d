/**
 * The secondary intelligence path (services/fallbackService.ts): search the web
 * with Serper, then ask DeepSeek to answer from the search results. Both remote
 * calls are the backends handed in; everything between them is modelled.
 */
module FallbackService {
  import opened Wrappers
  import opened Records
  import opened Text
  import opened Ai

  const Placeholder := "No recent news found."
  /** The opening both system messages share. */
  const CivicRole := "You are a civic "
  const SummariserRole := "intelligence " + "assistant. Summarize the provided context objectively."
  const ParserRole := "data " + "parser. Use the provided context to answer. Return ONLY raw JSON matching this schema: "
  const SummariserMessage := CivicRole + SummariserRole
  const ParserPreamble := CivicRole + ParserRole

  /** The search request: the prompt itself, restricted to India. */
  function SearchRequest(prompt: string): SerpRequest {
    SerpRequest(prompt, "in")
  }

  /** One search hit as a context block. */
  function Block(res: OrganicResult): (b: string)
    ensures |b| >= 7 && b[..7] == "Title: "
  {
    "Title: " + res.title + "\nSnippet: " + res.snippet + "\nLink: " + res.link
  }

  function Blocks(results: seq<OrganicResult>): (bs: seq<string>)
    ensures |bs| == |results|
    ensures forall i :: 0 <= i < |results| ==> bs[i] == Block(results[i])
  {
    seq(|results|, i requires 0 <= i < |results| => Block(results[i]))
  }

  /**
   * The context handed to the language model: the hits' blocks separated by blank
   * lines, in result order; the placeholder exactly when there is no hit, since the
   * join of no blocks is the falsy "".
   */
  function Context(organic: Option<seq<OrganicResult>>): (c: string)
    ensures c == Placeholder <==> organic.None? || organic.value == []
    ensures organic.Some? && organic.value != [] ==> c == Join(Blocks(organic.value), "\n\n")
  {
    var joined := if organic.Some? then Join(Blocks(organic.value), "\n\n") else "";
    if organic.Some? && organic.value != [] then
      JoinedBlocksOpenWithTitle(organic.value);
      joined
    else Placeholder
  }

  /** A non-empty context starts like a block, so it is neither "" nor the placeholder. */
  lemma JoinedBlocksOpenWithTitle(results: seq<OrganicResult>)
    requires results != []
    ensures var c := Join(Blocks(results), "\n\n");
      |c| >= 7 && c[..7] == "Title: " && c != Placeholder
  {
    var bs := Blocks(results);
    JoinStartsWithFirst(bs, "\n\n");
    var c := Join(bs, "\n\n");
    assert c[0] == bs[0][0] == 'T';
    assert Placeholder[0] == 'N';
  }

  /** The citations: one `{title, uri: link}` per hit, in result order, none without hits. */
  function Citations(organic: Option<seq<OrganicResult>>): (cs: seq<Citation>)
    ensures organic.None? ==> cs == []
    ensures organic.Some? ==> |cs| == |organic.value|
    ensures organic.Some? ==> forall i :: 0 <= i < |cs| ==>
      cs[i].title == organic.value[i].title && cs[i].uri == organic.value[i].link
  {
    match organic
    case None => []
    case Some(results) => seq(|results|, i requires 0 <= i < |results| => Citation(results[i].title, results[i].link))
  }

  /** The system message: the JSON-parser instruction carrying the schema text when a schema is given. */
  function SystemMessage(schema: Option<Schema>): (m: string)
    ensures schema.None? ==> m == SummariserMessage
    ensures schema.Some? ==>
      (|ParserPreamble| <= |m| && m[..|ParserPreamble|] == ParserPreamble
       && m[|ParserPreamble|..] == schema.value.serialized)
  {
    match schema
    case Some(s) => ParserPreamble + s.serialized
    case None => SummariserMessage
  }

  /** The system message tells which schema, if any, was supplied. */
  lemma SystemMessageInjective(a: Option<Schema>, b: Option<Schema>)
    requires SystemMessage(a) == SystemMessage(b)
    ensures a == b
  {
    var k := |CivicRole|;
    assert SummariserMessage[k] == SummariserRole[0] == 'i';
    assert ParserPreamble[k] == ParserRole[0] == 'd';
    if a.Some? && b.Some? {
      assert a.value.serialized == SystemMessage(a)[|ParserPreamble|..];
    }
  }

  /** The user message: the context under "CONTEXT:", then the prompt under "QUERY: ". */
  function UserMessage(context: string, prompt: string): (m: string)
    ensures |m| == 9 + |context| + 9 + |prompt|
    ensures m[..9] == "CONTEXT:\n" && m[9..9 + |context|] == context
    ensures m[9 + |context|..18 + |context|] == "\n\nQUERY: "
    ensures m[|m| - |prompt|..] == prompt
  {
    "CONTEXT:\n" + context + "\n\nQUERY: " + prompt
  }

  /** The chat request: JSON output is requested exactly when a schema is supplied. */
  function ChatRequestFor(prompt: string, schema: Option<Schema>, context: string): (req: ChatRequest)
    ensures req.model == "deepseek-chat"
    ensures req.messages == [ChatMessage("system", SystemMessage(schema)), ChatMessage("user", UserMessage(context, prompt))]
    ensures req.responseFormat == JsonObject <==> schema.Some?
  {
    ChatRequest(
      "deepseek-chat",
      [ChatMessage("system", SystemMessage(schema)), ChatMessage("user", UserMessage(context, prompt))],
      if schema.Some? then JsonObject else PlainText)
  }

  /**
   * `queryDeepSeekWithSerp`: the search comes first; its failure is rethrown with no
   * chat request sent. Otherwise the chat request is built from the search results;
   * its failure, or a response without choices, is rethrown. An answer is the first
   * choice's content, tagged "DeepSeek+SERP", citing every search hit.
   */
  function QueryDeepSeekWithSerp(prompt: string, schema: Option<Schema>, backends: Backends): (r: Run<Answer>)
    ensures 1 <= |r.calls| <= 2 && r.calls[0] == SerpCall(SearchRequest(prompt))
    ensures backends.serper(SearchRequest(prompt)).Threw? ==>
      r == Run([SerpCall(SearchRequest(prompt))], Threw(backends.serper(SearchRequest(prompt)).error))
    ensures backends.serper(SearchRequest(prompt)).Answered? ==>
      var organic := backends.serper(SearchRequest(prompt)).value.organic;
      var chat := ChatRequestFor(prompt, schema, Context(organic));
      r.calls == [SerpCall(SearchRequest(prompt)), DeepSeekCall(chat)]
      && (backends.deepseek(chat).Threw? ==> r.result == Threw(backends.deepseek(chat).error))
      && (r.result.Answered? <==> backends.deepseek(chat).Answered? && backends.deepseek(chat).value.choices != [])
      && (r.result.Answered? ==>
            r.result.value == Answer(backends.deepseek(chat).value.choices[0], Citations(organic), DeepSeekSerp))
  {
    var search := SearchRequest(prompt);
    match backends.serper(search)
    case Threw(e) => Run([SerpCall(search)], Threw(e))
    case Answered(serp) =>
      var chat := ChatRequestFor(prompt, schema, Context(serp.organic));
      var calls := [SerpCall(search), DeepSeekCall(chat)];
      match backends.deepseek(chat)
      case Threw(e) => Run(calls, Threw(e))
      case Answered(reply) =>
        if reply.choices == [] then Run(calls, Threw(TypeFailure("choices[0] is undefined")))
        else Run(calls, Answered(Answer(reply.choices[0], Citations(serp.organic), DeepSeekSerp)))
  }

  /** Whatever the chat model says, a fallback answer cites exactly the search hits. */
  lemma FallbackCitesSearchHits(prompt: string, schema: Option<Schema>, backends: Backends)
    requires QueryDeepSeekWithSerp(prompt, schema, backends).result.Answered?
    ensures backends.serper(SearchRequest(prompt)).Answered?
    ensures var hits := backends.serper(SearchRequest(prompt)).value.organic;
      var sources := QueryDeepSeekWithSerp(prompt, schema, backends).result.value.sources;
      (hits.None? ==> sources == [])
      && (hits.Some? ==>
            (|sources| == |hits.value|
             && forall i :: 0 <= i < |sources| ==> sources[i] == Citation(hits.value[i].title, hits.value[i].link)))
  {
  }
}
