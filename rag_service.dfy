/**
 * The RAG orchestration: the language of a query, the context section and
 * the prompt built from the retrieved contexts, the citations returned with
 * an answer, the hybrid retrieval's filtering and numbering with its
 * temporary weights, and the assembly of an answer.
 *
 * The retrievers and the Claude call are inputs: `hybrid` answers a hybrid
 * search (None when it raised), `vector` answers the vector-only fallback,
 * and `invoke` answers a Claude request.  The prompt texts (the query
 * template and the system prompts) are static data and are parameters here.
 */
module RagService {
  import opened Lib
  import opened LanguageContext
  import opened ClaudeService
  import Bm25Search
  import Sorting

  // ---------------------------------------------------------------------------
  // detect_language

  /** `c in VIETNAMESE_CHARS`: the set holds the lower-case letters only. */
  predicate IsVietnameseLetter(c: char) {
    c in VietnameseLetters
  }

  /** The Vietnamese letters of the lower-cased text. */
  function ViLetterCount(text: string): (n: nat)
    ensures n <= |text|
  {
    CountWhere(LowerStr(text), IsVietnameseLetter)
  }

  /** `detect_language`: English for "", else Vietnamese above 2% Vietnamese letters. */
  function DetectLanguage(text: string): Lang {
    if text == [] then En
    else if ViLetterCount(text) as real / |text| as real > 0.02 then Vi
    else En
  }

  /** The 2% threshold in integers: Vietnamese exactly when 50 times the letters exceed the length. */
  lemma DetectLanguageInIntegers(text: string)
    ensures DetectLanguage(text) == Vi <==> 50 * ViLetterCount(text) > |text|
  {
    if text != [] {
      RatioCompare(ViLetterCount(text), |text|, 2, 100);
      assert 0.02 == 2 as real / 100 as real;
    }
  }

  // ---------------------------------------------------------------------------
  // Contexts and the context section

  /** One retrieved context, numbered for citation. */
  datatype RagContext = RagContext(citationId: int, docId: string, page: int, text: string, score: real,
                                   metadata: map<string, Json>)

  const NoContext := "No relevant context found."

  /** One block of the section: the citation header, then the stripped text. */
  function ContextBlock(ctx: RagContext): string {
    CitationBlock(ctx.citationId, ctx.docId, ctx.page, Strip(ctx.text))
  }

  /** The section for any rendering of the blocks: the placeholder, or the blocks joined by the separator. */
  function SectionOf(block: RagContext -> string, contexts: seq<RagContext>): string {
    if contexts == [] then NoContext else Join(ContextSeparator, MapSeq(block, contexts))
  }

  /** The section `build_context_section` returns. */
  function ContextSection(contexts: seq<RagContext>): string {
    SectionOf(ContextBlock, contexts)
  }

  /** `build_context_section`, with its loop over the contexts. */
  method BuildContextSection(contexts: seq<RagContext>) returns (section: string)
    ensures section == ContextSection(contexts)
  {
    var block := ContextBlock;
    section := JoinBlocks(block, contexts);
  }

  /** The loop of `build_context_section`, for a rendering of the blocks. */
  method JoinBlocks(block: RagContext -> string, contexts: seq<RagContext>) returns (section: string)
    ensures section == SectionOf(block, contexts)
  {
    if contexts == [] {
      return NoContext;
    }
    var parts: seq<string> := [];
    for i := 0 to |contexts|
      invariant parts == MapSeq(block, contexts[..i])
    {
      assert contexts[..i + 1] == contexts[..i] + [contexts[i]];
      MapSeqAppend(block, contexts[..i], contexts[i]);
      parts := parts + [block(contexts[i])];
    }
    assert contexts[..|contexts|] == contexts;
    section := Join(ContextSeparator, parts);
  }

  /** A joined list starts with the first part's first character. */
  lemma JoinHead(sep: string, parts: seq<string>)
    requires parts != [] && parts[0] != []
    ensures Join(sep, parts) != [] && Join(sep, parts)[0] == parts[0][0]
  {
  }

  /** The placeholder is returned exactly when there are no contexts, and one more context adds the separator and its block. */
  lemma ContextSectionFacts(contexts: seq<RagContext>, ctx: RagContext)
    ensures ContextSection(contexts) == NoContext <==> contexts == []
    ensures contexts != [] ==>
      ContextSection(contexts + [ctx]) == ContextSection(contexts) + ContextSeparator + ContextBlock(ctx)
  {
    if contexts != [] {
      var parts := MapSeq(ContextBlock, contexts);
      assert parts[0] == ContextBlock(contexts[0]);
      assert parts[0][0] == '[';
      JoinHead(ContextSeparator, parts);
      assert NoContext[0] == 'N';
      MapSeqAppend(ContextBlock, contexts, ctx);
      JoinAppend(ContextSeparator, parts, ContextBlock(ctx));
    }
  }

  /** Every block opens with its context's citation number, readable back. */
  lemma ContextBlockCitation(ctx: RagContext)
    ensures BlockCitation(ContextBlock(ctx)) == Some(ctx.citationId)
  {
    BlockCitationRoundTrip(ctx.citationId, ctx.docId, ctx.page, Strip(ctx.text));
  }

  // ---------------------------------------------------------------------------
  // build_prompt

  /** `QUERY_TEMPLATE` cut at its two fields: the text before `{query}`, between, and after `{context_section}`. */
  datatype QueryTemplate = QueryTemplate(beforeQuery: string, beforeContext: string, afterContext: string)

  /** `build_prompt`: the query and the context section put into the template. */
  function BuildPrompt(t: QueryTemplate, query: string, contexts: seq<RagContext>): string {
    t.beforeQuery + query + t.beforeContext + ContextSection(contexts) + t.afterContext
  }

  /** The query and the section can be cut back out of the prompt at the template's offsets. */
  lemma PromptHoldsQueryAndSection(t: QueryTemplate, query: string, contexts: seq<RagContext>)
    ensures var p := BuildPrompt(t, query, contexts);
      var q0 := |t.beforeQuery|;
      var s0 := q0 + |query| + |t.beforeContext|;
      |p| == s0 + |ContextSection(contexts)| + |t.afterContext| &&
      p[q0..q0 + |query|] == query &&
      p[s0..s0 + |ContextSection(contexts)|] == ContextSection(contexts)
  {
    var p := BuildPrompt(t, query, contexts);
    var section := ContextSection(contexts);
    var q0 := |t.beforeQuery|;
    var s0 := q0 + |query| + |t.beforeContext|;
    assert p == (t.beforeQuery + query) + t.beforeContext + section + t.afterContext;
    assert (t.beforeQuery + query)[q0..] == query;
    assert p[q0..q0 + |query|] == (t.beforeQuery + query)[q0..];
    assert p[s0..s0 + |section|] == section;
  }

  // ---------------------------------------------------------------------------
  // extract_citations

  datatype Citation = Citation(id: int, docId: string, page: int, textSnippet: string, score: real)

  const SnippetLength := 100

  /** The first 100 characters and "..." when the text is longer, else the whole text. */
  function Snippet(text: string): string {
    if |text| > SnippetLength then text[..SnippetLength] + "..." else text
  }

  /** A snippet is never longer than 103 characters, and it is the text or a prefix of it followed by "...". */
  lemma SnippetFacts(text: string)
    ensures |Snippet(text)| <= SnippetLength + 3
    ensures |text| <= SnippetLength ==> Snippet(text) == text
    ensures |text| > SnippetLength ==>
      Snippet(text)[..SnippetLength] <= text && Snippet(text)[SnippetLength..] == "..."
  {
  }

  function CitationOf(ctx: RagContext): Citation {
    Citation(ctx.citationId, ctx.docId, ctx.page, Snippet(ctx.text), ctx.score)
  }

  /** `extract_citations`: one citation per context, in order. */
  function ExtractCitations(contexts: seq<RagContext>): seq<Citation> {
    MapSeq(CitationOf, contexts)
  }

  /** Each citation carries its context's number, document, page and score, and the snippet of its text. */
  lemma CitationsFollowContexts(contexts: seq<RagContext>)
    ensures |ExtractCitations(contexts)| == |contexts|
    ensures forall i :: 0 <= i < |contexts| ==>
      var c := ExtractCitations(contexts)[i];
      c.id == contexts[i].citationId && c.docId == contexts[i].docId && c.page == contexts[i].page &&
      c.score == contexts[i].score && c.textSnippet == Snippet(contexts[i].text)
  {
  }

  // ---------------------------------------------------------------------------
  // Hybrid retrieval: filtering and numbering

  type HybridHit = Bm25Search.HybridHit

  /** `metadata.get("page", 1)`, for a page stored as a number. */
  function PageOf(metadata: map<string, Json>): int {
    if "page" in metadata && metadata["page"].JNum? then metadata["page"].n else 1
  }

  /** `r.get("combined_score", 0) * 100 >= score_threshold * 100` */
  predicate Passes(r: HybridHit, threshold: real) {
    r.combinedScore * 100.0 >= threshold * 100.0
  }

  /** The comprehension keeping the results that pass the threshold, in order. */
  function Filtered(results: seq<HybridHit>, threshold: real): (f: seq<HybridHit>)
    ensures |f| <= |results|
  {
    if results == [] then []
    else
      var last := results[|results| - 1];
      Filtered(results[..|results| - 1], threshold) + (if Passes(last, threshold) then [last] else [])
  }

  /** Scaling both sides by 100 changes nothing: a result passes exactly when its combined score reaches the threshold. */
  lemma PassesIff(r: HybridHit, threshold: real)
    ensures Passes(r, threshold) <==> r.combinedScore >= threshold
  {
  }

  /** Filtering keeps exactly the results that pass. */
  lemma {:induction false} FilteredKeeps(results: seq<HybridHit>, threshold: real)
    ensures forall r :: r in Filtered(results, threshold) <==> r in results && Passes(r, threshold)
  {
    if results != [] {
      var init := results[..|results| - 1];
      FilteredKeeps(init, threshold);
      assert results == init + [results[|results| - 1]];
    }
  }

  /** The context made of the `i`-th kept result: numbered from 1, its score as a percentage. */
  function ContextOf(i: nat, r: HybridHit): RagContext {
    RagContext(i + 1, r.docId, PageOf(r.metadata), r.text, r.combinedScore * 100.0, r.metadata)
  }

  /** `for i, r in enumerate(results): contexts.append(...)` */
  function Numbered(results: seq<HybridHit>): (cs: seq<RagContext>)
    ensures |cs| == |results|
  {
    seq(|results|, i requires 0 <= i < |results| => ContextOf(i, results[i]))
  }

  /** The contexts of a hybrid answer: filtered, cut to `top_k`, numbered. */
  function HybridContexts(results: seq<HybridHit>, topK: int, threshold: real): seq<RagContext> {
    Numbered(Sorting.PyPrefix(Filtered(results, threshold), topK))
  }

  /**
   * At most `top_k` contexts (for a non-negative `top_k`), numbered 1, 2, …
   * in order, each from a result that passed, with its score scaled to a
   * percentage that reaches the threshold's.
   */
  lemma HybridContextsFacts(results: seq<HybridHit>, topK: int, threshold: real)
    ensures var cs := HybridContexts(results, topK, threshold);
      (topK >= 0 ==> |cs| == Min(topK, |Filtered(results, threshold)|)) &&
      forall i :: 0 <= i < |cs| ==>
        cs[i].citationId == i + 1 &&
        cs[i].score >= threshold * 100.0 &&
        cs[i] == ContextOf(i, Filtered(results, threshold)[i])
  {
    var f := Filtered(results, threshold);
    var kept := Sorting.PyPrefix(f, topK);
    FilteredKeeps(results, threshold);
    forall i | 0 <= i < |kept|
      ensures kept[i] == f[i] && Passes(kept[i], threshold)
    {
      assert kept[i] in f;
    }
  }

  // ---------------------------------------------------------------------------
  // Retrieval and answers

  datatype PromptTemplate = Default | Academic | Concise | Detailed

  /** `is_technical`: the lower-cased query contains one of the technical keywords. */
  const TechnicalKeywords: seq<string> := [
    "là gì", "định nghĩa", "khái niệm", "công thức", "phương pháp",
    "what is", "definition", "formula", "method", "concept"
  ]

  predicate IsTechnical(query: string) {
    exists i :: 0 <= i < |TechnicalKeywords| && Contains(LowerStr(query), TechnicalKeywords[i])
  }

  const TechnicalWeight := 0.5

  /** The arguments of the `HybridRetriever` and its `search` call. */
  datatype HybridCall = HybridCall(query: string, topK: int, bm25TopK: int, vectorTopK: int,
                                   bm25Weight: real, vectorWeight: real)

  /** The arguments of the vector-only fallback, the caller's document filter among them. */
  datatype VectorCall = VectorCall(query: string, topK: int, scoreThreshold: real, searchFilter: Option<seq<string>>)

  /** What `retrieve_contexts` returns and which retrievers it asks. */
  datatype Retrieval = Retrieval(contexts: seq<RagContext>, hybridCall: Option<HybridCall>, vectorCall: Option<VectorCall>)

  /** The weights the hybrid search runs with: 0.5 and 0.5 for a technical query, else the service's. */
  function WeightsFor(query: string, useHybrid: bool, bm25Weight: real, vectorWeight: real): (real, real) {
    if IsTechnical(query) && useHybrid then (TechnicalWeight, TechnicalWeight) else (bm25Weight, vectorWeight)
  }

  /**
   * `retrieve_contexts` over the retrievers' answers: the hybrid search when
   * the service is hybrid and its index is ready, falling back to the vector
   * search when it is not or when the hybrid search raised. Only the
   * fallback is handed the search filter.
   */
  function RetrievalOf(query: string, topK: int, threshold: real, searchFilter: Option<seq<string>>,
                       useHybrid: bool, hybridReady: bool, bm25Weight: real, vectorWeight: real,
                       hybrid: HybridCall -> Option<seq<HybridHit>>, vector: VectorCall -> seq<RagContext>): Retrieval
  {
    var w := WeightsFor(query, useHybrid, bm25Weight, vectorWeight);
    var call := HybridCall(query, topK * 2, topK * 3, topK * 3, w.0, w.1);
    var fallback := VectorCall(query, topK, threshold, searchFilter);
    if useHybrid && hybridReady then
      match hybrid(call) {
        case Some(results) => Retrieval(HybridContexts(results, topK, threshold), Some(call), None)
        case None => Retrieval(vector(fallback), Some(call), Some(fallback))
      }
    else Retrieval(vector(fallback), None, Some(fallback))
  }

  /**
   * A hybrid search that answers gives the filtered and numbered contexts
   * and asks the vector search nothing; a technical query runs it with
   * equal weights; without a ready hybrid index only the vector search is
   * asked.
   */
  lemma RetrievalFacts(query: string, topK: int, threshold: real, searchFilter: Option<seq<string>>,
                       useHybrid: bool, hybridReady: bool, bm25Weight: real, vectorWeight: real,
                       hybrid: HybridCall -> Option<seq<HybridHit>>, vector: VectorCall -> seq<RagContext>)
    ensures var r := RetrievalOf(query, topK, threshold, searchFilter, useHybrid, hybridReady, bm25Weight, vectorWeight, hybrid, vector);
      (r.hybridCall.Some? <==> useHybrid && hybridReady) &&
      (r.hybridCall.Some? && IsTechnical(query) ==>
        r.hybridCall.value.bm25Weight == 0.5 && r.hybridCall.value.vectorWeight == 0.5) &&
      (r.hybridCall.Some? && !IsTechnical(query) ==>
        r.hybridCall.value.bm25Weight == bm25Weight && r.hybridCall.value.vectorWeight == vectorWeight) &&
      (r.hybridCall.Some? && hybrid(r.hybridCall.value).Some? ==>
        r.vectorCall.None? && r.contexts == HybridContexts(hybrid(r.hybridCall.value).value, topK, threshold)) &&
      (r.vectorCall.Some? ==>
        r.vectorCall.value == VectorCall(query, topK, threshold, searchFilter) && r.contexts == vector(r.vectorCall.value))
  {
  }

  /**
   * The hybrid path never reads the search filter: two calls that differ
   * only in their filters ask the hybrid search the same question, and when
   * it answers they return the same contexts, so a restriction to some
   * documents is ignored there. Only a vector fallback sees the filter.
   */
  lemma HybridIgnoresFilter(query: string, topK: int, threshold: real, filter1: Option<seq<string>>,
                            filter2: Option<seq<string>>, useHybrid: bool, hybridReady: bool,
                            bm25Weight: real, vectorWeight: real,
                            hybrid: HybridCall -> Option<seq<HybridHit>>, vector: VectorCall -> seq<RagContext>)
    ensures var r1 := RetrievalOf(query, topK, threshold, filter1, useHybrid, hybridReady, bm25Weight, vectorWeight, hybrid, vector);
      var r2 := RetrievalOf(query, topK, threshold, filter2, useHybrid, hybridReady, bm25Weight, vectorWeight, hybrid, vector);
      r1.hybridCall == r2.hybridCall &&
      (r1.hybridCall.Some? && hybrid(r1.hybridCall.value).Some? ==> r1 == r2) &&
      (r1.vectorCall.Some? ==> r2.vectorCall.Some? && r1.vectorCall.value.searchFilter == filter1 &&
                               r2.vectorCall.value.searchFilter == filter2)
  {
  }

  /** The reply of a Claude call: text, usage and model. */
  datatype ClaudeResponse = ClaudeResponse(text: string, usage: TokenUsage, model: string)

  datatype RagResponse = RagResponse(answer: string, citations: seq<Citation>, usage: TokenUsage, model: string,
                                     contextsUsed: int, query: string)

  class RagService {
    const useHybrid: bool
    const claude: ClaudeService
    var template: PromptTemplate
    var bm25Weight: real
    var vectorWeight: real

    constructor(regionName: string, model: string, template: PromptTemplate, useHybrid: bool,
                bm25Weight: real, vectorWeight: real)
      ensures this.useHybrid == useHybrid && this.template == template
      ensures this.bm25Weight == bm25Weight && this.vectorWeight == vectorWeight
      ensures fresh(claude) && claude.modelAlias == model && claude.modelId == ModelIdFor(model)
    {
      this.useHybrid := useHybrid;
      claude := new ClaudeService(regionName, model);
      this.template := template;
      this.bm25Weight := bm25Weight;
      this.vectorWeight := vectorWeight;
    }

    /** `set_template` */
    method SetTemplate(t: PromptTemplate)
      modifies this
      ensures template == t && bm25Weight == old(bm25Weight) && vectorWeight == old(vectorWeight)
    {
      template := t;
    }

    /** `set_model`: the Claude service switches, or reports the unknown alias and keeps its model. */
    method SetModel(model: string) returns (error: Option<string>)
      modifies claude
      ensures model in ClaudeModels ==> error.None? && claude.modelAlias == model && claude.modelId == ClaudeModels[model]
      ensures model !in ClaudeModels ==> error.Some? && claude.modelAlias == old(claude.modelAlias) && claude.modelId == old(claude.modelId)
    {
      error := claude.SwitchModel(model);
    }

    /**
     * `retrieve_contexts`: a technical query sets both weights to 0.5 for
     * the hybrid search, and the `finally` puts them back, so the weights
     * after the call are those before it.
     */
    method RetrieveContexts(query: string, topK: int, threshold: real, searchFilter: Option<seq<string>>, hybridReady: bool,
                            hybrid: HybridCall -> Option<seq<HybridHit>>, vector: VectorCall -> seq<RagContext>)
      returns (r: Retrieval)
      modifies this
      ensures r == RetrievalOf(query, topK, threshold, searchFilter, useHybrid, hybridReady, old(bm25Weight), old(vectorWeight),
                               hybrid, vector)
      ensures bm25Weight == old(bm25Weight) && vectorWeight == old(vectorWeight) && template == old(template)
    {
      var isTechnical := exists i :: 0 <= i < |TechnicalKeywords| && Contains(LowerStr(query), TechnicalKeywords[i]);
      var originalBm25 := bm25Weight;
      var originalVector := vectorWeight;
      if isTechnical && useHybrid {
        bm25Weight := TechnicalWeight;
        vectorWeight := TechnicalWeight;
      }
      var fallback := VectorCall(query, topK, threshold, searchFilter);
      if useHybrid && hybridReady {
        var call := HybridCall(query, topK * 2, topK * 3, topK * 3, bm25Weight, vectorWeight);
        var answer := hybrid(call);
        if answer.Some? {
          var contexts := HybridResultsToContexts(answer.value, topK, threshold);
          r := Retrieval(contexts, Some(call), None);
        } else {
          r := Retrieval(vector(fallback), Some(call), Some(fallback));
        }
      } else {
        r := Retrieval(vector(fallback), None, Some(fallback));
      }
      if isTechnical {
        bm25Weight := originalBm25;
        vectorWeight := originalVector;
      }
    }

    /**
     * `generate_answer`: the prompt from the template, the system prompt for
     * the query's language, one Claude call, and the response with one
     * citation per context.
     */
    method GenerateAnswer(t: QueryTemplate, systemPrompts: (PromptTemplate, Lang) -> string,
                          query: string, contexts: seq<RagContext>, history: Option<seq<ChatMessage>>,
                          maxTokens: int, temperature: real, invoke: Request -> ClaudeResponse)
      returns (response: RagResponse, request: Request)
      ensures request == Request(claude.modelId,
        BodyFor(BuildPrompt(t, query, contexts), Some(systemPrompts(template, DetectLanguage(query))), history, maxTokens, temperature))
      ensures response.answer == invoke(request).text && response.usage == invoke(request).usage
      ensures response.model == invoke(request).model && response.query == query
      ensures response.contextsUsed == |contexts| && response.citations == ExtractCitations(contexts)
    {
      var section := BuildContextSection(contexts);
      var prompt := t.beforeQuery + query + t.beforeContext + section + t.afterContext;
      var lang := DetectLanguage(query);
      var systemPrompt := systemPrompts(template, lang);
      request := Request(claude.modelId, BodyFor(prompt, Some(systemPrompt), history, maxTokens, temperature));
      var reply := invoke(request);
      response := RagResponse(reply.text, ExtractCitations(contexts), reply.usage, reply.model, |contexts|, query);
    }

    /** `generate_answer_stream`: the same prompt and system prompt, streamed through the Claude service. */
    method GenerateAnswerStream(t: QueryTemplate, systemPrompts: (PromptTemplate, Lang) -> string,
                                query: string, contexts: seq<RagContext>, history: Option<seq<ChatMessage>>,
                                maxTokens: int, temperature: real, events: seq<StreamEvent>)
      returns (request: Request, chunks: seq<StreamChunk>)
      ensures request == Request(claude.modelId,
        BodyFor(BuildPrompt(t, query, contexts), Some(systemPrompts(template, DetectLanguage(query))), history, maxTokens, temperature))
      ensures chunks == StreamFold(events).chunks
    {
      var section := BuildContextSection(contexts);
      var prompt := t.beforeQuery + query + t.beforeContext + section + t.afterContext;
      var systemPrompt := systemPrompts(template, DetectLanguage(query));
      request, chunks := claude.InvokeStream(prompt, Some(systemPrompt), history, maxTokens, temperature, events);
    }
  }

  /** The filtering comprehension, the `[:top_k]` cut and the numbering loop of the hybrid path. */
  method HybridResultsToContexts(results: seq<HybridHit>, topK: int, threshold: real) returns (contexts: seq<RagContext>)
    ensures contexts == HybridContexts(results, topK, threshold)
  {
    var kept := Sorting.PyPrefix(Filtered(results, threshold), topK);
    contexts := [];
    for i := 0 to |kept|
      invariant contexts == Numbered(kept)[..i]
    {
      contexts := contexts + [ContextOf(i, kept[i])];
    }
  }
}
