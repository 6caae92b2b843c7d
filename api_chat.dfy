// The chat HTTP endpoints: Server-Sent-Event framing of a streamed answer,
// request defaulting (conversation id, user id, template, language, filter),
// when stored history is loaded, the mapping of a rate-limit refusal to an
// HTTP 429, the conversion of a RAG answer into the response body, and the
// health report. The random uuid, the clock and the services are inputs.

module ChatApi {
  import opened Lib
  import opened ClaudeService
  import RagService
  import RateLimiter
  import Sorting

  // ---------------------------------------------------------------------------
  // Server-Sent Events framing of `chat_stream`
  // ---------------------------------------------------------------------------

  /** One SSE event carrying `payload` verbatim. */
  function DataFrame(payload: string): (f: string)
    ensures |f| == |payload| + 8
  {
    "data: " + payload + "\n\n"
  }

  const DoneFrame := DataFrame("[DONE]")

  function ErrorFrame(message: string): string {
    DataFrame("[ERROR] " + message)
  }

  predicate IsDataFrame(f: string) {
    |f| >= 8 && f[..6] == "data: " && f[|f| - 2..] == "\n\n"
  }

  /** What a client reads back from a frame: the text between "data: " and the blank line. */
  function Payload(f: string): string
    requires IsDataFrame(f)
  {
    f[6..|f| - 2]
  }

  /** Every frame is well formed and hands its payload back unchanged. */
  lemma DataFrameRoundTrip(payload: string)
    ensures IsDataFrame(DataFrame(payload))
    ensures Payload(DataFrame(payload)) == payload
  {
    var f := DataFrame(payload);
    assert f[..6] == "data: ";
    assert f[|f| - 2..] == "\n\n";
    assert f[6..|f| - 2] == payload;
  }

  /** The frames one chunk yields: its text when non-empty, then [DONE] when it is final. */
  function ChunkFrames(c: StreamChunk): seq<string> {
    (if c.text != "" then [DataFrame(c.text)] else []) + (if c.isFinal then [DoneFrame] else [])
  }

  function SseFrames(chunks: seq<StreamChunk>): seq<string> {
    if chunks == [] then [] else SseFrames(chunks[..|chunks| - 1]) + ChunkFrames(chunks[|chunks| - 1])
  }

  /** The whole body: the frames of the chunks produced, then one error frame if iteration raised. */
  function StreamBody(chunks: seq<StreamChunk>, raised: Option<string>): seq<string> {
    SseFrames(chunks) + (if raised.Some? then [ErrorFrame(raised.value)] else [])
  }

  /** Number of chunks with non-empty text. */
  function TextChunks(chunks: seq<StreamChunk>): nat {
    if chunks == [] then 0
    else TextChunks(chunks[..|chunks| - 1]) + (if chunks[|chunks| - 1].text != "" then 1 else 0)
  }

  /**
   * `generate()`: yields the frames of each chunk in order; `raised` is the
   * message of the exception iteration stopped with, after all of `chunks`.
   */
  method Generate(chunks: seq<StreamChunk>, raised: Option<string>) returns (frames: seq<string>)
    ensures frames == StreamBody(chunks, raised)
  {
    frames := [];
    for i := 0 to |chunks|
      invariant frames == SseFrames(chunks[..i])
    {
      var chunk := chunks[i];
      assert chunks[..i + 1][..i] == chunks[..i];
      if chunk.text != "" {
        frames := frames + [DataFrame(chunk.text)];
      }
      if chunk.isFinal {
        frames := frames + [DoneFrame];
      }
    }
    assert chunks[..|chunks|] == chunks;
    if raised.Some? {
      frames := frames + [ErrorFrame(raised.value)];
    }
  }

  /** Every frame of the stream is a well-formed SSE data event. */
  lemma {:induction false} FramesWellFormed(chunks: seq<StreamChunk>)
    ensures forall i :: 0 <= i < |SseFrames(chunks)| ==> IsDataFrame(SseFrames(chunks)[i])
    decreases |chunks|
  {
    if chunks != [] {
      var c := chunks[|chunks| - 1];
      FramesWellFormed(chunks[..|chunks| - 1]);
      DataFrameRoundTrip(c.text);
      DataFrameRoundTrip("[DONE]");
    }
  }

  /** One frame per chunk with text plus one [DONE] per final chunk. */
  lemma {:induction false} FrameCount(chunks: seq<StreamChunk>)
    ensures |SseFrames(chunks)| == TextChunks(chunks) + Finals(chunks)
    decreases |chunks|
  {
    if chunks != [] {
      FrameCount(chunks[..|chunks| - 1]);
    }
  }

  /** For a Claude stream, the [DONE] frames are as many as the message_stop events. */
  lemma ClaudeStreamFrames(events: seq<StreamEvent>)
    ensures |SseFrames(StreamFold(events).chunks)| == TextChunks(StreamFold(events).chunks) + Stops(events)
  {
    FrameCount(StreamFold(events).chunks);
    StreamFinals(events);
  }

  /** A failure adds exactly one error frame, after everything already sent. */
  lemma ErrorFrameLast(chunks: seq<StreamChunk>, message: string)
    ensures |StreamBody(chunks, Some(message))| == |SseFrames(chunks)| + 1
    ensures StreamBody(chunks, Some(message))[..|SseFrames(chunks)|] == SseFrames(chunks)
    ensures StreamBody(chunks, Some(message))[|SseFrames(chunks)|] == ErrorFrame(message)
    ensures Payload(ErrorFrame(message)) == "[ERROR] " + message
  {
    DataFrameRoundTrip("[ERROR] " + message);
  }

  // ---------------------------------------------------------------------------
  // Request defaulting
  // ---------------------------------------------------------------------------

  predicate Given(s: Option<string>) {
    s.Some? && s.value != ""
  }

  /** The request's conversation id when it has a non-empty one, else "conv-" and the first 12 characters of a fresh uuid's hex. */
  function ConversationId(given: Option<string>, uuidHex: string): string {
    if Given(given) then given.value else "conv-" + Sorting.PyPrefix(uuidHex, 12)
  }

  predicate IsHexDigit(c: char) {
    '0' <= c <= '9' || 'a' <= c <= 'f'
  }

  /** A generated id is "conv-" followed by twelve hex digits; a given one is kept. */
  lemma ConversationIdShape(given: Option<string>, uuidHex: string)
    ensures Given(given) ==> ConversationId(given, uuidHex) == given.value
    ensures !Given(given) && |uuidHex| == 32 && (forall i :: 0 <= i < 32 ==> IsHexDigit(uuidHex[i])) ==>
      var id := ConversationId(given, uuidHex);
      |id| == 17 && id[..5] == "conv-" && forall i :: 5 <= i < 17 ==> IsHexDigit(id[i])
  {
    if !Given(given) && |uuidHex| == 32 {
      var id := ConversationId(given, uuidHex);
      assert Sorting.PyPrefix(uuidHex, 12) <= uuidHex;
      assert forall i :: 5 <= i < 17 ==> id[i] == uuidHex[i - 5];
    }
  }

  function UserIdOf(given: Option<string>): (u: string)
    ensures u != ""
    ensures Given(given) ==> u == given.value
  {
    if Given(given) then given.value else "anonymous"
  }

  /** Only a request that continues a named conversation, with include_history set, loads history. */
  predicate LoadsHistory(includeHistory: Option<bool>, conversationId: Option<string>) {
    includeHistory == Some(true) && Given(conversationId)
  }

  const HistoryMessages := 10

  /** The history handed to the RAG query: the loaded messages, or none when not loaded or loading failed. */
  function HistoryFor(includeHistory: Option<bool>, conversationId: Option<string>,
                      loaded: Result<seq<ChatMessage>, string>): (h: Option<seq<ChatMessage>>)
    ensures h.Some? <==> LoadsHistory(includeHistory, conversationId) && loaded.Ok?
    ensures h.Some? ==> h.value == loaded.value
  {
    if LoadsHistory(includeHistory, conversationId) then
      match loaded
      case Ok(messages) => Some(messages)
      case Err(_) => None
    else None
  }

  /** A new conversation (no id in the request) never sees history, even though an id is generated for it. */
  lemma NewConversationHasNoHistory(includeHistory: Option<bool>, conversationId: Option<string>,
                                    loaded: Result<seq<ChatMessage>, string>)
    requires !Given(conversationId)
    ensures HistoryFor(includeHistory, conversationId, loaded) == None
  {
  }

  /** A language other than "auto" (and not empty) is passed on as the preference. */
  function LanguagePreference(language: Option<string>): (p: Option<string>)
    ensures p.Some? <==> Given(language) && language.value != "auto"
    ensures p.Some? ==> p == language
  {
    if Given(language) && language.value != "auto" then language else None
  }

  /** A document filter only for a non-empty list of ids. */
  function SearchFilterFor(docIds: Option<seq<string>>): (f: Option<seq<string>>)
    ensures f.Some? <==> docIds.Some? && docIds.value != []
    ensures f.Some? ==> f == docIds
  {
    if docIds.Some? && docIds.value != [] then docIds else None
  }

  /** `top_k or default`. */
  function TopKOr(topK: Option<int>, default: int): (k: int)
    ensures topK.Some? && topK.value != 0 ==> k == topK.value
    ensures !(topK.Some? && topK.value != 0) ==> k == default
  {
    if topK.Some? && topK.value != 0 then topK.value else default
  }

  // ---------------------------------------------------------------------------
  // Prompt templates
  // ---------------------------------------------------------------------------

  function TemplateName(t: RagService.PromptTemplate): string {
    match t
    case Default => "default"
    case Academic => "academic"
    case Concise => "concise"
    case Detailed => "detailed"
  }

  /** `PromptTemplate(value)`: the template with that value, if any. */
  function TemplateNamed(s: string): (t: Option<RagService.PromptTemplate>)
  {
    if s == "default" then Some(RagService.Default)
    else if s == "academic" then Some(RagService.Academic)
    else if s == "concise" then Some(RagService.Concise)
    else if s == "detailed" then Some(RagService.Detailed)
    else None
  }

  /** Names and templates correspond one to one. */
  lemma TemplateNameRoundTrip(t: RagService.PromptTemplate, s: string)
    ensures TemplateNamed(TemplateName(t)) == Some(t)
    ensures TemplateNamed(s) == Some(t) ==> TemplateName(t) == s
  {
  }

  /** The /api/chat detail for an unknown template. */
  function ChatTemplateDetail(name: string): string {
    "Invalid template: " + name + ". Use: default, academic, concise, detailed"
  }

  /** The /api/chat/stream detail for an unknown template. */
  function StreamTemplateDetail(name: string): string {
    "Invalid template: " + name
  }

  /** No template field leaves the service's template alone; a known name selects it; anything else is a 400. */
  function TemplateChoice(template: Option<string>, detail: string -> string)
    : (r: Result<Option<RagService.PromptTemplate>, HttpError>)
    ensures !Given(template) ==> r == Ok(None)
    ensures Given(template) && TemplateNamed(template.value).Some? ==> r == Ok(TemplateNamed(template.value))
    ensures Given(template) && TemplateNamed(template.value).None? ==>
      r == Err(HttpError(400, detail(template.value), map[]))
  {
    if !Given(template) then Ok(None)
    else
      match TemplateNamed(template.value)
      case Some(t) => Ok(Some(t))
      case None => Err(HttpError(400, detail(template.value), map[]))
  }

  // ---------------------------------------------------------------------------
  // Rate limiting
  // ---------------------------------------------------------------------------

  /** About four characters per token, plus 2000 for context and answer. */
  function EstimatedTokens(query: string): (n: nat)
    ensures n >= 2000
    ensures 4 * (n - 2000) <= |query| < 4 * (n - 2000) + 4
  {
    |query| / 4 + 2000
  }

  /** The 429 raised for a refused request: the detail carries the limiter's message, Retry-After the whole seconds. */
  function RateLimitError(e: RateLimiter.RateLimitExceeded, message: string): (err: HttpError)
    ensures err.status == 429
    ensures err.headers.Keys == {"Retry-After"}
  {
    HttpError(429, "Rate limit exceeded. " + message, map["Retry-After" := IntToString(e.retryAfter)])
  }

  /** A client reads the limiter's retry delay back from the Retry-After header. */
  lemma RetryAfterRoundTrip(e: RateLimiter.RateLimitExceeded, message: string)
    ensures ParseInt(RateLimitError(e, message).headers["Retry-After"]) == Some(e.retryAfter)
  {
    ParseIntToString(e.retryAfter);
  }

  /** The headers of an admitted request. */
  function RateLimitHeaders(status: RateLimiter.RateLimitStatus): (h: map<string, string>)
    ensures h.Keys == {"X-RateLimit-Remaining", "X-RateLimit-Reset"}
    ensures ParseInt(h["X-RateLimit-Remaining"]) == Some(status.requestsRemaining)
    ensures ParseInt(h["X-RateLimit-Reset"]) == Some(status.resetAt)
  {
    ParseIntToString(status.requestsRemaining);
    ParseIntToString(status.resetAt);
    map["X-RateLimit-Remaining" := IntToString(status.requestsRemaining),
        "X-RateLimit-Reset" := IntToString(status.resetAt)]
  }

  /**
   * The admission step of `chat`: acquire without waiting for the estimated
   * tokens; a refusal becomes the 429, an admission yields the estimate.
   */
  method AdmitChat(limiter: RateLimiter.RateLimiter, query: string, userId: string, now: int, message: string)
    returns (acquired: Result<bool, RateLimiter.RateLimitExceeded>, r: Result<nat, HttpError>)
    requires limiter.Valid()
    modifies limiter
    ensures limiter.Valid() && limiter.config == old(limiter.config)
    ensures acquired.Err? <==>
      RateLimiter.StatusOf(old(limiter.globalRpm), old(limiter.globalTpm),
                           RateLimiter.UserWindow(old(limiter.userRpm), userId, limiter.config.perUserRpm),
                           RateLimiter.UserWindow(old(limiter.userTpm), userId, limiter.config.perUserTpm),
                           EstimatedTokens(query), now).isLimited
    ensures acquired.Err? ==>
      acquired.error == RateLimiter.Limited(RateLimiter.StatusOf(
        old(limiter.globalRpm), old(limiter.globalTpm),
        RateLimiter.UserWindow(old(limiter.userRpm), userId, limiter.config.perUserRpm),
        RateLimiter.UserWindow(old(limiter.userTpm), userId, limiter.config.perUserTpm),
        EstimatedTokens(query), now).retryAfter)
    ensures acquired.Err? ==> r == Err(RateLimitError(acquired.error, message))
    ensures acquired.Ok? ==> acquired.value && r == Ok(EstimatedTokens(query))
    // a refusal only drops expired entries; an admission records one request and the estimate
    ensures limiter.globalRpm == if acquired.Ok? then RateLimiter.Acquired(old(limiter.globalRpm), now, 1)
                                 else RateLimiter.Cleaned(old(limiter.globalRpm), now)
    ensures limiter.globalTpm == if acquired.Ok? && EstimatedTokens(query) > 0
                                 then RateLimiter.Acquired(old(limiter.globalTpm), now, EstimatedTokens(query))
                                 else RateLimiter.Cleaned(old(limiter.globalTpm), now)
    ensures limiter.userRpm == old(limiter.userRpm)[userId :=
      var w := RateLimiter.UserWindow(old(limiter.userRpm), userId, limiter.config.perUserRpm);
      if acquired.Ok? then RateLimiter.Acquired(w, now, 1) else RateLimiter.Cleaned(w, now)]
    ensures limiter.userTpm == old(limiter.userTpm)[userId :=
      var w := RateLimiter.UserWindow(old(limiter.userTpm), userId, limiter.config.perUserTpm);
      if acquired.Ok? && EstimatedTokens(query) > 0 then RateLimiter.Acquired(w, now, EstimatedTokens(query))
      else RateLimiter.Cleaned(w, now)]
  {
    var estimated := EstimatedTokens(query);
    acquired := limiter.Acquire(userId, estimated, now);
    if acquired.Err? {
      r := Err(RateLimitError(acquired.error, message));
    } else {
      r := Ok(estimated);
    }
  }

  // ---------------------------------------------------------------------------
  // Response conversion
  // ---------------------------------------------------------------------------

  datatype CitationResponse = CitationResponse(id: int, docId: string, page: int, textSnippet: string, score: real)

  datatype UsageResponse = UsageResponse(inputTokens: int, outputTokens: int, totalTokens: int)

  datatype ChatResponse = ChatResponse(
    answer: string,
    citations: seq<CitationResponse>,
    conversationId: string,
    usage: UsageResponse,
    model: string,
    contextsUsed: int,
    query: string,
    timestamp: string)

  function CitationResponseOf(c: RagService.Citation): CitationResponse {
    CitationResponse(c.id, c.docId, c.page, c.textSnippet, c.score)
  }

  /** `_convert_rag_response`; `timestamp` is the current UTC time in ISO form. */
  function ConvertRagResponse(r: RagService.RagResponse, conversationId: string, timestamp: string): (c: ChatResponse)
    ensures c.conversationId == conversationId && c.timestamp == timestamp
    ensures c.usage.totalTokens == c.usage.inputTokens + c.usage.outputTokens
  {
    ChatResponse(r.answer, MapSeq(CitationResponseOf, r.citations), conversationId,
                 UsageResponse(r.usage.inputTokens, r.usage.outputTokens, r.usage.TotalTokens()),
                 r.model, r.contextsUsed, r.query, timestamp)
  }

  function CitationBack(c: CitationResponse): RagService.Citation {
    RagService.Citation(c.id, c.docId, c.page, c.textSnippet, c.score)
  }

  /** The RAG answer a response body describes. */
  function RagResponseOf(c: ChatResponse): RagService.RagResponse {
    RagService.RagResponse(c.answer, MapSeq(CitationBack, c.citations),
                           TokenUsage(c.usage.inputTokens, c.usage.outputTokens), c.model, c.contextsUsed, c.query)
  }

  /** The conversion loses nothing: the RAG answer, citations in order and field by field, usage, model,
      context count and query are all recovered from the response body. */
  lemma ConvertRoundTrip(r: RagService.RagResponse, conversationId: string, timestamp: string)
    ensures RagResponseOf(ConvertRagResponse(r, conversationId, timestamp)) == r
  {
    var back := MapSeq(CitationBack, MapSeq(CitationResponseOf, r.citations));
    assert back == r.citations;
  }

  // ---------------------------------------------------------------------------
  // The chat endpoint
  // ---------------------------------------------------------------------------

  /** The fields of a chat request the endpoint reads. */
  datatype ChatRequest = ChatRequest(
    query: string,
    conversationId: Option<string>,
    userId: Option<string>,
    docIds: Option<seq<string>>,
    template: Option<string>,
    topK: Option<int>,
    includeHistory: Option<bool>,
    language: Option<string>)

  /** The keyword arguments `chat` hands to `rag_service.query`. */
  datatype QueryCall = QueryCall(query: string, topK: int, searchFilter: Option<seq<string>>,
                                 history: Option<seq<ChatMessage>>, stream: bool, languagePreference: Option<string>)

  /** The keywords of that call, in the order it spells them. */
  const QueryCallKeywords: seq<string> := ["query", "top_k", "search_filter", "history", "stream", "language_preference"]

  /** The parameters `RAGService.query` declares; it takes no `**kwargs`. */
  const QueryParameters: set<string> :=
    {"query", "top_k", "score_threshold", "search_filter", "history", "max_tokens", "temperature", "stream"}

  /** The same signature with the `language_preference` parameter the endpoint passes. */
  const QueryParametersWithPreference: set<string> := QueryParameters + {"language_preference"}

  /** Python's keyword binding: the first keyword the callee does not declare, which raises TypeError. */
  function UnexpectedKeyword(parameters: set<string>, keywords: seq<string>): (k: Option<string>)
    ensures k.None? <==> forall i :: 0 <= i < |keywords| ==> keywords[i] in parameters
    ensures k.Some? ==> exists i :: 0 <= i < |keywords| && keywords[i] == k.value && k.value !in parameters &&
                                    forall j :: 0 <= j < i ==> keywords[j] in parameters
  {
    if keywords == [] then None
    else if keywords[0] !in parameters then Some(keywords[0])
    else
      var k := UnexpectedKeyword(parameters, keywords[1..]);
      if k.Some? then
        assert forall j :: 1 <= j < |keywords| ==> keywords[j] == keywords[1..][j - 1];
        k
      else k
  }

  /** The TypeError's message. */
  function KeywordError(name: string): string {
    "RAGService.query() got an unexpected keyword argument '" + name + "'"
  }

  /** What `except Exception` turns an error into. */
  function ProcessingFailed(message: string): HttpError {
    HttpError(500, "Chat processing failed: " + message, map[])
  }

  /** A history write the endpoint asks for; a failed one is only logged. */
  datatype SaveCall =
    | SaveUser(conversationId: string, content: string, userId: string)
    | SaveAssistant(conversationId: string, content: string, userId: string,
                    citations: seq<RagService.Citation>, usage: TokenUsage, model: string)

  /** One run of `chat` after admission: the reply, the template set, the history writes and the RAG query that ran. */
  datatype ChatRun = ChatRun(reply: Result<ChatResponse, HttpError>, template: Option<RagService.PromptTemplate>,
                             saves: seq<SaveCall>, queried: Option<QueryCall>)

  /** The query call `chat` builds from the request. */
  function QueryCallFor(req: ChatRequest, loaded: Result<seq<ChatMessage>, string>): QueryCall {
    QueryCall(req.query, TopKOr(req.topK, 3), SearchFilterFor(req.docIds),
              HistoryFor(req.includeHistory, req.conversationId, loaded), false, LanguagePreference(req.language))
  }

  /**
   * `chat` once the rate limiter admitted the request, for a `query` that
   * declares `parameters`: the template (or its 400), the user message
   * saved, the RAG query, then the assistant message saved and the answer
   * converted. `answer` is what the RAG query returns or the message of
   * what it raises.
   */
  function ChatAfterAdmission(parameters: set<string>, req: ChatRequest, conversationId: string, userId: string,
                              loaded: Result<seq<ChatMessage>, string>,
                              answer: QueryCall -> Result<RagService.RagResponse, string>, timestamp: string): (run: ChatRun)
    ensures TemplateChoice(req.template, ChatTemplateDetail).Err? ==>
      run == ChatRun(Err(TemplateChoice(req.template, ChatTemplateDetail).error), None, [], None)
    ensures TemplateChoice(req.template, ChatTemplateDetail).Ok? ==>
      run.template == TemplateChoice(req.template, ChatTemplateDetail).value &&
      |run.saves| >= 1 && run.saves[0] == SaveUser(conversationId, req.query, userId)
    ensures run.queried.Some? <==>
      TemplateChoice(req.template, ChatTemplateDetail).Ok? && UnexpectedKeyword(parameters, QueryCallKeywords).None?
    ensures run.queried.Some? ==> run.queried.value == QueryCallFor(req, loaded)
    ensures run.reply.Ok? <==> run.queried.Some? && answer(run.queried.value).Ok?
    ensures run.reply.Ok? ==>
      run.reply.value == ConvertRagResponse(answer(run.queried.value).value, conversationId, timestamp)
  {
    match TemplateChoice(req.template, ChatTemplateDetail)
    case Err(e) => ChatRun(Err(e), None, [], None)
    case Ok(template) =>
      var user := [SaveUser(conversationId, req.query, userId)];
      match UnexpectedKeyword(parameters, QueryCallKeywords)
      case Some(k) => ChatRun(Err(ProcessingFailed(KeywordError(k))), template, user, None)
      case None =>
        var call := QueryCallFor(req, loaded);
        match answer(call)
        case Err(m) => ChatRun(Err(ProcessingFailed(m)), template, user, Some(call))
        case Ok(r) =>
          ChatRun(Ok(ConvertRagResponse(r, conversationId, timestamp)), template,
                  user + [SaveAssistant(conversationId, r.answer, userId, r.citations, r.usage, r.model)], Some(call))
  }

  /** `RAGService.query` refuses the `language_preference` keyword, and would take it once declared. */
  lemma QueryRejectsPreference()
    ensures UnexpectedKeyword(QueryParameters, QueryCallKeywords) == Some("language_preference")
    ensures UnexpectedKeyword(QueryParametersWithPreference, QueryCallKeywords) == None
  {
    assert QueryCallKeywords[5] == "language_preference";
    assert "language_preference" !in QueryParameters;
  }

  /**
   * As written: every request that passes the template check ends in a 500
   * naming the TypeError, after the user message was saved and without any
   * RAG query, whatever the request and the services answer.
   */
  lemma ChatAsWritten(req: ChatRequest, conversationId: string, userId: string,
                      loaded: Result<seq<ChatMessage>, string>,
                      answer: QueryCall -> Result<RagService.RagResponse, string>, timestamp: string)
    ensures var run := ChatAfterAdmission(QueryParameters, req, conversationId, userId, loaded, answer, timestamp);
      TemplateChoice(req.template, ChatTemplateDetail).Ok? ==>
        run.reply == Err(ProcessingFailed(KeywordError("language_preference"))) &&
        run.saves == [SaveUser(conversationId, req.query, userId)] && run.queried.None?
  {
    QueryRejectsPreference();
  }

  /**
   * As intended: with `language_preference` declared, the RAG query runs
   * with the request's preference and document filter, and its answer is
   * saved and returned converted; an error it raises is the 500.
   */
  lemma ChatAsIntended(req: ChatRequest, conversationId: string, userId: string,
                       loaded: Result<seq<ChatMessage>, string>,
                       answer: QueryCall -> Result<RagService.RagResponse, string>, timestamp: string)
    ensures var run := ChatAfterAdmission(QueryParametersWithPreference, req, conversationId, userId, loaded, answer, timestamp);
      var call := QueryCallFor(req, loaded);
      TemplateChoice(req.template, ChatTemplateDetail).Ok? ==>
        run.queried == Some(call) &&
        call.languagePreference == LanguagePreference(req.language) &&
        call.searchFilter == SearchFilterFor(req.docIds) &&
        (answer(call).Ok? ==>
          run.reply == Ok(ConvertRagResponse(answer(call).value, conversationId, timestamp)) &&
          RagService.RagResponse(run.reply.value.answer, answer(call).value.citations, answer(call).value.usage,
                                 run.reply.value.model, run.reply.value.contextsUsed, run.reply.value.query)
            == answer(call).value &&
          run.saves == [SaveUser(conversationId, req.query, userId),
                        SaveAssistant(conversationId, answer(call).value.answer, userId, answer(call).value.citations,
                                      answer(call).value.usage, answer(call).value.model)]) &&
        (answer(call).Err? ==> run.reply == Err(ProcessingFailed(answer(call).error)) &&
                               run.saves == [SaveUser(conversationId, req.query, userId)])
  {
    QueryRejectsPreference();
  }

  /** The status `acquire` and `check_rate_limit` decide on, read from the limiter's counters. */
  function LimiterStatus(limiter: RateLimiter.RateLimiter, userId: string, estimatedTokens: int, now: int)
    : RateLimiter.RateLimitStatus
    reads limiter
  {
    RateLimiter.StatusOf(limiter.globalRpm, limiter.globalTpm,
                         RateLimiter.UserWindow(limiter.userRpm, userId, limiter.config.perUserRpm),
                         RateLimiter.UserWindow(limiter.userTpm, userId, limiter.config.perUserTpm),
                         estimatedTokens, now)
  }

  /**
   * The rate-limit steps of `chat`: acquire without waiting, then, for an
   * admitted request, `check_rate_limit` for the response headers. A refusal
   * is the 429 and only cleans the counters; an admission charges one
   * request and the estimate, and the headers read the counters as the
   * charge left them.
   */
  method AdmitAndReport(limiter: RateLimiter.RateLimiter, query: string, userId: string, now: int, message: string)
    returns (admitted: Result<nat, HttpError>, headers: map<string, string>)
    requires limiter.Valid()
    modifies limiter
    ensures limiter.Valid() && limiter.config == old(limiter.config)
    ensures var status := old(LimiterStatus(limiter, userId, EstimatedTokens(query), now));
      (admitted.Err? <==> status.isLimited) &&
      (admitted.Err? ==> admitted.error == RateLimitError(RateLimiter.Limited(status.retryAfter), message) && headers == map[]) &&
      (admitted.Ok? ==> admitted.value == EstimatedTokens(query))
    ensures var est := EstimatedTokens(query);
      admitted.Ok? ==>
        headers == RateLimitHeaders(RateLimiter.StatusOf(
          RateLimiter.Acquired(old(limiter.globalRpm), now, 1), RateLimiter.Acquired(old(limiter.globalTpm), now, est),
          RateLimiter.Acquired(RateLimiter.UserWindow(old(limiter.userRpm), userId, limiter.config.perUserRpm), now, 1),
          RateLimiter.Acquired(RateLimiter.UserWindow(old(limiter.userTpm), userId, limiter.config.perUserTpm), now, est),
          0, now))
    // the charge, as the status check leaves it
    ensures var est := EstimatedTokens(query);
      admitted.Ok? ==>
        limiter.globalRpm == RateLimiter.Cleaned(RateLimiter.Acquired(old(limiter.globalRpm), now, 1), now) &&
        limiter.globalTpm == RateLimiter.Cleaned(RateLimiter.Acquired(old(limiter.globalTpm), now, est), now) &&
        limiter.userRpm == old(limiter.userRpm)[userId := RateLimiter.Cleaned(
          RateLimiter.Acquired(RateLimiter.UserWindow(old(limiter.userRpm), userId, limiter.config.perUserRpm), now, 1), now)] &&
        limiter.userTpm == old(limiter.userTpm)[userId := RateLimiter.Cleaned(
          RateLimiter.Acquired(RateLimiter.UserWindow(old(limiter.userTpm), userId, limiter.config.perUserTpm), now, est), now)]
    ensures admitted.Err? ==>
      limiter.globalRpm == RateLimiter.Cleaned(old(limiter.globalRpm), now) &&
      limiter.globalTpm == RateLimiter.Cleaned(old(limiter.globalTpm), now) &&
      limiter.userRpm == old(limiter.userRpm)[userId := RateLimiter.Cleaned(
        RateLimiter.UserWindow(old(limiter.userRpm), userId, limiter.config.perUserRpm), now)] &&
      limiter.userTpm == old(limiter.userTpm)[userId := RateLimiter.Cleaned(
        RateLimiter.UserWindow(old(limiter.userTpm), userId, limiter.config.perUserTpm), now)]
  {
    ghost var rpm0, tpm0 := limiter.userRpm, limiter.userTpm;
    var acquired;
    acquired, admitted := AdmitChat(limiter, query, userId, now, message);
    if admitted.Err? {
      headers := map[];
      return;
    }
    ghost var rpm1, tpm1 := limiter.userRpm, limiter.userTpm;
    var status := limiter.CheckRateLimit(userId, 0, now);
    // the check overwrites the user's entries the charge wrote
    OverwriteKey(rpm0, userId, rpm1[userId], RateLimiter.Cleaned(rpm1[userId], now));
    OverwriteKey(tpm0, userId, tpm1[userId], RateLimiter.Cleaned(tpm1[userId], now));
    headers := RateLimitHeaders(status);
  }

  /** Writing a key twice keeps the second value. */
  lemma OverwriteKey<K, V>(m: map<K, V>, k: K, a: V, b: V)
    ensures m[k := a][k := b] == m[k := b]
  {
  }

  /**
   * The `chat` endpoint, for a `query` that declares `parameters`: the
   * rate-limit steps decide admission (AdmitAndReport states what they do
   * to the counters); a refused request is the 429 and runs nothing else;
   * an admitted one runs as ChatAfterAdmission says, the template it chose
   * set on the service.
   */
  method Chat(limiter: RateLimiter.RateLimiter, service: RagService.RagService, parameters: set<string>,
              req: ChatRequest, uuidHex: string, now: int, limitMessage: string,
              loaded: Result<seq<ChatMessage>, string>,
              answer: QueryCall -> Result<RagService.RagResponse, string>, timestamp: string)
    returns (admitted: Result<nat, HttpError>, run: ChatRun, headers: map<string, string>)
    requires limiter.Valid()
    modifies limiter, service
    ensures limiter.Valid() && limiter.config == old(limiter.config)
    ensures service.bm25Weight == old(service.bm25Weight) && service.vectorWeight == old(service.vectorWeight)
    ensures admitted.Err? <==> old(LimiterStatus(limiter, UserIdOf(req.userId), EstimatedTokens(req.query), now)).isLimited
    ensures admitted.Err? ==>
      run == ChatRun(Err(admitted.error), None, [], None) && service.template == old(service.template)
    ensures admitted.Ok? ==>
      run == ChatAfterAdmission(parameters, req, ConversationId(req.conversationId, uuidHex), UserIdOf(req.userId),
                                loaded, answer, timestamp) &&
      service.template == (if run.template.Some? then run.template.value else old(service.template))
  {
    var conversationId := ConversationId(req.conversationId, uuidHex);
    var userId := UserIdOf(req.userId);
    admitted, headers := AdmitAndReport(limiter, req.query, userId, now, limitMessage);
    if admitted.Err? {
      run := ChatRun(Err(admitted.error), None, [], None);
      return;
    }
    run := RunAdmitted(service, parameters, req, conversationId, userId, loaded, answer, timestamp);
  }

  /** The steps of `chat` after admission, the template it chose set on the service. */
  method RunAdmitted(service: RagService.RagService, parameters: set<string>, req: ChatRequest,
                     conversationId: string, userId: string, loaded: Result<seq<ChatMessage>, string>,
                     answer: QueryCall -> Result<RagService.RagResponse, string>, timestamp: string)
    returns (run: ChatRun)
    modifies service
    ensures run == ChatAfterAdmission(parameters, req, conversationId, userId, loaded, answer, timestamp)
    ensures service.template == (if run.template.Some? then run.template.value else old(service.template))
    ensures service.bm25Weight == old(service.bm25Weight) && service.vectorWeight == old(service.vectorWeight)
  {
    var choice := TemplateChoice(req.template, ChatTemplateDetail);
    if choice.Err? {
      run := ChatRun(Err(choice.error), None, [], None);
      return;
    }
    if choice.value.Some? {
      service.SetTemplate(choice.value.value);
    }
    var saves := [SaveUser(conversationId, req.query, userId)];
    var unexpected := UnexpectedKeyword(parameters, QueryCallKeywords);
    if unexpected.Some? {
      run := ChatRun(Err(ProcessingFailed(KeywordError(unexpected.value))), choice.value, saves, None);
      return;
    }
    var call := QueryCallFor(req, loaded);
    var response := answer(call);
    if response.Err? {
      run := ChatRun(Err(ProcessingFailed(response.error)), choice.value, saves, Some(call));
    } else {
      var r := response.value;
      saves := saves + [SaveAssistant(conversationId, r.answer, userId, r.citations, r.usage, r.model)];
      run := ChatRun(Ok(ConvertRagResponse(r, conversationId, timestamp)), choice.value, saves, Some(call));
    }
  }

  // ---------------------------------------------------------------------------
  // Health
  // ---------------------------------------------------------------------------

  datatype HealthReport =
    | Healthy(components: map<string, bool>)
    | Degraded(components: map<string, bool>)
    | Unhealthy(error: string)

  function StatusText(h: HealthReport): string {
    match h
    case Healthy(_) => "healthy"
    case Degraded(_) => "degraded"
    case Unhealthy(_) => "unhealthy"
  }

  /** `chat_health`: `health` is the service's component map, or the message of the exception it raised. */
  function ChatHealth(health: Result<map<string, bool>, string>): (h: HealthReport)
    ensures health.Err? ==> h == Unhealthy(health.error)
    ensures health.Ok? ==> !h.Unhealthy? && h.components == health.value
  {
    match health
    case Err(e) => Unhealthy(e)
    case Ok(components) =>
      if forall k :: k in components ==> components[k] then Healthy(components) else Degraded(components)
  }

  /** "healthy" exactly when every component reports true; one failing component makes it "degraded". */
  lemma HealthyIff(components: map<string, bool>)
    ensures StatusText(ChatHealth(Ok(components))) == "healthy" <==> forall k :: k in components ==> components[k]
    ensures StatusText(ChatHealth(Ok(components))) == "degraded" <==> exists k :: k in components && !components[k]
  {
  }
}
