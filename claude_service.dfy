/**
 * The Claude-on-Bedrock wrapper: token accounting, model resolution, the
 * message list sent with each request, the fold of a response stream into
 * text chunks and a final usage chunk, and the citation blocks of a RAG
 * prompt.
 *
 * The Bedrock client is an input: the model receives the events a stream
 * delivered, already decoded.
 */
module ClaudeService {
  import opened Lib

  // ---------------------------------------------------------------------------
  // TokenUsage

  datatype TokenUsage = TokenUsage(inputTokens: int, outputTokens: int) {
    /** `total_tokens` */
    function TotalTokens(): (t: int)
      ensures t == inputTokens + outputTokens
    {
      inputTokens + outputTokens
    }
  }

  /** `to_dict`: the three counts under their names. */
  function UsageDict(u: TokenUsage): (d: map<string, int>)
    ensures d.Keys == {"input_tokens", "output_tokens", "total_tokens"}
    ensures d["input_tokens"] == u.inputTokens && d["output_tokens"] == u.outputTokens
    ensures d["total_tokens"] == d["input_tokens"] + d["output_tokens"]
  {
    map["input_tokens" := u.inputTokens, "output_tokens" := u.outputTokens, "total_tokens" := u.TotalTokens()]
  }

  /** Prices in USD per million tokens. */
  datatype Pricing = Pricing(input: real, output: real)

  const SonnetPricing := Pricing(3.0, 15.0)
  const HaikuPricing := Pricing(0.25, 1.25)

  /** `MODEL_PRICING.get(model, MODEL_PRICING["sonnet"])` */
  function PricingFor(model: string): Pricing {
    if model == "haiku" then HaikuPricing else SonnetPricing
  }

  /** `estimate_cost` */
  function EstimateCost(u: TokenUsage, model: string): real {
    (u.inputTokens as real / 1000000.0) * PricingFor(model).input + (u.outputTokens as real / 1000000.0) * PricingFor(model).output
  }

  /** A model with no price of its own is priced as Sonnet; Haiku costs a twelfth of Sonnet on the same tokens. */
  lemma EstimateCostFacts(u: TokenUsage, model: string)
    ensures model != "haiku" ==> EstimateCost(u, model) == EstimateCost(u, "sonnet")
    ensures EstimateCost(u, "sonnet") == 12.0 * EstimateCost(u, "haiku")
    ensures EstimateCost(u, "sonnet") == (3.0 * u.inputTokens as real + 15.0 * u.outputTokens as real) / 1000000.0
  {
  }

  // ---------------------------------------------------------------------------
  // Models

  const SonnetId := "anthropic.claude-3-5-sonnet-20240620-v1:0"
  const HaikuId := "anthropic.claude-3-haiku-20240307-v1:0"

  /** `CLAUDE_MODELS` */
  const ClaudeModels: map<string, string> := map["sonnet" := SonnetId, "haiku" := HaikuId]

  /** `CLAUDE_MODELS.get(alias, CLAUDE_MODELS["sonnet"])` */
  function ModelIdFor(alias: string): (id: string)
    ensures alias in ClaudeModels ==> id == ClaudeModels[alias]
    ensures alias !in ClaudeModels ==> id == SonnetId
  {
    if alias in ClaudeModels then ClaudeModels[alias] else SonnetId
  }

  const CharsPerToken := 4

  /** `estimate_tokens`: about four characters per token, never zero. */
  function EstimateTokens(text: string): (n: int)
    ensures n >= 1
    ensures CharsPerToken * (n - 1) <= |text| < CharsPerToken * n
  {
    |text| / CharsPerToken + 1
  }

  // ---------------------------------------------------------------------------
  // Messages and requests

  /** A chat message: a dict of strings (`role`, `content`). */
  type ChatMessage = map<string, string>

  /** `_build_messages`: the history, when there is one, then the prompt as the user's turn; the system prompt as given. */
  function BuildMessages(prompt: string, systemPrompt: Option<string>, history: Option<seq<ChatMessage>>): (r: (seq<ChatMessage>, Option<string>))
    ensures var hist := if history.Some? then history.value else [];
      |r.0| == |hist| + 1 && r.0[..|hist|] == hist
    ensures r.0[|r.0| - 1] == map["role" := "user", "content" := prompt]
    ensures r.1 == systemPrompt
  {
    var messages: seq<ChatMessage> := if history.Some? && history.value != [] then history.value else [];
    (messages + [map["role" := "user", "content" := prompt]], systemPrompt)
  }

  const AnthropicVersion := "bedrock-2023-05-31"
  const DefaultMaxTokens := 4096

  /** The JSON body of a request: the system prompt only when it is non-empty. */
  datatype RequestBody = RequestBody(
    anthropicVersion: string, maxTokens: int, messages: seq<ChatMessage>, temperature: real, system: Option<string>)

  /** The request a call sends: which model, and the body. */
  datatype Request = Request(modelId: string, body: RequestBody)

  /** The body `invoke` and `invoke_stream` build. */
  function BodyFor(prompt: string, systemPrompt: Option<string>, history: Option<seq<ChatMessage>>, maxTokens: int, temperature: real): (b: RequestBody)
    ensures b.anthropicVersion == AnthropicVersion && b.maxTokens == maxTokens && b.temperature == temperature
    ensures b.messages == BuildMessages(prompt, systemPrompt, history).0
    ensures b.system.Some? <==> systemPrompt.Some? && systemPrompt.value != ""
    ensures b.system.Some? ==> b.system == systemPrompt
  {
    var (messages, system) := BuildMessages(prompt, systemPrompt, history);
    RequestBody(AnthropicVersion, maxTokens, messages, temperature,
                if system.Some? && system.value != "" then system else None)
  }

  // ---------------------------------------------------------------------------
  // invoke_stream

  /**
   * One decoded stream event, with the fields the fold reads (None when
   * absent): a content-block delta with its delta's type and text, a
   * message delta with its output tokens, a message start with its input
   * tokens, the message stop, or any other event.
   */
  datatype StreamEvent =
    | ContentBlockDelta(deltaType: Option<string>, text: Option<string>)
    | MessageDelta(outputTokens: Option<int>)
    | MessageStart(inputTokens: Option<int>)
    | MessageStop
    | OtherEvent(eventType: string)

  /** A chunk the stream yields: a text fragment, or the final empty chunk with the usage. */
  datatype StreamChunk = StreamChunk(text: string, isFinal: bool, usage: Option<TokenUsage>)

  /** Where the fold stands: the chunks yielded so far and the usage counted so far. */
  datatype StreamState = StreamState(chunks: seq<StreamChunk>, usage: TokenUsage)

  function OrZero(n: Option<int>): int {
    if n.Some? then n.value else 0
  }

  /** One event of the fold. */
  function StreamStep(st: StreamState, e: StreamEvent): StreamState {
    match e
    case ContentBlockDelta(deltaType, text) =>
      if deltaType == Some("text_delta") then
        st.(chunks := st.chunks + [StreamChunk(if text.Some? then text.value else "", false, None)])
      else st
    case MessageDelta(output) => st.(usage := st.usage.(outputTokens := OrZero(output)))
    case MessageStart(input) => st.(usage := st.usage.(inputTokens := OrZero(input)))
    case MessageStop => st.(chunks := st.chunks + [StreamChunk("", true, Some(st.usage))])
    case OtherEvent(_) => st
  }

  /** The fold over the events, from no chunks and zero usage. */
  function StreamFold(events: seq<StreamEvent>): StreamState {
    if events == [] then StreamState([], TokenUsage(0, 0))
    else StreamStep(StreamFold(events[..|events| - 1]), events[|events| - 1])
  }

  /** The texts of the text deltas, in order. */
  function TextDeltas(events: seq<StreamEvent>): seq<string> {
    if events == [] then []
    else
      var e := events[|events| - 1];
      TextDeltas(events[..|events| - 1])
        + (if e.ContentBlockDelta? && e.deltaType == Some("text_delta") then [if e.text.Some? then e.text.value else ""] else [])
  }

  /** The texts of the chunks that are not final. */
  function PartialTexts(chunks: seq<StreamChunk>): seq<string> {
    if chunks == [] then []
    else PartialTexts(chunks[..|chunks| - 1]) + (if chunks[|chunks| - 1].isFinal then [] else [chunks[|chunks| - 1].text])
  }

  /** How many message stops the events hold. */
  function Stops(events: seq<StreamEvent>): nat {
    if events == [] then 0 else Stops(events[..|events| - 1]) + (if events[|events| - 1] == MessageStop then 1 else 0)
  }

  /** How many chunks are final. */
  function Finals(chunks: seq<StreamChunk>): nat {
    if chunks == [] then 0 else Finals(chunks[..|chunks| - 1]) + (if chunks[|chunks| - 1].isFinal then 1 else 0)
  }

  /** The input tokens of the last message start (0 before any). */
  function LastInput(events: seq<StreamEvent>): int {
    if events == [] then 0
    else if events[|events| - 1].MessageStart? then OrZero(events[|events| - 1].inputTokens)
    else LastInput(events[..|events| - 1])
  }

  /** The output tokens of the last message delta (0 before any). */
  function LastOutput(events: seq<StreamEvent>): int {
    if events == [] then 0
    else if events[|events| - 1].MessageDelta? then OrZero(events[|events| - 1].outputTokens)
    else LastOutput(events[..|events| - 1])
  }

  lemma PartialTextsAppend(chunks: seq<StreamChunk>, more: seq<StreamChunk>)
    ensures PartialTexts(chunks + more) == PartialTexts(chunks) + PartialTexts(more)
    decreases |more|
  {
    if more == [] {
      assert chunks + more == chunks;
    } else {
      var last := more[|more| - 1];
      assert (chunks + more)[..|chunks + more| - 1] == chunks + more[..|more| - 1];
      PartialTextsAppend(chunks, more[..|more| - 1]);
    }
  }

  lemma FinalsAppend(chunks: seq<StreamChunk>, more: seq<StreamChunk>)
    ensures Finals(chunks + more) == Finals(chunks) + Finals(more)
    decreases |more|
  {
    if more == [] {
      assert chunks + more == chunks;
    } else {
      assert (chunks + more)[..|chunks + more| - 1] == chunks + more[..|more| - 1];
      FinalsAppend(chunks, more[..|more| - 1]);
    }
  }

  /** What one event adds to the partial texts: its text when it is a text delta. */
  function DeltaText(e: StreamEvent): seq<string> {
    if e.ContentBlockDelta? && e.deltaType == Some("text_delta") then [if e.text.Some? then e.text.value else ""] else []
  }

  lemma StepTexts(st: StreamState, e: StreamEvent)
    ensures PartialTexts(StreamStep(st, e).chunks) == PartialTexts(st.chunks) + DeltaText(e)
  {
    var after := StreamStep(st, e).chunks;
    if after != st.chunks {
      assert after[..|after| - 1] == st.chunks;
    } else {
      assert DeltaText(e) == [];
    }
  }

  lemma StepFinals(st: StreamState, e: StreamEvent)
    ensures Finals(StreamStep(st, e).chunks) == Finals(st.chunks) + (if e == MessageStop then 1 else 0)
  {
    var after := StreamStep(st, e).chunks;
    if after != st.chunks {
      assert after[..|after| - 1] == st.chunks;
    }
  }

  /** The stream yields one non-final chunk per text delta, with its text, in order. */
  lemma {:induction false} StreamTexts(events: seq<StreamEvent>)
    ensures PartialTexts(StreamFold(events).chunks) == TextDeltas(events)
  {
    if events != [] {
      var init := events[..|events| - 1];
      StreamTexts(init);
      StepTexts(StreamFold(init), events[|events| - 1]);
    }
  }

  /** The stream yields one final chunk per message stop. */
  lemma {:induction false} StreamFinals(events: seq<StreamEvent>)
    ensures Finals(StreamFold(events).chunks) == Stops(events)
  {
    if events != [] {
      var init := events[..|events| - 1];
      StreamFinals(init);
      StepFinals(StreamFold(init), events[|events| - 1]);
    }
  }

  /**
   * The usage at any point holds the input tokens of the last message start
   * and the output tokens of the last message delta.
   */
  lemma {:induction false} StreamUsage(events: seq<StreamEvent>)
    ensures StreamFold(events).usage == TokenUsage(LastInput(events), LastOutput(events))
  {
    if events != [] {
      StreamUsage(events[..|events| - 1]);
    }
  }

  /** The final chunk of a message stop is empty and carries the usage counted before it. */
  lemma StopCarriesUsage(events: seq<StreamEvent>)
    requires events != [] && events[|events| - 1] == MessageStop
    ensures var chunks := StreamFold(events).chunks;
      chunks != [] && chunks[|chunks| - 1]
        == StreamChunk("", true, Some(TokenUsage(LastInput(events[..|events| - 1]), LastOutput(events[..|events| - 1]))))
  {
    StreamUsage(events[..|events| - 1]);
  }

  // ---------------------------------------------------------------------------
  // Citation blocks

  /** `[{citation_id}] (Document: {doc_id}, Page {page})\n{text}` */
  function CitationBlock(citationId: int, docId: string, page: int, text: string): string
  {
    "[" + IntToString(citationId) + CitationTail(docId, page, text)
  }

  /** Everything after the citation number, from its closing `]`. */
  function CitationTail(docId: string, page: int, text: string): (t: string)
    ensures |t| > 0 && t[0] == ']'
  {
    "] (Document: " + docId + ", Page " + IntToString(page) + ")\n" + text
  }

  /** The citation number a block opens with: the integer between its `[` and its first `]`. */
  function BlockCitation(b: string): Option<int> {
    if |b| > 0 && b[0] == '[' && ']' in b[1..] then ParseInt(b[1..1 + IndexOf(b[1..], ']')]) else None
  }

  lemma NoBracketInNat(n: nat)
    ensures ']' !in NatToString(n)
  {
    var r := NatToString(n);
    forall k | 0 <= k < |r|
      ensures r[k] != ']'
    {
      assert '0' <= r[k] <= '9';
    }
  }

  /** A rendered integer holds no `]`. */
  lemma NoBracketInInt(i: int)
    ensures ']' !in IntToString(i)
  {
    if i < 0 {
      NoBracketInNat(-i);
      assert IntToString(i) == "-" + NatToString(-i);
    } else {
      NoBracketInNat(i);
    }
  }

  /** The first `c` of `a + b` is the head of `b` when `a` holds none. */
  lemma {:induction false} IndexOfAfter(a: string, b: string, c: char)
    requires c !in a && b != [] && b[0] == c
    ensures c in a + b && IndexOf(a + b, c) == |a|
  {
    assert (a + b)[|a|] == c;
    if a != [] {
      assert (a + b)[1..] == a[1..] + b;
      IndexOfAfter(a[1..], b, c);
    }
  }

  /** A bracket opening a number-free-of-`]` and closed by the tail reads back as that number. */
  lemma BracketedCitation(id: string, rest: string)
    requires ']' !in id && |rest| > 0 && rest[0] == ']'
    ensures BlockCitation("[" + id + rest) == ParseInt(id)
  {
    var b := "[" + id + rest;
    assert b[1..] == id + rest;
    IndexOfAfter(id, rest, ']');
    assert b[1..1 + |id|] == id;
  }

  /** The citation number can be read back from the block. */
  lemma BlockCitationRoundTrip(citationId: int, docId: string, page: int, text: string)
    ensures BlockCitation(CitationBlock(citationId, docId, page, text)) == Some(citationId)
  {
    NoBracketInInt(citationId);
    BracketedCitation(IntToString(citationId), CitationTail(docId, page, text));
    ParseIntToString(citationId);
  }

  /** A context dict of `invoke_with_context`, each field None when absent. */
  datatype ContextDict = ContextDict(citationId: Option<int>, text: Option<string>, docId: Option<string>, page: Option<int>)

  /** One context's block, with the defaults 0, "", "unknown" and 1. */
  function ContextDictBlock(c: ContextDict): string {
    CitationBlock(if c.citationId.Some? then c.citationId.value else 0,
                  if c.docId.Some? then c.docId.value else "unknown",
                  if c.page.Some? then c.page.value else 1,
                  if c.text.Some? then c.text.value else "")
  }

  const ContextSeparator := "\n\n---\n\n"

  /** The context section of `invoke_with_context`: the blocks joined by the separator. */
  function ContextDictSection(contexts: seq<ContextDict>): string {
    Join(ContextSeparator, MapSeq(ContextDictBlock, contexts))
  }

  /** Joining one more part after at least one adds the separator and the part. */
  lemma {:induction false} JoinAppend(sep: string, parts: seq<string>, p: string)
    requires parts != []
    ensures Join(sep, parts + [p]) == Join(sep, parts) + sep + p
    decreases |parts|
  {
    if |parts| == 1 {
      assert (parts + [p])[1..] == [p];
    } else {
      assert (parts + [p])[1..] == parts[1..] + [p];
      JoinAppend(sep, parts[1..], p);
    }
  }

  /**
   * The section holds no text without contexts, and one more context adds
   * the separator and its block.
   */
  lemma ContextDictSectionAppend(contexts: seq<ContextDict>, c: ContextDict)
    ensures ContextDictSection([]) == ""
    ensures contexts != [] ==> ContextDictSection(contexts + [c]) == ContextDictSection(contexts) + ContextSeparator + ContextDictBlock(c)
  {
    if contexts != [] {
      assert MapSeq(ContextDictBlock, contexts + [c]) == MapSeq(ContextDictBlock, contexts) + [ContextDictBlock(c)];
      JoinAppend(ContextSeparator, MapSeq(ContextDictBlock, contexts), ContextDictBlock(c));
    }
  }

  /**
   * A context without fields renders with the defaults, and every block
   * opens with its citation number (0 when absent).
   */
  lemma ContextDictBlockFacts(c: ContextDict)
    ensures ContextDictBlock(ContextDict(None, None, None, None)) == CitationBlock(0, "unknown", 1, "")
    ensures BlockCitation(ContextDictBlock(c)) == Some(if c.citationId.Some? then c.citationId.value else 0)
  {
    BlockCitationRoundTrip(if c.citationId.Some? then c.citationId.value else 0,
                           if c.docId.Some? then c.docId.value else "unknown",
                           if c.page.Some? then c.page.value else 1,
                           if c.text.Some? then c.text.value else "");
  }

  // ---------------------------------------------------------------------------
  // ClaudeService

  class ClaudeService {
    const regionName: string
    var modelAlias: string
    var modelId: string

    /** The alias is kept as given; an alias with no model falls back to Sonnet's id. */
    constructor(regionName: string, model: string)
      ensures this.regionName == regionName && modelAlias == model && modelId == ModelIdFor(model)
    {
      this.regionName := regionName;
      modelAlias := model;
      modelId := ModelIdFor(model);
    }

    /** `switch_model`: a known alias changes alias and id together; any other is a ValueError and changes nothing. */
    method SwitchModel(model: string) returns (error: Option<string>)
      modifies this
      ensures model in ClaudeModels ==> error.None? && modelAlias == model && modelId == ClaudeModels[model]
      ensures model !in ClaudeModels ==>
        error == Some("Unknown model: " + model + ". Use 'sonnet' or 'haiku'")
        && modelAlias == old(modelAlias) && modelId == old(modelId)
    {
      if model in ClaudeModels {
        modelAlias := model;
        modelId := ClaudeModels[model];
        error := None;
      } else {
        error := Some("Unknown model: " + model + ". Use 'sonnet' or 'haiku'");
      }
    }

    /** `invoke_stream`: the request it sends, and the chunks it yields for the events the stream delivered. */
    method InvokeStream(prompt: string, systemPrompt: Option<string>, history: Option<seq<ChatMessage>>,
                        maxTokens: int, temperature: real, events: seq<StreamEvent>)
      returns (request: Request, chunks: seq<StreamChunk>)
      ensures request == Request(modelId, BodyFor(prompt, systemPrompt, history, maxTokens, temperature))
      ensures chunks == StreamFold(events).chunks
    {
      request := Request(modelId, BodyFor(prompt, systemPrompt, history, maxTokens, temperature));
      chunks := [];
      var usage := TokenUsage(0, 0);
      for i := 0 to |events|
        invariant StreamState(chunks, usage) == StreamFold(events[..i])
      {
        assert events[..i + 1][..i] == events[..i];
        match events[i] {
          case ContentBlockDelta(deltaType, text) =>
            if deltaType == Some("text_delta") {
              chunks := chunks + [StreamChunk(if text.Some? then text.value else "", false, None)];
            }
          case MessageDelta(output) =>
            usage := usage.(outputTokens := OrZero(output));
          case MessageStart(input) =>
            usage := usage.(inputTokens := OrZero(input));
          case MessageStop =>
            chunks := chunks + [StreamChunk("", true, Some(usage))];
          case OtherEvent(_) =>
        }
      }
      assert events[..|events|] == events;
    }
  }
}
