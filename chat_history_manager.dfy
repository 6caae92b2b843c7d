/**
 * Chat-history records of the backend (`ChatHistoryManager`): messages are
 * DynamoDB items under partition key `user_id` and sort key
 * "CONV#{conversation}#MSG#{timestamp}", read back through a
 * conversation index. `CachedChatHistoryManager` keeps formatted histories
 * in a bounded TTL cache that every write invalidates.
 *
 * The store is not modelled: a query is the list of items it returned, a
 * write is the boolean outcome of the call, the clock is a parameter, and
 * `json.dumps` / `json.loads` are function parameters.
 */
module ChatHistory {
  import opened Lib
  import opened Dynamo

  /** `MessageRole`, or the raw string a stored item held instead. */
  datatype Role = User | Assistant | OtherRole(raw: string)

  /** `role.value if isinstance(role, MessageRole) else role` */
  function RoleValue(r: Role): string {
    match r
    case User => "user"
    case Assistant => "assistant"
    case OtherRole(s) => s
  }

  /** `MessageRole(s)`, keeping the raw string when it is no member. */
  function RoleOf(s: string): (r: Role)
    ensures RoleValue(r) == s
    ensures r.OtherRole? <==> s != "user" && s != "assistant"
  {
    if s == "user" then User else if s == "assistant" then Assistant else OtherRole(s)
  }

  type Usage = map<string, int>

  datatype ChatMessage = ChatMessage(
    conversationId: string,
    role: Role,
    content: string,
    createdAt: string,
    userId: string,
    messageId: Option<string>,
    citations: Option<Json>,
    usage: Option<Usage>,
    model: Option<string>)

  /** What can go wrong: `int()` of a stored number, a failed store call, `min()` of an empty cache. */
  datatype Failure = BadNumber(text: string) | ClientError | EmptyCacheEviction

  predicate TruthyText(o: Option<string>) {
    o.Some? && o.value != ""
  }

  predicate TruthyJson(o: Option<Json>) {
    o.Some? && Truthy(o.value)
  }

  predicate TruthyUsage(o: Option<Usage>) {
    o.Some? && |o.value| > 0
  }

  const BaseKeys: set<string> := {"conversation_id", "role", "content", "created_at", "user_id"}

  function UsageJson(u: Usage): Json {
    JObj(map k | k in u :: JNum(u[k]))
  }

  /** `ChatMessage.to_dict`: the five base keys, and each optional field only when it is truthy. */
  function ToDict(m: ChatMessage): (d: map<string, Json>)
    ensures BaseKeys <= d.Keys <= BaseKeys + {"message_id", "citations", "usage", "model"}
    ensures d["conversation_id"] == JStr(m.conversationId) && d["role"] == JStr(RoleValue(m.role))
    ensures d["content"] == JStr(m.content) && d["created_at"] == JStr(m.createdAt)
    ensures d["user_id"] == JStr(m.userId)
  {
    // The optional keys go in first; they share no key with the base ones.
    var o1: map<string, Json> := if TruthyText(m.messageId) then map["message_id" := JStr(m.messageId.value)] else map[];
    var o2 := if TruthyJson(m.citations) then o1["citations" := m.citations.value] else o1;
    var o3 := if TruthyUsage(m.usage) then o2["usage" := UsageJson(m.usage.value)] else o2;
    var o4 := if TruthyText(m.model) then o3["model" := JStr(m.model.value)] else o3;
    o4["conversation_id" := JStr(m.conversationId)]
      ["role" := JStr(RoleValue(m.role))]
      ["content" := JStr(m.content)]
      ["created_at" := JStr(m.createdAt)]
      ["user_id" := JStr(m.userId)]
  }

  /** Each optional key is present exactly when its field is truthy, and then holds that field. */
  lemma ToDictOptional(m: ChatMessage)
    ensures "message_id" in ToDict(m) <==> TruthyText(m.messageId)
    ensures "citations" in ToDict(m) <==> TruthyJson(m.citations)
    ensures "usage" in ToDict(m) <==> TruthyUsage(m.usage)
    ensures "model" in ToDict(m) <==> TruthyText(m.model)
    ensures TruthyText(m.messageId) ==> ToDict(m)["message_id"] == JStr(m.messageId.value)
    ensures TruthyJson(m.citations) ==> ToDict(m)["citations"] == m.citations.value
    ensures TruthyUsage(m.usage) ==> ToDict(m)["usage"] == UsageJson(m.usage.value)
    ensures TruthyText(m.model) ==> ToDict(m)["model"] == JStr(m.model.value)
  {
  }

  // ---------------------------------------------------------------- sort keys

  /** `_build_sk` */
  function BuildSk(conversationId: string, timestamp: string): string {
    "CONV#" + conversationId + "#MSG#" + timestamp
  }

  /** `_build_conv_sk` */
  function BuildConvSk(conversationId: string): string {
    "CONV#" + conversationId + "#META"
  }

  /** In `c + rest` with no '#' in `c` and `rest` starting with '#', the first '#' ends `c`. */
  lemma FirstHashEnds(c: string, rest: string)
    requires '#' !in c && |rest| > 0 && rest[0] == '#'
    ensures '#' in c + rest && IndexOf(c + rest, '#') == |c|
  {
    var s := c + rest;
    assert s[|c|] == '#';
    var k := IndexOf(s, '#');
    assert forall i :: 0 <= i < |c| ==> s[i] == c[i];
    assert forall i :: 0 <= i < k ==> s[..k][i] == s[i];
  }

  /** Message sort keys determine conversation and timestamp when conversation ids hold no '#'. */
  lemma {:induction false} SkInjective(c1: string, t1: string, c2: string, t2: string)
    requires '#' !in c1 && '#' !in c2
    requires BuildSk(c1, t1) == BuildSk(c2, t2)
    ensures c1 == c2 && t1 == t2
  {
    var s := BuildSk(c1, t1);
    assert s[5..] == c1 + ("#MSG#" + t1);
    assert s[5..] == c2 + ("#MSG#" + t2);
    FirstHashEnds(c1, "#MSG#" + t1);
    FirstHashEnds(c2, "#MSG#" + t2);
    assert c1 == s[5..][..|c1|];
    assert c2 == s[5..][..|c2|];
    assert t1 == s[|c1| + 10..];
    assert t2 == s[|c2| + 10..];
  }

  /** A message sort key never equals a conversation-metadata sort key (ids without '#'). */
  lemma MessageSkIsNotMeta(c1: string, t: string, c2: string)
    requires '#' !in c1 && '#' !in c2
    ensures BuildSk(c1, t) != BuildConvSk(c2)
  {
    var s1 := BuildSk(c1, t);
    var s2 := BuildConvSk(c2);
    if |c1| == |c2| {
      assert s1[|c1| + 7] == 'S' && s2[|c2| + 7] == 'E';
    } else if |c1| < |c2| {
      assert s1[5 + |c1|] == '#' && s2[5 + |c1|] == c2[|c1|];
    } else {
      assert s2[5 + |c2|] == '#' && s1[5 + |c2|] == c1[|c2|];
    }
  }

  /** With a '#' in the conversation id, two different messages share one sort key. */
  lemma SkAmbiguousWithHash()
    ensures BuildSk("a", "b#MSG#c") == BuildSk("a#MSG#b", "c")
  {
  }

  // ------------------------------------------------------- item building

  const UsageKeys: set<string> := {"input_tokens", "output_tokens", "total_tokens"}

  /** `usage.get(key, 0)` */
  function UsageGet(u: Usage, key: string): int {
    if key in u then u[key] else 0
  }

  /** The stored usage attribute: the three counters as DynamoDB numbers. */
  function UsageAttr(u: Usage): AttrValue {
    M(map[
      "input_tokens" := N(IntToString(UsageGet(u, "input_tokens"))),
      "output_tokens" := N(IntToString(UsageGet(u, "output_tokens"))),
      "total_tokens" := N(IntToString(UsageGet(u, "total_tokens")))])
  }

  const MessageKeys: set<string> :=
    {"user_id", "sk", "conversation_id", "created_at", "message_id", "role", "content"}

  /** The item `save_message` puts: seven string attributes, plus each optional one only when truthy. */
  function MessageItem(
    conversationId: string, role: Role, content: string, userId: string,
    citations: Option<Json>, usage: Option<Usage>, model: Option<string>,
    timestamp: string, messageId: string, dumps: Json -> string): (item: Item)
    ensures "sk" in item && item["sk"] == S(BuildSk(conversationId, timestamp))
    ensures "citations" in item <==> TruthyJson(citations)
    ensures "usage" in item <==> TruthyUsage(usage)
    ensures "model" in item <==> TruthyText(model)
  {
    // The optional attributes go in first; they share no key with the base ones.
    var o1: Item := if TruthyJson(citations) then map["citations" := S(dumps(citations.value))] else map[];
    var o2 := if TruthyUsage(usage) then o1["usage" := UsageAttr(usage.value)] else o1;
    var o3 := if TruthyText(model) then o2["model" := S(model.value)] else o2;
    o3["user_id" := S(userId)]
      ["sk" := S(BuildSk(conversationId, timestamp))]
      ["conversation_id" := S(conversationId)]
      ["created_at" := S(timestamp)]
      ["message_id" := S(messageId)]
      ["role" := S(RoleValue(role))]
      ["content" := S(content)]
  }

  /**
   * `save_message`: the put either fails (the ClientError is re-raised) or
   * the method returns the message with the generated id and timestamp and
   * the arguments exactly as passed.
   */
  function SaveMessage(
    conversationId: string, role: Role, content: string, userId: string,
    citations: Option<Json>, usage: Option<Usage>, model: Option<string>,
    timestamp: string, messageId: string, putOk: bool): (r: Result<ChatMessage, Failure>)
    ensures r.Ok? <==> putOk
    ensures r.Err? ==> r.error == ClientError
    ensures r.Ok? ==> r.value.messageId == Some(messageId) && r.value.createdAt == timestamp
    ensures r.Ok? ==> r.value.conversationId == conversationId && r.value.role == role
    ensures r.Ok? ==> r.value.content == content && r.value.userId == userId
    ensures r.Ok? ==> r.value.citations == citations && r.value.usage == usage && r.value.model == model
  {
    if putOk then
      Ok(ChatMessage(conversationId, role, content, timestamp, userId, Some(messageId), citations, usage, model))
    else Err(ClientError)
  }

  /** `save_user_message`: a user message without citations, usage or model. */
  function SaveUserMessage(
    conversationId: string, content: string, userId: string,
    timestamp: string, messageId: string, putOk: bool): (r: Result<ChatMessage, Failure>)
    ensures r.Ok? <==> putOk
    ensures r.Ok? ==> r.value.role == User && r.value.citations.None? && r.value.usage.None? && r.value.model.None?
  {
    SaveMessage(conversationId, User, content, userId, None, None, None, timestamp, messageId, putOk)
  }

  /** `save_assistant_message` */
  function SaveAssistantMessage(
    conversationId: string, content: string, userId: string,
    citations: Option<Json>, usage: Option<Usage>, model: Option<string>,
    timestamp: string, messageId: string, putOk: bool): (r: Result<ChatMessage, Failure>)
    ensures r.Ok? <==> putOk
    ensures r.Ok? ==> r.value.role == Assistant && r.value.citations == citations && r.value.usage == usage
  {
    SaveMessage(conversationId, Assistant, content, userId, citations, usage, model, timestamp, messageId, putOk)
  }

  // ------------------------------------------------------------ parsing

  /** `_deserialize_json`: a decode error gives None, and so does a decoded `null`. */
  function DeserializeJson(loads: string -> Option<Json>, text: string): (r: Option<Json>)
    ensures r.Some? ==> loads(text) == r && r.value != JNull
    ensures loads(text).Some? && loads(text).value != JNull ==> r == loads(text)
  {
    match loads(text)
    case None => None
    case Some(j) => if j == JNull then None else Some(j)
  }

  /** `int(usage_map.get(key, {}).get("N", 0))` */
  function UsageCounter(um: map<string, AttrValue>, key: string): Result<int, Failure> {
    if key in um && um[key].N? then
      match ParseInt(um[key].n)
      case None => Err(BadNumber(um[key].n))
      case Some(v) => Ok(v)
    else Ok(0)
  }

  /** The usage dict `_parse_message` rebuilds: always exactly the three counters. */
  function ParseUsage(attr: AttrValue): (r: Result<Usage, Failure>)
    ensures r.Ok? ==> r.value.Keys == UsageKeys
  {
    var um := if attr.M? then attr.m else map[];
    match UsageCounter(um, "input_tokens")
    case Err(e) => Err(e)
    case Ok(i) =>
      match UsageCounter(um, "output_tokens")
      case Err(e) => Err(e)
      case Ok(o) =>
        match UsageCounter(um, "total_tokens")
        case Err(e) => Err(e)
        case Ok(t) => Ok(map["input_tokens" := i, "output_tokens" := o, "total_tokens" := t])
  }

  /**
   * `_parse_message`: missing attributes take their defaults (role "user",
   * content and timestamps "", user "anonymous"); an unknown role is kept
   * raw; citations are decoded only from a non-empty string; a usage number
   * `int()` cannot read raises.
   */
  function ParseMessage(item: Item, loads: string -> Option<Json>): (r: Result<ChatMessage, Failure>)
    ensures r.Err? ==> "usage" in item && r.error.BadNumber?
    ensures r.Ok? ==> r.value.role == RoleOf(GetSOr(item, "role", "user"))
    ensures r.Ok? && GetS(item, "role").None? ==> r.value.role == User
    ensures r.Ok? && GetS(item, "content").None? ==> r.value.content == ""
    ensures r.Ok? && GetS(item, "user_id").None? ==> r.value.userId == "anonymous"
    ensures r.Ok? ==> (r.value.usage.Some? <==> "usage" in item)
    ensures r.Ok? && r.value.usage.Some? ==> r.value.usage.value.Keys == UsageKeys
    ensures r.Ok? && r.value.citations.Some? ==>
      GetS(item, "citations").Some? && GetS(item, "citations").value != ""
    ensures r.Ok? && GetS(item, "citations").Some? && loads(GetS(item, "citations").value).None? ==>
      r.value.citations.None?
  {
    var usage: Result<Option<Usage>, Failure> :=
      if "usage" in item then
        match ParseUsage(item["usage"])
        case Err(e) => Err(e)
        case Ok(u) => Ok(Some(u))
      else Ok(None);
    var citations :=
      if "citations" in item && item["citations"].S? && item["citations"].s != "" then
        DeserializeJson(loads, item["citations"].s)
      else None;
    match usage
    case Err(e) => Err(e)
    case Ok(u) =>
      Ok(ChatMessage(
        GetSOr(item, "conversation_id", ""),
        RoleOf(GetSOr(item, "role", "user")),
        GetSOr(item, "content", ""),
        GetSOr(item, "created_at", ""),
        GetSOr(item, "user_id", "anonymous"),
        GetS(item, "message_id"),
        citations,
        u,
        GetS(item, "model")))
  }

  /** The three counters `usage.get(key, 0)` as they read back from the store. */
  function UsageTriple(u: Usage): (t: Usage)
    ensures t.Keys == UsageKeys
  {
    map["input_tokens" := UsageGet(u, "input_tokens"),
        "output_tokens" := UsageGet(u, "output_tokens"),
        "total_tokens" := UsageGet(u, "total_tokens")]
  }

  /** What a saved message looks like when it is read back: falsy optional fields are gone. */
  function ReadBack(m: ChatMessage): ChatMessage {
    m.(role := RoleOf(RoleValue(m.role)),
       citations := if TruthyJson(m.citations) then m.citations else None,
       usage := if TruthyUsage(m.usage) then Some(UsageTriple(m.usage.value)) else None,
       model := if TruthyText(m.model) then m.model else None)
  }

  /** A message whose every field survives the store unchanged. */
  predicate Canonical(m: ChatMessage) {
    && (m.role.OtherRole? ==> m.role.raw != "user" && m.role.raw != "assistant")
    && (m.citations.Some? ==> Truthy(m.citations.value))
    && (m.usage.Some? ==> m.usage.value.Keys == UsageKeys)
    && (m.model.Some? ==> m.model.value != "")
  }

  lemma ReadBackOfCanonical(m: ChatMessage)
    requires Canonical(m)
    ensures ReadBack(m) == m
  {
    if m.usage.Some? {
      var u := m.usage.value;
      assert UsageTriple(u) == u;
    }
  }

  lemma UsageCounterOfAttr(u: Usage, key: string)
    requires key in UsageKeys
    ensures UsageAttr(u).M? && UsageCounter(UsageAttr(u).m, key) == Ok(UsageGet(u, key))
  {
    ParseIntToString(UsageGet(u, key));
  }

  /** A saved item holds the seven base attributes and at most the three optional ones. */
  lemma MessageItemKeys(
    conversationId: string, role: Role, content: string, userId: string,
    citations: Option<Json>, usage: Option<Usage>, model: Option<string>,
    timestamp: string, messageId: string, dumps: Json -> string)
    ensures var item := MessageItem(conversationId, role, content, userId, citations, usage, model, timestamp, messageId, dumps);
      MessageKeys <= item.Keys <= MessageKeys + {"citations", "usage", "model"}
  {
  }

  /** The string attributes of a saved item, as `_parse_message` reads them. */
  lemma MessageItemStrings(
    conversationId: string, role: Role, content: string, userId: string,
    citations: Option<Json>, usage: Option<Usage>, model: Option<string>,
    timestamp: string, messageId: string, dumps: Json -> string)
    ensures var item := MessageItem(conversationId, role, content, userId, citations, usage, model, timestamp, messageId, dumps);
      && GetSOr(item, "conversation_id", "") == conversationId
      && GetSOr(item, "role", "user") == RoleValue(role)
      && GetSOr(item, "content", "") == content
      && GetSOr(item, "created_at", "") == timestamp
      && GetSOr(item, "user_id", "anonymous") == userId
      && GetS(item, "message_id") == Some(messageId)
      && GetS(item, "model") == (if TruthyText(model) then model else None)
  {
  }

  /** The usage and citations attributes of a saved item. */
  lemma MessageItemExtras(
    conversationId: string, role: Role, content: string, userId: string,
    citations: Option<Json>, usage: Option<Usage>, model: Option<string>,
    timestamp: string, messageId: string, dumps: Json -> string)
    ensures var item := MessageItem(conversationId, role, content, userId, citations, usage, model, timestamp, messageId, dumps);
      && (TruthyUsage(usage) ==> item["usage"] == UsageAttr(usage.value))
      && (TruthyJson(citations) ==> item["citations"] == S(dumps(citations.value)))
  {
  }

  /**
   * Saving and reading back: the item `save_message` puts parses to the
   * message it returns, up to the falsy optional fields it drops
   * (for citations that `json.loads` decodes back).
   */
  lemma SavedMessageReadsBack(
    conversationId: string, role: Role, content: string, userId: string,
    citations: Option<Json>, usage: Option<Usage>, model: Option<string>,
    timestamp: string, messageId: string,
    dumps: Json -> string, loads: string -> Option<Json>)
    requires TruthyJson(citations) ==>
      dumps(citations.value) != "" && loads(dumps(citations.value)) == citations
    ensures
      var saved := SaveMessage(conversationId, role, content, userId, citations, usage, model, timestamp, messageId, true);
      var item := MessageItem(conversationId, role, content, userId, citations, usage, model, timestamp, messageId, dumps);
      saved.Ok? && ParseMessage(item, loads) == Ok(ReadBack(saved.value))
  {
    var item := MessageItem(conversationId, role, content, userId, citations, usage, model, timestamp, messageId, dumps);
    MessageItemStrings(conversationId, role, content, userId, citations, usage, model, timestamp, messageId, dumps);
    MessageItemExtras(conversationId, role, content, userId, citations, usage, model, timestamp, messageId, dumps);
    if TruthyUsage(usage) {
      var u := usage.value;
      UsageCounterOfAttr(u, "input_tokens");
      UsageCounterOfAttr(u, "output_tokens");
      UsageCounterOfAttr(u, "total_tokens");
      assert ParseUsage(item["usage"]) == Ok(UsageTriple(u));
    }
  }

  /** Reading back the whole query response, in order; the first unreadable item raises. */
  function ParseAll(items: seq<Item>, parse: Item -> Result<ChatMessage, Failure>): (r: Result<seq<ChatMessage>, Failure>)
    ensures r.Ok? ==> |r.value| == |items|
  {
    if items == [] then Ok([])
    else
      match parse(items[0])
      case Err(e) => Err(e)
      case Ok(m) =>
        match ParseAll(items[1..], parse)
        case Err(e) => Err(e)
        case Ok(ms) => Ok([m] + ms)
  }

  lemma {:induction false} ParseAllEach(items: seq<Item>, parse: Item -> Result<ChatMessage, Failure>, i: nat)
    requires ParseAll(items, parse).Ok? && i < |items|
    ensures parse(items[i]) == Ok(ParseAll(items, parse).value[i])
  {
    if i > 0 {
      ParseAllEach(items[1..], parse, i - 1);
    }
  }

  lemma {:induction false} ParseAllAppend(items: seq<Item>, parse: Item -> Result<ChatMessage, Failure>, item: Item)
    requires ParseAll(items, parse).Ok?
    ensures parse(item).Err? ==>
      ParseAll(items + [item], parse) == Err(parse(item).error)
    ensures parse(item).Ok? ==>
      ParseAll(items + [item], parse) == Ok(ParseAll(items, parse).value + [parse(item).value])
  {
    if items == [] {
      assert [] + [item] == [item];
      assert [item][1..] == [];
      assert ParseAll([], parse) == Ok([]);
      if parse(item).Ok? {
        var m := parse(item).value;
        assert [m] + [] == [] + [m];
      }
    } else {
      assert (items + [item])[0] == items[0];
      assert (items + [item])[1..] == items[1..] + [item];
      ParseAllAppend(items[1..], parse, item);
      var m := ParseAll(items, parse).value;
      if parse(item).Ok? {
        assert m == [m[0]] + m[1..];
        assert [m[0]] + (m[1..] + [parse(item).value]) == m + [parse(item).value];
      }
    }
  }

  /** `self._parse_message` as a function value. */
  function Parser(loads: string -> Option<Json>): Item -> Result<ChatMessage, Failure> {
    item => ParseMessage(item, loads)
  }

  /**
   * The loop of `get_conversation_history` over the items the query
   * returned: each one parsed in order (`parse` is `Parser(loads)`).
   */
  method GetConversationHistory(items: seq<Item>, parse: Item -> Result<ChatMessage, Failure>)
    returns (r: Result<seq<ChatMessage>, Failure>)
    ensures r == ParseAll(items, parse)
  {
    var messages: seq<ChatMessage> := [];
    var k := 0;
    while k < |items|
      invariant 0 <= k <= |items|
      invariant ParseAll(items[..k], parse) == Ok(messages)
    {
      assert items[..k + 1] == items[..k] + [items[k]];
      ParseAllAppend(items[..k], parse, items[k]);
      var m := parse(items[k]);
      if m.Err? {
        assert ParseAll(items[..k + 1], parse).Err?;
        PrefixErrorSticks(items, parse, k + 1);
        return Err(m.error);
      }
      messages := messages + [m.value];
      k := k + 1;
    }
    assert items[..k] == items;
    return Ok(messages);
  }

  lemma {:induction false} PrefixErrorSticks(items: seq<Item>, parse: Item -> Result<ChatMessage, Failure>, k: nat)
    requires k <= |items| && ParseAll(items[..k], parse).Err?
    ensures ParseAll(items, parse) == ParseAll(items[..k], parse)
  {
    if k > 0 && items[0] == items[..k][0] {
      assert items[..k][1..] == items[1..][..k - 1];
      if parse(items[0]).Ok? {
        PrefixErrorSticks(items[1..], parse, k - 1);
      }
    }
  }

  /** `{"role": ..., "content": ...}` as Claude's messages API takes it. */
  datatype ContextMessage = ContextMessage(role: string, content: string)

  function ContextOf(messages: seq<ChatMessage>): (r: seq<ContextMessage>)
    ensures |r| == |messages|
    ensures forall i :: 0 <= i < |r| ==>
      r[i] == ContextMessage(RoleValue(messages[i].role), messages[i].content)
  {
    seq(|messages|, i requires 0 <= i < |messages| =>
      ContextMessage(RoleValue(messages[i].role), messages[i].content))
  }

  /** `get_history_for_context`: the history in query order, projected to role and content. */
  function HistoryForContext(items: seq<Item>, loads: string -> Option<Json>): (r: Result<seq<ContextMessage>, Failure>)
    ensures r.Ok? <==> ParseAll(items, Parser(loads)).Ok?
    ensures r.Ok? ==> |r.value| == |items|
    ensures r.Ok? ==> forall i :: 0 <= i < |items| ==>
      ParseMessage(items[i], loads).Ok? &&
      r.value[i] == ContextMessage(RoleValue(ParseMessage(items[i], loads).value.role),
                                   ParseMessage(items[i], loads).value.content)
  {
    match ParseAll(items, Parser(loads))
    case Err(e) => Err(e)
    case Ok(ms) =>
      assert forall i :: 0 <= i < |items| ==> ParseMessage(items[i], loads) == Ok(ms[i]) by {
        forall i | 0 <= i < |items| {
          ParseAllEach(items, Parser(loads), i);
        }
      }
      Ok(ContextOf(ms))
  }

  // ------------------------------------------------------ conversation list

  datatype ConversationSummary = ConversationSummary(
    conversationId: string,
    userId: string,
    lastMessage: string,
    lastMessageAt: string,
    lastRole: string)

  datatype ConversationPage = ConversationPage(
    conversations: seq<ConversationSummary>,
    lastEvaluatedKey: Option<Item>)

  /** `content[:100] + "..."` when longer than 100 characters. */
  function Snippet(content: string): (r: string)
    ensures |content| <= 100 ==> r == content
    ensures |content| > 100 ==> |r| == 103 && r == content[..100] + "..."
  {
    if |content| > 100 then content[..100] + "..." else content
  }

  /** `item.get("conversation_id", {}).get("S")`, only when truthy. */
  function ConversationOf(item: Item): Option<string> {
    if GetS(item, "conversation_id").Some? && GetS(item, "conversation_id").value != "" then
      GetS(item, "conversation_id")
    else None
  }

  /** The fields of a summary taken from the conversation's newest message. */
  datatype LastMessage = LastMessage(text: string, at: string, role: string)

  /** `last_message`, `last_message_at` and `last_role` of the parsed item. */
  function LastMessageOf(item: Item, loads: string -> Option<Json>): (r: Result<LastMessage, Failure>)
    ensures r.Ok? <==> ParseMessage(item, loads).Ok?
    ensures r.Ok? ==> r.value.text == Snippet(ParseMessage(item, loads).value.content)
  {
    match ParseMessage(item, loads)
    case Err(e) => Err(e)
    case Ok(msg) => Ok(LastMessage(Snippet(msg.content), msg.createdAt, RoleValue(msg.role)))
  }

  /** The summary of an item whose conversation is new to the loop. */
  function SummaryOf(item: Item, userId: string, lastOf: Item -> Result<LastMessage, Failure>): Result<ConversationSummary, Failure>
    requires ConversationOf(item).Some?
  {
    match lastOf(item)
    case Err(e) => Err(e)
    case Ok(m) => Ok(ConversationSummary(ConversationOf(item).value, userId, m.text, m.at, m.role))
  }

  function IdsOf(acc: seq<ConversationSummary>): set<string> {
    set j | 0 <= j < |acc| :: acc[j].conversationId
  }

  /** The conversation ids seen in the first `k` items. */
  function SeenIds(items: seq<Item>, k: nat): set<string>
    requires k <= |items|
  {
    if k == 0 then {}
    else SeenIds(items, k - 1) + (if ConversationOf(items[k - 1]).Some? then {ConversationOf(items[k - 1]).value} else {})
  }

  /**
   * The grouping loop of `list_conversations` from item `k` on, with the
   * summaries kept so far: a new conversation id adds the summary of its
   * first item, and the loop stops once `limit` summaries are kept.
   */
  function Grouped(items: seq<Item>, k: nat, userId: string, limit: int, lastOf: Item -> Result<LastMessage, Failure>,
                   acc: seq<ConversationSummary>): Result<seq<ConversationSummary>, Failure>
    requires k <= |items|
    decreases |items| - k
  {
    if k == |items| then Ok(acc)
    else
      var id := ConversationOf(items[k]);
      if id.Some? && id.value !in IdsOf(acc) then
        match SummaryOf(items[k], userId, lastOf)
        case Err(e) => Err(e)
        case Ok(s) =>
          if |acc + [s]| >= limit then Ok(acc + [s])
          else Grouped(items, k + 1, userId, limit, lastOf, acc + [s])
      else Grouped(items, k + 1, userId, limit, lastOf, acc)
  }

  predicate DistinctIds(acc: seq<ConversationSummary>) {
    forall i, j :: 0 <= i < j < |acc| ==> acc[i].conversationId != acc[j].conversationId
  }

  /** A summary built from the first item of its conversation. */
  predicate FromFirstItem(items: seq<Item>, userId: string, lastOf: Item -> Result<LastMessage, Failure>, s: ConversationSummary) {
    exists i :: 0 <= i < |items| && ConversationOf(items[i]) == Some(s.conversationId) &&
      s.conversationId !in SeenIds(items, i) && SummaryOf(items[i], userId, lastOf) == Ok(s)
  }

  /** The invariant of the grouping loop after `k` items. */
  predicate GroupingState(items: seq<Item>, k: nat, userId: string, lastOf: Item -> Result<LastMessage, Failure>,
                          acc: seq<ConversationSummary>)
    requires k <= |items|
  {
    && DistinctIds(acc)
    && IdsOf(acc) == SeenIds(items, k)
    && forall j :: 0 <= j < |acc| ==> FromFirstItem(items, userId, lastOf, acc[j])
  }

  lemma AppendSummary(items: seq<Item>, k: nat, userId: string, lastOf: Item -> Result<LastMessage, Failure>,
                      acc: seq<ConversationSummary>, s: ConversationSummary)
    requires k < |items| && GroupingState(items, k, userId, lastOf, acc)
    requires ConversationOf(items[k]).Some? && ConversationOf(items[k]).value !in IdsOf(acc)
    requires SummaryOf(items[k], userId, lastOf) == Ok(s)
    ensures GroupingState(items, k + 1, userId, lastOf, acc + [s])
  {
    var acc' := acc + [s];
    assert s.conversationId == ConversationOf(items[k]).value;
    assert IdsOf(acc') == IdsOf(acc) + {s.conversationId} by {
      forall x | x in IdsOf(acc')
        ensures x in IdsOf(acc) + {s.conversationId}
      {
        var j :| 0 <= j < |acc'| && acc'[j].conversationId == x;
        if j < |acc| {
          assert acc[j] == acc'[j];
        }
      }
      forall x | x in IdsOf(acc)
        ensures x in IdsOf(acc')
      {
        var j :| 0 <= j < |acc| && acc[j].conversationId == x;
        assert acc'[j] == acc[j];
      }
      assert acc'[|acc|] == s;
    }
    forall j | 0 <= j < |acc'|
      ensures FromFirstItem(items, userId, lastOf, acc'[j])
    {
      if j < |acc| {
        assert acc'[j] == acc[j];
      } else {
        assert acc'[j] == s;
        assert s.conversationId !in SeenIds(items, k);
      }
    }
    forall i, j | 0 <= i < j < |acc'|
      ensures acc'[i].conversationId != acc'[j].conversationId
    {
      if j == |acc| {
        assert acc'[i] == acc[i];
        assert acc[i].conversationId in IdsOf(acc);
      } else {
        assert acc'[i] == acc[i] && acc'[j] == acc[j];
      }
    }
  }

  lemma SkipItem(items: seq<Item>, k: nat, userId: string, lastOf: Item -> Result<LastMessage, Failure>,
                 acc: seq<ConversationSummary>)
    requires k < |items| && GroupingState(items, k, userId, lastOf, acc)
    requires ConversationOf(items[k]).None? || ConversationOf(items[k]).value in IdsOf(acc)
    ensures GroupingState(items, k + 1, userId, lastOf, acc)
  {
  }

  /** The ids of the first `k` items are among the ids of all items. */
  lemma {:induction false} SeenIdsGrow(items: seq<Item>, k: nat, n: nat)
    requires k <= n <= |items|
    ensures SeenIds(items, k) <= SeenIds(items, n)
    decreases n - k
  {
    if k < n {
      SeenIdsGrow(items, k, n - 1);
    }
  }

  /**
   * What the grouping computes: distinct conversations, each summarised from
   * its first item, at most `max(limit, 1)` of them, and all conversations of
   * the response when fewer were kept.
   */
  lemma {:induction false} GroupedSound(items: seq<Item>, k: nat, userId: string, limit: int,
                                        lastOf: Item -> Result<LastMessage, Failure>, acc: seq<ConversationSummary>)
    requires k <= |items| && GroupingState(items, k, userId, lastOf, acc)
    requires |acc| < Max(limit, 1)
    ensures var r := Grouped(items, k, userId, limit, lastOf, acc);
      r.Ok? ==>
        && Listed(items, userId, lastOf, r.value)
        && |r.value| <= Max(limit, 1)
        && (|r.value| < Max(limit, 1) ==> IdsOf(r.value) == SeenIds(items, |items|))
    decreases |items| - k, 1
  {
    if k == |items| {
      BrokenStateGrows(items, k, userId, lastOf, acc);
    } else {
      var id := ConversationOf(items[k]);
      if id.Some? && id.value !in IdsOf(acc) {
        GroupedSoundInsert(items, k, userId, limit, lastOf, acc);
      } else {
        SkipItem(items, k, userId, lastOf, acc);
        GroupedSound(items, k + 1, userId, limit, lastOf, acc);
      }
    }
  }

  /** The step of GroupedSound that keeps a new conversation. */
  lemma {:induction false} GroupedSoundInsert(items: seq<Item>, k: nat, userId: string, limit: int,
                                              lastOf: Item -> Result<LastMessage, Failure>, acc: seq<ConversationSummary>)
    requires k < |items| && GroupingState(items, k, userId, lastOf, acc)
    requires |acc| < Max(limit, 1)
    requires ConversationOf(items[k]).Some? && ConversationOf(items[k]).value !in IdsOf(acc)
    ensures var r := Grouped(items, k, userId, limit, lastOf, acc);
      r.Ok? ==>
        && Listed(items, userId, lastOf, r.value)
        && |r.value| <= Max(limit, 1)
        && (|r.value| < Max(limit, 1) ==> IdsOf(r.value) == SeenIds(items, |items|))
    decreases |items| - k, 0
  {
    var r := SummaryOf(items[k], userId, lastOf);
    if r.Ok? {
      var s := r.value;
      AppendSummary(items, k, userId, lastOf, acc, s);
      if |acc + [s]| >= limit {
        BrokenStateGrows(items, k + 1, userId, lastOf, acc + [s]);
      } else {
        GroupedSound(items, k + 1, userId, limit, lastOf, acc + [s]);
      }
    }
  }

  /** Distinct conversations of the response, each summarised from its first item. */
  predicate Listed(items: seq<Item>, userId: string, lastOf: Item -> Result<LastMessage, Failure>, acc: seq<ConversationSummary>) {
    && DistinctIds(acc)
    && IdsOf(acc) <= SeenIds(items, |items|)
    && forall j :: 0 <= j < |acc| ==> FromFirstItem(items, userId, lastOf, acc[j])
  }

  /** A loop that stopped early still holds distinct first-item summaries of the whole response. */
  lemma BrokenStateGrows(items: seq<Item>, k: nat, userId: string, lastOf: Item -> Result<LastMessage, Failure>,
                         acc: seq<ConversationSummary>)
    requires k <= |items| && GroupingState(items, k, userId, lastOf, acc)
    ensures Listed(items, userId, lastOf, acc)
  {
    SeenIdsGrow(items, k, |items|);
  }

  /** `self._parse_message` followed by the summary fields, as a function value. */
  function LastMessages(loads: string -> Option<Json>): Item -> Result<LastMessage, Failure> {
    item => LastMessageOf(item, loads)
  }

  lemma IdsOfAppend(acc: seq<ConversationSummary>, s: ConversationSummary)
    ensures IdsOf(acc + [s]) == IdsOf(acc) + {s.conversationId}
  {
    var acc' := acc + [s];
    forall x | x in IdsOf(acc')
      ensures x in IdsOf(acc) + {s.conversationId}
    {
      var j :| 0 <= j < |acc'| && acc'[j].conversationId == x;
      if j < |acc| {
        assert acc[j] == acc'[j];
      }
    }
    forall x | x in IdsOf(acc)
      ensures x in IdsOf(acc')
    {
      var j :| 0 <= j < |acc| && acc[j].conversationId == x;
      assert acc'[j] == acc[j];
    }
    assert acc'[|acc|] == s;
  }

  /**
   * `list_conversations` over the items of the user's query (newest first):
   * one summary per conversation, from its first item, at most
   * `max(limit, 1)` of them (the limit is checked only after an insertion),
   * every conversation of the response when fewer were kept, and the
   * query's pagination key passed through.
   */
  method ListConversations(items: seq<Item>, userId: string, limit: int, loads: string -> Option<Json>,
                           lastEvaluatedKey: Option<Item>)
    returns (r: Result<ConversationPage, Failure>)
    ensures r.Ok? <==> Grouped(items, 0, userId, limit, LastMessages(loads), []).Ok?
    ensures r.Ok? ==> r.value.conversations == Grouped(items, 0, userId, limit, LastMessages(loads), []).value
    ensures r.Ok? ==> r.value.lastEvaluatedKey == lastEvaluatedKey
    ensures r.Ok? ==> Listed(items, userId, LastMessages(loads), r.value.conversations)
    ensures r.Ok? ==> |r.value.conversations| <= Max(limit, 1)
    ensures r.Ok? && |r.value.conversations| < Max(limit, 1) ==>
      IdsOf(r.value.conversations) == SeenIds(items, |items|)
  {
    var lastOf := LastMessages(loads);
    var grouped := GroupConversations(items, userId, limit, lastOf);
    if grouped.Err? {
      return Err(grouped.error);
    }
    GroupedSound(items, 0, userId, limit, lastOf, []);
    return Ok(ConversationPage(grouped.value, lastEvaluatedKey));
  }

  /** The loop of `list_conversations`: first items of new conversations, until the limit is reached. */
  method GroupConversations(items: seq<Item>, userId: string, limit: int, lastOf: Item -> Result<LastMessage, Failure>)
    returns (r: Result<seq<ConversationSummary>, Failure>)
    ensures r == Grouped(items, 0, userId, limit, lastOf, [])
  {
    var conversations: seq<ConversationSummary> := [];
    var seen: set<string> := {};
    var k := 0;
    while k < |items|
      invariant k <= |items|
      invariant seen == IdsOf(conversations)
      invariant Grouped(items, k, userId, limit, lastOf, conversations) ==
                Grouped(items, 0, userId, limit, lastOf, [])
    {
      var id := ConversationOf(items[k]);
      if id.Some? && id.value !in seen {
        var last := lastOf(items[k]);
        if last.Err? {
          return Err(last.error);
        }
        var summary := ConversationSummary(id.value, userId, last.value.text, last.value.at, last.value.role);
        IdsOfAppend(conversations, summary);
        conversations := conversations + [summary];
        seen := seen + {id.value};
        if |conversations| >= limit {
          return Ok(conversations);
        }
      }
      k := k + 1;
    }
    return Ok(conversations);
  }

  // ---------------------------------------------------------- deletion

  /** How many of the fetched messages the per-message delete calls removed. */
  function DeletedCount(conversationId: string, userId: string, messages: seq<ChatMessage>,
                        deleteItem: (string, string) -> bool): (n: nat)
    ensures n <= |messages|
  {
    if messages == [] then 0
    else
      DeletedCount(conversationId, userId, messages[..|messages| - 1], deleteItem) +
      (if deleteItem(userId, BuildSk(conversationId, messages[|messages| - 1].createdAt)) then 1 else 0)
  }

  /** Every fetched message counts exactly when every delete call succeeded. */
  lemma {:induction false} AllDeletedIff(conversationId: string, userId: string, messages: seq<ChatMessage>,
                                         deleteItem: (string, string) -> bool)
    ensures DeletedCount(conversationId, userId, messages, deleteItem) == |messages| <==>
      forall i :: 0 <= i < |messages| ==> deleteItem(userId, BuildSk(conversationId, messages[i].createdAt))
  {
    if messages != [] {
      var front := messages[..|messages| - 1];
      AllDeletedIff(conversationId, userId, front, deleteItem);
      assert forall i :: 0 <= i < |front| ==> front[i] == messages[i];
    }
  }

  /**
   * `delete_conversation`: the conversation's messages are fetched (an
   * unreadable item raises), then one delete per message; a failed delete
   * is logged and skipped, and the result counts the successes.
   */
  method DeleteConversation(conversationId: string, userId: string, items: seq<Item>,
                            parse: Item -> Result<ChatMessage, Failure>, deleteItem: (string, string) -> bool)
    returns (r: Result<nat, Failure>)
    ensures r.Ok? <==> ParseAll(items, parse).Ok?
    ensures r.Ok? ==> r.value == DeletedCount(conversationId, userId, ParseAll(items, parse).value, deleteItem)
    ensures r.Ok? ==> r.value <= |items|
  {
    var history := GetConversationHistory(items, parse);
    if history.Err? {
      return Err(history.error);
    }
    var messages := history.value;
    var deleted := 0;
    var i := 0;
    while i < |messages|
      invariant i <= |messages|
      invariant deleted == DeletedCount(conversationId, userId, messages[..i], deleteItem)
    {
      assert messages[..i + 1][..i] == messages[..i];
      if deleteItem(userId, BuildSk(conversationId, messages[i].createdAt)) {
        deleted := deleted + 1;
      }
      i := i + 1;
    }
    assert messages[..i] == messages;
    return Ok(deleted);
  }
}

/**
 * `CachedChatHistoryManager`: formatted histories keyed
 * "history:{conversation}:{max_messages}", each stored with the time it was
 * cached. Entries older than the TTL are misses (but stay until evicted);
 * a full cache evicts its oldest entry before an insertion; every write
 * through the wrapper drops the conversation's entries.
 */
module ChatHistoryCache {
  import opened Lib
  import opened Dynamo
  import ChatHistory

  datatype CacheEntry = CacheEntry(data: seq<ChatHistory.ContextMessage>, storedAt: int)

  type Cache = map<string, CacheEntry>

  function CacheKey(conversationId: string, maxMessages: int): string {
    "history:" + conversationId + ":" + IntToString(maxMessages)
  }

  /** The prefix `_invalidate_cache` drops. */
  function KeyPrefix(conversationId: string): string {
    "history:" + conversationId + ":"
  }

  /** `min(cache, key=timestamp)`: an entry no other entry is older than. */
  predicate IsOldest(m: Cache, k: string) {
    k in m && forall k' :: k' in m ==> m[k].storedAt <= m[k'].storedAt
  }

  lemma {:induction false} OldestAmong(m: Cache, keys: set<string>)
    requires keys != {} && keys <= m.Keys
    ensures exists k :: k in keys && forall k' :: k' in keys ==> m[k].storedAt <= m[k'].storedAt
    decreases |keys|
  {
    var k0 :| k0 in keys;
    var rest := keys - {k0};
    if rest == {} {
      assert keys == {k0};
      assert k0 in keys && forall k' :: k' in keys ==> m[k0].storedAt <= m[k'].storedAt;
    } else {
      OldestAmong(m, rest);
      var k1 :| k1 in rest && forall k' :: k' in rest ==> m[k1].storedAt <= m[k'].storedAt;
      if m[k0].storedAt <= m[k1].storedAt {
        assert k0 in keys && forall k' :: k' in keys ==> m[k0].storedAt <= m[k'].storedAt;
      } else {
        assert k1 in keys && forall k' :: k' in keys ==> m[k1].storedAt <= m[k'].storedAt;
      }
    }
  }

  /** A non-empty cache always has an oldest entry to evict. */
  lemma OldestExists(m: Cache)
    requires |m| > 0
    ensures exists k :: IsOldest(m, k)
  {
    var k0 :| k0 in m;
    OldestAmong(m, m.Keys);
    var k :| k in m.Keys && forall k' :: k' in m.Keys ==> m[k].storedAt <= m[k'].storedAt;
    assert IsOldest(m, k);
  }

  /** The size bound: a cache never holds more than `max_cache_size` entries (for a positive bound). */
  predicate WithinCapacity(m: Cache, maxSize: int) {
    maxSize >= 1 ==> |m| <= maxSize
  }

  /** The cache after `_set_cache` evicted `victim` and stored `key`. */
  lemma EvictionKeepsCapacity(m: Cache, maxSize: int, victim: string, key: string, e: CacheEntry)
    requires victim in m && |m| >= maxSize
    ensures WithinCapacity(m, maxSize) ==> WithinCapacity((m - {victim})[key := e], maxSize)
    ensures |(m - {victim})[key := e]| <= |m|
  {
    var removed := m - {victim};
    assert removed.Keys == m.Keys - {victim};
    assert |removed| == |m| - 1;
  }

  lemma InsertKeepsCapacity(m: Cache, maxSize: int, key: string, e: CacheEntry)
    requires |m| < maxSize
    ensures WithinCapacity(m[key := e], maxSize)
  {
  }

  /** The cache without the keys `prefix` starts. */
  function Invalidated(m: Cache, prefix: string): Cache {
    map k | k in m && !(prefix <= k) :: m[k]
  }

  /** Invalidation never grows the cache. */
  lemma InvalidatedShrinks(m: Cache, prefix: string)
    ensures |Invalidated(m, prefix)| <= |m|
  {
    var kept := Invalidated(m, prefix);
    assert kept.Keys <= m.Keys;
    assert m.Keys == kept.Keys + (m.Keys - kept.Keys);
  }

  /** A cache within capacity stays within it after invalidation. */
  lemma InvalidatedKeepsCapacity(m: Cache, prefix: string, maxSize: int)
    ensures WithinCapacity(m, maxSize) ==> WithinCapacity(Invalidated(m, prefix), maxSize)
  {
    InvalidatedShrinks(m, prefix);
  }

  /** Invalidating a conversation drops its cached history for every `max_messages`. */
  lemma InvalidationCoversConversation(conversationId: string, maxMessages: int, m: Cache)
    ensures CacheKey(conversationId, maxMessages) !in Invalidated(m, KeyPrefix(conversationId))
  {
    assert CacheKey(conversationId, maxMessages) == KeyPrefix(conversationId) + IntToString(maxMessages);
  }

  /** Invalidation keeps another conversation's entries when neither id holds ':'. */
  lemma InvalidationKeepsOthers(c1: string, c2: string, maxMessages: int, m: Cache)
    requires ':' !in c1 && ':' !in c2 && c1 != c2
    requires CacheKey(c2, maxMessages) in m
    ensures CacheKey(c2, maxMessages) in Invalidated(m, KeyPrefix(c1))
  {
    var p := KeyPrefix(c1);
    var key := CacheKey(c2, maxMessages);
    assert forall i :: 0 <= i < |c1| ==> p[8 + i] == c1[i];
    assert forall i :: 0 <= i < |c2| ==> key[8 + i] == c2[i];
    if |c1| == |c2| {
      var i :| 0 <= i < |c1| && c1[i] != c2[i];
      assert p[8 + i] != key[8 + i];
    } else if |c1| < |c2| {
      assert p[8 + |c1|] == ':' && key[8 + |c1|] == c2[|c1|];
    } else {
      assert key[8 + |c2|] == ':' && p[8 + |c2|] == c1[|c2|];
    }
  }

  class CachedChatHistoryManager {
    var cacheTtlSeconds: int
    var maxCacheSize: int
    var cache: Cache

    /** The size bound the eviction maintains. */
    predicate Valid()
      reads this
    {
      WithinCapacity(cache, maxCacheSize)
    }

    constructor(cacheTtlSeconds: int, maxCacheSize: int)
      ensures this.cacheTtlSeconds == cacheTtlSeconds && this.maxCacheSize == maxCacheSize
      ensures cache == map[] && Valid()
    {
      this.cacheTtlSeconds := cacheTtlSeconds;
      this.maxCacheSize := maxCacheSize;
      cache := map[];
    }

    /** `_is_cache_valid`: present and younger than the TTL. */
    predicate IsCacheValid(key: string, now: int)
      reads this
    {
      key in cache && now - cache[key].storedAt < cacheTtlSeconds
    }

    /** `_get_from_cache` */
    function GetFromCache(key: string, now: int): (r: Option<seq<ChatHistory.ContextMessage>>)
      reads this
      ensures r.Some? <==> IsCacheValid(key, now)
      ensures r.Some? ==> r.value == cache[key].data
    {
      if IsCacheValid(key, now) then Some(cache[key].data) else None
    }

    /**
     * `_set_cache`: a full cache first loses its oldest entry, even when
     * `key` is already present; on an empty cache with `max_cache_size <= 0`
     * `min()` raises (false).
     */
    method SetCache(key: string, data: seq<ChatHistory.ContextMessage>, now: int) returns (ok: bool)
      modifies this
      ensures cacheTtlSeconds == old(cacheTtlSeconds) && maxCacheSize == old(maxCacheSize)
      ensures !ok <==> |old(cache)| >= maxCacheSize && |old(cache)| == 0
      ensures !ok ==> cache == old(cache)
      ensures ok && |old(cache)| < maxCacheSize ==> cache == old(cache)[key := CacheEntry(data, now)]
      ensures ok && |old(cache)| >= maxCacheSize ==>
        exists victim :: IsOldest(old(cache), victim) && cache == (old(cache) - {victim})[key := CacheEntry(data, now)]
      ensures old(Valid()) ==> Valid()
    {
      var entry := CacheEntry(data, now);
      if |cache| >= maxCacheSize {
        if |cache| == 0 {
          return false;
        }
        OldestExists(cache);
        var victim :| IsOldest(cache, victim);
        EvictionKeepsCapacity(cache, maxCacheSize, victim, key, entry);
        cache := (cache - {victim})[key := entry];
      } else {
        InsertKeepsCapacity(cache, maxCacheSize, key, entry);
        cache := cache[key := entry];
      }
      return true;
    }

    /** `_invalidate_cache`: every key with the conversation's prefix goes, nothing else changes. */
    method InvalidateCache(conversationId: string)
      modifies this
      ensures cacheTtlSeconds == old(cacheTtlSeconds) && maxCacheSize == old(maxCacheSize)
      ensures cache == Invalidated(old(cache), KeyPrefix(conversationId))
      ensures old(Valid()) ==> Valid()
    {
      var prefix := KeyPrefix(conversationId);
      InvalidatedKeepsCapacity(cache, prefix, maxCacheSize);
      var doomed := set k | k in cache && prefix <= k;
      while doomed != {}
        invariant cacheTtlSeconds == old(cacheTtlSeconds) && maxCacheSize == old(maxCacheSize)
        invariant doomed <= cache.Keys
        invariant forall k :: k in doomed ==> prefix <= k
        invariant forall k :: k in cache <==> k in old(cache) && (!(prefix <= k) || k in doomed)
        invariant forall k :: k in cache ==> cache[k] == old(cache)[k]
        decreases |doomed|
      {
        var k :| k in doomed;
        cache := cache - {k};
        doomed := doomed - {k};
      }
      assert cache == Invalidated(old(cache), prefix);
    }

    /**
     * The cached `get_history_for_context`: a valid entry under
     * "history:{conversation}:{max_messages}" is returned as is (an empty
     * history too); otherwise the history is read from the query's items and
     * stored with the current time.
     */
    method GetHistoryForContext(conversationId: string, maxMessages: int, now: int,
                                items: seq<Item>, loads: string -> Option<Json>)
      returns (r: Result<seq<ChatHistory.ContextMessage>, ChatHistory.Failure>)
      modifies this
      ensures cacheTtlSeconds == old(cacheTtlSeconds) && maxCacheSize == old(maxCacheSize)
      ensures var key := CacheKey(conversationId, maxMessages);
        old(IsCacheValid(key, now)) ==> r == Ok(old(cache)[key].data) && cache == old(cache)
      ensures var key := CacheKey(conversationId, maxMessages);
        !old(IsCacheValid(key, now)) && ChatHistory.HistoryForContext(items, loads).Err? ==>
          r == ChatHistory.HistoryForContext(items, loads) && cache == old(cache)
      ensures var key := CacheKey(conversationId, maxMessages);
        !old(IsCacheValid(key, now)) && r.Ok? ==>
          r == ChatHistory.HistoryForContext(items, loads) && key in cache && cache[key] == CacheEntry(r.value, now)
      ensures old(Valid()) ==> Valid()
    {
      var key := CacheKey(conversationId, maxMessages);
      var cached := GetFromCache(key, now);
      if cached.Some? {
        return Ok(cached.value);
      }
      var history := ChatHistory.HistoryForContext(items, loads);
      if history.Err? {
        return history;
      }
      var ok := SetCache(key, history.value, now);
      if !ok {
        return Err(ChatHistory.EmptyCacheEviction);
      }
      return history;
    }

    /** The wrapper's `save_message`: delegate, then invalidate (a failed put raises first). */
    method SaveMessage(
      conversationId: string, role: ChatHistory.Role, content: string, userId: string,
      citations: Option<Json>, usage: Option<ChatHistory.Usage>, model: Option<string>,
      timestamp: string, messageId: string, putOk: bool)
      returns (r: Result<ChatHistory.ChatMessage, ChatHistory.Failure>)
      modifies this
      ensures r == ChatHistory.SaveMessage(conversationId, role, content, userId, citations, usage, model, timestamp, messageId, putOk)
      ensures cacheTtlSeconds == old(cacheTtlSeconds) && maxCacheSize == old(maxCacheSize)
      ensures r.Ok? ==> cache == Invalidated(old(cache), KeyPrefix(r.value.conversationId))
      ensures r.Err? ==> cache == old(cache)
      ensures old(Valid()) ==> Valid()
    {
      r := ChatHistory.SaveMessage(conversationId, role, content, userId, citations, usage, model, timestamp, messageId, putOk);
      if r.Ok? {
        InvalidateCache(r.value.conversationId);
      }
    }

    /** The wrapper's `save_user_message` */
    method SaveUserMessage(conversationId: string, content: string, userId: string,
                           timestamp: string, messageId: string, putOk: bool)
      returns (r: Result<ChatHistory.ChatMessage, ChatHistory.Failure>)
      modifies this
      ensures r == ChatHistory.SaveUserMessage(conversationId, content, userId, timestamp, messageId, putOk)
      ensures cacheTtlSeconds == old(cacheTtlSeconds) && maxCacheSize == old(maxCacheSize)
      ensures r.Ok? ==> cache == Invalidated(old(cache), KeyPrefix(conversationId))
      ensures r.Err? ==> cache == old(cache)
      ensures old(Valid()) ==> Valid()
    {
      r := ChatHistory.SaveUserMessage(conversationId, content, userId, timestamp, messageId, putOk);
      if r.Ok? {
        InvalidateCache(conversationId);
      }
    }

    /** The wrapper's `save_assistant_message` */
    method SaveAssistantMessage(
      conversationId: string, content: string, userId: string,
      citations: Option<Json>, usage: Option<ChatHistory.Usage>, model: Option<string>,
      timestamp: string, messageId: string, putOk: bool)
      returns (r: Result<ChatHistory.ChatMessage, ChatHistory.Failure>)
      modifies this
      ensures r == ChatHistory.SaveAssistantMessage(conversationId, content, userId, citations, usage, model, timestamp, messageId, putOk)
      ensures cacheTtlSeconds == old(cacheTtlSeconds) && maxCacheSize == old(maxCacheSize)
      ensures r.Ok? ==> cache == Invalidated(old(cache), KeyPrefix(conversationId))
      ensures r.Err? ==> cache == old(cache)
      ensures old(Valid()) ==> Valid()
    {
      r := ChatHistory.SaveAssistantMessage(conversationId, content, userId, citations, usage, model, timestamp, messageId, putOk);
      if r.Ok? {
        InvalidateCache(conversationId);
      }
    }

    /** The wrapper's `delete_conversation`: delegate, then invalidate. */
    method DeleteConversation(conversationId: string, userId: string, items: seq<Item>,
                              loads: string -> Option<Json>, deleteItem: (string, string) -> bool)
      returns (r: Result<nat, ChatHistory.Failure>)
      modifies this
      ensures r.Ok? <==> ChatHistory.ParseAll(items, ChatHistory.Parser(loads)).Ok?
      ensures r.Ok? ==> r.value == ChatHistory.DeletedCount(conversationId, userId,
                                     ChatHistory.ParseAll(items, ChatHistory.Parser(loads)).value, deleteItem)
      ensures r.Ok? ==> r.value <= |items|
      ensures cacheTtlSeconds == old(cacheTtlSeconds) && maxCacheSize == old(maxCacheSize)
      ensures r.Ok? ==> cache == Invalidated(old(cache), KeyPrefix(conversationId))
      ensures r.Err? ==> cache == old(cache)
      ensures old(Valid()) ==> Valid()
    {
      r := ChatHistory.DeleteConversation(conversationId, userId, items, ChatHistory.Parser(loads), deleteItem);
      if r.Ok? {
        InvalidateCache(conversationId);
      }
    }
  }
}
