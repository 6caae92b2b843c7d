// The earlier chat-history store under src/services: messages live under the
// user's partition with sort key "CONV#{conversation}#MSG#{timestamp}", float
// metadata is stored as Decimal, history is read newest first and handed to
// the model oldest first, and a user's conversations are grouped from the
// items of one query. The table, the clock and the uuid are inputs.

module SrcChatHistory {
  import opened Lib
  import Sorting

  // ---------------------------------------------------------------------------
  // convert_floats_to_decimal
  // ---------------------------------------------------------------------------

  /** The Python values message metadata is made of. */
  datatype PyValue =
    | PNone
    | PBool(b: bool)
    | PInt(i: int)
    | PFloat(f: real)
    | PDecimal(text: string)
    | PStr(s: string)
    | PList(items: seq<PyValue>)
    | PDict(fields: map<string, PyValue>)

  /**
   * Every float, however deep inside dicts and lists, becomes
   * `Decimal(str(f))`; `repr` is Python's shortest float-to-string.
   */
  function ConvertFloats(v: PyValue, repr: real -> string): (r: PyValue)
    ensures v.PFloat? ==> r == PDecimal(repr(v.f))
    ensures v.PDict? ==> r.PDict? && r.fields.Keys == v.fields.Keys
    ensures v.PList? ==> r.PList? && |r.items| == |v.items|
    ensures !v.PFloat? && !v.PDict? && !v.PList? ==> r == v
    decreases v
  {
    match v
    case PFloat(f) => PDecimal(repr(f))
    case PList(items) => PList(seq(|items|, i requires 0 <= i < |items| => ConvertFloats(items[i], repr)))
    case PDict(fields) => PDict(map k | k in fields :: ConvertFloats(fields[k], repr))
    case _ => v
  }

  predicate NoFloats(v: PyValue)
    decreases v
  {
    match v
    case PFloat(_) => false
    case PList(items) => forall i :: 0 <= i < |items| ==> NoFloats(items[i])
    case PDict(fields) => forall k :: k in fields ==> NoFloats(fields[k])
    case _ => true
  }

  /** After conversion no float is left anywhere. */
  lemma {:induction false} ConvertedHasNoFloats(v: PyValue, repr: real -> string)
    ensures NoFloats(ConvertFloats(v, repr))
    decreases v
  {
    match v {
      case PList(items) =>
        forall i | 0 <= i < |items|
          ensures NoFloats(ConvertFloats(items[i], repr))
        {
          ConvertedHasNoFloats(items[i], repr);
        }
      case PDict(fields) =>
        forall k | k in fields
          ensures NoFloats(ConvertFloats(fields[k], repr))
        {
          ConvertedHasNoFloats(fields[k], repr);
        }
      case _ =>
    }
  }

  /** A value without floats is returned unchanged: keys, order and leaves all kept. */
  lemma {:induction false} FloatFreeUnchanged(v: PyValue, repr: real -> string)
    requires NoFloats(v)
    ensures ConvertFloats(v, repr) == v
    decreases v
  {
    match v {
      case PList(items) =>
        forall i | 0 <= i < |items|
          ensures ConvertFloats(items[i], repr) == items[i]
        {
          FloatFreeUnchanged(items[i], repr);
        }
        assert ConvertFloats(v, repr).items == items;
      case PDict(fields) =>
        forall k | k in fields
          ensures ConvertFloats(fields[k], repr) == fields[k]
        {
          FloatFreeUnchanged(fields[k], repr);
        }
        assert ConvertFloats(v, repr).fields == fields;
      case _ =>
    }
  }

  /** Converting twice is converting once. */
  lemma ConvertIdempotent(v: PyValue, repr: real -> string)
    ensures ConvertFloats(ConvertFloats(v, repr), repr) == ConvertFloats(v, repr)
  {
    ConvertedHasNoFloats(v, repr);
    FloatFreeUnchanged(ConvertFloats(v, repr), repr);
  }

  // ---------------------------------------------------------------------------
  // Sort keys
  // ---------------------------------------------------------------------------

  function SortKey(conversationId: string, timestamp: string): string {
    "CONV#" + conversationId + "#MSG#" + timestamp
  }

  /** The `begins_with` prefix of a conversation's history query. */
  function HistoryPrefix(conversationId: string): string {
    "CONV#" + conversationId + "#MSG#"
  }

  /** Every message of a conversation is found by that conversation's history query. */
  lemma SortKeyInOwnHistory(conversationId: string, timestamp: string)
    ensures HistoryPrefix(conversationId) <= SortKey(conversationId, timestamp)
  {
    assert SortKey(conversationId, timestamp) == HistoryPrefix(conversationId) + timestamp;
  }

  /** With ids free of '#', no other conversation's query matches a message. */
  lemma SortKeySeparatesConversations(c1: string, c2: string, timestamp: string)
    requires '#' !in c1 && '#' !in c2
    requires HistoryPrefix(c2) <= SortKey(c1, timestamp)
    ensures c1 == c2
  {
    var p, k := HistoryPrefix(c2), SortKey(c1, timestamp);
    assert forall i :: 0 <= i < |c2| ==> p[5 + i] == c2[i];
    assert forall i :: 0 <= i < |c1| ==> k[5 + i] == c1[i];
    assert p[5 + |c2|] == '#' && k[5 + |c1|] == '#';
    if |c1| < |c2| {
      assert false;
    } else if |c2| < |c1| {
      assert false;
    } else {
      assert forall i :: 0 <= i < |c1| ==> c1[i] == k[5 + i] == p[5 + i] == c2[i];
    }
  }

  // ---------------------------------------------------------------------------
  // Saving and reading messages
  // ---------------------------------------------------------------------------

  /** A table item: its string attributes and the metadata map, if stored. */
  datatype Item = Item(attrs: map<string, string>, metadata: Option<PyValue>)

  datatype ChatMessage = ChatMessage(
    messageId: string,
    conversationId: string,
    userId: string,
    role: string,
    content: string,
    timestamp: string,
    metadata: Option<PyValue>)

  /** `item.get(k, default)` for a string attribute. */
  function Attr(item: Item, k: string, default: string): string {
    if k in item.attrs then item.attrs[k] else default
  }

  /** `item.get("timestamp") or item.get("created_at", "")`: legacy items carry only created_at. */
  function TimestampOf(item: Item): (t: string)
    ensures "timestamp" in item.attrs && item.attrs["timestamp"] != "" ==> t == item.attrs["timestamp"]
    ensures !("timestamp" in item.attrs && item.attrs["timestamp"] != "") ==> t == Attr(item, "created_at", "")
  {
    if "timestamp" in item.attrs && item.attrs["timestamp"] != "" then item.attrs["timestamp"]
    else Attr(item, "created_at", "")
  }

  /**
   * The item `save_user_message` / `save_assistant_message` writes (the
   * numeric ttl is left out): metadata is stored, converted, only when it
   * is given and not empty.
   */
  function SavedItem(conversationId: string, userId: string, role: string, content: string,
                     timestamp: string, messageId: string, metadata: Option<map<string, PyValue>>, repr: real -> string): Item
  {
    Item(map["user_id" := userId, "sk" := SortKey(conversationId, timestamp), "conversation_id" := conversationId,
             "message_id" := messageId, "role" := role, "content" := content, "timestamp" := timestamp,
             "created_at" := timestamp],
         if metadata.Some? && metadata.value != map[] then Some(ConvertFloats(PDict(metadata.value), repr)) else None)
  }

  /** The message a save returns: metadata as given, not converted, an empty dict included. */
  function SavedMessage(conversationId: string, userId: string, role: string, content: string,
                        timestamp: string, messageId: string, metadata: Option<map<string, PyValue>>): ChatMessage
  {
    ChatMessage(messageId, conversationId, userId, role, content, timestamp,
                if metadata.Some? then Some(PDict(metadata.value)) else None)
  }

  /** One history item as a message, with the defaults for missing attributes. */
  function MessageOf(item: Item, conversationId: string, userId: string): ChatMessage {
    ChatMessage(Attr(item, "message_id", "unknown"), Attr(item, "conversation_id", conversationId),
                Attr(item, "user_id", userId), Attr(item, "role", "user"), Attr(item, "content", ""),
                TimestampOf(item), item.metadata)
  }

  function Reader(conversationId: string, userId: string): Item -> ChatMessage {
    item => MessageOf(item, conversationId, userId)
  }

  /**
   * Reading a saved item back gives the message the save returned, except
   * that its metadata comes back with floats as decimals, and an empty
   * metadata dict comes back as none; a non-empty timestamp is required for
   * the reading to take it over.
   */
  lemma SavedReadsBack(conversationId: string, userId: string, role: string, content: string, timestamp: string,
                       messageId: string, metadata: Option<map<string, PyValue>>, repr: real -> string, c: string, u: string)
    requires timestamp != ""
    ensures var read := MessageOf(SavedItem(conversationId, userId, role, content, timestamp, messageId, metadata, repr), c, u);
      var saved := SavedMessage(conversationId, userId, role, content, timestamp, messageId, metadata);
      && read.(metadata := saved.metadata) == saved
      && (metadata.Some? && metadata.value != map[] ==> read.metadata == Some(ConvertFloats(saved.metadata.value, repr)))
      && (metadata.None? || metadata.value == map[] ==> read.metadata == None)
  {
  }

  /** A saved message's sort key falls under its conversation's history prefix. */
  lemma SavedItemInHistory(conversationId: string, userId: string, role: string, content: string, timestamp: string,
                           messageId: string, metadata: Option<map<string, PyValue>>, repr: real -> string)
    ensures HistoryPrefix(conversationId) <= SavedItem(conversationId, userId, role, content, timestamp, messageId, metadata, repr).attrs["sk"]
  {
    SortKeyInOwnHistory(conversationId, timestamp);
  }

  /**
   * `get_conversation_history` over the items the query returned (newest
   * first, at most `maxMessages` of them): one message per item, and
   * has_more exactly when the page came back full.
   */
  method GetConversationHistory(items: seq<Item>, conversationId: string, userId: string, maxMessages: int)
    returns (messages: seq<ChatMessage>, hasMore: bool)
    ensures messages == MapSeq(Reader(conversationId, userId), items)
    ensures hasMore <==> |items| == maxMessages
  {
    messages := [];
    for i := 0 to |items|
      invariant messages == MapSeq(Reader(conversationId, userId), items[..i])
    {
      assert items[..i + 1] == items[..i] + [items[i]];
      MapSeqAppend(Reader(conversationId, userId), items[..i], items[i]);
      messages := messages + [MessageOf(items[i], conversationId, userId)];
    }
    assert items[..|items|] == items;
    hasMore := |messages| == maxMessages;
  }

  // ---------------------------------------------------------------------------
  // get_history_for_context
  // ---------------------------------------------------------------------------

  /** `s[::-1]` */
  function Reversed<T>(s: seq<T>): (r: seq<T>)
    ensures |r| == |s|
    ensures forall i :: 0 <= i < |s| ==> r[i] == s[|s| - 1 - i]
  {
    if s == [] then [] else [s[|s| - 1]] + Reversed(s[..|s| - 1])
  }

  /** A turn of model context: role and content only. */
  datatype Turn = Turn(role: string, content: string)

  function TurnOf(m: ChatMessage): Turn {
    Turn(m.role, m.content)
  }

  /** The formatting loop of `get_history_for_context`: role and content of each message, in order. */
  method FormatTurns(chronological: seq<ChatMessage>) returns (formatted: seq<Turn>)
    ensures formatted == MapSeq(TurnOf, chronological)
  {
    formatted := [];
    for i := 0 to |chronological|
      invariant formatted == MapSeq(TurnOf, chronological[..i])
    {
      assert chronological[..i + 1] == chronological[..i] + [chronological[i]];
      MapSeqAppend(TurnOf, chronological[..i], chronological[i]);
      formatted := formatted + [TurnOf(chronological[i])];
    }
    assert chronological[..|chronological|] == chronological;
  }

  method GetHistoryForContext(items: seq<Item>, conversationId: string, userId: string, maxMessages: int)
    returns (formatted: seq<Turn>)
    ensures formatted == MapSeq(TurnOf, Reversed(MapSeq(Reader(conversationId, userId), items)))
  {
    var messages, _ := GetConversationHistory(items, conversationId, userId, maxMessages);
    var chronological := Reversed(messages);
    formatted := FormatTurns(chronological);
  }

  /** When the query returned newest first, the context runs oldest first. */
  lemma ContextOldestFirst(messages: seq<ChatMessage>)
    requires forall i, j :: 0 <= i < j < |messages| ==> StrLe(messages[j].timestamp, messages[i].timestamp)
    ensures forall i, j :: 0 <= i < j < |messages| ==>
      StrLe(Reversed(messages)[i].timestamp, Reversed(messages)[j].timestamp)
  {
    forall i, j | 0 <= i < j < |messages|
      ensures StrLe(Reversed(messages)[i].timestamp, Reversed(messages)[j].timestamp)
    {
      assert Reversed(messages)[i] == messages[|messages| - 1 - i];
      assert Reversed(messages)[j] == messages[|messages| - 1 - j];
    }
  }

  // ---------------------------------------------------------------------------
  // list_user_conversations
  // ---------------------------------------------------------------------------

  datatype ConversationSummary = ConversationSummary(conversationId: string, lastMessageTime: string, messageCount: int)

  /** `item.get("conversation_id")`, with "" for a missing one (both are skipped). */
  function ConversationOf(item: Item): string {
    Attr(item, "conversation_id", "")
  }

  /** The conversations dict of the grouping loop, with the order its keys were inserted in. */
  datatype Groups = Groups(order: seq<string>, byId: map<string, ConversationSummary>)

  function GroupStep(g: Groups, item: Item): Groups {
    var c := ConversationOf(item);
    if c == "" then g
    else if c in g.byId then
      Groups(g.order, g.byId[c := g.byId[c].(messageCount := g.byId[c].messageCount + 1)])
    else
      Groups(g.order + [c], g.byId[c := ConversationSummary(c, TimestampOf(item), 1)])
  }

  function Grouping(items: seq<Item>): Groups {
    if items == [] then Groups([], map[]) else GroupStep(Grouping(items[..|items| - 1]), items[|items| - 1])
  }

  /** How many items belong to conversation `c`. */
  function Count(items: seq<Item>, c: string): nat {
    if items == [] then 0
    else Count(items[..|items| - 1], c) + (if ConversationOf(items[|items| - 1]) == c then 1 else 0)
  }

  /** The timestamp of the first item of conversation `c` ("" when there is none). */
  function FirstTime(items: seq<Item>, c: string): string {
    if items == [] then ""
    else if Count(items[..|items| - 1], c) > 0 then FirstTime(items[..|items| - 1], c)
    else if ConversationOf(items[|items| - 1]) == c then TimestampOf(items[|items| - 1])
    else ""
  }

  /**
   * The grouping of `items`: exactly the named conversations, each once in
   * first-seen order, counted over all its items and dated by its first item.
   */
  ghost predicate GroupsOf(items: seq<Item>, g: Groups) {
    && (forall c :: c in g.byId <==> c != "" && Count(items, c) > 0)
    && (forall c :: c in g.byId ==> g.byId[c] == ConversationSummary(c, FirstTime(items, c), Count(items, c)))
    && (forall i :: 0 <= i < |g.order| ==> g.order[i] in g.byId)
    && (forall c :: c in g.byId ==> c in g.order)
    && (forall i, j :: 0 <= i < j < |g.order| ==> g.order[i] != g.order[j])
  }

  lemma GroupStepKeeps(items: seq<Item>, item: Item, g: Groups)
    requires GroupsOf(items, g)
    ensures GroupsOf(items + [item], GroupStep(g, item))
  {
    var all := items + [item];
    assert all[..|all| - 1] == items;
    var c := ConversationOf(item);
    var g' := GroupStep(g, item);
    forall x
      ensures x in g'.byId <==> x != "" && Count(all, x) > 0
      ensures x in g'.byId ==> g'.byId[x] == ConversationSummary(x, FirstTime(all, x), Count(all, x))
    {
    }
    if c != "" && c !in g.byId {
      forall i, j | 0 <= i < j < |g'.order|
        ensures g'.order[i] != g'.order[j]
      {
        if j == |g.order| {
          assert g'.order[i] == g.order[i] && g.order[i] in g.byId;
        } else {
          assert g'.order[i] == g.order[i] && g'.order[j] == g.order[j];
        }
      }
      forall i | 0 <= i < |g'.order|
        ensures g'.order[i] in g'.byId
      {
        if i < |g.order| {
          assert g'.order[i] == g.order[i];
        }
      }
      assert g'.order[|g.order|] == c;
    }
  }

  lemma {:induction false} GroupingFacts(items: seq<Item>)
    ensures GroupsOf(items, Grouping(items))
    decreases |items|
  {
    if items != [] {
      var init := items[..|items| - 1];
      GroupingFacts(init);
      GroupStepKeeps(init, items[|items| - 1], Grouping(init));
      assert init + [items[|items| - 1]] == items;
    }
  }

  /** The dict's values in insertion order. */
  function Summaries(g: Groups): (r: seq<ConversationSummary>)
    requires forall i :: 0 <= i < |g.order| ==> g.order[i] in g.byId
    ensures |r| == |g.order|
  {
    seq(|g.order|, i requires 0 <= i < |g.order| => g.byId[g.order[i]])
  }

  /** `a` comes no later than `b`: latest time first. */
  predicate LatestFirst(a: ConversationSummary, b: ConversationSummary) {
    StrLe(b.lastMessageTime, a.lastMessageTime)
  }

  function TimeOf(s: ConversationSummary): string {
    s.lastMessageTime
  }

  /** `sorted(conversations.values(), key=last_message_time, reverse=True)[:limit]` */
  function ConversationList(items: seq<Item>, limit: int): seq<ConversationSummary> {
    GroupingFacts(items);
    Sorting.PyPrefix(Sorting.SortBy(LatestFirst, Summaries(Grouping(items))), limit)
  }

  /**
   * `list_user_conversations` over the items the user's query returned
   * (newest first, at most `limit * 10`).
   */
  method ListUserConversations(items: seq<Item>, limit: int) returns (r: seq<ConversationSummary>)
    ensures r == ConversationList(items, limit)
  {
    var g := Groups([], map[]);
    for i := 0 to |items|
      invariant g == Grouping(items[..i])
    {
      assert items[..i + 1][..i] == items[..i];
      g := GroupStep(g, items[i]);
    }
    assert items[..|items|] == items;
    GroupingFacts(items);
    var values := Summaries(g);
    r := Sorting.PyPrefix(Sorting.SortBy(LatestFirst, values), limit);
  }

  /**
   * The list is at most `limit` long, latest first, and each entry is a
   * named conversation with its item count and its first item's time.
   */
  lemma ConversationListFacts(items: seq<Item>, limit: int)
    ensures limit >= 0 ==> |ConversationList(items, limit)| <= limit
    ensures forall i, j :: 0 <= i < j < |ConversationList(items, limit)| ==>
      StrLe(ConversationList(items, limit)[j].lastMessageTime, ConversationList(items, limit)[i].lastMessageTime)
    ensures forall s :: s in ConversationList(items, limit) ==>
      s.conversationId != "" && s.messageCount == Count(items, s.conversationId) > 0
      && s.lastMessageTime == FirstTime(items, s.conversationId)
  {
    GroupingFacts(items);
    var g := Grouping(items);
    var values := Summaries(g);
    var sorted := Sorting.SortBy(LatestFirst, values);
    Sorting.StrKeyDescendingPreorder(LatestFirst, TimeOf);
    Sorting.SortBySorted(LatestFirst, values);
    var r := Sorting.PyPrefix(sorted, limit);
    assert r == ConversationList(items, limit);
    forall i, j | 0 <= i < j < |r|
      ensures StrLe(r[j].lastMessageTime, r[i].lastMessageTime)
    {
      assert r[i] == sorted[i] && r[j] == sorted[j];
    }
    forall s | s in r
      ensures s.conversationId != "" && s.messageCount == Count(items, s.conversationId) > 0
      ensures s.lastMessageTime == FirstTime(items, s.conversationId)
    {
      var k :| 0 <= k < |r| && r[k] == s;
      assert sorted[k] == s;
      assert s in multiset(sorted);
      assert s in multiset(values);
      var m :| 0 <= m < |values| && values[m] == s;
      assert s == g.byId[g.order[m]];
    }
  }

  /** With a limit at least the number of conversations, every conversation is listed. */
  lemma AllConversationsWithinLimit(items: seq<Item>, limit: int)
    requires limit >= |Grouping(items).order|
    ensures |ConversationList(items, limit)| == |Grouping(items).byId.Keys|
  {
    GroupingFacts(items);
    var g := Grouping(items);
    assert g.byId.Keys == set i | 0 <= i < |g.order| :: g.order[i];
    DistinctCard(g.order);
  }

  /** A sequence without repeats has as many distinct elements as it is long. */
  lemma {:induction false} DistinctCard(s: seq<string>)
    requires forall i, j :: 0 <= i < j < |s| ==> s[i] != s[j]
    ensures |set i | 0 <= i < |s| :: s[i]| == |s|
    decreases |s|
  {
    if s != [] {
      var init := s[..|s| - 1];
      DistinctCard(init);
      var a := set i | 0 <= i < |init| :: init[i];
      var b := set i | 0 <= i < |s| :: s[i];
      assert b == a + {s[|s| - 1]} by {
        forall x | x in b
          ensures x in a + {s[|s| - 1]}
        {
          var i :| 0 <= i < |s| && s[i] == x;
          if i < |init| {
            assert init[i] == x;
          }
        }
      }
      assert s[|s| - 1] !in a;
    }
  }
}
