/**
 * Document processing status kept in DynamoDB (`DocumentStatusManager`):
 * one METADATA record per document whose status moves along a fixed
 * transition table (UPLOADED, IDP_RUNNING, EMBEDDING_DONE, FAILED).
 *
 * The store is not modelled: a read is the item `get_item` returned, a
 * write's response is the item DynamoDB sent back, and the clock's ISO
 * timestamp is a parameter.
 */
module DocumentStatusManager {
  import opened Lib
  import opened Dynamo

  datatype DocumentStatus = Uploaded | IdpRunning | EmbeddingDone | Failed

  function StatusValue(s: DocumentStatus): string {
    match s
    case Uploaded => "UPLOADED"
    case IdpRunning => "IDP_RUNNING"
    case EmbeddingDone => "EMBEDDING_DONE"
    case Failed => "FAILED"
  }

  /** `DocumentStatus(s)`: None where the enum raises ValueError. */
  function StatusOf(s: string): (r: Option<DocumentStatus>)
    ensures r.Some? ==> StatusValue(r.value) == s
  {
    if s == "UPLOADED" then Some(Uploaded)
    else if s == "IDP_RUNNING" then Some(IdpRunning)
    else if s == "EMBEDDING_DONE" then Some(EmbeddingDone)
    else if s == "FAILED" then Some(Failed)
    else None
  }

  /** Every member's value reads back as that member. */
  lemma StatusRoundTrip(t: DocumentStatus)
    ensures StatusOf(StatusValue(t)) == Some(t)
  {
  }

  /** `VALID_TRANSITIONS` */
  function AllowedTransitions(s: DocumentStatus): seq<DocumentStatus> {
    match s
    case Uploaded => [IdpRunning, Failed]
    case IdpRunning => [EmbeddingDone, Failed]
    case EmbeddingDone => []
    case Failed => [IdpRunning, Uploaded]
  }

  predicate CanTransition(from: DocumentStatus, to: DocumentStatus) {
    to in AllowedTransitions(from)
  }

  /** EMBEDDING_DONE is terminal, and no status lists itself as a successor. */
  lemma TransitionTableShape(s: DocumentStatus, t: DocumentStatus)
    ensures !CanTransition(EmbeddingDone, t)
    ensures !CanTransition(s, s)
  {
  }

  /** Consecutive statuses each allowed by the table. */
  predicate IsPath(p: seq<DocumentStatus>) {
    forall i :: 0 <= i < |p| - 1 ==> CanTransition(p[i], p[i + 1])
  }

  /** Every non-terminal status reaches EMBEDDING_DONE in at most three steps (FAILED via retry). */
  lemma EveryStatusCanFinish(s: DocumentStatus)
    requires s != EmbeddingDone
    ensures exists p :: |p| <= 4 && |p| >= 2 && p[0] == s && p[|p| - 1] == EmbeddingDone && IsPath(p)
  {
    match s
    case Uploaded =>
      assert IsPath([Uploaded, IdpRunning, EmbeddingDone]);
    case IdpRunning =>
      assert IsPath([IdpRunning, EmbeddingDone]);
    case Failed =>
      assert IsPath([Failed, IdpRunning, EmbeddingDone]);
  }

  // -------------------------------------------------------------- parsing

  /** The plain values `_parse_item` produces. */
  datatype Value = VStr(s: string) | VInt(i: int) | VBool(b: bool)

  type Doc = map<string, Value>

  /** An attribute `_parse_item` can read: anything but an N that `int()` rejects. */
  predicate Readable(v: AttrValue) {
    v.N? ==> ParseInt(v.n).Some?
  }

  /** S to string, N to int, BOOL to bool; every other type is dropped (None). */
  function PlainOf(v: AttrValue): (r: Option<Value>)
    requires Readable(v)
    ensures r.Some? <==> v.S? || v.N? || v.BOOL?
  {
    match v
    case S(s) => Some(VStr(s))
    case N(n) => Some(VInt(ParseInt(n).value))
    case BOOL(b) => Some(VBool(b))
    case _ => None
  }

  /** The plain dict of an item all of whose numbers read. */
  function ParsedItem(item: Item): (d: Doc)
    requires forall k :: k in item ==> Readable(item[k])
    ensures forall k :: k in d <==> k in item && PlainOf(item[k]).Some?
    ensures forall k :: k in d ==> d[k] == PlainOf(item[k]).value
  {
    map k | k in item && PlainOf(item[k]).Some? :: PlainOf(item[k]).value
  }

  datatype DocFailure =
    | InvalidTransition(from: DocumentStatus, to: DocumentStatus)
    | NotAStatus(value: string)
    | BadNumber
    | ConditionalCheckFailed

  /** What `_parse_item` yields: the plain dict, or the ValueError of an unreadable number. */
  function ParseItemSpec(item: Item): Result<Doc, DocFailure> {
    if forall k :: k in item ==> Readable(item[k]) then Ok(ParsedItem(item)) else Err(BadNumber)
  }

  /** `_parse_item`: one pass over the attributes, in whatever order the dict holds them. */
  method ParseItem(item: Item) returns (r: Result<Doc, DocFailure>)
    ensures r == ParseItemSpec(item)
  {
    var result: Doc := map[];
    var todo := item.Keys;
    while todo != {}
      invariant todo <= item.Keys
      invariant forall k :: k in item && k !in todo ==> Readable(item[k])
      invariant forall k :: k in result <==> k in item && k !in todo && PlainOf(item[k]).Some?
      invariant forall k :: k in result ==> result[k] == PlainOf(item[k]).value
      decreases |todo|
    {
      var k :| k in todo;
      var v := item[k];
      if v.S? {
        result := result[k := VStr(v.s)];
      } else if v.N? {
        var n := ParseInt(v.n);
        if n.None? {
          return Err(BadNumber);
        }
        result := result[k := VInt(n.value)];
      } else if v.BOOL? {
        result := result[k := VBool(v.b)];
      }
      todo := todo - {k};
    }
    assert result == ParsedItem(item);
    return Ok(result);
  }

  // ------------------------------------------------------------- creation

  const MetadataSk := "METADATA"

  /** The item `create_document` puts. */
  function DocumentItem(docId: string, filename: string, uploadedBy: string, timestamp: string): Item {
    map["doc_id" := S(docId),
        "sk" := S(MetadataSk),
        "status" := S(StatusValue(Uploaded)),
        "filename" := S(filename),
        "uploaded_by" := S(uploadedBy),
        "uploaded_at" := S(timestamp)]
  }

  /**
   * `create_document`: the put is conditional on `attribute_not_exists(doc_id)`,
   * so an existing record makes it fail; otherwise the new record comes
   * back with status UPLOADED.
   */
  function CreateDocument(docId: string, filename: string, uploadedBy: string, timestamp: string,
                          alreadyExists: bool): (r: Result<Doc, DocFailure>)
    ensures r.Err? <==> alreadyExists
    ensures r.Err? ==> r.error == ConditionalCheckFailed
    ensures r.Ok? ==> r.value.Keys == {"doc_id", "status", "filename", "uploaded_by", "uploaded_at"}
    ensures r.Ok? ==> r.value["status"] == VStr("UPLOADED") && r.value["doc_id"] == VStr(docId)
  {
    if alreadyExists then Err(ConditionalCheckFailed)
    else
      Ok(map["doc_id" := VStr(docId),
             "status" := VStr(StatusValue(Uploaded)),
             "filename" := VStr(filename),
             "uploaded_by" := VStr(uploadedBy),
             "uploaded_at" := VStr(timestamp)])
  }

  /** The record `create_document` returns is the stored item read back, less its sort key. */
  lemma CreatedDocumentReadsBack(docId: string, filename: string, uploadedBy: string, timestamp: string)
    ensures ParseItemSpec(DocumentItem(docId, filename, uploadedBy, timestamp)) ==
      Ok(CreateDocument(docId, filename, uploadedBy, timestamp, false).value["sk" := VStr(MetadataSk)])
  {
    var item := DocumentItem(docId, filename, uploadedBy, timestamp);
    assert forall k :: k in item ==> item[k].S? && Readable(item[k]);
    var d := ParsedItem(item);
    var e := CreateDocument(docId, filename, uploadedBy, timestamp, false).value["sk" := VStr(MetadataSk)];
    assert forall k :: k in d <==> k in item;
    assert item.Keys == e.Keys;
    assert forall k :: k in d ==> d[k] == VStr(item[k].s);
    assert forall k :: k in e ==> e[k] == VStr(item[k].s);
    assert d == e;
  }

  // ---------------------------------------------------------- validation

  /** Where the transition check leaves an update. */
  datatype Check =
    | Proceed
    | SameStatus(doc: Doc)
    | Invalid(from: DocumentStatus, to: DocumentStatus)
    | Reraised(value: string)

  /** The stored status when it is a string. */
  function StatusString(doc: Doc): Option<string> {
    if "status" in doc && doc["status"].VStr? then Some(doc["status"].s) else None
  }

  /** The stored status when it is a known DocumentStatus string. */
  function KnownStatus(doc: Doc): Option<DocumentStatus> {
    match StatusString(doc)
    case None => None
    case Some(s) => StatusOf(s)
  }

  const TransitionPhrase := "Invalid status transition"

  /**
   * Whether the ValueError `DocumentStatus(s)` raises for a string that is
   * no status carries the phrase the handler re-raises on. Its message is
   * "{repr(s)} is not a valid DocumentStatus"; `repr` keeps letters and
   * spaces as they are and every escape it writes starts with a backslash,
   * so the phrase is in the message exactly when it is in `s`. A number or
   * a boolean is quoted without the phrase, and a missing status reads as "".
   */
  predicate EnumErrorReraised(s: string) {
    Contains(s, TransitionPhrase)
  }

  /**
   * The check `update_status` makes with validation on: no record (or an
   * empty one) lets the update through; a listed successor goes through;
   * the same status returns the record; another known status is an invalid
   * transition. An unknown status lets the update through, unless it is a
   * string whose enum ValueError carries "Invalid status transition", which
   * the handler re-raises.
   */
  function CheckTransition(current: Option<Doc>, newStatus: DocumentStatus): Check
  {
    if current.None? || |current.value| == 0 then Proceed
    else
      match KnownStatus(current.value)
      case None =>
        if StatusString(current.value).Some? && EnumErrorReraised(StatusString(current.value).value)
        then Reraised(StatusString(current.value).value)
        else Proceed
      case Some(cur) =>
        if CanTransition(cur, newStatus) then Proceed
        else if cur == newStatus then SameStatus(current.value)
        else Invalid(cur, newStatus)
  }

  /** The four outcomes of the check, each exactly characterised. */
  lemma CheckTransitionCases(current: Option<Doc>, newStatus: DocumentStatus)
    ensures var c := CheckTransition(current, newStatus);
      && (c.Invalid? <==>
            current.Some? && |current.value| > 0 && KnownStatus(current.value).Some? &&
            !CanTransition(KnownStatus(current.value).value, newStatus) && KnownStatus(current.value).value != newStatus)
      && (c.SameStatus? <==> current.Some? && |current.value| > 0 && KnownStatus(current.value) == Some(newStatus))
      && (c.SameStatus? ==> c.doc == current.value)
      && (c.Invalid? ==> c.from == KnownStatus(current.value).value && c.to == newStatus)
      && (c.Reraised? <==>
            current.Some? && |current.value| > 0 && KnownStatus(current.value).None? &&
            StatusString(current.value).Some? && EnumErrorReraised(StatusString(current.value).value))
      && (c.Reraised? ==> Some(c.value) == StatusString(current.value))
  {
  }

  /** A stored status that is the phrase itself: the enum's ValueError is re-raised. */
  lemma PhraseStatusReraised(current: Doc, newStatus: DocumentStatus)
    requires "status" in current && current["status"] == VStr(TransitionPhrase)
    ensures CheckTransition(Some(current), newStatus) == Reraised(TransitionPhrase)
  {
    assert Contains(TransitionPhrase, TransitionPhrase) by {
      assert TransitionPhrase <= TransitionPhrase;
    }
    assert StatusOf(TransitionPhrase).None?;
  }

  /** A write that passed the check follows the table (or the record's status was unknown or absent). */
  lemma ProceedFollowsTable(current: Option<Doc>, newStatus: DocumentStatus)
    requires CheckTransition(current, newStatus).Proceed?
    ensures current.Some? && |current.value| > 0 && KnownStatus(current.value).Some? ==>
      CanTransition(KnownStatus(current.value).value, newStatus)
  {
  }

  /** `get_document`: an absent or empty item is None. */
  function DocumentSpec(stored: Option<Item>): Result<Option<Doc>, DocFailure> {
    if stored.None? || |stored.value| == 0 then Ok(None)
    else
      match ParseItemSpec(stored.value)
      case Err(e) => Err(e)
      case Ok(d) => Ok(Some(d))
  }

  method GetDocument(stored: Option<Item>) returns (r: Result<Option<Doc>, DocFailure>)
    ensures r == DocumentSpec(stored)
  {
    if stored.None? || |stored.value| == 0 {
      return Ok(None);
    }
    var parsed := ParseItem(stored.value);
    if parsed.Err? {
      return Err(parsed.error);
    }
    return Ok(Some(parsed.value));
  }

  // ------------------------------------------------------ update expression

  /** One `#name = :value` clause with what it binds. */
  datatype Assignment = Assignment(nameRef: string, attribute: string, valueRef: string, value: AttrValue)

  /** The clauses of the update, in order: status and updated_at always, then each metadata field that is not None. */
  function Assignments(newStatus: DocumentStatus, pageCount: Option<int>, chunkCount: Option<int>,
                       errorMessage: Option<string>, updatedAt: string): seq<Assignment> {
    var required := [Assignment("#status", "status", ":new_status", S(StatusValue(newStatus))),
                     Assignment("#updated_at", "updated_at", ":updated_at", S(updatedAt))];
    WithErrorMessage(WithChunkCount(WithPageCount(required, pageCount), chunkCount), errorMessage)
  }

  function WithPageCount(asg: seq<Assignment>, pageCount: Option<int>): seq<Assignment> {
    if pageCount.Some? then asg + [Assignment("#page_count", "page_count", ":page_count", N(IntToString(pageCount.value)))]
    else asg
  }

  function WithChunkCount(asg: seq<Assignment>, chunkCount: Option<int>): seq<Assignment> {
    if chunkCount.Some? then asg + [Assignment("#chunk_count", "chunk_count", ":chunk_count", N(IntToString(chunkCount.value)))]
    else asg
  }

  function WithErrorMessage(asg: seq<Assignment>, errorMessage: Option<string>): seq<Assignment> {
    if errorMessage.Some? then asg + [Assignment("#error_message", "error_message", ":error_message", S(errorMessage.value))]
    else asg
  }

  function Clause(a: Assignment): string {
    a.nameRef + " = " + a.valueRef
  }

  function ClausesOf(asg: seq<Assignment>): (r: seq<string>)
    ensures |r| == |asg| && forall i :: 0 <= i < |asg| ==> r[i] == Clause(asg[i])
  {
    if asg == [] then [] else ClausesOf(asg[..|asg| - 1]) + [Clause(asg[|asg| - 1])]
  }

  /** `ExpressionAttributeNames` the clauses need. */
  function NamesOf(asg: seq<Assignment>): map<string, string> {
    if asg == [] then map[] else NamesOf(asg[..|asg| - 1])[asg[|asg| - 1].nameRef := asg[|asg| - 1].attribute]
  }

  /** `ExpressionAttributeValues` the clauses need. */
  function ValuesOf(asg: seq<Assignment>): map<string, AttrValue> {
    if asg == [] then map[] else ValuesOf(asg[..|asg| - 1])[asg[|asg| - 1].valueRef := asg[|asg| - 1].value]
  }

  /** Name and value placeholders are each used by one clause only. */
  predicate DistinctRefs(asg: seq<Assignment>) {
    forall i, j :: 0 <= i < j < |asg| ==> asg[i].nameRef != asg[j].nameRef && asg[i].valueRef != asg[j].valueRef
  }

  lemma AppendAssignment(asg: seq<Assignment>, a: Assignment)
    ensures ClausesOf(asg + [a]) == ClausesOf(asg) + [Clause(a)]
    ensures NamesOf(asg + [a]) == NamesOf(asg)[a.nameRef := a.attribute]
    ensures ValuesOf(asg + [a]) == ValuesOf(asg)[a.valueRef := a.value]
  {
    assert (asg + [a])[..|asg|] == asg;
  }

  /** Every name placeholder the expression uses is bound to its clause's attribute. */
  lemma {:induction false} NamesBound(asg: seq<Assignment>)
    requires DistinctRefs(asg)
    ensures forall i :: 0 <= i < |asg| ==>
      asg[i].nameRef in NamesOf(asg) && NamesOf(asg)[asg[i].nameRef] == asg[i].attribute
  {
    if asg != [] {
      var front := asg[..|asg| - 1];
      assert forall i :: 0 <= i < |front| ==> front[i] == asg[i];
      NamesBound(front);
    }
  }

  /** Every value placeholder the expression uses is bound to its clause's value. */
  lemma {:induction false} ValuesBound(asg: seq<Assignment>)
    requires DistinctRefs(asg)
    ensures forall i :: 0 <= i < |asg| ==>
      asg[i].valueRef in ValuesOf(asg) && ValuesOf(asg)[asg[i].valueRef] == asg[i].value
  {
    if asg != [] {
      var front := asg[..|asg| - 1];
      assert forall i :: 0 <= i < |front| ==> front[i] == asg[i];
      ValuesBound(front);
    }
  }

  /** No placeholder is bound that no clause uses. */
  lemma {:induction false} NothingElseBound(asg: seq<Assignment>)
    ensures NamesOf(asg).Keys == set i | 0 <= i < |asg| :: asg[i].nameRef
    ensures ValuesOf(asg).Keys == set i | 0 <= i < |asg| :: asg[i].valueRef
  {
    if asg != [] {
      var front := asg[..|asg| - 1];
      assert forall i :: 0 <= i < |front| ==> front[i] == asg[i];
      NothingElseBound(front);
      var last := |asg| - 1;
      assert (set i | 0 <= i < |asg| :: asg[i].nameRef) ==
             (set i | 0 <= i < |front| :: front[i].nameRef) + {asg[last].nameRef};
      assert (set i | 0 <= i < |asg| :: asg[i].valueRef) ==
             (set i | 0 <= i < |front| :: front[i].valueRef) + {asg[last].valueRef};
    }
  }

  /** The clauses built for any arguments bind distinct placeholders. */
  lemma AssignmentsDistinct(newStatus: DocumentStatus, pageCount: Option<int>, chunkCount: Option<int>,
                            errorMessage: Option<string>, updatedAt: string)
    ensures DistinctRefs(Assignments(newStatus, pageCount, chunkCount, errorMessage, updatedAt))
  {
    var required := [Assignment("#status", "status", ":new_status", S(StatusValue(newStatus))),
                     Assignment("#updated_at", "updated_at", ":updated_at", S(updatedAt))];
    var names, values := {"#status", "#updated_at"}, {":new_status", ":updated_at"};
    assert DistinctRefs(required) && RefsAmong(required, names, values);
    var a1 := WithPageCount(required, pageCount);
    if pageCount.Some? {
      SnocDistinct(required, a1[2], names, values);
      names, values := names + {"#page_count"}, values + {":page_count"};
    }
    var a2 := WithChunkCount(a1, chunkCount);
    if chunkCount.Some? {
      SnocDistinct(a1, a2[|a1|], names, values);
      names, values := names + {"#chunk_count"}, values + {":chunk_count"};
    }
    var a3 := WithErrorMessage(a2, errorMessage);
    if errorMessage.Some? {
      SnocDistinct(a2, a3[|a2|], names, values);
    }
  }

  /** Every reference of `asg` is among `names` and `values`. */
  predicate RefsAmong(asg: seq<Assignment>, names: set<string>, values: set<string>) {
    forall i :: 0 <= i < |asg| ==> asg[i].nameRef in names && asg[i].valueRef in values
  }

  /** Appending an assignment with fresh references keeps the references distinct. */
  lemma SnocDistinct(asg: seq<Assignment>, a: Assignment, names: set<string>, values: set<string>)
    requires DistinctRefs(asg) && RefsAmong(asg, names, values)
    requires a.nameRef !in names && a.valueRef !in values
    ensures DistinctRefs(asg + [a]) && RefsAmong(asg + [a], names + {a.nameRef}, values + {a.valueRef})
  {
  }

  /** Which optional fields the update sets: exactly those that are not None. */
  lemma AssignmentsOptional(newStatus: DocumentStatus, pageCount: Option<int>, chunkCount: Option<int>,
                            errorMessage: Option<string>, updatedAt: string)
    ensures var asg := Assignments(newStatus, pageCount, chunkCount, errorMessage, updatedAt);
      && asg[0].attribute == "status" && asg[0].value == S(StatusValue(newStatus))
      && asg[1].attribute == "updated_at"
      && ((exists i :: 0 <= i < |asg| && asg[i].attribute == "page_count") <==> pageCount.Some?)
      && ((exists i :: 0 <= i < |asg| && asg[i].attribute == "chunk_count") <==> chunkCount.Some?)
      && ((exists i :: 0 <= i < |asg| && asg[i].attribute == "error_message") <==> errorMessage.Some?)
  {
    var asg := Assignments(newStatus, pageCount, chunkCount, errorMessage, updatedAt);
    if pageCount.Some? {
      assert asg[2].attribute == "page_count";
    }
    if chunkCount.Some? {
      var i := if pageCount.Some? then 3 else 2;
      assert asg[i].attribute == "chunk_count";
    }
    if errorMessage.Some? {
      assert asg[|asg| - 1].attribute == "error_message";
    }
  }

  /** The `update_item` request: key, expression and its two placeholder dicts. */
  datatype UpdateRequest = UpdateRequest(
    key: Item,
    updateExpression: string,
    names: map<string, string>,
    values: map<string, AttrValue>)

  function RequestOf(docId: string, asg: seq<Assignment>): UpdateRequest {
    UpdateRequest(map["doc_id" := S(docId), "sk" := S(MetadataSk)],
                  "SET " + Join(", ", ClausesOf(asg)), NamesOf(asg), ValuesOf(asg))
  }

  /** One `update_parts.append` with its name and value entries. */
  method AddAssignment(parts: seq<string>, names: map<string, string>, values: map<string, AttrValue>,
                       a: Assignment, ghost asg: seq<Assignment>)
    returns (parts': seq<string>, names': map<string, string>, values': map<string, AttrValue>)
    requires parts == ClausesOf(asg) && names == NamesOf(asg) && values == ValuesOf(asg)
    ensures parts' == ClausesOf(asg + [a]) && names' == NamesOf(asg + [a]) && values' == ValuesOf(asg + [a])
  {
    AppendAssignment(asg, a);
    parts' := parts + [Clause(a)];
    names' := names[a.nameRef := a.attribute];
    values' := values[a.valueRef := a.value];
  }

  /** `if page_count is not None:` append its clause, name and value. */
  method AddPageCount(parts: seq<string>, names: map<string, string>, values: map<string, AttrValue>,
                      pageCount: Option<int>, ghost asg: seq<Assignment>)
    returns (parts': seq<string>, names': map<string, string>, values': map<string, AttrValue>)
    requires parts == ClausesOf(asg) && names == NamesOf(asg) && values == ValuesOf(asg)
    ensures parts' == ClausesOf(WithPageCount(asg, pageCount))
    ensures names' == NamesOf(WithPageCount(asg, pageCount))
    ensures values' == ValuesOf(WithPageCount(asg, pageCount))
  {
    parts', names', values' := parts, names, values;
    if pageCount.Some? {
      var a := Assignment("#page_count", "page_count", ":page_count", N(IntToString(pageCount.value)));
      parts', names', values' := AddAssignment(parts, names, values, a, asg);
    }
  }

  /** `if chunk_count is not None:` append its clause, name and value. */
  method AddChunkCount(parts: seq<string>, names: map<string, string>, values: map<string, AttrValue>,
                       chunkCount: Option<int>, ghost asg: seq<Assignment>)
    returns (parts': seq<string>, names': map<string, string>, values': map<string, AttrValue>)
    requires parts == ClausesOf(asg) && names == NamesOf(asg) && values == ValuesOf(asg)
    ensures parts' == ClausesOf(WithChunkCount(asg, chunkCount))
    ensures names' == NamesOf(WithChunkCount(asg, chunkCount))
    ensures values' == ValuesOf(WithChunkCount(asg, chunkCount))
  {
    parts', names', values' := parts, names, values;
    if chunkCount.Some? {
      var a := Assignment("#chunk_count", "chunk_count", ":chunk_count", N(IntToString(chunkCount.value)));
      parts', names', values' := AddAssignment(parts, names, values, a, asg);
    }
  }

  /** `if error_message is not None:` append its clause, name and value. */
  method AddErrorMessage(parts: seq<string>, names: map<string, string>, values: map<string, AttrValue>,
                         errorMessage: Option<string>, ghost asg: seq<Assignment>)
    returns (parts': seq<string>, names': map<string, string>, values': map<string, AttrValue>)
    requires parts == ClausesOf(asg) && names == NamesOf(asg) && values == ValuesOf(asg)
    ensures parts' == ClausesOf(WithErrorMessage(asg, errorMessage))
    ensures names' == NamesOf(WithErrorMessage(asg, errorMessage))
    ensures values' == ValuesOf(WithErrorMessage(asg, errorMessage))
  {
    parts', names', values' := parts, names, values;
    if errorMessage.Some? {
      var a := Assignment("#error_message", "error_message", ":error_message", S(errorMessage.value));
      parts', names', values' := AddAssignment(parts, names, values, a, asg);
    }
  }

  /** The request-building part of `update_status`, step by step as the source appends. */
  method BuildUpdate(docId: string, newStatus: DocumentStatus, pageCount: Option<int>, chunkCount: Option<int>,
                     errorMessage: Option<string>, updatedAt: string)
    returns (request: UpdateRequest)
    ensures request == RequestOf(docId, Assignments(newStatus, pageCount, chunkCount, errorMessage, updatedAt))
  {
    var a0 := Assignment("#status", "status", ":new_status", S(StatusValue(newStatus)));
    var a1 := Assignment("#updated_at", "updated_at", ":updated_at", S(updatedAt));
    var updateParts, names, values := AddAssignment([], map[], map[], a0, []);
    updateParts, names, values := AddAssignment(updateParts, names, values, a1, [] + [a0]);
    ghost var asg := [] + [a0] + [a1];
    assert asg == [a0, a1];
    updateParts, names, values := AddPageCount(updateParts, names, values, pageCount, asg);
    asg := WithPageCount(asg, pageCount);
    updateParts, names, values := AddChunkCount(updateParts, names, values, chunkCount, asg);
    asg := WithChunkCount(asg, chunkCount);
    updateParts, names, values := AddErrorMessage(updateParts, names, values, errorMessage, asg);
    asg := WithErrorMessage(asg, errorMessage);
    request := UpdateRequest(map["doc_id" := S(docId), "sk" := S(MetadataSk)],
                             "SET " + Join(", ", updateParts), names, values);
  }

  // ---------------------------------------------------------------- update

  /** What `update_status` did: returned the record untouched, or sent the update and parsed its answer. */
  datatype UpdateOutcome = Unchanged(doc: Doc) | Written(request: UpdateRequest, doc: Doc)

  /** The write and parse of the answer, once validation let the update through. */
  function WriteSpec(docId: string, newStatus: DocumentStatus, pageCount: Option<int>, chunkCount: Option<int>,
                     errorMessage: Option<string>, updatedAt: string, attributes: Item): Result<UpdateOutcome, DocFailure> {
    match ParseItemSpec(attributes)
    case Err(e) => Err(e)
    case Ok(d) => Ok(Written(RequestOf(docId, Assignments(newStatus, pageCount, chunkCount, errorMessage, updatedAt)), d))
  }

  /** The `update_item` call of `update_status` and the parse of what it returns. */
  method Write(docId: string, newStatus: DocumentStatus, pageCount: Option<int>, chunkCount: Option<int>,
               errorMessage: Option<string>, updatedAt: string, attributes: Item)
    returns (r: Result<UpdateOutcome, DocFailure>)
    ensures r == WriteSpec(docId, newStatus, pageCount, chunkCount, errorMessage, updatedAt, attributes)
  {
    var request := BuildUpdate(docId, newStatus, pageCount, chunkCount, errorMessage, updatedAt);
    var parsed := ParseItem(attributes);
    if parsed.Err? {
      return Err(parsed.error);
    }
    return Ok(Written(request, parsed.value));
  }

  /** What `update_status` answers: validation first (when asked for), then the write. */
  function UpdateSpec(docId: string, newStatus: DocumentStatus, pageCount: Option<int>, chunkCount: Option<int>,
                      errorMessage: Option<string>, validateTransition: bool,
                      stored: Option<Item>, updatedAt: string, attributes: Item): Result<UpdateOutcome, DocFailure> {
    var write := WriteSpec(docId, newStatus, pageCount, chunkCount, errorMessage, updatedAt, attributes);
    if !validateTransition then write
    else match DocumentSpec(stored)
      case Err(e) => Err(e)
      case Ok(current) =>
        match CheckTransition(current, newStatus)
        case Proceed => write
        case SameStatus(doc) => Ok(Unchanged(doc))
        case Invalid(from, to) => Err(InvalidTransition(from, to))
        case Reraised(value) => Err(NotAStatus(value))
  }

  /**
   * `update_status`. `stored` is what `get_item` returns for the record,
   * `attributes` what `update_item` returns (ALL_NEW).
   */
  method UpdateStatus(docId: string, newStatus: DocumentStatus, pageCount: Option<int>, chunkCount: Option<int>,
                      errorMessage: Option<string>, validateTransition: bool,
                      stored: Option<Item>, updatedAt: string, attributes: Item)
    returns (r: Result<UpdateOutcome, DocFailure>)
    ensures r == UpdateSpec(docId, newStatus, pageCount, chunkCount, errorMessage, validateTransition, stored, updatedAt, attributes)
  {
    if validateTransition {
      var current := GetDocument(stored);
      if current.Err? {
        return Err(current.error);
      }
      var check := CheckTransition(current.value, newStatus);
      if check.SameStatus? {
        return Ok(Unchanged(check.doc));
      } else if check.Invalid? {
        return Err(InvalidTransition(check.from, check.to));
      } else if check.Reraised? {
        return Err(NotAStatus(check.value));
      }
    }
    r := Write(docId, newStatus, pageCount, chunkCount, errorMessage, updatedAt, attributes);
  }

  /** With validation on, a record whose status is known is only ever written along the table. */
  lemma WrittenFollowsTable(docId: string, newStatus: DocumentStatus, pageCount: Option<int>, chunkCount: Option<int>,
                            errorMessage: Option<string>, stored: Option<Item>, updatedAt: string, attributes: Item)
    requires UpdateSpec(docId, newStatus, pageCount, chunkCount, errorMessage, true, stored, updatedAt, attributes).Ok?
    requires UpdateSpec(docId, newStatus, pageCount, chunkCount, errorMessage, true, stored, updatedAt, attributes).value.Written?
    ensures DocumentSpec(stored).Ok?
    ensures var current := DocumentSpec(stored).value;
      current.Some? && |current.value| > 0 && KnownStatus(current.value).Some? ==>
        CanTransition(KnownStatus(current.value).value, newStatus)
    ensures var current := DocumentSpec(stored).value;
      current.Some? && |current.value| > 0 && StatusString(current.value).Some? ==>
        !EnumErrorReraised(StatusString(current.value).value) || KnownStatus(current.value).Some?
  {
    ProceedFollowsTable(DocumentSpec(stored).value, newStatus);
    CheckTransitionCases(DocumentSpec(stored).value, newStatus);
  }

  /** The request a write sends is the one built from the call's assignments. */
  lemma WrittenRequest(docId: string, newStatus: DocumentStatus, pageCount: Option<int>, chunkCount: Option<int>,
                       errorMessage: Option<string>, validateTransition: bool,
                       stored: Option<Item>, updatedAt: string, attributes: Item)
    requires UpdateSpec(docId, newStatus, pageCount, chunkCount, errorMessage, validateTransition, stored, updatedAt, attributes).Ok?
    requires UpdateSpec(docId, newStatus, pageCount, chunkCount, errorMessage, validateTransition, stored, updatedAt, attributes).value.Written?
    ensures UpdateSpec(docId, newStatus, pageCount, chunkCount, errorMessage, validateTransition, stored, updatedAt, attributes).value.request
            == RequestOf(docId, Assignments(newStatus, pageCount, chunkCount, errorMessage, updatedAt))
  {
  }

  /** The built request binds `status` to the new status's value and `updated_at` to the timestamp, on the record's key. */
  lemma RequestSetsStatus(docId: string, newStatus: DocumentStatus, pageCount: Option<int>, chunkCount: Option<int>,
                          errorMessage: Option<string>, updatedAt: string)
    ensures var req := RequestOf(docId, Assignments(newStatus, pageCount, chunkCount, errorMessage, updatedAt));
      && "#status" in req.names && req.names["#status"] == "status"
      && ":new_status" in req.values && req.values[":new_status"] == S(StatusValue(newStatus))
      && "#updated_at" in req.names && req.names["#updated_at"] == "updated_at"
      && ":updated_at" in req.values && req.values[":updated_at"] == S(updatedAt)
      && req.key == map["doc_id" := S(docId), "sk" := S(MetadataSk)]
  {
    var asg := Assignments(newStatus, pageCount, chunkCount, errorMessage, updatedAt);
    AssignmentsDistinct(newStatus, pageCount, chunkCount, errorMessage, updatedAt);
    assert asg[0].nameRef == "#status" && asg[0].valueRef == ":new_status";
    assert asg[1].nameRef == "#updated_at" && asg[1].valueRef == ":updated_at";
    NamesBound(asg);
    ValuesBound(asg);
  }

  /** Every write sets `status` to the new status's value and `updated_at` to the timestamp. */
  lemma WrittenSetsStatus(docId: string, newStatus: DocumentStatus, pageCount: Option<int>, chunkCount: Option<int>,
                          errorMessage: Option<string>, validateTransition: bool,
                          stored: Option<Item>, updatedAt: string, attributes: Item)
    requires UpdateSpec(docId, newStatus, pageCount, chunkCount, errorMessage, validateTransition, stored, updatedAt, attributes).Ok?
    requires UpdateSpec(docId, newStatus, pageCount, chunkCount, errorMessage, validateTransition, stored, updatedAt, attributes).value.Written?
    ensures var req := UpdateSpec(docId, newStatus, pageCount, chunkCount, errorMessage, validateTransition, stored, updatedAt, attributes).value.request;
      && "#status" in req.names && req.names["#status"] == "status"
      && ":new_status" in req.values && req.values[":new_status"] == S(StatusValue(newStatus))
      && "#updated_at" in req.names && req.names["#updated_at"] == "updated_at"
      && ":updated_at" in req.values && req.values[":updated_at"] == S(updatedAt)
      && req.key == map["doc_id" := S(docId), "sk" := S(MetadataSk)]
  {
    WrittenRequest(docId, newStatus, pageCount, chunkCount, errorMessage, validateTransition, stored, updatedAt, attributes);
    RequestSetsStatus(docId, newStatus, pageCount, chunkCount, errorMessage, updatedAt);
  }
}
