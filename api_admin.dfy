// The admin HTTP endpoints: PDF upload (validation, the S3 key, the queue
// message that starts processing), the document listing (status filter,
// newest-first order, page slicing) and the single-document lookup. The uuid,
// the bucket and the outcome of the storage calls are inputs.

module AdminApi {
  import opened Lib
  import Dsm = DocumentStatusManager
  import Sorting
  import SqsWorker

  predicate Named(s: Option<string>) {
    s.Some? && s.value != ""
  }

  // ---------------------------------------------------------------------------
  // Upload
  // ---------------------------------------------------------------------------

  /** A file name ending in ".pdf" in any letter case. */
  predicate IsPdfName(filename: Option<string>) {
    Named(filename) && EndsWith(LowerStr(filename.value), ".pdf")
  }

  /** ".pdf", ".PDF" and ".Pdf" endings are all accepted. */
  lemma PdfSuffixAnyCase(stem: string, ext: string)
    requires ext == ".pdf" || ext == ".PDF" || ext == ".Pdf"
    ensures IsPdfName(Some(stem + ext))
  {
    var n := stem + ext;
    var k := |stem|;
    LowerStrAt(n, k);
    LowerStrAt(n, k + 1);
    LowerStrAt(n, k + 2);
    LowerStrAt(n, k + 3);
    assert n[k..] == ext;
    assert LowerStr(n)[k..] == ".pdf";
  }

  /** The checks made before anything is stored: a PDF name first, then a non-empty body. */
  function ValidateUpload(filename: Option<string>, contentLength: nat): (r: Result<string, HttpError>)
    ensures r.Ok? <==> IsPdfName(filename) && contentLength > 0
    ensures r.Ok? ==> r.value == filename.value
    ensures !IsPdfName(filename) ==> r == Err(HttpError(400, "Only PDF files are allowed", map[]))
    ensures IsPdfName(filename) && contentLength == 0 ==> r == Err(HttpError(400, "Empty file not allowed", map[]))
  {
    if !IsPdfName(filename) then Err(HttpError(400, "Only PDF files are allowed", map[]))
    else if contentLength == 0 then Err(HttpError(400, "Empty file not allowed", map[]))
    else Ok(filename.value)
  }

  function S3Key(docId: string, filename: string): string {
    "uploads/" + docId + "/" + filename
  }

  /** The queue message: one S3 record naming the bucket and the key, and the document id beside it. */
  function UploadMessage(bucket: string, key: string, docId: string): Json {
    JObj(map["Records" := JArr([SqsWorker.UploadRecord(JStr(bucket), JStr(key), None, None)]),
             "doc_id" := JStr(docId)])
  }

  /** The worker reads the bucket and the key of the upload back from the message (size 0, no event time). */
  lemma UploadMessageParses(bucket: string, docId: string, filename: string, decode: string -> Option<Json>)
    ensures SqsWorker.ParseS3Event(UploadMessage(bucket, S3Key(docId, filename), docId), decode)
         == SqsWorker.Event(SqsWorker.S3Event(JStr(bucket), JStr(S3Key(docId, filename)), JNum(0), JNull))
  {
    var record := SqsWorker.UploadRecord(JStr(bucket), JStr(S3Key(docId, filename)), None, None);
    assert [record][0] == record;
  }

  /**
   * The worker names the document after the file, not after the upload's
   * document id: for "uploads/{docId}/{stem}.pdf" it processes "{stem}".
   */
  lemma WorkerDocumentIdIsFileStem(docId: string, stem: string)
    requires '/' !in stem
    ensures SqsWorker.ExtractDocumentId(S3Key(docId, stem + ".pdf")) == stem
  {
    assert S3Key(docId, stem + ".pdf") == ("uploads/" + docId) + "/" + stem + "." + "pdf";
    SqsWorker.DocumentIdOfKey("uploads/" + docId, stem, "pdf");
  }

  datatype UploadResponse = UploadResponse(docId: string, filename: string, status: string, message: string)

  /** What a successful upload stored and sent, and what it answered. */
  datatype Upload = Upload(key: string, message: Json, response: UploadResponse)

  /**
   * `upload_document`: `docId` is the fresh uuid, and `failure` the message of
   * the exception raised by the S3 put, the record creation or the send, if any.
   */
  function UploadDocument(filename: Option<string>, contentLength: nat, docId: string, bucket: string,
                          failure: Option<string>): (r: Result<Upload, HttpError>)
    ensures ValidateUpload(filename, contentLength).Err? ==> r == Err(ValidateUpload(filename, contentLength).error)
    ensures ValidateUpload(filename, contentLength).Ok? && failure.Some? ==>
      r == Err(HttpError(500, "Upload failed: " + failure.value, map[]))
    ensures r.Ok? ==>
      && r.value.key == S3Key(docId, filename.value)
      && r.value.message == UploadMessage(bucket, r.value.key, docId)
      && r.value.response.docId == docId && r.value.response.filename == filename.value
      && r.value.response.status == Dsm.StatusValue(Dsm.Uploaded)
  {
    match ValidateUpload(filename, contentLength)
    case Err(e) => Err(e)
    case Ok(name) =>
      if failure.Some? then Err(HttpError(500, "Upload failed: " + failure.value, map[]))
      else
        var key := S3Key(docId, name);
        Ok(Upload(key, UploadMessage(bucket, key, docId),
                  UploadResponse(docId, name, Dsm.StatusValue(Dsm.Uploaded),
                                 "Document uploaded successfully. Processing will begin shortly.")))
  }

  // ---------------------------------------------------------------------------
  // Listing
  // ---------------------------------------------------------------------------

  datatype DocumentItem = DocumentItem(
    docId: string,
    filename: string,
    status: string,
    uploadedAt: string,
    uploadedBy: string,
    pageCount: Option<int>,
    chunkCount: Option<int>,
    errorMessage: Option<string>)

  /** `doc.get(k, "")` for a string field. */
  function StrField(doc: Dsm.Doc, k: string): string {
    if k in doc && doc[k].VStr? then doc[k].s else ""
  }

  function IntField(doc: Dsm.Doc, k: string): Option<int> {
    if k in doc && doc[k].VInt? then Some(doc[k].i) else None
  }

  function OptStrField(doc: Dsm.Doc, k: string): Option<string> {
    if k in doc && doc[k].VStr? then Some(doc[k].s) else None
  }

  function ItemOf(doc: Dsm.Doc): DocumentItem {
    DocumentItem(StrField(doc, "doc_id"), StrField(doc, "filename"), StrField(doc, "status"),
                 StrField(doc, "uploaded_at"), StrField(doc, "uploaded_by"),
                 IntField(doc, "page_count"), IntField(doc, "chunk_count"), OptStrField(doc, "error_message"))
  }

  const InvalidStatusDetail := "Invalid status. Must be one of: ['UPLOADED', 'IDP_RUNNING', 'EMBEDDING_DONE', 'FAILED']"

  /** No (or an empty) status means no filter; otherwise its upper case must name a status, else 400. */
  function StatusFilter(status: Option<string>): (r: Result<Option<Dsm.DocumentStatus>, HttpError>)
    ensures !Named(status) ==> r == Ok(None)
    ensures Named(status) ==> (r.Err? <==> Dsm.StatusOf(UpperStr(status.value)).None?)
    ensures r.Err? ==> r.error == HttpError(400, InvalidStatusDetail, map[])
    ensures r.Ok? && r.value.Some? ==> Dsm.StatusValue(r.value.value) == UpperStr(status.value)
  {
    if !Named(status) then Ok(None)
    else
      match Dsm.StatusOf(UpperStr(status.value))
      case Some(t) => Ok(Some(t))
      case None => Err(HttpError(400, InvalidStatusDetail, map[]))
  }

  /** Every status is accepted under its own value. */
  lemma StatusFilterAccepts(t: Dsm.DocumentStatus)
    ensures StatusFilter(Some(Dsm.StatusValue(t))) == Ok(Some(t))
  {
    var v := Dsm.StatusValue(t);
    assert forall i :: 0 <= i < |v| ==> Upper(v[i]) == v[i];
    UpperStrKeeps(v);
    Dsm.StatusRoundTrip(t);
  }

  /** The filter ignores case: every status is accepted under its lower-case value too. */
  lemma StatusFilterIgnoresCase(t: Dsm.DocumentStatus)
    ensures StatusFilter(Some(LowerStr(Dsm.StatusValue(t)))) == Ok(Some(t))
  {
    var v := Dsm.StatusValue(t);
    StatusValueCaps(t);
    UpperLowerCaps(v);
    Dsm.StatusRoundTrip(t);
  }

  /** Status values are non-empty and spelled in capitals and underscores. */
  lemma StatusValueCaps(t: Dsm.DocumentStatus)
    ensures var v := Dsm.StatusValue(t);
      |v| > 0 && forall i :: 0 <= i < |v| ==> 'A' <= v[i] <= 'Z' || v[i] == '_'
  {
  }

  /** `a` comes no later than `b`: newest upload first. */
  predicate NewestFirst(a: DocumentItem, b: DocumentItem) {
    StrLe(b.uploadedAt, a.uploadedAt)
  }

  function UploadedAt(d: DocumentItem): string {
    d.uploadedAt
  }

  /** `items.sort(key=uploaded_at, reverse=True)`. */
  function Sorted(items: seq<DocumentItem>): (r: seq<DocumentItem>)
    ensures multiset(r) == multiset(items)
    ensures forall i, j :: 0 <= i < j < |r| ==> StrLe(r[j].uploadedAt, r[i].uploadedAt)
  {
    Sorting.StrKeyDescendingPreorder(NewestFirst, UploadedAt);
    Sorting.SortBySorted(NewestFirst, items);
    Sorting.SortBy(NewestFirst, items)
  }

  datatype DocumentListResponse = DocumentListResponse(
    items: seq<DocumentItem>, total: int, page: int, pageSize: int, hasMore: bool)

  /** Python's `s[i:j]` for `0 <= i <= j`. */
  function Slice<T>(s: seq<T>, i: nat, j: nat): (r: seq<T>)
    requires i <= j
  {
    if i >= |s| then [] else if j >= |s| then s[i..] else s[i..j]
  }

  /** Page `page` of `items`, `pageSize` per page, and whether anything lies beyond it. */
  function PageOf(items: seq<DocumentItem>, page: int, pageSize: int): (r: DocumentListResponse)
    requires page >= 1 && pageSize >= 1
    ensures r.total == |items| && r.page == page && r.pageSize == pageSize
    ensures |r.items| <= pageSize
  {
    var start := (page - 1) * pageSize;
    var end := start + pageSize;
    DocumentListResponse(Slice(items, start, end), |items|, page, pageSize, end < |items|)
  }

  /** More is reported exactly when the next page is not empty. */
  lemma HasMoreIffNextPage(items: seq<DocumentItem>, page: int, pageSize: int)
    requires page >= 1 && pageSize >= 1
    ensures PageOf(items, page, pageSize).hasMore <==> PageOf(items, page + 1, pageSize).items != []
  {
    assert (page + 1 - 1) * pageSize == (page - 1) * pageSize + pageSize;
  }

  /** Every item sits on exactly the page its position says, at the offset its position says. */
  lemma PagesPartition(items: seq<DocumentItem>, pageSize: int, k: nat)
    requires pageSize >= 1 && k < |items|
    ensures k % pageSize < |PageOf(items, k / pageSize + 1, pageSize).items|
    ensures PageOf(items, k / pageSize + 1, pageSize).items[k % pageSize] == items[k]
  {
    var q, r := k / pageSize, k % pageSize;
    assert k == q * pageSize + r;
    assert (q + 1 - 1) * pageSize == q * pageSize;
  }

  /** The listing over the documents `docs` the status manager returned. */
  function Listing(page: int, pageSize: int, status: Option<string>,
                   docs: Option<Dsm.DocumentStatus> -> seq<Dsm.Doc>): Result<DocumentListResponse, HttpError>
    requires page >= 1 && pageSize >= 1
  {
    match StatusFilter(status)
    case Err(e) => Err(e)
    case Ok(filter) => Ok(PageOf(Sorted(MapSeq(ItemOf, docs(filter))), page, pageSize))
  }

  /**
   * `list_documents` as written: one call to the status manager with
   * `Limit = page_size` (`fetch(filter, limit)`), then sort and slice.
   */
  method ListDocuments(page: int, pageSize: int, status: Option<string>,
                       fetch: (Option<Dsm.DocumentStatus>, int) -> seq<Dsm.Doc>)
    returns (r: Result<DocumentListResponse, HttpError>)
    requires page >= 1 && 1 <= pageSize <= 100
    ensures r == Listing(page, pageSize, status, f => fetch(f, pageSize))
  {
    var filter := StatusFilter(status);
    if filter.Err? {
      return Err(filter.error);
    }
    var docs := fetch(filter.value, pageSize);
    var items := CollectItems(docs);
    r := Ok(PageOf(Sorted(items), page, pageSize));
  }

  /** The loop that turns each returned record into a `DocumentItem`, in order. */
  method CollectItems(docs: seq<Dsm.Doc>) returns (items: seq<DocumentItem>)
    ensures items == MapSeq(ItemOf, docs)
  {
    items := [];
    for i := 0 to |docs|
      invariant items == MapSeq(ItemOf, docs[..i])
    {
      assert docs[..i + 1] == docs[..i] + [docs[i]];
      MapSeqAppend(ItemOf, docs[..i], docs[i]);
      items := items + [ItemOf(docs[i])];
    }
    assert docs[..|docs|] == docs;
  }

  /**
   * Since a single call with `Limit = page_size` returns at most `page_size`
   * records, every page after the first is empty and has_more is never set.
   */
  lemma LaterPagesAlwaysEmpty(page: int, pageSize: int, status: Option<string>,
                              fetch: (Option<Dsm.DocumentStatus>, int) -> seq<Dsm.Doc>)
    requires page >= 2 && 1 <= pageSize <= 100
    requires forall f, n :: |fetch(f, n)| <= n
    requires StatusFilter(status).Ok?
    ensures Listing(page, pageSize, status, f => fetch(f, pageSize)).value.items == []
    ensures !Listing(page, pageSize, status, f => fetch(f, pageSize)).value.hasMore
  {
    var filter := StatusFilter(status).value;
    var docs := fetch(filter, pageSize);
    var items := MapSeq(ItemOf, docs);
    var sorted := Sorted(items);
    assert |sorted| == |items| by {
      assert |multiset(sorted)| == |multiset(items)|;
    }
    PastShortListing(sorted, page, pageSize);
  }

  /** A listing no longer than one page has nothing on, or beyond, page 2 and later. */
  lemma PastShortListing(items: seq<DocumentItem>, page: int, pageSize: int)
    requires page >= 2 && 1 <= pageSize && |items| <= pageSize
    ensures PageOf(items, page, pageSize).items == [] && !PageOf(items, page, pageSize).hasMore
  {
    MultipleAtLeast(page - 1, pageSize);
  }

  lemma MultipleAtLeast(a: int, b: int)
    requires a >= 1 && b >= 1
    ensures a * b >= b
  {
    assert a * b == (a - 1) * b + b;
  }

  /**
   * `list_documents` with the listing it evidently intends: the page is cut
   * from all matching documents (`fetchAll(filter)`, every page of the
   * scan followed), so pages partition the newest-first order.
   */
  method ListAllDocuments(page: int, pageSize: int, status: Option<string>,
                          fetchAll: Option<Dsm.DocumentStatus> -> seq<Dsm.Doc>)
    returns (r: Result<DocumentListResponse, HttpError>)
    requires page >= 1 && 1 <= pageSize <= 100
    ensures r == Listing(page, pageSize, status, fetchAll)
    ensures r.Ok? ==> r.value.total == |fetchAll(StatusFilter(status).value)|
    ensures r.Ok? ==> (r.value.hasMore <==> r.value.total > page * pageSize)
  {
    var filter := StatusFilter(status);
    if filter.Err? {
      return Err(filter.error);
    }
    var docs := fetchAll(filter.value);
    var items := CollectItems(docs);
    r := Ok(PageOf(Sorted(items), page, pageSize));
    assert (page - 1) * pageSize + pageSize == page * pageSize;
  }

  // ---------------------------------------------------------------------------
  // Single document
  // ---------------------------------------------------------------------------

  /** `get_document`: a missing record, or an empty one, is a 404. */
  function GetDocument(docId: string, doc: Option<Dsm.Doc>): (r: Result<DocumentItem, HttpError>)
    ensures r.Err? <==> doc.None? || doc.value == map[]
    ensures r.Err? ==> r.error == HttpError(404, "Document " + docId + " not found", map[])
    ensures r.Ok? ==> r.value == ItemOf(doc.value)
  {
    if doc.None? || doc.value == map[] then Err(HttpError(404, "Document " + docId + " not found", map[]))
    else Ok(ItemOf(doc.value))
  }
}
