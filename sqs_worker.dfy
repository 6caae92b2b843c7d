/**
 * The document-processing worker: it takes S3 upload events off an SQS
 * queue, runs each PDF through detection, extraction, chunking and the
 * embedding and storage callbacks, reports the status, and deletes the
 * message when the document is done.
 *
 * SQS, S3, `json.loads` and the callbacks are inputs: an `Env` gives what
 * decoding a body and downloading an object yield, `Callbacks` what the
 * embedding and storage callbacks answer, and a poll script what each
 * receive call returns.
 */
module SqsWorker {
  import opened Lib
  import opened PyPdf
  import PdfDetector
  import PdfExtractor
  import TextChunker

  datatype ProcessingStatus = Pending | Processing | Completed | Failed | Skipped

  /** The status string the status callback receives. */
  function StatusValue(s: ProcessingStatus): string {
    match s
    case Pending => "pending"
    case Processing => "processing"
    case Completed => "completed"
    case Failed => "failed"
    case Skipped => "skipped"
  }

  type Vector = seq<real>

  /** The metadata of a completed result. */
  datatype ResultMetadata = ResultMetadata(totalPages: int, vectorsGenerated: int)

  datatype ProcessingResult = ProcessingResult(
    documentId: string,
    status: ProcessingStatus,
    chunksCount: int,
    totalChars: int,
    errorMessage: Option<string>,
    metadata: Option<ResultMetadata>)

  /** A FAILED result: nothing chunked, nothing counted, and why. */
  function FailedResult(documentId: string, message: string): (r: ProcessingResult)
    ensures r.status == Failed && r.chunksCount == 0 && r.totalChars == 0 && r.errorMessage == Some(message)
  {
    ProcessingResult(documentId, Failed, 0, 0, Some(message), None)
  }

  // ---------------------------------------------------------------------------
  // _extract_document_id

  /** `key.split('/')[-1]` */
  function FileName(key: string): (f: string)
    ensures '/' !in f
    ensures EndsWith(key, f)
  {
    if '/' in key then key[LastIndexOf(key, '/') + 1..] else key
  }

  /** `f.rsplit('.', 1)[0]` */
  function DropExtension(f: string): (r: string)
    ensures r <= f
  {
    if '.' in f then f[..LastIndexOf(f, '.')] else f
  }

  /** `_extract_document_id`: the last path segment without its last extension. */
  function ExtractDocumentId(key: string): (id: string)
    ensures '/' !in id
  {
    DropExtension(FileName(key))
  }

  /** The last occurrence is the one with none after it. */
  lemma LastIndexOfAt(s: string, c: char, k: nat)
    requires k < |s| && s[k] == c && c !in s[k + 1..]
    ensures LastIndexOf(s, c) == k
  {
  }

  /** A name without a dot keeps all of itself; a name with one keeps what comes before its last dot. */
  lemma DropExtensionOf(id: string, ext: string)
    requires '.' !in ext
    ensures DropExtension(id + "." + ext) == id
    ensures '.' !in id ==> DropExtension(id) == id
  {
    var f := id + "." + ext;
    assert f[|id|] == '.';
    assert f[|id| + 1..] == ext;
    LastIndexOfAt(f, '.', |id|);
    assert f[..|id|] == id;
  }

  /** The file name of `dir/name`, or of a bare `name`, is `name` when `name` holds no slash. */
  lemma FileNameOf(dir: string, name: string)
    requires '/' !in name
    ensures FileName(dir + "/" + name) == name && FileName(name) == name
  {
    var key := dir + "/" + name;
    assert key[|dir|] == '/';
    assert key[|dir| + 1..] == name;
    LastIndexOfAt(key, '/', |dir|);
  }

  /**
   * The document id of `dir/id.ext` (or of `id.ext` at the top) is `id`,
   * dots inside `id` included, when neither `id` nor `ext` holds a slash
   * and `ext` holds no dot.
   */
  lemma DocumentIdOfKey(dir: string, id: string, ext: string)
    requires '/' !in id && '/' !in ext && '.' !in ext
    ensures ExtractDocumentId(dir + "/" + id + "." + ext) == id
    ensures ExtractDocumentId(id + "." + ext) == id
  {
    var name := id + "." + ext;
    assert '/' !in name by {
      assert name == id + ("." + ext);
    }
    assert dir + "/" + id + "." + ext == dir + "/" + name;
    FileNameOf(dir, name);
    DropExtensionOf(id, ext);
  }

  /** A key under a dated upload folder. */
  lemma DocumentIdOfUpload()
    ensures ExtractDocumentId("uploads/2025/doc123.pdf") == "doc123"
  {
    var id, ext := "doc123", "pdf";
    assert '/' !in id && '/' !in ext && '.' !in ext;
    assert "uploads/2025/doc123.pdf" == "uploads/2025" + "/" + id + "." + ext;
    DocumentIdOfKey("uploads/2025", id, ext);
  }

  /** A bare key whose name holds dots of its own. */
  lemma DocumentIdOfDottedName()
    ensures ExtractDocumentId("my.document.name.pdf") == "my.document.name"
  {
    var id, ext := "my.document.name", "pdf";
    assert '/' !in id && '/' !in ext && '.' !in ext;
    assert "my.document.name.pdf" == id + "." + ext;
    DocumentIdOfKey("", id, ext);
  }

  // ---------------------------------------------------------------------------
  // _parse_s3_event

  /**
   * How a Python step on decoded JSON ends: with a value, with an
   * exception `_parse_s3_event` catches (KeyError, IndexError,
   * JSONDecodeError), or with one it lets through (TypeError,
   * AttributeError).
   */
  datatype Step<T> = Value(value: T) | Caught | Escapes

  /** A failed step seen at another type. */
  function Fail<T, U>(s: Step<T>): Step<U>
    requires !s.Value?
  {
    if s.Caught? then Caught else Escapes
  }

  /** `key in j`: a key of a dict, an element of a list, a substring of a string; a TypeError otherwise. */
  function HasKey(j: Json, key: string): (r: Step<bool>)
    ensures !r.Caught?
  {
    match j
    case JObj(fields) => Value(key in fields)
    case JArr(items) => Value(JStr(key) in items)
    case JStr(s) => Value(Contains(s, key))
    case _ => Escapes
  }

  /** `j[key]`: a KeyError for a dict without it, a TypeError for anything but a dict. */
  function Field(j: Json, key: string): Step<Json> {
    match j
    case JObj(fields) => if key in fields then Value(fields[key]) else Caught
    case _ => Escapes
  }

  /** `j[0]`: an IndexError for an empty list or string, a KeyError for a dict (JSON keys are strings). */
  function First(j: Json): Step<Json> {
    match j
    case JArr(items) => if items == [] then Caught else Value(items[0])
    case JStr(s) => if s == [] then Caught else Value(JStr(s[..1]))
    case JObj(_) => Caught
    case _ => Escapes
  }

  /** `j.get(key, default)`: an AttributeError for anything but a dict. */
  function GetOr(j: Json, key: string, default: Json): Step<Json> {
    match j
    case JObj(fields) => Value(if key in fields then fields[key] else default)
    case _ => Escapes
  }

  /** `json.loads(s)` for a string, a TypeError for anything else. */
  function Loads(j: Json, decode: string -> Option<Json>): Step<Json> {
    match j
    case JStr(s) => if decode(s).Some? then Value(decode(s).value) else Caught
    case _ => Escapes
  }

  /** The body after unwrapping an SNS envelope: the decoded `Message` when there is no `Records` key but a `Message`. */
  function Unwrapped(body: Json, decode: string -> Option<Json>): Step<Json> {
    var hasRecords := HasKey(body, "Records");
    if !hasRecords.Value? then Fail(hasRecords)
    else if hasRecords.value then Value(body)
    else
      var hasMessage := HasKey(body, "Message");
      if !hasMessage.Value? then Fail(hasMessage)
      else if !hasMessage.value then Value(body)
      else
        var message := Field(body, "Message");
        if !message.Value? then Fail(message) else Loads(message.value, decode)
  }

  /** What an upload event names: bucket, key, size (0 when absent) and event time (null when absent). */
  datatype S3Event = S3Event(bucket: Json, key: Json, size: Json, eventTime: Json)

  /** The event dict built from a record that has an `s3` key, in the order Python evaluates it. */
  function EventOf(record: Json): Step<S3Event> {
    var s3 := Field(record, "s3");
    if !s3.Value? then Fail(s3)
    else
      var bucketDict := Field(s3.value, "bucket");
      if !bucketDict.Value? then Fail(bucketDict)
      else
        var bucket := Field(bucketDict.value, "name");
        if !bucket.Value? then Fail(bucket)
        else
          var obj := Field(s3.value, "object");
          if !obj.Value? then Fail(obj)
          else
            var key := Field(obj.value, "key");
            if !key.Value? then Fail(key)
            else
              var size := GetOr(obj.value, "size", JNum(0));
              if !size.Value? then Fail(size)
              else
                var eventTime := GetOr(record, "eventTime", JNull);
                if !eventTime.Value? then Fail(eventTime)
                else Value(S3Event(bucket.value, key.value, size.value, eventTime.value))
  }

  /** The event in an (unwrapped) body: the first record's, when there are records and it has an `s3` key. */
  function EventIn(body: Json): Step<S3Event> {
    var hasRecords := HasKey(body, "Records");
    if !hasRecords.Value? then Fail(hasRecords)
    else if !hasRecords.value then Caught
    else
      var records := Field(body, "Records");
      if !records.Value? then Fail(records)
      else
        var record := First(records.value);
        if !record.Value? then Fail(record)
        else
          var hasS3 := HasKey(record.value, "s3");
          if !hasS3.Value? then Fail(hasS3)
          else if !hasS3.value then Caught
          else EventOf(record.value)
  }

  /** What `_parse_s3_event` does: returns an event, returns None, or raises past its handler. */
  datatype EventParse = Event(event: S3Event) | NoEvent | ParseRaises

  /** `_parse_s3_event` */
  function ParseS3Event(body: Json, decode: string -> Option<Json>): (r: EventParse) {
    var unwrapped := Unwrapped(body, decode);
    var event := if unwrapped.Value? then EventIn(unwrapped.value) else Fail(unwrapped);
    match event
    case Value(e) => Event(e)
    case Caught => NoEvent
    case Escapes => ParseRaises
  }

  /** The record of an upload of `key` to `bucket`, with the optional size and event time. */
  function UploadRecord(bucket: Json, key: Json, size: Option<Json>, eventTime: Option<Json>): Json {
    var obj := if size.Some? then map["size" := size.value, "key" := key] else map["key" := key];
    var s3 := JObj(map["bucket" := JObj(map["name" := bucket]), "object" := JObj(obj)]);
    JObj(if eventTime.Some? then map["eventTime" := eventTime.value, "s3" := s3] else map["s3" := s3])
  }

  /** The first record of a `Records` list gives the event; a missing size reads as 0 and a missing time as null. */
  lemma ParsesFirstRecord(bucket: Json, key: Json, size: Option<Json>, eventTime: Option<Json>, others: seq<Json>,
                          decode: string -> Option<Json>)
    ensures var body := JObj(map["Records" := JArr([UploadRecord(bucket, key, size, eventTime)] + others)]);
      ParseS3Event(body, decode)
        == Event(S3Event(bucket, key, if size.Some? then size.value else JNum(0), if eventTime.Some? then eventTime.value else JNull))
  {
    var record := UploadRecord(bucket, key, size, eventTime);
    var e := S3Event(bucket, key, if size.Some? then size.value else JNum(0), if eventTime.Some? then eventTime.value else JNull);
    UploadRecordEvent(bucket, key, size, eventTime);
    FirstRecordParses(record, others, e, decode);
  }

  /** A `Records` list whose first record has an `s3` key parses as that record's event. */
  lemma FirstRecordParses(record: Json, others: seq<Json>, e: S3Event, decode: string -> Option<Json>)
    requires record.JObj? && "s3" in record.fields && EventOf(record) == Value(e)
    ensures ParseS3Event(JObj(map["Records" := JArr([record] + others)]), decode) == Event(e)
  {
    assert ([record] + others)[0] == record;
  }

  /** An upload record has an `s3` key and reads as its bucket, key, size (0 when absent) and time (null when absent). */
  lemma UploadRecordEvent(bucket: Json, key: Json, size: Option<Json>, eventTime: Option<Json>)
    ensures UploadRecord(bucket, key, size, eventTime).JObj? && "s3" in UploadRecord(bucket, key, size, eventTime).fields
    ensures EventOf(UploadRecord(bucket, key, size, eventTime))
      == Value(S3Event(bucket, key, if size.Some? then size.value else JNum(0), if eventTime.Some? then eventTime.value else JNull))
  {
  }

  /** An SNS envelope (a `Message` and no `Records`) is decoded and parsed as the body it carries. */
  lemma SnsEnvelopeUnwrapped(body: Json, text: string, inner: Json, decode: string -> Option<Json>)
    requires body.JObj? && "Records" !in body.fields && "Message" in body.fields
    requires body.fields["Message"] == JStr(text) && decode(text) == Some(inner) && inner.JObj?
    ensures ParseS3Event(body, decode) == ParseS3Event(JObj(inner.fields - {"Message"}), decode)
  {
    var stripped := JObj(inner.fields - {"Message"});
    if "Records" !in inner.fields {
      assert "Records" !in stripped.fields;
    } else {
      assert stripped.fields["Records"] == inner.fields["Records"];
    }
  }

  /** A dict without `Records` or `Message`, an empty `Records` list, and a first record without `s3` give no event. */
  lemma NoEventCases(fields: map<string, Json>, first: map<string, Json>, others: seq<Json>, decode: string -> Option<Json>)
    requires "s3" !in first
    ensures "Records" !in fields && "Message" !in fields ==> ParseS3Event(JObj(fields), decode) == NoEvent
    ensures ParseS3Event(JObj(map["Records" := JArr([])]), decode) == NoEvent
    ensures ParseS3Event(JObj(map["Records" := JArr([JObj(first)] + others)]), decode) == NoEvent
  {
    assert ([JObj(first)] + others)[0] == JObj(first);
  }

  // ---------------------------------------------------------------------------
  // _process_document

  /** What downloading the object gives: nothing (None or empty bytes), an exception, or a PDF. */
  datatype Download = NoBytes | DownloadRaises(message: string) | Fetched(reader: Reader, answer: PdfExtractor.TextractAnswer)

  /** The metadata handed to the storage callback. */
  datatype StoreMetadata = StoreMetadata(documentId: string, bucket: Json, key: string, totalPages: int, pdfMetadata: map<string, string>)

  /** The arguments of one call of the storage callback. */
  datatype StoreCall = StoreCall(documentId: string, chunkTexts: seq<string>, vectors: seq<Option<Vector>>, metadata: StoreMetadata)

  /**
   * The callbacks the worker was built with: the embedding callback (its
   * answer for a text, None when it raises), the storage callback (Some
   * message when it raises), and whether a status callback is set.
   */
  datatype Callbacks = Callbacks(
    embed: Option<string -> Option<Vector>>,
    store: Option<StoreCall -> Option<string>>,
    reportStatus: bool)

  /** What `extract_pdf_auto` gives for downloaded bytes, Textract allowed. */
  ghost function AutoContent(reader: Reader, answer: PdfExtractor.TextractAnswer): PdfExtractor.PdfContent {
    if PdfExtractor.HasMeaningfulText(PdfExtractor.PypdfContent(reader, None, true)) then PdfExtractor.PypdfContent(reader, None, true)
    else PdfExtractor.TextractResult(answer, true)
  }

  /** `[c.text for c in chunks]` */
  function ChunkTexts(chunks: seq<TextChunker.TextChunk>): (r: seq<string>)
    ensures |r| == |chunks| && forall i :: 0 <= i < |chunks| ==> r[i] == chunks[i].text
  {
    seq(|chunks|, i requires 0 <= i < |chunks| => chunks[i].text)
  }

  /** One answer of the embedding callback per text, in order. */
  function Embeddings(texts: seq<string>, embed: string -> Option<Vector>): (r: seq<Option<Vector>>)
    ensures |r| == |texts| && forall i :: 0 <= i < |texts| ==> r[i] == embed(texts[i])
  {
    seq(|texts|, i requires 0 <= i < |texts| => embed(texts[i]))
  }

  /** `len([v for v in vectors if v])`: the vectors that are there and not empty. */
  function CountVectors(vectors: seq<Option<Vector>>): (n: int)
    ensures 0 <= n <= |vectors|
  {
    if vectors == [] then 0
    else (if vectors[0].Some? && vectors[0].value != [] then 1 else 0) + CountVectors(vectors[1..])
  }

  /** The chunks of extracted text, at the default window and overlap. */
  function ChunksOfText(text: string): seq<TextChunker.TextChunk> {
    var r := TextChunker.ChunksOf(text, TextChunker.DefaultChunkSize, TextChunker.DefaultOverlap, true);
    if r.Ok? then r.value else []
  }

  /** The vectors of the chunks: the embedding callback's answers, none without a callback or without chunks. */
  function VectorsFor(chunks: seq<TextChunker.TextChunk>, embed: Option<string -> Option<Vector>>): (r: seq<Option<Vector>>)
    ensures r != [] ==> embed.Some? && |r| == |chunks| && forall i :: 0 <= i < |chunks| ==> r[i] == embed.value(chunks[i].text)
    ensures embed.Some? && chunks != [] ==> r != []
  {
    if embed.Some? && chunks != [] then Embeddings(ChunkTexts(chunks), embed.value) else []
  }

  datatype DocumentOutcome = DocumentOutcome(result: ProcessingResult, stored: Option<StoreCall>)

  /** The COMPLETED result for the extracted content, its chunks and their vectors. */
  function CompletedResult(documentId: string, content: PdfExtractor.PdfContent, chunks: seq<TextChunker.TextChunk>,
                           vectors: seq<Option<Vector>>): (r: ProcessingResult)
    ensures r.status == Completed && r.chunksCount == |chunks| && r.totalChars == content.totalChars && r.errorMessage.None?
    ensures r.metadata == Some(ResultMetadata(content.totalPages, CountVectors(vectors)))
  {
    ProcessingResult(documentId, Completed, |chunks|, content.totalChars, None,
                     Some(ResultMetadata(content.totalPages, CountVectors(vectors))))
  }

  /** The storage call for the chunks and their vectors. */
  function StoreCallFor(bucket: Json, key: string, documentId: string, content: PdfExtractor.PdfContent,
                        chunks: seq<TextChunker.TextChunk>, vectors: seq<Option<Vector>>): StoreCall {
    StoreCall(documentId, ChunkTexts(chunks), vectors, StoreMetadata(documentId, bucket, key, content.totalPages, content.metadata))
  }

  /** Embedding and storing the chunks: stored when there is a storage callback and some vectors; FAILED when it raises. */
  function StoreOutcome(bucket: Json, key: string, documentId: string, content: PdfExtractor.PdfContent,
                        chunks: seq<TextChunker.TextChunk>, callbacks: Callbacks): DocumentOutcome {
    var vectors := VectorsFor(chunks, callbacks.embed);
    if callbacks.store.Some? && vectors != [] then
      var call := StoreCallFor(bucket, key, documentId, content, chunks, vectors);
      var raised := callbacks.store.value(call);
      if raised.Some? then DocumentOutcome(FailedResult(documentId, raised.value), Some(call))
      else DocumentOutcome(CompletedResult(documentId, content, chunks, vectors), Some(call))
    else DocumentOutcome(CompletedResult(documentId, content, chunks, vectors), None)
  }

  /** From the extracted content on: FAILED without text, otherwise chunked and stored. */
  function ContentOutcome(bucket: Json, key: string, documentId: string, content: PdfExtractor.PdfContent, callbacks: Callbacks): DocumentOutcome {
    if content.fullText == "" then DocumentOutcome(FailedResult(documentId, "No text extracted from PDF"), None)
    else StoreOutcome(bucket, key, documentId, content, ChunksOfText(content.fullText), callbacks)
  }

  /** What `_process_document` returns, and the storage call it makes. */
  ghost function DocumentResult(bucket: Json, key: string, documentId: string, download: Download, callbacks: Callbacks): DocumentOutcome {
    match download
    case NoBytes => DocumentOutcome(FailedResult(documentId, "Failed to download file from S3"), None)
    case DownloadRaises(message) => DocumentOutcome(FailedResult(documentId, message), None)
    case Fetched(reader, answer) =>
      if PdfDetector.DetectType(reader, PdfDetector.MinCharsPerPage, PdfDetector.SamplePages) == PdfDetector.Unknown then
        DocumentOutcome(FailedResult(documentId, "Unknown PDF type - cannot process"), None)
      else ContentOutcome(bucket, key, documentId, AutoContent(reader, answer), callbacks)
  }

  /**
   * From extracted content on, a document ends COMPLETED or FAILED; a
   * FAILED one has no chunks, characters or metadata and has a message; it
   * completes exactly when there is text and the storage callback, if
   * called, does not raise; a completed one counts its chunks; and the
   * storage callback gets one vector slot per chunk, holding the embedding
   * callback's answer for that chunk.
   */
  lemma ContentOutcomeShape(bucket: Json, key: string, documentId: string, content: PdfExtractor.PdfContent, callbacks: Callbacks)
    ensures var o := ContentOutcome(bucket, key, documentId, content, callbacks);
      && (o.result.status == Completed || o.result.status == Failed)
      && (o.result.status == Failed ==>
            o.result.chunksCount == 0 && o.result.totalChars == 0 && o.result.errorMessage.Some? && o.result.metadata.None?)
      && (o.result.status == Completed <==>
            content.fullText != "" && !(o.stored.Some? && callbacks.store.value(o.stored.value).Some?))
      && (o.result.status == Completed ==> o.result.chunksCount == |ChunksOfText(content.fullText)|)
      && (o.stored.Some? ==>
            && callbacks.embed.Some? && callbacks.store.Some?
            && |o.stored.value.vectors| == |o.stored.value.chunkTexts| > 0
            && forall i :: 0 <= i < |o.stored.value.chunkTexts| ==>
                 o.stored.value.vectors[i] == callbacks.embed.value(o.stored.value.chunkTexts[i]))
  {
    if content.fullText != "" {
      var chunks := ChunksOfText(content.fullText);
      var vectors := VectorsFor(chunks, callbacks.embed);
      if callbacks.store.Some? && vectors != [] {
        var call := StoreCallFor(bucket, key, documentId, content, chunks, vectors);
        assert call.chunkTexts == ChunkTexts(chunks);
      }
    }
  }

  /** A failed document has no chunks, no characters, no metadata, and an error message. */
  lemma FailedDocumentIsEmpty(bucket: Json, key: string, documentId: string, download: Download, callbacks: Callbacks)
    ensures var r := DocumentResult(bucket, key, documentId, download, callbacks).result;
      r.status == Failed ==> r.chunksCount == 0 && r.totalChars == 0 && r.errorMessage.Some? && r.metadata.None?
  {
    if download.Fetched? {
      ContentOutcomeShape(bucket, key, documentId, AutoContent(download.reader, download.answer), callbacks);
    }
  }

  /**
   * A document completes exactly when it was downloaded, its type is known,
   * some text was extracted and the storage callback (if called) did not
   * raise; it never ends PENDING, PROCESSING or SKIPPED, and a completed
   * one counts its chunks.
   */
  lemma CompletedIff(bucket: Json, key: string, documentId: string, download: Download, callbacks: Callbacks)
    ensures var o := DocumentResult(bucket, key, documentId, download, callbacks);
      o.result.status == Completed || o.result.status == Failed
    ensures var o := DocumentResult(bucket, key, documentId, download, callbacks);
      o.result.status == Completed <==>
        && download.Fetched?
        && PdfDetector.DetectType(download.reader, PdfDetector.MinCharsPerPage, PdfDetector.SamplePages) != PdfDetector.Unknown
        && AutoContent(download.reader, download.answer).fullText != ""
        && !(o.stored.Some? && callbacks.store.value(o.stored.value).Some?)
    ensures var o := DocumentResult(bucket, key, documentId, download, callbacks);
      o.result.status == Completed ==>
        o.result.chunksCount == |ChunksOfText(AutoContent(download.reader, download.answer).fullText)|
  {
    if download.Fetched? {
      ContentOutcomeShape(bucket, key, documentId, AutoContent(download.reader, download.answer), callbacks);
    }
  }

  /** The storage callback gets one vector slot per chunk, holding the embedding callback's answer for that chunk. */
  lemma StoredVectorsMatchChunks(bucket: Json, key: string, documentId: string, download: Download, callbacks: Callbacks)
    ensures var o := DocumentResult(bucket, key, documentId, download, callbacks);
      o.stored.Some? ==>
        && callbacks.embed.Some? && callbacks.store.Some?
        && |o.stored.value.vectors| == |o.stored.value.chunkTexts| > 0
        && forall i :: 0 <= i < |o.stored.value.chunkTexts| ==>
             o.stored.value.vectors[i] == callbacks.embed.value(o.stored.value.chunkTexts[i])
  {
    if download.Fetched? {
      ContentOutcomeShape(bucket, key, documentId, AutoContent(download.reader, download.answer), callbacks);
    }
  }

  // ---------------------------------------------------------------------------
  // _process_message

  /** An SQS message: its receipt handle and body, either of which may be missing. */
  datatype Message = Message(receiptHandle: Option<string>, body: Option<string>)

  /** The outside world: `json.loads` (None for a JSONDecodeError) and S3 downloads by bucket and key. */
  datatype Env = Env(decode: string -> Option<Json>, download: (Json, string) -> Download)

  /** The metadata of the final status report. */
  datatype FinalStatus = FinalStatus(chunksCount: int, totalChars: int, errorMessage: Option<string>)

  /** One call of the status callback. */
  datatype StatusUpdate = StatusUpdate(documentId: string, status: string, metadata: Option<FinalStatus>)

  /**
   * What handling one message does: whether it is deleted, whether it
   * counts as processed or as an error, whether an exception escapes to the
   * worker loop, the status reports made and the storage call made.
   */
  datatype Handling = Handling(
    deleted: bool,
    processed: bool,
    failed: bool,
    escapes: bool,
    updates: seq<StatusUpdate>,
    stored: Option<StoreCall>)

  const Escaped := Handling(false, false, false, true, [], None)
  const ErrorKept := Handling(false, false, true, false, [], None)
  const DeletedOnly := Handling(true, false, false, false, [], None)

  /** What handling a message whose document was processed does: the status reports, and delete and count on success. */
  function Handled(documentId: string, o: DocumentOutcome, reportStatus: bool): (h: Handling)
    ensures h.deleted == h.processed == !h.failed == (o.result.status == Completed || o.result.status == Skipped)
    ensures !h.escapes && h.stored == o.stored
  {
    var r := o.result;
    var updates :=
      if reportStatus then
        [StatusUpdate(documentId, StatusValue(Processing), None),
         StatusUpdate(documentId, StatusValue(r.status), Some(FinalStatus(r.chunksCount, r.totalChars, r.errorMessage)))]
      else [];
    var done := r.status == Completed || r.status == Skipped;
    Handling(done, done, !done, false, updates, o.stored)
  }

  /** What `_process_message` does with a message. */
  ghost function HandleMessage(m: Message, env: Env, callbacks: Callbacks): Handling {
    if m.receiptHandle.None? then Escaped
    else if m.body.None? || env.decode(m.body.value).None? then ErrorKept
    else
      match ParseS3Event(env.decode(m.body.value).value, env.decode)
      case ParseRaises => ErrorKept
      case NoEvent => DeletedOnly
      case Event(e) =>
        if !e.key.JStr? then ErrorKept
        else
          var id := ExtractDocumentId(e.key.s);
          Handled(id, DocumentResult(e.bucket, e.key.s, id, env.download(e.bucket, e.key.s), callbacks), callbacks.reportStatus)
  }

  /** A message whose body holds no upload event is deleted, and nothing else happens. */
  lemma InvalidEventDeleted(m: Message, env: Env, callbacks: Callbacks)
    requires m.receiptHandle.Some? && m.body.Some? && env.decode(m.body.value).Some?
    requires ParseS3Event(env.decode(m.body.value).value, env.decode) == NoEvent
    ensures HandleMessage(m, env, callbacks) == DeletedOnly
  {
  }

  /**
   * A message is deleted and counted as processed exactly when its
   * document ends COMPLETED or SKIPPED; otherwise it is kept and counted as
   * an error. A message never counts twice.
   */
  lemma DeletedIffDone(m: Message, env: Env, callbacks: Callbacks)
    requires m.receiptHandle.Some? && m.body.Some? && env.decode(m.body.value).Some?
    requires ParseS3Event(env.decode(m.body.value).value, env.decode).Event?
    requires ParseS3Event(env.decode(m.body.value).value, env.decode).event.key.JStr?
    ensures var e := ParseS3Event(env.decode(m.body.value).value, env.decode).event;
      var r := DocumentResult(e.bucket, e.key.s, ExtractDocumentId(e.key.s), env.download(e.bucket, e.key.s), callbacks).result;
      var h := HandleMessage(m, env, callbacks);
      && (h.deleted <==> r.status == Completed || r.status == Skipped)
      && h.processed == h.deleted && h.failed == !h.deleted && !h.escapes
  {
  }

  /** No message counts both as processed and as an error, and only deleted ones count as processed. */
  lemma CountsExclusive(m: Message, env: Env, callbacks: Callbacks)
    ensures var h := HandleMessage(m, env, callbacks);
      !(h.processed && h.failed) && (h.processed ==> h.deleted) && (h.escapes ==> !h.deleted && !h.processed && !h.failed)
  {
  }

  // ---------------------------------------------------------------------------
  // start

  /** What one receive call gives: messages (none when SQS reports an error), another exception, or an interrupt. */
  datatype Poll = Received(messages: seq<Message>) | PollRaises | Interrupted

  /** The loop's state: the worker's flag and counters, and the iteration count. */
  datatype LoopState = LoopState(running: bool, processed: int, errors: int, iteration: int)

  /** `max_iterations and iteration >= max_iterations`: None and 0 mean no limit. */
  predicate LimitReached(maxIterations: Option<int>, iteration: int) {
    maxIterations.Some? && maxIterations.value != 0 && iteration >= maxIterations.value
  }

  /**
   * The rest of a batch from state `s`, `handle` telling what handling a
   * message does: each message in turn until one lets an exception escape,
   * which counts as an error and ends the batch without an iteration.
   */
  ghost function BatchFrom(ms: seq<Message>, s: LoopState, handle: Message -> Handling): LoopState
    decreases |ms|
  {
    if ms == [] then s.(iteration := s.iteration + 1)
    else
      var h := handle(ms[0]);
      if h.escapes then s.(errors := s.errors + 1)
      else
        BatchFrom(ms[1..], s.(processed := s.processed + (if h.processed then 1 else 0),
                             errors := s.errors + (if h.failed then 1 else 0)), handle)
  }

  /** `BatchFrom` over the messages from `i` on, after handling message `i`. */
  lemma BatchFromStep(ms: seq<Message>, i: nat, s: LoopState, handle: Message -> Handling)
    requires i < |ms|
    ensures var h := handle(ms[i]);
      BatchFrom(ms[i..], s, handle)
        == if h.escapes then s.(errors := s.errors + 1)
           else BatchFrom(ms[i + 1..], s.(processed := s.processed + (if h.processed then 1 else 0),
                                          errors := s.errors + (if h.failed then 1 else 0)), handle)
  {
    assert ms[i..][0] == ms[i] && ms[i..][1..] == ms[i + 1..];
  }

  /** One pass of the loop body for one receive call. */
  ghost function PollStep(poll: Poll, s: LoopState, handle: Message -> Handling): LoopState {
    match poll
    case Interrupted => s.(running := false)
    case PollRaises => s.(errors := s.errors + 1)
    case Received(ms) => if ms == [] then s else BatchFrom(ms, s, handle)
  }

  /** The loop over the remaining receive calls. */
  ghost function RunPolls(polls: seq<Poll>, maxIterations: Option<int>, s: LoopState, handle: Message -> Handling): LoopState
    decreases |polls|
  {
    if !s.running || polls == [] || LimitReached(maxIterations, s.iteration) then s
    else RunPolls(polls[1..], maxIterations, PollStep(polls[0], s, handle), handle)
  }

  /** The receive calls that returned at least one message. */
  function NonEmptyPolls(polls: seq<Poll>): (n: nat)
    ensures n <= |polls|
  {
    if polls == [] then 0 else (if polls[0].Received? && polls[0].messages != [] then 1 else 0) + NonEmptyPolls(polls[1..])
  }

  /** A batch adds at most one iteration and never lowers a counter. */
  lemma {:induction false} BatchBounds(ms: seq<Message>, s: LoopState, handle: Message -> Handling)
    ensures var t := BatchFrom(ms, s, handle);
      && t.running == s.running && s.iteration <= t.iteration <= s.iteration + 1
      && t.processed >= s.processed && t.errors >= s.errors
    decreases |ms|
  {
    if ms != [] {
      var h := handle(ms[0]);
      if !h.escapes {
        BatchBounds(ms[1..], s.(processed := s.processed + (if h.processed then 1 else 0),
                                errors := s.errors + (if h.failed then 1 else 0)), handle);
      }
    }
  }

  /**
   * The loop never lowers a counter, counts at most one iteration per
   * receive call that returned messages, and stops at the iteration limit.
   */
  lemma {:induction false} RunBounds(polls: seq<Poll>, maxIterations: Option<int>, s: LoopState, handle: Message -> Handling)
    ensures var t := RunPolls(polls, maxIterations, s, handle);
      && t.processed >= s.processed && t.errors >= s.errors
      && s.iteration <= t.iteration <= s.iteration + NonEmptyPolls(polls)
      && (maxIterations.Some? && 0 < maxIterations.value && s.iteration <= maxIterations.value ==> t.iteration <= maxIterations.value)
    decreases |polls|
  {
    if s.running && polls != [] && !LimitReached(maxIterations, s.iteration) {
      var next := PollStep(polls[0], s, handle);
      if polls[0].Received? && polls[0].messages != [] {
        BatchBounds(polls[0].messages, s, handle);
      }
      RunBounds(polls[1..], maxIterations, next, handle);
    }
  }

  /** An interrupt stops the loop at once. */
  lemma InterruptStops(polls: seq<Poll>, maxIterations: Option<int>, s: LoopState, handle: Message -> Handling)
    requires polls != [] && polls[0] == Interrupted && s.running && !LimitReached(maxIterations, s.iteration)
    ensures RunPolls(polls, maxIterations, s, handle) == s.(running := false)
  {
    assert RunPolls(polls[1..], maxIterations, s.(running := false), handle) == s.(running := false);
  }

  // ---------------------------------------------------------------------------
  // SQSWorker

  class SqsWorker {
    const queueUrl: string
    const documentsBucket: string
    const region: string
    const callbacks: Callbacks
    var running: bool
    var processedCount: int
    var errorCount: int

    /** A stopped worker with both counters at 0. */
    constructor(queueUrl: string, documentsBucket: string, region: string, callbacks: Callbacks)
      ensures this.queueUrl == queueUrl && this.documentsBucket == documentsBucket && this.region == region
      ensures this.callbacks == callbacks
      ensures !running && processedCount == 0 && errorCount == 0
    {
      this.queueUrl := queueUrl;
      this.documentsBucket := documentsBucket;
      this.region := region;
      this.callbacks := callbacks;
      running := false;
      processedCount := 0;
      errorCount := 0;
    }

    /** `stop` */
    method Stop()
      modifies this
      ensures !running && processedCount == old(processedCount) && errorCount == old(errorCount)
    {
      running := false;
    }

    /** The embedding callback's answer for each chunk, in order. */
    method EmbedChunks(chunks: seq<TextChunker.TextChunk>, embed: string -> Option<Vector>) returns (vectors: seq<Option<Vector>>)
      ensures vectors == Embeddings(ChunkTexts(chunks), embed)
    {
      vectors := [];
      for i := 0 to |chunks|
        invariant |vectors| == i
        invariant forall k :: 0 <= k < i ==> vectors[k] == embed(chunks[k].text)
      {
        vectors := vectors + [embed(chunks[i].text)];
      }
    }

    /** `_process_document` */
    method ProcessDocument(bucket: Json, key: string, documentId: string, download: Download) returns (o: DocumentOutcome)
      ensures o == DocumentResult(bucket, key, documentId, download, callbacks)
    {
      if download.NoBytes? {
        return DocumentOutcome(FailedResult(documentId, "Failed to download file from S3"), None);
      }
      if download.DownloadRaises? {
        return DocumentOutcome(FailedResult(documentId, download.message), None);
      }
      var pdfType := PdfDetector.DetectPdfType(download.reader, PdfDetector.MinCharsPerPage, PdfDetector.SamplePages);
      if pdfType == PdfDetector.Unknown {
        return DocumentOutcome(FailedResult(documentId, "Unknown PDF type - cannot process"), None);
      }
      var content := PdfExtractor.ExtractPdfAuto(PdfExtractor.BytesInput, download.reader, true, download.answer);
      assert content == AutoContent(download.reader, download.answer);
      o := ProcessContent(bucket, key, documentId, content);
    }

    /** The part of `_process_document` after extraction: chunk, embed, store. */
    method ProcessContent(bucket: Json, key: string, documentId: string, content: PdfExtractor.PdfContent) returns (o: DocumentOutcome)
      ensures o == ContentOutcome(bucket, key, documentId, content, callbacks)
    {
      if content.fullText == "" {
        return DocumentOutcome(FailedResult(documentId, "No text extracted from PDF"), None);
      }
      var chunked := TextChunker.ChunkText(content.fullText, TextChunker.DefaultChunkSize, TextChunker.DefaultOverlap, true);
      TextChunker.ChunksOfOutcome(content.fullText, TextChunker.DefaultChunkSize, TextChunker.DefaultOverlap, true);
      var chunks := chunked.value;
      assert chunks == ChunksOfText(content.fullText);
      var vectors: seq<Option<Vector>> := [];
      if callbacks.embed.Some? && chunks != [] {
        vectors := EmbedChunks(chunks, callbacks.embed.value);
      }
      assert vectors == VectorsFor(chunks, callbacks.embed);
      var stored: Option<StoreCall> := None;
      if callbacks.store.Some? && vectors != [] {
        var call := StoreCallFor(bucket, key, documentId, content, chunks, vectors);
        stored := Some(call);
        var raised := callbacks.store.value(call);
        if raised.Some? {
          return DocumentOutcome(FailedResult(documentId, raised.value), stored);
        }
      }
      o := DocumentOutcome(CompletedResult(documentId, content, chunks, vectors), stored);
    }

    /**
     * `_process_message`: the message's disposition and the counter it
     * moves, or an exception (a missing receipt handle) left to the loop.
     */
    method ProcessMessage(m: Message, env: Env) returns (h: Handling)
      modifies this
      ensures h == Handler(env)(m)
      ensures h.escapes ==> !h.processed && !h.failed
      ensures running == old(running)
      ensures processedCount == old(processedCount) + (if h.processed then 1 else 0)
      ensures errorCount == old(errorCount) + (if h.failed then 1 else 0)
    {
      ghost var spec := HandleMessage(m, env, callbacks);
      if m.receiptHandle.None? {
        return Escaped;
      }
      if m.body.None? || env.decode(m.body.value).None? {
        errorCount := errorCount + 1;
        return ErrorKept;
      }
      var event := ParseS3Event(env.decode(m.body.value).value, env.decode);
      if event.ParseRaises? {
        errorCount := errorCount + 1;
        return ErrorKept;
      }
      if event.NoEvent? {
        return DeletedOnly;
      }
      var e := event.event;
      if !e.key.JStr? {
        errorCount := errorCount + 1;
        return ErrorKept;
      }
      var documentId := ExtractDocumentId(e.key.s);
      var updates: seq<StatusUpdate> := [];
      if callbacks.reportStatus {
        updates := updates + [StatusUpdate(documentId, StatusValue(Processing), None)];
      }
      var o := ProcessDocument(e.bucket, e.key.s, documentId, env.download(e.bucket, e.key.s));
      h := Finish(documentId, o, updates);
    }

    /** The end of `_process_message`: the final status report, then delete and count, or count an error. */
    method Finish(documentId: string, o: DocumentOutcome, updates: seq<StatusUpdate>) returns (h: Handling)
      requires updates == if callbacks.reportStatus then [StatusUpdate(documentId, StatusValue(Processing), None)] else []
      modifies this
      ensures h == Handled(documentId, o, callbacks.reportStatus)
      ensures running == old(running)
      ensures processedCount == old(processedCount) + (if h.processed then 1 else 0)
      ensures errorCount == old(errorCount) + (if h.failed then 1 else 0)
    {
      var r := o.result;
      var reports := updates;
      if callbacks.reportStatus {
        reports := reports + [StatusUpdate(documentId, StatusValue(r.status), Some(FinalStatus(r.chunksCount, r.totalChars, r.errorMessage)))];
      }
      var done := r.status == Completed || r.status == Skipped;
      if done {
        processedCount := processedCount + 1;
      } else {
        errorCount := errorCount + 1;
      }
      h := Handling(done, done, !done, false, reports, o.stored);
    }

    /**
     * What `_process_message` does with each message, for this worker's
     * callbacks: the function that agrees with `HandleMessage` everywhere.
     * It is characterised by that agreement rather than written as a lambda,
     * so the loops below can pass it around without unfolding the whole
     * document pipeline at every message they mention.
     */
    ghost function Handler(env: Env): (handle: Message -> Handling)
      ensures forall m {:trigger HandleMessage(m, env, callbacks)} :: handle(m) == HandleMessage(m, env, callbacks)
    {
      var w := (m: Message) => HandleMessage(m, env, callbacks);
      assert forall m {:trigger HandleMessage(m, env, callbacks)} :: w(m) == HandleMessage(m, env, callbacks);
      var handle: Message -> Handling :| forall m {:trigger HandleMessage(m, env, callbacks)} :: handle(m) == HandleMessage(m, env, callbacks);
      handle
    }

    /**
     * `start`: polls until stopped, until the iteration limit is reached,
     * or until the receive calls given run out. Returns the iteration count.
     */
    method Start(maxIterations: Option<int>, polls: seq<Poll>, env: Env) returns (iteration: int)
      modifies this
      ensures LoopState(running, processedCount, errorCount, iteration)
        == RunPolls(polls, maxIterations, LoopState(true, old(processedCount), old(errorCount), 0), Handler(env))
    {
      running := true;
      iteration := 0;
      var p := 0;
      while running && p < |polls|
        invariant 0 <= p <= |polls|
        invariant RunPolls(polls[p..], maxIterations, LoopState(running, processedCount, errorCount, iteration), Handler(env))
          == RunPolls(polls, maxIterations, LoopState(true, old(processedCount), old(errorCount), 0), Handler(env))
        decreases |polls| - p
      {
        if LimitReached(maxIterations, iteration) {
          break;
        }
        ghost var s := LoopState(running, processedCount, errorCount, iteration);
        assert polls[p..][0] == polls[p] && polls[p..][1..] == polls[p + 1..];
        match polls[p] {
          case Interrupted =>
            Stop();
          case PollRaises =>
            errorCount := errorCount + 1;
          case Received(messages) =>
            if messages != [] {
              iteration := ProcessBatch(messages, env, iteration);
            }
        }
        assert LoopState(running, processedCount, errorCount, iteration) == PollStep(polls[p], s, Handler(env));
        p := p + 1;
      }
    }

    /** The for-loop over one batch: the new iteration count, counters moved as `BatchFrom` says. */
    method ProcessBatch(messages: seq<Message>, env: Env, iteration: int) returns (next: int)
      modifies this
      ensures LoopState(running, processedCount, errorCount, next)
        == BatchFrom(messages, LoopState(old(running), old(processedCount), old(errorCount), iteration), Handler(env))
    {
      ghost var handle := Handler(env);
      ghost var target := BatchFrom(messages, LoopState(running, processedCount, errorCount, iteration), handle);
      var escaped := false;
      for i := 0 to |messages|
        invariant running == old(running) && !escaped
        invariant BatchFrom(messages[i..], LoopState(running, processedCount, errorCount, iteration), handle) == target
      {
        ghost var s := LoopState(running, processedCount, errorCount, iteration);
        var h := ProcessMessage(messages[i], env);
        BatchFromStep(messages, i, s, handle);
        if h.escapes {
          errorCount := errorCount + 1;
          escaped := true;
          break;
        }
      }
      if !escaped {
        assert messages[|messages|..] == [];
      }
      next := if escaped then iteration else iteration + 1;
    }
  }

  /** `process_single_document`: a worker without callbacks processes one object. */
  method ProcessSingleDocument(bucket: string, key: string, region: string, download: Download) returns (r: ProcessingResult)
    ensures r == DocumentResult(JStr(bucket), key, ExtractDocumentId(key), download, Callbacks(None, None, false)).result
  {
    var worker := new SqsWorker("", bucket, region, Callbacks(None, None, false));
    var o := worker.ProcessDocument(JStr(bucket), key, ExtractDocumentId(key), download);
    r := o.result;
  }
}
