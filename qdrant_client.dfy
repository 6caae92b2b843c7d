/**
 * The Qdrant vector store: validation and payloads of `upsert_vectors`, its
 * upsert batches, and the filter and result mapping of `search`.  The Qdrant
 * server is an oracle: `accepts` says whether an upsert call returns or
 * raises, `query` answers a search request, and `newId` stands for the
 * `uuid4` drawn for each point.
 */
module QdrantClient {
  import opened Lib

  const CollectionName := "documents"
  const VectorSize := 1024
  const UpsertBatchSize := 100

  type Vector = seq<real>

  /** The payload stored with every point. */
  datatype Payload = Payload(docId: string, chunkIndex: int, page: int, text: string, isTable: bool)

  datatype Point = Point(id: string, vector: Vector, payload: Payload)

  /** The exceptions `upsert_vectors` raises or lets through. */
  datatype UpsertError =
    | LengthMismatch                  // "texts and vectors must have same length"
    | BadDimension(index: nat, dims: nat) // "Vector {i} has {dims} dimensions, expected 1024"
    | UpsertRaised(batch: nat)        // the client's upsert of that batch raised

  // ---------------------------------------------------------------------------
  // Validation and points

  /** The index of the first vector that does not have 1024 components. */
  function FirstBadDimension(vectors: seq<Vector>): (k: Option<nat>)
    ensures k.Some? ==> k.value < |vectors| && |vectors[k.value]| != VectorSize
    ensures k.Some? ==> forall j :: 0 <= j < k.value ==> |vectors[j]| == VectorSize
    ensures k.None? ==> forall j :: 0 <= j < |vectors| ==> |vectors[j]| == VectorSize
  {
    if vectors == [] then None
    else if |vectors[0]| != VectorSize then Some(0)
    else match FirstBadDimension(vectors[1..]) {
      case None => None
      case Some(j) => Some(j + 1)
    }
  }

  /** `pages`, or `[1] * n` when none are given. */
  function PagesOr(pages: Option<seq<int>>, n: nat): seq<int> {
    if pages.Some? then pages.value else seq(n, _ => 1)
  }

  /** `is_tables`, or `[False] * n` when none are given. */
  function TablesOr(isTables: Option<seq<bool>>, n: nat): seq<bool> {
    if isTables.Some? then isTables.value else seq(n, _ => false)
  }

  /** `zip` stops at the shortest of its four lists. */
  function ZipLength(a: nat, b: nat, c: nat, d: nat): (n: nat)
    ensures n <= a && n <= b && n <= c && n <= d
    ensures n == a || n == b || n == c || n == d
  {
    Min(Min(a, b), Min(c, d))
  }

  /** The points built by the `enumerate(zip(...))` loop. */
  function PointsFor(docId: string, texts: seq<string>, vectors: seq<Vector>, pages: seq<int>, isTables: seq<bool>,
                     newId: nat -> string): seq<Point>
  {
    var n := ZipLength(|texts|, |vectors|, |pages|, |isTables|);
    seq(n, i requires 0 <= i < n =>
      Point(newId(i), vectors[i], Payload(docId, i, pages[i], texts[i], isTables[i])))
  }

  /** The points of a call, with the defaults for pages and flags. */
  function UpsertPoints(docId: string, texts: seq<string>, vectors: seq<Vector>,
                        pages: Option<seq<int>>, isTables: Option<seq<bool>>, newId: nat -> string): seq<Point>
  {
    PointsFor(docId, texts, vectors, PagesOr(pages, |texts|), TablesOr(isTables, |texts|), newId)
  }

  /**
   * Without pages and flags there is one point per chunk, numbered by its
   * position, with its text and vector, on page 1 and not a table.
   */
  lemma DefaultPayloads(docId: string, texts: seq<string>, vectors: seq<Vector>, newId: nat -> string)
    requires |texts| == |vectors|
    ensures var points := UpsertPoints(docId, texts, vectors, None, None, newId);
      |points| == |texts| &&
      forall i :: 0 <= i < |points| ==>
        points[i].vector == vectors[i] && points[i].payload == Payload(docId, i, 1, texts[i], false)
  {
  }

  /** Given pages, point `i` is on page `pages[i]`; a shorter list of pages drops the chunks past its end. */
  lemma GivenPages(docId: string, texts: seq<string>, vectors: seq<Vector>, pages: seq<int>, newId: nat -> string)
    requires |texts| == |vectors|
    ensures var points := UpsertPoints(docId, texts, vectors, Some(pages), None, newId);
      |points| == Min(|texts|, |pages|) &&
      forall i :: 0 <= i < |points| ==> points[i].payload.page == pages[i] && points[i].payload.chunkIndex == i
  {
  }

  // ---------------------------------------------------------------------------
  // upsert_vectors

  /**
   * How many leading batches the server accepts: the upsert loop stops at
   * the first batch whose call raises.
   */
  function AcceptedPrefix(batches: seq<seq<Point>>, accepts: seq<Point> -> bool): (k: nat)
    ensures k <= |batches|
    ensures forall j :: 0 <= j < k ==> accepts(batches[j])
    ensures k < |batches| ==> !accepts(batches[k])
  {
    if batches == [] || !accepts(batches[0]) then 0 else 1 + AcceptedPrefix(batches[1..], accepts)
  }

  /**
   * `upsert_vectors`: the length check, then the empty check, then the
   * dimension check over every vector, then the points, upserted in order
   * in batches of 100.  `sent` are the batches handed to the client.
   */
  method UpsertVectors(docId: string, texts: seq<string>, vectors: seq<Vector>,
                       pages: Option<seq<int>>, isTables: Option<seq<bool>>,
                       newId: nat -> string, accepts: seq<Point> -> bool)
    returns (r: Result<nat, UpsertError>, sent: seq<seq<Point>>)
    ensures |texts| != |vectors| ==> r == Err(LengthMismatch) && sent == []
    ensures |texts| == |vectors| && vectors == [] ==> r == Ok(0) && sent == []
    ensures |texts| == |vectors| && FirstBadDimension(vectors).Some? ==>
      r == Err(BadDimension(FirstBadDimension(vectors).value, |vectors[FirstBadDimension(vectors).value]|)) && sent == []
    ensures |texts| == |vectors| && vectors != [] && FirstBadDimension(vectors).None? ==>
      UpsertReturns(UpsertPoints(docId, texts, vectors, pages, isTables, newId), accepts, r, sent)
  {
    if |texts| != |vectors| {
      return Err(LengthMismatch), [];
    }
    if vectors == [] {
      return Ok(0), [];
    }
    // Validate vector dimensions
    for i := 0 to |vectors|
      invariant forall j :: 0 <= j < i ==> |vectors[j]| == VectorSize
    {
      if |vectors[i]| != VectorSize {
        FirstBadIs(vectors, i);
        return Err(BadDimension(i, |vectors[i]|)), [];
      }
    }
    assert FirstBadDimension(vectors).None? by {
      if FirstBadDimension(vectors).Some? {
        assert false;
      }
    }
    var pageList := PagesOr(pages, |texts|);
    var tableList := TablesOr(isTables, |texts|);
    // Create points
    var n := ZipLength(|texts|, |vectors|, |pageList|, |tableList|);
    ghost var all := PointsFor(docId, texts, vectors, pageList, tableList, newId);
    assert |all| == n;
    var points: seq<Point> := [];
    for i := 0 to n
      invariant points == all[..i]
    {
      var p := Point(newId(i), vectors[i], Payload(docId, i, pageList[i], texts[i], tableList[i]));
      assert all[i] == p;
      assert all[..i + 1] == all[..i] + [p];
      points := points + [p];
    }
    assert points == all;
    r, sent := UpsertBatches(points, accepts);
  }

  /**
   * The batch loop from the batches still to send, given those already
   * sent and the count so far: it stops after the first call that raises.
   */
  function UpsertRun(rest: seq<seq<Point>>, accepts: seq<Point> -> bool, sent: seq<seq<Point>>, total: nat)
    : (Result<nat, UpsertError>, seq<seq<Point>>)
  {
    if rest == [] then (Ok(total), sent)
    else if !accepts(rest[0]) then (Err(UpsertRaised(|sent|)), sent + [rest[0]])
    else UpsertRun(rest[1..], accepts, sent + [rest[0]], total + |rest[0]|)
  }

  /** When every batch is accepted, the run sends them all and adds up their lengths. */
  lemma {:induction false} UpsertRunAllAccepted(rest: seq<seq<Point>>, accepts: seq<Point> -> bool, sent: seq<seq<Point>>,
                                                total: nat)
    requires AcceptedPrefix(rest, accepts) == |rest|
    ensures UpsertRun(rest, accepts, sent, total).0 == Ok(total + |Flatten(rest)|)
    ensures UpsertRun(rest, accepts, sent, total).1 == sent + rest
  {
    if rest == [] {
      assert sent + rest == sent;
    } else {
      UpsertRunAllAccepted(rest[1..], accepts, sent + [rest[0]], total + |rest[0]|);
      assert sent + [rest[0]] + rest[1..] == sent + rest;
    }
  }

  /**
   * When some batch is refused, the run sends the batches up to and
   * including the first refused one and reports its index.
   */
  lemma {:induction false} UpsertRunRefused(rest: seq<seq<Point>>, accepts: seq<Point> -> bool, sent: seq<seq<Point>>,
                                            total: nat)
    requires AcceptedPrefix(rest, accepts) < |rest|
    ensures UpsertRun(rest, accepts, sent, total).0 == Err(UpsertRaised(|sent| + AcceptedPrefix(rest, accepts)))
    ensures UpsertRun(rest, accepts, sent, total).1 == sent + rest[..AcceptedPrefix(rest, accepts) + 1]
  {
    if !accepts(rest[0]) {
      assert rest[..1] == [rest[0]];
    } else {
      var k := AcceptedPrefix(rest, accepts);
      UpsertRunRefused(rest[1..], accepts, sent + [rest[0]], total + |rest[0]|);
      assert AcceptedPrefix(rest[1..], accepts) == k - 1;
      assert [rest[0]] + rest[1..][..k] == rest[..k + 1];
      assert sent + [rest[0]] + rest[1..][..k] == sent + rest[..k + 1];
    }
  }

  /** One batch off the front of the run. */
  lemma UpsertRunStep(batch: seq<Point>, tail: seq<seq<Point>>, accepts: seq<Point> -> bool, sent: seq<seq<Point>>, total: nat)
    ensures accepts(batch) ==>
      UpsertRun([batch] + tail, accepts, sent, total) == UpsertRun(tail, accepts, sent + [batch], total + |batch|)
    ensures !accepts(batch) ==>
      UpsertRun([batch] + tail, accepts, sent, total) == (Err(UpsertRaised(|sent|)), sent + [batch])
  {
    assert ([batch] + tail)[0] == batch;
    assert ([batch] + tail)[1..] == tail;
  }

  /** What the whole run of a call returns, in terms of the accepted batches. */
  predicate UpsertReturns(points: seq<Point>, accepts: seq<Point> -> bool, r: Result<nat, UpsertError>, sent: seq<seq<Point>>)
    requires UpsertBatchSize > 0
  {
    var batches := Batches(points, UpsertBatchSize);
    var k := AcceptedPrefix(batches, accepts);
    (k == |batches| ==> r == Ok(|points|) && sent == batches) &&
    (k < |batches| ==> r == Err(UpsertRaised(k)) && sent == batches[..k + 1])
  }

  /** A run from nothing sent: every batch and the total, or the batches up to the first refused one and its index. */
  lemma UpsertRunFromStart(batches: seq<seq<Point>>, accepts: seq<Point> -> bool, r: Result<nat, UpsertError>,
                           sent: seq<seq<Point>>)
    requires (r, sent) == UpsertRun(batches, accepts, [], 0)
    ensures AcceptedPrefix(batches, accepts) == |batches| ==> r == Ok(|Flatten(batches)|) && sent == batches
    ensures AcceptedPrefix(batches, accepts) < |batches| ==>
      r == Err(UpsertRaised(AcceptedPrefix(batches, accepts))) && sent == batches[..AcceptedPrefix(batches, accepts) + 1]
  {
    var k := AcceptedPrefix(batches, accepts);
    if k < |batches| {
      UpsertRunRefused(batches, accepts, [], 0);
      assert [] + batches[..k + 1] == batches[..k + 1];
    } else {
      UpsertRunAllAccepted(batches, accepts, [], 0);
      assert [] + batches == batches;
    }
  }

  lemma UpsertRunReturns(points: seq<Point>, accepts: seq<Point> -> bool, r: Result<nat, UpsertError>, sent: seq<seq<Point>>)
    requires (r, sent) == UpsertRun(Batches(points, UpsertBatchSize), accepts, [], 0)
    ensures UpsertReturns(points, accepts, r, sent)
  {
    UpsertRunFromStart(Batches(points, UpsertBatchSize), accepts, r, sent);
    FlattenBatches(points, UpsertBatchSize);
  }

  /** The batch loop of `upsert_vectors`, adding up `len(batch)` per accepted call. */
  method UpsertBatches(points: seq<Point>, accepts: seq<Point> -> bool)
    returns (r: Result<nat, UpsertError>, sent: seq<seq<Point>>)
    ensures UpsertReturns(points, accepts, r, sent)
  {
    ghost var run := UpsertRun(Batches(points, UpsertBatchSize), accepts, [], 0);
    var total: nat := 0;
    sent := [];
    var i := 0;
    assert points[0..] == points;
    while i < |points|
      invariant i <= |points|
      invariant run == UpsertRun(Batches(points[i..], UpsertBatchSize), accepts, sent, total)
      decreases |points| - i
    {
      var hi := Min(i + UpsertBatchSize, |points|);
      var batch := points[i..hi];
      BatchesFrom(points, UpsertBatchSize, i);
      UpsertRunStep(batch, Batches(points[hi..], UpsertBatchSize), accepts, sent, total);
      if !accepts(batch) {
        r, sent := Err(UpsertRaised(|sent|)), sent + [batch];
        UpsertRunReturns(points, accepts, r, sent);
        return;
      }
      total := total + |batch|;
      sent := sent + [batch];
      i := hi;
    }
    assert points[i..] == [];
    r := Ok(total);
    UpsertRunReturns(points, accepts, r, sent);
  }

  /** The dimension loop stops at the first bad vector, which is what FirstBadDimension names. */
  lemma {:induction false} FirstBadIs(vectors: seq<Vector>, i: nat)
    requires i < |vectors| && |vectors[i]| != VectorSize
    requires forall j :: 0 <= j < i ==> |vectors[j]| == VectorSize
    ensures FirstBadDimension(vectors) == Some(i)
  {
    if i > 0 {
      assert |vectors[0]| == VectorSize;
      FirstBadIs(vectors[1..], i - 1);
    }
  }

  /**
   * All batches accepted: the count returned is the number of points, the
   * batches hold the points in order, and none exceeds 100.
   */
  lemma UpsertedInOrder(points: seq<Point>, accepts: seq<Point> -> bool)
    requires AcceptedPrefix(Batches(points, UpsertBatchSize), accepts) == |Batches(points, UpsertBatchSize)|
    ensures Flatten(Batches(points, UpsertBatchSize)) == points
    ensures forall j :: 0 <= j < |Batches(points, UpsertBatchSize)| ==> 0 < |Batches(points, UpsertBatchSize)[j]| <= UpsertBatchSize
  {
    FlattenBatches(points, UpsertBatchSize);
  }

  // ---------------------------------------------------------------------------
  // search

  /** A stored payload as the server returns it; a key may be missing. */
  datatype StoredPayload = StoredPayload(docId: Option<string>, chunkIndex: Option<int>, page: Option<int>,
                                         text: Option<string>, isTable: Option<bool>)

  /** One scored point of `query_points`; its payload may be absent. */
  datatype Hit = Hit(id: string, score: real, payload: Option<StoredPayload>)

  datatype SearchResult = SearchResult(id: string, score: real, docId: string, chunkIndex: int, page: int,
                                       text: string, isTable: bool)

  /** The arguments of the `query_points` call. */
  datatype SearchQuery = SearchQuery(query: Vector, limit: int, docFilter: Option<string>, scoreThreshold: real)

  datatype SearchError = QueryDimension(dims: nat) // "Query vector has {dims} dimensions, expected 1024"

  /** The `doc_id` filter: only for a truthy (given, non-empty) document id. */
  function FilterFor(docId: Option<string>): (f: Option<string>)
    ensures f.Some? <==> docId.Some? && docId.value != ""
    ensures f.Some? ==> f == docId
  {
    if docId.Some? && docId.value != "" then docId else None
  }

  /** One hit as a SearchResult, with the defaults "", 0, 1, "" and false. */
  function ResultOf(h: Hit): SearchResult {
    var p := if h.payload.Some? then h.payload.value else StoredPayload(None, None, None, None, None);
    SearchResult(h.id, h.score,
                 if p.docId.Some? then p.docId.value else "",
                 if p.chunkIndex.Some? then p.chunkIndex.value else 0,
                 if p.page.Some? then p.page.value else 1,
                 if p.text.Some? then p.text.value else "",
                 if p.isTable.Some? then p.isTable.value else false)
  }

  /** A hit without a payload maps to the defaults; every hit keeps its id and score. */
  lemma ResultDefaults(h: Hit)
    ensures ResultOf(h).id == h.id && ResultOf(h).score == h.score
    ensures h.payload.None? ==> ResultOf(h) == SearchResult(h.id, h.score, "", 0, 1, "", false)
    ensures h.payload.Some? && h.payload.value.page.Some? ==> ResultOf(h).page == h.payload.value.page.value
  {
  }

  /**
   * `search`: a query vector without 1024 components raises before any call;
   * otherwise one `query_points` call with the filter, the limit and the
   * threshold, and one result per hit, in order.
   */
  method Search(queryVector: Vector, topK: int, docId: Option<string>, scoreThreshold: real,
                query: SearchQuery -> seq<Hit>)
    returns (r: Result<seq<SearchResult>, SearchError>, request: Option<SearchQuery>)
    ensures |queryVector| != VectorSize ==> r == Err(QueryDimension(|queryVector|)) && request == None
    ensures |queryVector| == VectorSize ==>
      request == Some(SearchQuery(queryVector, topK, FilterFor(docId), scoreThreshold)) &&
      r == Ok(MapSeq(ResultOf, query(request.value)))
  {
    if |queryVector| != VectorSize {
      return Err(QueryDimension(|queryVector|)), None;
    }
    var q := SearchQuery(queryVector, topK, FilterFor(docId), scoreThreshold);
    var hits := query(q);
    var results: seq<SearchResult> := [];
    for i := 0 to |hits|
      invariant results == MapSeq(ResultOf, hits[..i])
    {
      assert hits[..i + 1] == hits[..i] + [hits[i]];
      MapSeqAppend(ResultOf, hits[..i], hits[i]);
      results := results + [ResultOf(hits[i])];
    }
    assert hits[..|hits|] == hits;
    return Ok(results), Some(q);
  }
}
