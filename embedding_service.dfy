/**
 * The Cohere embedding service (`CohereEmbeddingService`) used by the
 * worker: texts are cut to 2000 characters and sent in batches of 96; a
 * failed call gives None instead of raising.
 *
 * The Bedrock client is an oracle `invoke(request)`: what one
 * `invoke_model` call with that body answers.
 */
module EmbeddingService {
  import opened Lib

  const MaxTextLength: nat := 2000
  const BatchSize: nat := 96
  const DefaultInputType: string := "search_document"

  type Vector = seq<real>

  /** The JSON body of one `invoke_model` call. */
  datatype EmbedRequest = EmbedRequest(texts: seq<string>, inputType: string)

  /** The `embeddings` list of an answer, or any exception the call raised. */
  datatype Reply = Answer(embeddings: seq<Vector>) | Failed

  /** `t[:2000] if len(t) > 2000 else t`. */
  function Truncate(t: string): (r: string)
    ensures |r| <= MaxTextLength && r <= t
    ensures r == t <==> |t| <= MaxTextLength
    ensures |t| > MaxTextLength ==> |r| == MaxTextLength
  {
    if |t| > MaxTextLength then t[..MaxTextLength] else t
  }

  /** The body `embed_text` sends: the one text, cut to 2000 characters. */
  function TextRequest(text: string, inputType: string): (req: EmbedRequest)
    ensures |req.texts| == 1 && req.texts[0] == Truncate(text) && req.inputType == inputType
  {
    EmbedRequest([Truncate(text)], inputType)
  }

  /** `embed_text`: the first embedding of the answer; None when the call failed or returned none. */
  function EmbedText(invoke: EmbedRequest -> Reply, text: string, inputType: string): (r: Option<Vector>)
    ensures r.Some? <==> invoke(TextRequest(text, inputType)).Answer? && |invoke(TextRequest(text, inputType)).embeddings| > 0
    ensures r.Some? ==> r.value == invoke(TextRequest(text, inputType)).embeddings[0]
  {
    match invoke(TextRequest(text, inputType))
    case Answer(embeddings) => if |embeddings| > 0 then Some(embeddings[0]) else None
    case Failed => None
  }

  /** The body sent for one batch: every text of it cut to 2000 characters. */
  function BatchRequest(inputType: string, batch: seq<string>): (req: EmbedRequest)
    ensures |req.texts| == |batch| && req.inputType == inputType
    ensures forall k :: 0 <= k < |batch| ==> req.texts[k] == Truncate(batch[k])
  {
    EmbedRequest(MapSeq(Truncate, batch), inputType)
  }

  /** What one batch adds to the result: the returned embeddings, or one None per text when the call failed. */
  function BatchResult(invoke: EmbedRequest -> Reply, inputType: string, batch: seq<string>): (r: seq<Option<Vector>>)
    ensures invoke(BatchRequest(inputType, batch)).Failed? ==> |r| == |batch| && forall k :: 0 <= k < |r| ==> r[k] == None
    ensures invoke(BatchRequest(inputType, batch)).Answer? ==>
      |r| == |invoke(BatchRequest(inputType, batch)).embeddings| &&
      forall k :: 0 <= k < |r| ==> r[k] == Some(invoke(BatchRequest(inputType, batch)).embeddings[k])
  {
    match invoke(BatchRequest(inputType, batch))
    case Answer(embeddings) => MapSeq((v: Vector) => Some(v), embeddings)
    case Failed => seq(|batch|, _ => None)
  }

  /** `embed_texts` with its batch loop; `sent` are the bodies of the calls made, in order. */
  method EmbedTexts(invoke: EmbedRequest -> Reply, texts: seq<string>, inputType: string)
    returns (all: seq<Option<Vector>>, sent: seq<EmbedRequest>)
    ensures all == ConcatMap((b: seq<string>) => BatchResult(invoke, inputType, b), Batches(texts, BatchSize))
    ensures sent == MapSeq((b: seq<string>) => BatchRequest(inputType, b), Batches(texts, BatchSize))
  {
    ghost var result := (b: seq<string>) => BatchResult(invoke, inputType, b);
    ghost var request := (b: seq<string>) => BatchRequest(inputType, b);
    if |texts| == 0 {
      return [], [];
    }
    all := [];
    sent := [];
    ghost var done: seq<seq<string>> := [];
    var i := 0;
    while i < |texts|
      invariant i <= |texts|
      invariant Batches(texts, BatchSize) == done + Batches(texts[i..], BatchSize)
      invariant all == ConcatMap(result, done)
      invariant sent == MapSeq(request, done)
      decreases |texts| - i
    {
      var hi := Min(i + BatchSize, |texts|);
      var batch := texts[i..hi];
      BatchesStep(texts, BatchSize, i, done);
      var req := EmbedRequest(MapSeq(Truncate, batch), inputType);
      var reply := invoke(req);
      match reply {
        case Answer(embeddings) =>
          all := all + MapSeq((v: Vector) => Some(v), embeddings);
        case Failed =>
          all := all + seq(|batch|, _ => None);
      }
      assert all == ConcatMap(result, done) + result(batch);
      ConcatMapAppend(result, done, batch);
      MapSeqAppend(request, done, batch);
      sent := sent + [req];
      done := done + [batch];
      i := hi;
    }
    assert texts[i..] == [];
    assert done + [] == done;
  }

  /** No texts: no result and no call. */
  lemma NoTextsNoCalls(invoke: EmbedRequest -> Reply, inputType: string)
    ensures ConcatMap((b: seq<string>) => BatchResult(invoke, inputType, b), Batches([], BatchSize)) == []
    ensures MapSeq((b: seq<string>) => BatchRequest(inputType, b), Batches([], BatchSize)) == []
  {
  }

  /** A body within Cohere's limits: 1 to 96 texts of at most 2000 characters. */
  predicate WithinLimits(req: EmbedRequest) {
    0 < |req.texts| <= BatchSize && forall k :: 0 <= k < |req.texts| ==> |req.texts[k]| <= MaxTextLength
  }

  /** Every body sent is within the limits. */
  lemma RequestsWithinLimits(texts: seq<string>, inputType: string)
    ensures forall j :: 0 <= j < |Batches(texts, BatchSize)| ==> WithinLimits(BatchRequest(inputType, Batches(texts, BatchSize)[j]))
  {
    var bs := Batches(texts, BatchSize);
    forall j | 0 <= j < |bs|
      ensures WithinLimits(BatchRequest(inputType, bs[j]))
    {
      var req := BatchRequest(inputType, bs[j]);
      assert 0 < |bs[j]| <= BatchSize;
      forall k | 0 <= k < |req.texts|
        ensures |req.texts[k]| <= MaxTextLength
      {
        assert req.texts[k] == Truncate(bs[j][k]);
      }
    }
  }

  /** The bodies together hold every text, cut, once and in order. */
  lemma RequestsCoverTexts(texts: seq<string>, inputType: string)
    ensures ConcatMap((b: seq<string>) => BatchRequest(inputType, b).texts, Batches(texts, BatchSize)) == MapSeq(Truncate, texts)
  {
    TruncatedConcat(Batches(texts, BatchSize), inputType);
    FlattenBatches(texts, BatchSize);
  }

  lemma {:induction false} TruncatedConcat(bs: seq<seq<string>>, inputType: string)
    ensures ConcatMap((b: seq<string>) => BatchRequest(inputType, b).texts, bs) == MapSeq(Truncate, Flatten(bs))
  {
    if bs != [] {
      TruncatedConcat(bs[1..], inputType);
      MapSeqConcat(Truncate, bs[0], Flatten(bs[1..]));
      assert BatchRequest(inputType, bs[0]).texts == MapSeq(Truncate, bs[0]);
    }
  }

  /**
   * When every answer holds one embedding per text, the result has one
   * entry per input text.
   */
  lemma AlignedWhenAnswersComplete(invoke: EmbedRequest -> Reply, texts: seq<string>, inputType: string)
    requires forall b :: invoke(BatchRequest(inputType, b)).Answer? ==> |invoke(BatchRequest(inputType, b)).embeddings| == |b|
    ensures |ConcatMap((b: seq<string>) => BatchResult(invoke, inputType, b), Batches(texts, BatchSize))| == |texts|
  {
    var result := (b: seq<string>) => BatchResult(invoke, inputType, b);
    var bs := Batches(texts, BatchSize);
    forall i | 0 <= i < |bs|
      ensures |result(bs[i])| == |bs[i]|
    {
      if invoke(BatchRequest(inputType, bs[i])).Answer? {
        assert |invoke(BatchRequest(inputType, bs[i])).embeddings| == |bs[i]|;
      }
    }
    ConcatMapLength(result, bs);
    FlattenBatches(texts, BatchSize);
  }

  predicate AllNone(r: seq<Option<Vector>>) {
    forall k :: 0 <= k < |r| ==> r[k] == None
  }

  /** When every call fails, the result is one None per text. */
  lemma {:induction false} AllFailedAllNone(invoke: EmbedRequest -> Reply, bs: seq<seq<string>>, inputType: string)
    requires forall b :: invoke(BatchRequest(inputType, b)).Failed?
    ensures |ConcatMap((b: seq<string>) => BatchResult(invoke, inputType, b), bs)| == |Flatten(bs)|
    ensures AllNone(ConcatMap((b: seq<string>) => BatchResult(invoke, inputType, b), bs))
  {
    if bs != [] {
      assert invoke(BatchRequest(inputType, bs[0])).Failed?;
      AllFailedAllNone(invoke, bs[1..], inputType);
    }
  }

  /** `create_embedding_callback`: `embed_text` with the default input type. */
  function Callback(invoke: EmbedRequest -> Reply): (callback: string -> Option<Vector>)
    ensures forall text :: callback(text) == EmbedText(invoke, text, DefaultInputType)
  {
    text => EmbedText(invoke, text, DefaultInputType)
  }
}
