/**
 * The Bedrock embeddings service (`EmbeddingsService`): texts are embedded
 * in batches of 25, each batch retried up to five times on throttling.
 *
 * The Bedrock client is an oracle `service(request, attempt)`: the reply to
 * the `attempt`-th try of a request. `time.sleep` is left out; the delays the
 * loop would sleep are returned instead.
 */
module EmbeddingsService {
  import opened Lib

  const BatchSize: nat := 25
  const VectorSize: nat := 1024
  const MaxRetries: nat := 5

  type Vector = seq<real>

  /** The JSON body of one `invoke_model` call. */
  datatype EmbedRequest = EmbedRequest(texts: seq<string>, inputType: string)

  /** What one `invoke_model` call does: the `embeddings` list of the answer, a ClientError (its code, "" when absent), or another exception. */
  datatype Response = Embedded(embeddings: seq<Vector>) | ClientFailure(code: string) | OtherFailure(message: string)

  /** A raised exception: one a call raised, or the final "Failed to embed query" of `embed_query`. */
  datatype Failure = Propagated(error: Response) | QueryRetriesExhausted

  /** The ClientError codes that count as throttling. */
  const ThrottlingCodes: set<string> := {"ThrottlingException", "TooManyRequestsException"}

  predicate Throttled(r: Response) {
    r.ClientFailure? && r.code in ThrottlingCodes
  }

  predicate BatchRetried(r: Response) {
    Throttled(r) || r.OtherFailure?
  }

  function Pow2(n: nat): (p: nat)
    ensures p >= 1
  {
    if n == 0 then 1 else 2 * Pow2(n - 1)
  }

  /**
   * The state of a five-try retry loop when it stops: the reply that ended it
   * (None when every attempt was retried), the calls made, the sleeps taken
   * and the last reply seen (`last_error`).
   */
  datatype AttemptRun = AttemptRun(final: Option<Response>, calls: nat, delays: seq<int>, last: Option<Response>)

  /**
   * The retry loop run on from `attempt`, with `calls`, `delays` and `last`
   * the loop's variables so far. A reply that `retried` rejects ends the
   * loop; a retried one sleeps `2 ** attempt` and tries again. Throttling is
   * retried by both loops, other exceptions only by `_embed_batch_with_retry`.
   */
  function Attempts(service: (EmbedRequest, nat) -> Response, request: EmbedRequest, retried: Response -> bool,
                    attempt: nat, calls: nat, delays: seq<int>, last: Option<Response>): (run: AttemptRun)
    ensures run.calls >= calls
    decreases MaxRetries - attempt
  {
    if attempt >= MaxRetries then AttemptRun(None, calls, delays, last)
    else
      var reply := service(request, attempt);
      if !retried(reply) then AttemptRun(Some(reply), calls + 1, delays, Some(reply))
      else Attempts(service, request, retried, attempt + 1, calls + 1, delays + [Pow2(attempt)], Some(reply))
  }

  /** The whole loop, from its first attempt. */
  function Run(service: (EmbedRequest, nat) -> Response, request: EmbedRequest, retried: Response -> bool): (run: AttemptRun)
    ensures run.calls >= 1
  {
    Attempts(service, request, retried, 0, 0, [], None)
  }

  /**
   * What a finished loop looks like: one to five calls; a sleep of `2 ** i`
   * after every retried attempt `i` and after no other; the reply that ended
   * it is the last call's and was not retried; when every attempt was
   * retried there were five calls and the last error is the fifth reply.
   */
  predicate Finished(service: (EmbedRequest, nat) -> Response, request: EmbedRequest, retried: Response -> bool, run: AttemptRun) {
    && 1 <= run.calls <= MaxRetries
    && |run.delays| == (if run.final.None? then run.calls else run.calls - 1)
    && (forall i :: 0 <= i < |run.delays| ==> run.delays[i] == Pow2(i) && retried(service(request, i)))
    && (run.final.Some? ==> run.final.value == service(request, run.calls - 1) && !retried(run.final.value))
    && (run.final.None? ==> run.calls == MaxRetries && run.last == Some(service(request, MaxRetries - 1)))
  }

  lemma {:induction false} AttemptsFinish(service: (EmbedRequest, nat) -> Response, request: EmbedRequest,
                                          retried: Response -> bool, attempt: nat, delays: seq<int>, last: Option<Response>)
    requires attempt <= MaxRetries && |delays| == attempt
    requires forall i :: 0 <= i < attempt ==> delays[i] == Pow2(i) && retried(service(request, i))
    requires attempt == 0 ==> last == None
    requires attempt > 0 ==> last == Some(service(request, attempt - 1))
    ensures Finished(service, request, retried, Attempts(service, request, retried, attempt, attempt, delays, last))
    decreases MaxRetries - attempt
  {
    if attempt < MaxRetries {
      var reply := service(request, attempt);
      if retried(reply) {
        var next := delays + [Pow2(attempt)];
        assert forall i :: 0 <= i < attempt + 1 ==> next[i] == Pow2(i) && retried(service(request, i)) by {
          forall i | 0 <= i < attempt + 1
            ensures next[i] == Pow2(i) && retried(service(request, i))
          {
            if i < attempt {
              assert next[i] == delays[i];
            }
          }
        }
        AttemptsFinish(service, request, retried, attempt + 1, next, Some(reply));
      }
    }
  }

  /** Every loop, run from its first attempt, finishes in that shape. */
  lemma RunFinishes(service: (EmbedRequest, nat) -> Response, request: EmbedRequest, retried: Response -> bool)
    ensures Finished(service, request, retried, Run(service, request, retried))
  {
    AttemptsFinish(service, request, retried, 0, [], None);
  }

  /** The first reply the loop does not retry decides it, after `k + 1` calls. */
  lemma {:induction false} FirstUnretriedDecides(service: (EmbedRequest, nat) -> Response, request: EmbedRequest,
                                                 retried: Response -> bool, attempt: nat, calls: nat,
                                                 delays: seq<int>, last: Option<Response>, k: nat)
    requires attempt <= k < MaxRetries
    requires forall a :: attempt <= a < k ==> retried(service(request, a))
    requires !retried(service(request, k))
    ensures Attempts(service, request, retried, attempt, calls, delays, last).final == Some(service(request, k))
    ensures Attempts(service, request, retried, attempt, calls, delays, last).calls == calls + (k + 1 - attempt)
    decreases MaxRetries - attempt
  {
    if attempt < k {
      assert retried(service(request, attempt));
      FirstUnretriedDecides(service, request, retried, attempt + 1, calls + 1, delays + [Pow2(attempt)],
                            Some(service(request, attempt)), k);
    }
  }

  /** A loop whose every reply is retried gives up after the fifth. */
  lemma {:induction false} AllRetriedExhausts(service: (EmbedRequest, nat) -> Response, request: EmbedRequest,
                                              retried: Response -> bool, attempt: nat, calls: nat,
                                              delays: seq<int>, last: Option<Response>)
    requires attempt <= MaxRetries
    requires forall a :: attempt <= a < MaxRetries ==> retried(service(request, a))
    ensures Attempts(service, request, retried, attempt, calls, delays, last).final == None
    ensures Attempts(service, request, retried, attempt, calls, delays, last).calls == calls + (MaxRetries - attempt)
    decreases MaxRetries - attempt
  {
    if attempt < MaxRetries {
      assert retried(service(request, attempt));
      AllRetriedExhausts(service, request, retried, attempt + 1, calls + 1, delays + [Pow2(attempt)],
                         Some(service(request, attempt)));
    }
  }

  /** `_embed_batch_with_retry`: the first reply that is not retried decides; after five retried ones the last error is re-raised. */
  function BatchOutcome(service: (EmbedRequest, nat) -> Response, request: EmbedRequest): (r: Result<seq<Vector>, Failure>)
    ensures r.Err? ==> r.error.Propagated? && !r.error.error.Embedded?
  {
    var run := Run(service, request, BatchRetried);
    match run.final
    case None => Err(Propagated(service(request, MaxRetries - 1)))
    case Some(Embedded(e)) => Ok(e)
    case Some(failure) => Err(Propagated(failure))
  }

  /** `_embed_batch_with_retry` with its `for attempt in range(MAX_RETRIES)` loop. */
  method EmbedBatchWithRetry(service: (EmbedRequest, nat) -> Response, texts: seq<string>)
    returns (r: Result<seq<Vector>, Failure>, calls: nat, delays: seq<int>)
    ensures r == BatchOutcome(service, EmbedRequest(texts, "search_document"))
    ensures calls == Run(service, EmbedRequest(texts, "search_document"), BatchRetried).calls
    ensures delays == Run(service, EmbedRequest(texts, "search_document"), BatchRetried).delays
  {
    var request := EmbedRequest(texts, "search_document");
    RunFinishes(service, request, BatchRetried);
    var lastError: Option<Response> := None;
    calls := 0;
    delays := [];
    var attempt: nat := 0;
    while attempt < MaxRetries
      invariant attempt <= MaxRetries
      invariant Run(service, request, BatchRetried) == Attempts(service, request, BatchRetried, attempt, calls, delays, lastError)
    {
      calls := calls + 1;
      var reply := service(request, attempt);
      if reply.Embedded? {
        return Ok(reply.embeddings), calls, delays;
      }
      lastError := Some(reply);
      if !BatchRetried(reply) {
        return Err(Propagated(reply)), calls, delays;
      }
      delays := delays + [Pow2(attempt)];
      attempt := attempt + 1;
    }
    r := Err(Propagated(lastError.value));
  }

  /** A non-throttling ClientError on the first try is raised after that one call. */
  lemma ClientErrorNotRetried(service: (EmbedRequest, nat) -> Response, request: EmbedRequest)
    requires service(request, 0).ClientFailure? && !Throttled(service(request, 0))
    ensures Run(service, request, BatchRetried).calls == 1
    ensures BatchOutcome(service, request) == Err(Propagated(service(request, 0)))
  {
    FirstUnretriedDecides(service, request, BatchRetried, 0, 0, [], None, 0);
  }

  /** Five throttled replies: five calls, sleeps of 1, 2, 4, 8 and 16 seconds, and the fifth error re-raised. */
  lemma ThrottledFiveTimes(service: (EmbedRequest, nat) -> Response, request: EmbedRequest)
    requires forall a :: 0 <= a < MaxRetries ==> Throttled(service(request, a))
    ensures Run(service, request, BatchRetried) == AttemptRun(None, 5, [1, 2, 4, 8, 16], Some(service(request, 4)))
    ensures BatchOutcome(service, request) == Err(Propagated(service(request, 4)))
  {
    assert BatchRetried(service(request, 0)) && BatchRetried(service(request, 1)) && BatchRetried(service(request, 2));
    assert BatchRetried(service(request, 3)) && BatchRetried(service(request, 4));
  }

  /** The retry loop of one batch, as a function of the batch's texts. */
  function BatchOf(service: (EmbedRequest, nat) -> Response): (outcome: seq<string> -> Result<seq<Vector>, Failure>)
    ensures forall b :: outcome(b) == BatchOutcome(service, EmbedRequest(b, "search_document"))
  {
    b => BatchOutcome(service, EmbedRequest(b, "search_document"))
  }

  /** What `embed_texts` does with its batches: the embeddings of every batch in order, or the first failing batch's exception. */
  function EmbedAll(outcome: seq<string> -> Result<seq<Vector>, Failure>, batches: seq<seq<string>>): (r: Result<seq<Vector>, Failure>)
    ensures r.Ok? <==> forall i :: 0 <= i < |batches| ==> outcome(batches[i]).Ok?
    ensures r.Err? ==> exists i :: 0 <= i < |batches| && outcome(batches[i]) == r
  {
    if batches == [] then Ok([])
    else
      match outcome(batches[0])
      case Err(e) => Err(e)
      case Ok(first) =>
        match EmbedAll(outcome, batches[1..])
        case Err(e) =>
          ghost var i :| 0 <= i < |batches[1..]| && outcome(batches[1..][i]) == Err(e);
          assert outcome(batches[i + 1]) == Err(e);
          Err(e)
        case Ok(rest) => Ok(first + rest)
  }

  lemma {:induction false} EmbedAllAppend(outcome: seq<string> -> Result<seq<Vector>, Failure>, done: seq<seq<string>>,
                                           b: seq<string>, acc: seq<Vector>)
    requires EmbedAll(outcome, done) == Ok(acc)
    ensures EmbedAll(outcome, done + [b]) ==
      match outcome(b)
      case Err(e) => Err(e)
      case Ok(e) => Ok(acc + e)
  {
    if done == [] {
      assert done + [b] == [b];
      assert [b][1..] == [];
      assert acc == [];
      if outcome(b).Ok? {
        assert outcome(b).value + [] == acc + outcome(b).value;
      }
    } else {
      assert (done + [b])[0] == done[0];
      assert (done + [b])[1..] == done[1..] + [b];
      var first := outcome(done[0]).value;
      var rest := EmbedAll(outcome, done[1..]).value;
      assert acc == first + rest;
      EmbedAllAppend(outcome, done[1..], b, rest);
      if outcome(b).Ok? {
        assert acc + outcome(b).value == first + (rest + outcome(b).value);
      }
    }
  }

  lemma {:induction false} EmbedAllErrSticks(outcome: seq<string> -> Result<seq<Vector>, Failure>, done: seq<seq<string>>,
                                             more: seq<seq<string>>)
    requires EmbedAll(outcome, done).Err?
    ensures EmbedAll(outcome, done + more) == EmbedAll(outcome, done)
  {
    assert done != [];
    assert (done + more)[0] == done[0];
    assert (done + more)[1..] == done[1..] + more;
    if outcome(done[0]).Ok? {
      EmbedAllErrSticks(outcome, done[1..], more);
    }
  }

  /** `embed_texts`: [] for no texts, otherwise every batch of 25 in order, each through the retry loop. */
  method EmbedTexts(service: (EmbedRequest, nat) -> Response, texts: seq<string>)
    returns (r: Result<seq<Vector>, Failure>, sent: seq<seq<string>>)
    ensures r == EmbedAll(BatchOf(service), Batches(texts, BatchSize))
    ensures sent <= Batches(texts, BatchSize)
    ensures r.Ok? ==> sent == Batches(texts, BatchSize)
  {
    if |texts| == 0 {
      return Ok([]), [];
    }
    ghost var outcome := BatchOf(service);
    var all: seq<Vector> := [];
    sent := [];
    var i := 0;
    while i < |texts|
      invariant i <= |texts|
      invariant Batches(texts, BatchSize) == sent + Batches(texts[i..], BatchSize)
      invariant EmbedAll(outcome, sent) == Ok(all)
      decreases |texts| - i
    {
      var hi := Min(i + BatchSize, |texts|);
      var batch := texts[i..hi];
      BatchesStep(texts, BatchSize, i, sent);
      var batchEmbeddings, _, _ := EmbedBatchWithRetry(service, batch);
      assert batchEmbeddings == outcome(batch);
      EmbedAllAppend(outcome, sent, batch, all);
      if batchEmbeddings.Err? {
        EmbedAllErrSticks(outcome, sent + [batch], Batches(texts[hi..], BatchSize));
        return batchEmbeddings, sent + [batch];
      }
      all := all + batchEmbeddings.value;
      sent := sent + [batch];
      i := hi;
    }
    assert texts[i..] == [];
    assert sent + [] == sent;
    r := Ok(all);
  }

  /** Sixty texts go out as batches of 25, 25 and 10. */
  lemma SixtyTextsThreeBatches(texts: seq<string>)
    requires |texts| == 60
    ensures |Batches(texts, BatchSize)| == 3
    ensures |Batches(texts, BatchSize)[0]| == 25 && |Batches(texts, BatchSize)[1]| == 25
    ensures |Batches(texts, BatchSize)[2]| == 10
  {
    assert Batches(texts, BatchSize) == [texts[..25]] + Batches(texts[25..], BatchSize);
    assert Batches(texts[25..], BatchSize) == [texts[25..][..25]] + Batches(texts[25..][25..], BatchSize);
    assert Batches(texts[25..][25..], BatchSize) == [texts[25..][25..]];
  }

  /** When every batch succeeds, the embeddings are per batch in batch order. */
  lemma {:induction false} EmbedAllConcatenates(outcome: seq<string> -> Result<seq<Vector>, Failure>, batches: seq<seq<string>>)
    requires EmbedAll(outcome, batches).Ok?
    ensures EmbedAll(outcome, batches).value ==
      Flatten(seq(|batches|, i requires 0 <= i < |batches| => outcome(batches[i]).value))
  {
    if batches != [] {
      EmbedAllConcatenates(outcome, batches[1..]);
      var all := seq(|batches|, i requires 0 <= i < |batches| => outcome(batches[i]).value);
      var tail := seq(|batches[1..]|, i requires 0 <= i < |batches[1..]| => outcome(batches[1..][i]).value);
      assert all[1..] == tail;
    }
  }

  lemma EmbedAllSingle(outcome: seq<string> -> Result<seq<Vector>, Failure>, b: seq<string>)
    ensures EmbedAll(outcome, [b]) == match outcome(b) case Err(e) => Err(e) case Ok(e) => Ok(e)
  {
    assert [b][1..] == [];
    if outcome(b).Ok? {
      assert outcome(b).value + [] == outcome(b).value;
    }
  }

  /** `embed_text`: the first embedding of `embed_texts([text])`, [] when there is none. */
  function EmbedText(service: (EmbedRequest, nat) -> Response, text: string): (r: Result<Vector, Failure>)
    ensures r.Ok? <==> BatchOutcome(service, EmbedRequest([text], "search_document")).Ok?
    ensures r.Ok? && |BatchOutcome(service, EmbedRequest([text], "search_document")).value| > 0 ==>
      r.value == BatchOutcome(service, EmbedRequest([text], "search_document")).value[0]
    ensures r.Ok? && BatchOutcome(service, EmbedRequest([text], "search_document")).value == [] ==> r.value == []
    ensures r.Err? ==> r.error == BatchOutcome(service, EmbedRequest([text], "search_document")).error
  {
    assert Batches([text], BatchSize) == [[text]];
    EmbedAllSingle(BatchOf(service), [text]);
    match EmbedAll(BatchOf(service), Batches([text], BatchSize))
    case Err(e) => Err(e)
    case Ok(embeddings) => Ok(if |embeddings| > 0 then embeddings[0] else [])
  }

  /** `embed_query`: throttling is retried, anything else propagates; five throttled tries raise "Failed to embed query". */
  function QueryOutcome(service: (EmbedRequest, nat) -> Response, query: string): (r: Result<Vector, Failure>)
    ensures r == Err(QueryRetriesExhausted) <==> Run(service, EmbedRequest([query], "search_query"), Throttled).final.None?
  {
    var run := Run(service, EmbedRequest([query], "search_query"), Throttled);
    match run.final
    case None => Err(QueryRetriesExhausted)
    case Some(Embedded(e)) => Ok(if |e| > 0 then e[0] else [])
    case Some(failure) => Err(Propagated(failure))
  }

  /** `embed_query` with its loop; `last` is only there to follow the shared loop state. */
  method EmbedQuery(service: (EmbedRequest, nat) -> Response, query: string)
    returns (r: Result<Vector, Failure>, calls: nat, delays: seq<int>)
    ensures r == QueryOutcome(service, query)
    ensures calls == Run(service, EmbedRequest([query], "search_query"), Throttled).calls
    ensures delays == Run(service, EmbedRequest([query], "search_query"), Throttled).delays
  {
    var request := EmbedRequest([query], "search_query");
    ghost var last: Option<Response> := None;
    calls := 0;
    delays := [];
    var attempt: nat := 0;
    while attempt < MaxRetries
      invariant attempt <= MaxRetries
      invariant Run(service, request, Throttled) == Attempts(service, request, Throttled, attempt, calls, delays, last)
    {
      calls := calls + 1;
      var reply := service(request, attempt);
      if reply.Embedded? {
        return Ok(if |reply.embeddings| > 0 then reply.embeddings[0] else []), calls, delays;
      }
      if !Throttled(reply) {
        return Err(Propagated(reply)), calls, delays;
      }
      last := Some(reply);
      delays := delays + [Pow2(attempt)];
      attempt := attempt + 1;
    }
    r := Err(QueryRetriesExhausted);
  }

  /** A query whose every try is throttled is tried exactly five times and then fails. */
  lemma QueryThrottledFiveTimes(service: (EmbedRequest, nat) -> Response, query: string)
    requires forall a :: 0 <= a < MaxRetries ==> Throttled(service(EmbedRequest([query], "search_query"), a))
    ensures Run(service, EmbedRequest([query], "search_query"), Throttled).calls == 5
    ensures QueryOutcome(service, query) == Err(QueryRetriesExhausted)
  {
    AllRetriedExhausts(service, EmbedRequest([query], "search_query"), Throttled, 0, 0, [], None);
  }

  /** A query is not retried after an exception other than throttling, OtherFailure included. */
  lemma QueryOtherErrorNotRetried(service: (EmbedRequest, nat) -> Response, query: string)
    requires !service(EmbedRequest([query], "search_query"), 0).Embedded?
    requires !Throttled(service(EmbedRequest([query], "search_query"), 0))
    ensures Run(service, EmbedRequest([query], "search_query"), Throttled).calls == 1
    ensures QueryOutcome(service, query) == Err(Propagated(service(EmbedRequest([query], "search_query"), 0)))
  {
    FirstUnretriedDecides(service, EmbedRequest([query], "search_query"), Throttled, 0, 0, [], None, 0);
  }

  /** `health_check`: healthy iff `embed_text("health check")` returns a 1024-long vector. */
  function HealthCheck(service: (EmbedRequest, nat) -> Response): (healthy: bool)
    ensures healthy <==> EmbedText(service, "health check").Ok? && |EmbedText(service, "health check").value| == VectorSize
  {
    match EmbedText(service, "health check")
    case Ok(v) => |v| == VectorSize
    case Err(_) => false
  }
}
