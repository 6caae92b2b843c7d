/**
 * Error classification and the retry loop around Bedrock calls.
 *
 * The wrapped call is an oracle `call(attempt)`; `time.sleep` is left out
 * and the jitter factor's `random.random()` sample for each attempt is a
 * parameter `noise(attempt)`.
 */
module BedrockRetry {
  import opened Lib

  datatype ErrorType = Throttling | ServiceUnavailable | ModelError | Validation | AccessDenied | Timeout | Unknown

  /** `BedrockErrorType.value` */
  function TypeValue(t: ErrorType): string {
    match t
    case Throttling => "throttling"
    case ServiceUnavailable => "service_unavailable"
    case ModelError => "model_error"
    case Validation => "validation"
    case AccessDenied => "access_denied"
    case Timeout => "timeout"
    case Unknown => "unknown"
  }

  const RetryableErrorCodes: set<string> := {
    "ThrottlingException", "ServiceUnavailableException", "InternalServerException",
    "ModelStreamErrorException", "ModelTimeoutException", "ServiceException",
    "RequestTimeout", "ProvisionedThroughputExceededException"
  }

  const NonRetryableErrorCodes: set<string> := {
    "ValidationException", "AccessDeniedException", "ResourceNotFoundException",
    "ModelNotReadyException", "ModelErrorException"
  }

  /**
   * The exceptions a call can raise: a botocore ClientError (with the
   * optional `Error.Code` and `Error.Message` of its response), a
   * BotoCoreError subclass, a TimeoutError, or anything else. `text` is `str(e)`.
   */
  datatype Exception =
    | ClientError(code: Option<string>, message: Option<string>, text: string)
    | BotoCoreError(className: string, text: string)
    | TimeoutError(text: string)
    | OtherError(className: string, text: string)

  datatype Classification = Classification(errorType: ErrorType, retryable: bool, code: string)

  /** The code `classify_error` reads from a ClientError, "Unknown" when the response has none. */
  function ClientCode(e: Exception): string
    requires e.ClientError?
  {
    if e.code.Some? then e.code.value else "Unknown"
  }

  /** `classify_error` */
  function ClassifyError(e: Exception): (c: Classification)
    ensures e.ClientError? ==> c.code == ClientCode(e)
    ensures e.ClientError? ==> (c.retryable <==> ClientCode(e) in RetryableErrorCodes)
    ensures e.ClientError? && ClientCode(e) in NonRetryableErrorCodes ==> !c.retryable
    ensures e.BotoCoreError? ==> c == Classification(ServiceUnavailable, true, e.className)
    ensures e.TimeoutError? ==> c == Classification(Timeout, true, "TimeoutError")
    ensures e.OtherError? ==> c == Classification(Unknown, false, "Unknown")
    ensures c.errorType == Unknown ==> !c.retryable
  {
    match e
    case ClientError(_, _, _) =>
      var code := ClientCode(e);
      if code in {"ThrottlingException", "ProvisionedThroughputExceededException"} then
        Classification(Throttling, true, code)
      else if code in {"ServiceUnavailableException", "InternalServerException", "ServiceException"} then
        Classification(ServiceUnavailable, true, code)
      else if code in {"ModelTimeoutException", "RequestTimeout"} then
        Classification(Timeout, true, code)
      else if code in {"ModelErrorException", "ModelStreamErrorException"} then
        Classification(ModelError, code == "ModelStreamErrorException", code)
      else if code == "ValidationException" then
        Classification(Validation, false, code)
      else if code in {"AccessDeniedException", "ResourceNotFoundException"} then
        Classification(AccessDenied, false, code)
      else if code in RetryableErrorCodes then
        Classification(ServiceUnavailable, true, code)
      else
        Classification(Unknown, false, code)
    case BotoCoreError(name, _) => Classification(ServiceUnavailable, true, name)
    case TimeoutError(_) => Classification(Timeout, true, "TimeoutError")
    case OtherError(_, _) => Classification(Unknown, false, "Unknown")
  }

  /** A ClientError code outside both sets, such as ModelNotReadyException's neighbours, is UNKNOWN and not retried. */
  lemma UnlistedClientCodeIsUnknown(e: Exception)
    requires e.ClientError? && ClientCode(e) !in RetryableErrorCodes && ClientCode(e) !in NonRetryableErrorCodes
    ensures ClassifyError(e) == Classification(Unknown, false, ClientCode(e))
  {
  }

  /** ModelNotReadyException is listed as non-retryable but falls through to UNKNOWN. */
  lemma ModelNotReadyIsUnknown(message: Option<string>, text: string)
    ensures ClassifyError(ClientError(Some("ModelNotReadyException"), message, text)).errorType == Unknown
  {
  }

  // ------------------------------------------------------------- delays

  datatype RetryConfig = RetryConfig(maxRetries: int, baseDelay: real, maxDelay: real, exponentialBase: real, jitter: bool)

  /** `RetryConfig()` */
  const DefaultConfig := RetryConfig(5, 1.0, 60.0, 2.0, true)

  function Pow(b: real, n: nat): real {
    if n == 0 then 1.0 else b * Pow(b, n - 1)
  }

  function MinReal(a: real, b: real): (m: real)
    ensures m <= a && m <= b && (m == a || m == b)
  {
    if a <= b then a else b
  }

  /** The backoff before jitter: `min(base_delay * exponential_base ** attempt, max_delay)`. */
  function Backoff(config: RetryConfig, attempt: nat): (d: real)
    ensures d <= config.maxDelay && d <= config.baseDelay * Pow(config.exponentialBase, attempt)
    ensures d == config.maxDelay || d == config.baseDelay * Pow(config.exponentialBase, attempt)
  {
    MinReal(config.baseDelay * Pow(config.exponentialBase, attempt), config.maxDelay)
  }

  /** `get_delay`, with `sample` the value `random.random()` returns when jitter is on. */
  function GetDelay(config: RetryConfig, attempt: nat, sample: real): (d: real)
    ensures !config.jitter ==> d == Backoff(config, attempt)
    ensures !config.jitter ==> d <= config.maxDelay
  {
    var delay := Backoff(config, attempt);
    if config.jitter then delay * (0.5 + sample) else delay
  }

  /** Jitter keeps the delay within [0.5, 1.5) of the backoff. */
  lemma JitterBounds(config: RetryConfig, attempt: nat, sample: real)
    requires config.jitter && 0.0 <= sample < 1.0 && Backoff(config, attempt) >= 0.0
    ensures 0.5 * Backoff(config, attempt) <= GetDelay(config, attempt, sample) <= 1.5 * Backoff(config, attempt)
  {
    var b := Backoff(config, attempt);
    assert GetDelay(config, attempt, sample) == b * (0.5 + sample);
    ScaleBounds(b, sample);
  }

  lemma ScaleBounds(b: real, s: real)
    requires b >= 0.0 && 0.0 <= s < 1.0
    ensures 0.5 * b <= b * (0.5 + s) <= 1.5 * b
  {
    assert b * (0.5 + s) == 0.5 * b + b * s;
    assert 0.0 <= b * s <= b;
  }

  lemma {:induction false} PowNonNegative(b: real, n: nat)
    requires b >= 0.0
    ensures Pow(b, n) >= 0.0
  {
    if n > 0 {
      PowNonNegative(b, n - 1);
      assert b * Pow(b, n - 1) >= 0.0;
    }
  }

  /** Without jitter, the delay never shrinks from one attempt to the next (base ≥ 0, exponential base ≥ 1). */
  lemma BackoffMonotone(config: RetryConfig, attempt: nat)
    requires config.baseDelay >= 0.0 && config.exponentialBase >= 1.0
    ensures Backoff(config, attempt) <= Backoff(config, attempt + 1)
  {
    var p := Pow(config.exponentialBase, attempt);
    PowNonNegative(config.exponentialBase, attempt);
    assert Pow(config.exponentialBase, attempt + 1) == config.exponentialBase * p;
    assert p <= config.exponentialBase * p;
    assert config.baseDelay * p <= config.baseDelay * (config.exponentialBase * p);
  }

  /** The default configuration without jitter waits 1, 2, 4, 8, 16, 32 and then 60 seconds. */
  lemma DefaultBackoffs()
    ensures Backoff(DefaultConfig, 0) == 1.0 && Backoff(DefaultConfig, 1) == 2.0 && Backoff(DefaultConfig, 2) == 4.0
    ensures Backoff(DefaultConfig, 3) == 8.0 && Backoff(DefaultConfig, 4) == 16.0 && Backoff(DefaultConfig, 5) == 32.0
    ensures Backoff(DefaultConfig, 6) == 60.0
  {
    assert Pow(2.0, 6) == 64.0;
  }

  // ------------------------------------------------------------- errors

  /** The exception classes: the base `BedrockError` and its six subclasses. */
  datatype ErrorClass = BaseError | ThrottlingError | ServiceError | ModelErrorClass | ValidationError | AccessError | TimeoutErrorClass

  /** `BedrockError` with the fields its constructor sets. */
  datatype BedrockError = BedrockError(
    errorClass: ErrorClass,
    message: string,
    errorType: ErrorType,
    errorCode: Option<string>,
    retryable: bool,
    originalError: Option<Exception>)

  /** The error type and retryable flag each class passes to the base constructor (the base's defaults are UNKNOWN, False). */
  function ClassType(c: ErrorClass): ErrorType {
    match c
    case BaseError => Unknown
    case ThrottlingError => Throttling
    case ServiceError => ServiceUnavailable
    case ModelErrorClass => ModelError
    case ValidationError => Validation
    case AccessError => AccessDenied
    case TimeoutErrorClass => Timeout
  }

  function ClassRetryable(c: ErrorClass): bool {
    c == ThrottlingError || c == ServiceError || c == TimeoutErrorClass
  }

  /** `error_class(message=..., error_code=..., original_error=...)` */
  function Construct(c: ErrorClass, message: string, code: string, original: Exception): (err: BedrockError)
    ensures err.errorClass == c && err.message == message && err.errorCode == Some(code) && err.originalError == Some(original)
  {
    BedrockError(c, message, ClassType(c), Some(code), ClassRetryable(c), Some(original))
  }

  /** `error_classes.get(error_type, BedrockError)` */
  function ClassFor(t: ErrorType): (c: ErrorClass)
    ensures ClassType(c) == t
  {
    match t
    case Throttling => ThrottlingError
    case ServiceUnavailable => ServiceError
    case ModelError => ModelErrorClass
    case Validation => ValidationError
    case AccessDenied => AccessError
    case Timeout => TimeoutErrorClass
    case Unknown => BaseError
  }

  /** The message `create_bedrock_error` keeps: the response's `Error.Message` for a ClientError, else `str(error)`. */
  function OriginalMessage(e: Exception): string {
    if e.ClientError? && e.message.Some? then e.message.value else e.text
  }

  /**
   * `create_bedrock_error`: the class is picked by the classified type, so
   * the error carries that type and code and keeps the original exception;
   * the retryable flag is the one the class fixes.
   */
  function CreateBedrockError(e: Exception): (err: BedrockError)
    ensures err.errorType == ClassifyError(e).errorType
    ensures err.errorCode == Some(ClassifyError(e).code)
    ensures err.originalError == Some(e) && err.message == OriginalMessage(e)
    ensures err.retryable <==> err.errorType in {Throttling, ServiceUnavailable, Timeout}
    ensures err.errorClass == BaseError <==> ClassifyError(e).errorType == Unknown
  {
    var c := ClassifyError(e);
    Construct(ClassFor(c.errorType), OriginalMessage(e), c.code, e)
  }

  /** The raised error is retryable exactly when the classification was, except for ModelStreamErrorException. */
  lemma CreatedRetryableAgrees(e: Exception)
    ensures CreateBedrockError(e).retryable == ClassifyError(e).retryable <==>
      !(e.ClientError? && ClientCode(e) == "ModelStreamErrorException")
  {
  }

  /** `to_dict` */
  function ToDict(err: BedrockError): (d: map<string, Json>)
    ensures d.Keys == {"error", "error_type", "error_code", "retryable"}
    ensures d["error_code"] == (if err.errorCode.Some? then JStr(err.errorCode.value) else JNull)
    ensures d["error"] == JStr(err.message) && d["retryable"] == JBool(err.retryable)
  {
    map["error" := JStr(err.message),
        "error_type" := JStr(TypeValue(err.errorType)),
        "error_code" := if err.errorCode.Some? then JStr(err.errorCode.value) else JNull,
        "retryable" := JBool(err.retryable)]
  }

  const ErrorMessages: map<ErrorType, string> := map[
    Throttling := "The AI service is currently busy. Please wait a moment and try again.",
    ServiceUnavailable := "The AI service is temporarily unavailable. Please try again in a few minutes.",
    ModelError := "There was an issue processing your request. Please try rephrasing your question.",
    Validation := "Your request couldn't be processed. Please check your input and try again.",
    AccessDenied := "Access to the AI service is not available. Please contact support.",
    Timeout := "The request took too long to process. Please try a shorter question.",
    Unknown := "An unexpected error occurred. Please try again later."
  ]

  /** `user_message`: the table's text for the type, the error's own message otherwise. */
  function UserMessage(err: BedrockError): (m: string)
    ensures err.errorType in ErrorMessages ==> m == ErrorMessages[err.errorType]
    ensures err.errorType !in ErrorMessages ==> m == err.message
  {
    if err.errorType in ErrorMessages then ErrorMessages[err.errorType] else err.message
  }

  /** Every error type has a user message, so `user_message` never falls back. */
  lemma EveryTypeHasMessage(t: ErrorType)
    ensures t in ErrorMessages && |ErrorMessages[t]| > 0
  {
  }

  // --------------------------------------------------------- retry loop

  /** What one call of the wrapped function does. */
  datatype CallResult<V> = Returned(value: V) | Threw(error: Exception)

  /** How the wrapper ends: a return (None when the loop never ran), or a raised BedrockError. */
  datatype Outcome<V> = Done(value: Option<V>) | Raised(error: BedrockError)

  /** One `on_retry(attempt, error, delay)` callback. */
  datatype RetryEvent = RetryEvent(attempt: nat, error: Exception, delay: real)

  datatype Run<V> = Run(outcome: Outcome<V>, calls: nat, events: seq<RetryEvent>)

  /** The exceptions the first `except` clause handles; anything else is wrapped and raised at once. */
  predicate Handled(e: Exception) {
    e.ClientError? || e.BotoCoreError? || e.TimeoutError?
  }

  /**
   * The attempt is followed by another one. The loop is stated over the
   * classifier and the error factory it calls (`classify_error` and
   * `create_bedrock_error` in the source: `ClassifyError`, `CreateBedrockError`).
   */
  predicate RetriesAfter(config: RetryConfig, classify: Exception -> Classification, e: Exception, attempt: nat) {
    Handled(e) && classify(e).retryable && attempt < config.maxRetries
  }

  /** The run of the wrapper from `attempt` on: its outcome, the calls it makes and the callbacks it fires. */
  function RetryFrom<V>(config: RetryConfig, call: nat -> CallResult<V>, onRetry: bool, noise: nat -> real,
                        classify: Exception -> Classification, wrap: Exception -> BedrockError,
                        attempt: nat): (run: Run<V>)
    ensures attempt <= config.maxRetries ==> run.calls >= 1
    ensures run.calls <= if attempt <= config.maxRetries then config.maxRetries + 1 - attempt else 0
    ensures !onRetry ==> run.events == []
    decreases config.maxRetries + 1 - attempt
  {
    if attempt >= config.maxRetries + 1 then Run(Done(None), 0, [])
    else
      match call(attempt)
      case Returned(v) => Run(Done(Some(v)), 1, [])
      case Threw(e) =>
        if !RetriesAfter(config, classify, e, attempt) then Run(Raised(wrap(e)), 1, [])
        else
          var rest := RetryFrom(config, call, onRetry, noise, classify, wrap, attempt + 1);
          var fired := if onRetry then [RetryEvent(attempt, e, GetDelay(config, attempt, noise(attempt)))] else [];
          Run(rest.outcome, rest.calls + 1, fired + rest.events)
  }

  /** The wrapper's run with the source's classifier and error factory. */
  function BedrockRun<V>(config: RetryConfig, call: nat -> CallResult<V>, onRetry: bool, noise: nat -> real): Run<V> {
    RetryFrom(config, call, onRetry, noise, ClassifyError, CreateBedrockError, 0)
  }

  /** `with_retry(...)(func)()`, as the `for attempt in range(max_retries + 1)` loop runs it. */
  method WithRetry<V>(config: RetryConfig, call: nat -> CallResult<V>, onRetry: bool, noise: nat -> real,
                      classify: Exception -> Classification, wrap: Exception -> BedrockError)
    returns (r: Outcome<V>, calls: nat, events: seq<RetryEvent>)
    ensures Run(r, calls, events) == RetryFrom(config, call, onRetry, noise, classify, wrap, 0)
  {
    calls := 0;
    events := [];
    var attempt: nat := 0;
    while attempt < config.maxRetries + 1
      invariant calls == attempt
      invariant RetryFrom(config, call, onRetry, noise, classify, wrap, 0) ==
        var rest := RetryFrom(config, call, onRetry, noise, classify, wrap, attempt);
        Run(rest.outcome, calls + rest.calls, events + rest.events)
      decreases config.maxRetries + 1 - attempt
    {
      ghost var rest := RetryFrom(config, call, onRetry, noise, classify, wrap, attempt);
      ghost var before := events;
      calls := calls + 1;
      var result := call(attempt);
      if result.Returned? {
        return Done(Some(result.value)), calls, events;
      }
      var e := result.error;
      if !Handled(e) {
        return Raised(wrap(e)), calls, events;
      }
      var c := classify(e);
      if !c.retryable {
        return Raised(wrap(e)), calls, events;
      }
      if attempt >= config.maxRetries {
        return Raised(wrap(e)), calls, events;
      }
      var delay := GetDelay(config, attempt, noise(attempt));
      var fired := if onRetry then [RetryEvent(attempt, e, delay)] else [];
      events := events + fired;
      assert events + RetryFrom(config, call, onRetry, noise, classify, wrap, attempt + 1).events ==
             before + rest.events by {
        assert rest.events == fired + RetryFrom(config, call, onRetry, noise, classify, wrap, attempt + 1).events;
      }
      attempt := attempt + 1;
    }
    r := Done(None);
  }

  /** The wrapper makes at most `max_retries + 1` calls, at least one, and none when `max_retries < 0`. */
  lemma CallsBounded<V>(config: RetryConfig, call: nat -> CallResult<V>, onRetry: bool, noise: nat -> real)
    ensures var run := BedrockRun(config, call, onRetry, noise);
      && (config.maxRetries >= 0 ==> 1 <= run.calls <= config.maxRetries + 1)
      && (config.maxRetries < 0 ==> run == Run(Done(None), 0, []))
  {
  }

  /** A call that does not raise ends the wrapper straight away with its value. */
  lemma SuccessReturnsImmediately<V>(config: RetryConfig, call: nat -> CallResult<V>, onRetry: bool,
                                     noise: nat -> real, v: V)
    requires config.maxRetries >= 0 && call(0) == Returned(v)
    ensures BedrockRun(config, call, onRetry, noise) == Run(Done(Some(v)), 1, [])
  {
  }

  /** A non-retryable error raises its BedrockError after exactly one call, with no callback. */
  lemma NonRetryableOneCall<V>(config: RetryConfig, call: nat -> CallResult<V>, onRetry: bool,
                               noise: nat -> real, e: Exception)
    requires config.maxRetries >= 0 && call(0) == Threw(e) && !(Handled(e) && ClassifyError(e).retryable)
    ensures BedrockRun(config, call, onRetry, noise) == Run(Raised(CreateBedrockError(e)), 1, [])
  {
  }

  /** The callbacks a run fires for attempts `from`, `from + 1`, … with these errors, in order. */
  predicate CallbacksInOrder(events: seq<RetryEvent>, config: RetryConfig, errors: nat -> Exception,
                             noise: nat -> real, from: nat)
  {
    forall j :: 0 <= j < |events| ==>
      events[j] == RetryEvent(from + j, errors(from + j), GetDelay(config, from + j, noise(from + j)))
  }

  lemma CallbacksCons(events: seq<RetryEvent>, config: RetryConfig, errors: nat -> Exception, noise: nat -> real, from: nat)
    requires CallbacksInOrder(events, config, errors, noise, from + 1)
    ensures CallbacksInOrder([RetryEvent(from, errors(from), GetDelay(config, from, noise(from)))] + events,
                             config, errors, noise, from)
  {
    var all := [RetryEvent(from, errors(from), GetDelay(config, from, noise(from)))] + events;
    forall j | 0 <= j < |all|
      ensures all[j] == RetryEvent(from + j, errors(from + j), GetDelay(config, from + j, noise(from + j)))
    {
      if j > 0 {
        assert all[j] == events[j - 1];
        assert from + 1 + (j - 1) == from + j;
      }
    }
  }

  /**
   * An error the classifier always calls retryable makes exactly
   * `max_retries + 1` calls, fires the callback for attempts
   * `from .. max_retries - 1` in order, and raises the wrapped last error.
   */
  lemma {:induction false} PersistentErrorExhaustsRetries<V>(config: RetryConfig, call: nat -> CallResult<V>,
                                                             noise: nat -> real, classify: Exception -> Classification,
                                                             wrap: Exception -> BedrockError,
                                                             errors: nat -> Exception, from: nat)
    requires from <= config.maxRetries
    requires forall i :: from <= i <= config.maxRetries ==>
      call(i) == Threw(errors(i)) && Handled(errors(i)) && classify(errors(i)).retryable
    ensures var run := RetryFrom(config, call, true, noise, classify, wrap, from);
      && run.calls == config.maxRetries + 1 - from
      && run.outcome == Raised(wrap(errors(config.maxRetries)))
      && |run.events| == config.maxRetries - from
      && CallbacksInOrder(run.events, config, errors, noise, from)
    decreases config.maxRetries - from
  {
    if from < config.maxRetries {
      PersistentErrorExhaustsRetries(config, call, noise, classify, wrap, errors, from + 1);
      var rest := RetryFrom(config, call, true, noise, classify, wrap, from + 1);
      CallbacksCons(rest.events, config, errors, noise, from);
    }
  }

  /** With the source's classifier: a persistently retryable error exhausts all `max_retries + 1` attempts. */
  lemma PersistentBedrockError<V>(config: RetryConfig, call: nat -> CallResult<V>, noise: nat -> real,
                                  errors: nat -> Exception)
    requires config.maxRetries >= 0
    requires forall i :: 0 <= i <= config.maxRetries ==>
      call(i) == Threw(errors(i)) && Handled(errors(i)) && ClassifyError(errors(i)).retryable
    ensures var run := BedrockRun(config, call, true, noise);
      && run.calls == config.maxRetries + 1
      && run.outcome == Raised(CreateBedrockError(errors(config.maxRetries)))
      && CallbacksInOrder(run.events, config, errors, noise, 0) && |run.events| == config.maxRetries
  {
    PersistentErrorExhaustsRetries(config, call, noise, ClassifyError, CreateBedrockError, errors, 0);
  }

  /**
   * Retryable failures before a success: the value of the first call that
   * returns comes back after `k + 1` calls, with one callback per failure.
   */
  lemma {:induction false} SuccessAfterRetries<V>(config: RetryConfig, call: nat -> CallResult<V>, onRetry: bool,
                                                  noise: nat -> real, classify: Exception -> Classification,
                                                  wrap: Exception -> BedrockError, from: nat, k: nat, v: V)
    requires from <= k <= config.maxRetries && call(k) == Returned(v)
    requires forall i :: from <= i < k ==> call(i).Threw? && RetriesAfter(config, classify, call(i).error, i)
    ensures var run := RetryFrom(config, call, onRetry, noise, classify, wrap, from);
      run.outcome == Done(Some(v)) && run.calls == k + 1 - from && |run.events| == if onRetry then k - from else 0
    decreases k - from
  {
    if from < k {
      SuccessAfterRetries(config, call, onRetry, noise, classify, wrap, from + 1, k, v);
    }
  }
}
