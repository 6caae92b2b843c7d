/**
 * The CloudWatch metrics publisher: a buffer of metric data that is
 * flushed in batches of 20, the guard before each `put_metric_data` call,
 * and the metrics one RAG query reports.
 *
 * CloudWatch is an oracle: `accepts` says whether a `put_metric_data` call
 * returns (true) or raises (false).  The clock is the `now` parameter, and
 * the environment variables are a map.
 */
module MonitoringService {
  import opened Lib

  const BatchSize := 20

  /** A dimensions dict, in insertion order. */
  type Dimensions = seq<(string, string)>

  /** One buffered data point. */
  datatype MetricDatum = MetricDatum(name: string, value: real, unit: string, dimensions: Dimensions, timestamp: int)

  /** One entry of `MetricData`: the dimensions only when there are some. */
  datatype DatumEntry = DatumEntry(metricName: string, value: real, unit: string, timestamp: int,
                                   dimensions: Option<Dimensions>)

  /** One `put_metric_data` call. */
  datatype PutCall = PutCall(namespace: string, metricData: seq<DatumEntry>)

  function EntryOf(m: MetricDatum): DatumEntry {
    DatumEntry(m.name, m.value, m.unit, m.timestamp, if m.dimensions != [] then Some(m.dimensions) else None)
  }

  /** The arguments of one `put_metric` call. */
  datatype Put = Put(name: string, value: real, unit: string, dimensions: Dimensions)

  /** `name or os.getenv(key, default)`: an empty or missing argument falls back to the environment. */
  function Setting(arg: Option<string>, env: map<string, string>, key: string, default: string): string {
    if arg.Some? && arg.value != "" then arg.value
    else if key in env then env[key] else default
  }

  /** `os.getenv("CLOUDWATCH_METRICS_ENABLED", "false").lower() == "true"` */
  function EnabledByEnv(env: map<string, string>): bool {
    LowerStr(if "CLOUDWATCH_METRICS_ENABLED" in env then env["CLOUDWATCH_METRICS_ENABLED"] else "false") == "true"
  }

  /** Whether `_publish_batch` calls CloudWatch for these metrics. */
  predicate Sends(live: bool, metrics: seq<MetricDatum>) {
    live && metrics != []
  }

  function CallFor(namespace: string, metrics: seq<MetricDatum>): PutCall {
    PutCall(namespace, MapSeq(EntryOf, metrics))
  }

  /** The calls the flush loop makes for these batches, and whether every one of them succeeded. */
  function FlushRun(live: bool, namespace: string, batches: seq<seq<MetricDatum>>, accepts: PutCall -> bool): (seq<PutCall>, bool)
  {
    if batches == [] then ([], true)
    else
      var rest := FlushRun(live, namespace, batches[1..], accepts);
      var sent := if Sends(live, batches[0]) then [CallFor(namespace, batches[0])] else [];
      (sent + rest.0, Sends(live, batches[0]) && accepts(CallFor(namespace, batches[0])) && rest.1)
  }

  /** A flush succeeds exactly when every batch was sent and accepted. */
  lemma {:induction false} FlushRunOk(live: bool, namespace: string, batches: seq<seq<MetricDatum>>, accepts: PutCall -> bool)
    ensures FlushRun(live, namespace, batches, accepts).1 <==>
      forall j :: 0 <= j < |batches| ==> Sends(live, batches[j]) && accepts(CallFor(namespace, batches[j]))
  {
    if batches != [] {
      FlushRunOk(live, namespace, batches[1..], accepts);
      assert forall j :: 1 <= j < |batches| ==> batches[j] == batches[1..][j - 1];
    }
  }

  lemma {:induction false} FlushRunStep(live: bool, namespace: string, done: seq<seq<MetricDatum>>, batch: seq<MetricDatum>,
                                        accepts: PutCall -> bool)
    ensures FlushRun(live, namespace, done + [batch], accepts).0 ==
      FlushRun(live, namespace, done, accepts).0 + (if Sends(live, batch) then [CallFor(namespace, batch)] else [])
    ensures FlushRun(live, namespace, done + [batch], accepts).1 ==
      (FlushRun(live, namespace, done, accepts).1 && Sends(live, batch) && accepts(CallFor(namespace, batch)))
    decreases |done|
  {
    if done == [] {
      assert [batch][1..] == [];
    } else {
      assert (done + [batch])[1..] == done[1..] + [batch];
      FlushRunStep(live, namespace, done[1..], batch, accepts);
    }
  }

  /** The datum `put_metric` builds for one call at time `now`. */
  function Datum(p: Put, now: int): MetricDatum {
    MetricDatum(p.name, p.value, p.unit, p.dimensions, now)
  }

  /** A publisher's buffer together with `put_metric_data` calls. */
  datatype Published = Published(buffer: seq<MetricDatum>, sent: seq<PutCall>)

  /**
   * One buffered `put_metric` (immediate=False) on a publisher with these
   * flags: the new buffer and the calls it made. Nothing happens while
   * disabled; otherwise the datum joins the buffer, and a buffer that then
   * holds a batch is flushed.
   */
  function PutEffect(namespace: string, enabled: bool, live: bool, buffer: seq<MetricDatum>, p: Put, now: int,
                     accepts: PutCall -> bool): Published
  {
    if !enabled then Published(buffer, [])
    else
      var b := buffer + [Datum(p, now)];
      if |b| < BatchSize then Published(b, [])
      else Published([], FlushRun(live, namespace, Batches(b, BatchSize), accepts).0)
  }

  /** Buffered `put_metric` calls for each of `puts` in turn, from `s`: the final buffer, and every call sent. */
  function PutsFrom(namespace: string, enabled: bool, live: bool, s: Published, puts: seq<Put>, now: int,
                    accepts: PutCall -> bool): Published
    decreases |puts|
  {
    if puts == [] then s
    else
      var prev := PutsFrom(namespace, enabled, live, s, puts[..|puts| - 1], now, accepts);
      var e := PutEffect(namespace, enabled, live, prev.buffer, puts[|puts| - 1], now, accepts);
      Published(e.buffer, prev.sent + e.sent)
  }

  lemma PutsFromSnoc(namespace: string, enabled: bool, live: bool, s: Published, puts: seq<Put>, p: Put, now: int,
                     accepts: PutCall -> bool)
    ensures var prev := PutsFrom(namespace, enabled, live, s, puts, now, accepts);
      var e := PutEffect(namespace, enabled, live, prev.buffer, p, now, accepts);
      PutsFrom(namespace, enabled, live, s, puts + [p], now, accepts) == Published(e.buffer, prev.sent + e.sent)
  {
    assert (puts + [p])[..|puts|] == puts;
  }

  /** The data of `puts` at time `now`, in order. */
  function Data(puts: seq<Put>, now: int): (ds: seq<MetricDatum>)
    ensures |ds| == |puts|
    ensures forall i :: 0 <= i < |puts| ==> ds[i] == Datum(puts[i], now)
    decreases |puts|
  {
    if puts == [] then [] else Data(puts[..|puts| - 1], now) + [Datum(puts[|puts| - 1], now)]
  }

  function DataOf(c: PutCall): seq<DatumEntry> {
    c.metricData
  }

  /** Every entry the calls carried, in order. */
  function SentData(calls: seq<PutCall>): seq<DatumEntry> {
    ConcatMap(DataOf, calls)
  }

  lemma {:induction false} SentDataConcat(a: seq<PutCall>, b: seq<PutCall>)
    ensures SentData(a + b) == SentData(a) + SentData(b)
  {
    if a == [] {
      assert a + b == b;
    } else {
      assert (a + b)[0] == a[0];
      assert (a + b)[1..] == a[1..] + b;
      SentDataConcat(a[1..], b);
    }
  }

  /** A live flush of non-empty batches sends every datum of them, in order. */
  lemma {:induction false} FlushRunSendsAll(namespace: string, batches: seq<seq<MetricDatum>>, accepts: PutCall -> bool)
    requires forall j :: 0 <= j < |batches| ==> batches[j] != []
    ensures SentData(FlushRun(true, namespace, batches, accepts).0) == MapSeq(EntryOf, Flatten(batches))
  {
    if batches != [] {
      var rest := FlushRun(true, namespace, batches[1..], accepts).0;
      var c := CallFor(namespace, batches[0]);
      FlushRunSendsAll(namespace, batches[1..], accepts);
      assert FlushRun(true, namespace, batches, accepts).0 == [c] + rest;
      SentDataConcat([c], rest);
      assert SentData([c]) == c.metricData by {
        assert [c][1..] == [];
      }
      MapSeqConcat(EntryOf, batches[0], Flatten(batches[1..]));
    }
  }

  /** A disabled publisher: buffered `put_metric` calls change nothing and send nothing. */
  lemma {:induction false} PutsFromDisabled(namespace: string, live: bool, s: Published, puts: seq<Put>, now: int,
                                            accepts: PutCall -> bool)
    ensures PutsFrom(namespace, false, live, s, puts, now, accepts) == s
    decreases |puts|
  {
    if puts != [] {
      PutsFromDisabled(namespace, live, s, puts[..|puts| - 1], now, accepts);
      assert s.sent + [] == s.sent;
    }
  }

  /** An enabled publisher with room for every datum only buffers them, in order, and sends nothing. */
  lemma {:induction false} PutsFromRoom(namespace: string, live: bool, s: Published, puts: seq<Put>, now: int,
                                        accepts: PutCall -> bool)
    requires |s.buffer| + |puts| < BatchSize
    ensures PutsFrom(namespace, true, live, s, puts, now, accepts) == Published(s.buffer + Data(puts, now), s.sent)
    decreases |puts|
  {
    if puts != [] {
      var init := puts[..|puts| - 1];
      PutsFromRoom(namespace, live, s, init, now, accepts);
      assert s.buffer + Data(puts, now) == (s.buffer + Data(init, now)) + [Datum(puts[|puts| - 1], now)];
      assert s.sent + [] == s.sent;
    }
  }

  /** The buffer never holds a whole batch after a call: the invariant `Valid` keeps. */
  lemma {:induction false} PutsFromBounded(namespace: string, enabled: bool, live: bool, s: Published, puts: seq<Put>,
                                           now: int, accepts: PutCall -> bool)
    requires |s.buffer| < BatchSize
    ensures |PutsFrom(namespace, enabled, live, s, puts, now, accepts).buffer| < BatchSize
    decreases |puts|
  {
    if puts != [] {
      PutsFromBounded(namespace, enabled, live, s, puts[..|puts| - 1], now, accepts);
    }
  }

  /** One buffered `put_metric` on a live publisher: what was buffered or sent before, plus the datum, is now buffered or sent. */
  lemma PutEffectKeepsAll(namespace: string, buffer: seq<MetricDatum>, p: Put, now: int, accepts: PutCall -> bool)
    ensures var e := PutEffect(namespace, true, true, buffer, p, now, accepts);
      SentData(e.sent) + MapSeq(EntryOf, e.buffer) == MapSeq(EntryOf, buffer + [Datum(p, now)])
  {
    var b := buffer + [Datum(p, now)];
    if |b| >= BatchSize {
      FlushRunSendsAll(namespace, Batches(b, BatchSize), accepts);
      FlattenBatches(b, BatchSize);
    }
  }

  lemma Regroup<T>(before: seq<T>, sent: seq<T>, kept: seq<T>, held: seq<T>, x: T, before0: seq<T>, held0: seq<T>)
    requires sent + kept == held + [x]
    requires before + held == before0 + held0
    ensures (before + sent) + kept == before0 + (held0 + [x])
  {
    calc {
      (before + sent) + kept;
      before + (sent + kept);
      (before + held) + [x];
    }
  }

  /**
   * A live publisher loses, duplicates and reorders nothing: the data
   * sent and still buffered are those there before, followed by the new
   * data in the order of the calls.
   */
  lemma {:induction false} PutsFromKeepsAll(namespace: string, s: Published, puts: seq<Put>, now: int,
                                            accepts: PutCall -> bool)
    ensures var r := PutsFrom(namespace, true, true, s, puts, now, accepts);
      SentData(r.sent) + MapSeq(EntryOf, r.buffer) == SentData(s.sent) + MapSeq(EntryOf, s.buffer + Data(puts, now))
    decreases |puts|
  {
    if puts != [] {
      var init := puts[..|puts| - 1];
      var p := puts[|puts| - 1];
      var prev := PutsFrom(namespace, true, true, s, init, now, accepts);
      var e := PutEffect(namespace, true, true, prev.buffer, p, now, accepts);
      var r := PutsFrom(namespace, true, true, s, puts, now, accepts);
      assert r == Published(e.buffer, prev.sent + e.sent);
      PutsFromKeepsAll(namespace, s, init, now, accepts);
      PutEffectKeepsAll(namespace, prev.buffer, p, now, accepts);
      SentDataConcat(prev.sent, e.sent);
      MapSeqAppend(EntryOf, prev.buffer, Datum(p, now));
      assert s.buffer + Data(puts, now) == (s.buffer + Data(init, now)) + [Datum(p, now)];
      MapSeqAppend(EntryOf, s.buffer + Data(init, now), Datum(p, now));
      Regroup(SentData(prev.sent), SentData(e.sent), MapSeq(EntryOf, e.buffer), MapSeq(EntryOf, prev.buffer),
              EntryOf(Datum(p, now)), SentData(s.sent), MapSeq(EntryOf, s.buffer + Data(init, now)));
    }
  }

  class CloudWatchMetrics {
    const namespace: string
    const region: string
    var enabled: bool
    var hasClient: bool
    var buffer: seq<MetricDatum>

    /** Between calls the buffer holds fewer than a batch. */
    ghost predicate Valid()
      reads this
    {
      |buffer| < BatchSize
    }

    /**
     * Settings from the arguments or the environment; creating the client
     * (`clientCreated`) is tried only when enabled, and a failure disables
     * the publisher.
     */
    constructor(namespace: Option<string>, region: Option<string>, enabled: Option<bool>,
                env: map<string, string>, clientCreated: bool)
      ensures Valid() && buffer == []
      ensures this.namespace == Setting(namespace, env, "CLOUDWATCH_NAMESPACE", "ARC-Chatbot")
      ensures this.region == Setting(region, env, "AWS_REGION", "ap-southeast-1")
      ensures var wanted := if enabled.Some? then enabled.value else EnabledByEnv(env);
        this.enabled == (wanted && clientCreated) && hasClient == this.enabled
    {
      this.namespace := Setting(namespace, env, "CLOUDWATCH_NAMESPACE", "ARC-Chatbot");
      this.region := Setting(region, env, "AWS_REGION", "ap-southeast-1");
      var wanted := if enabled.Some? then enabled.value else EnabledByEnv(env);
      buffer := [];
      hasClient := false;
      this.enabled := wanted;
      if wanted {
        if clientCreated {
          hasClient := true;
        } else {
          this.enabled := false;
        }
      }
    }

    /** The publisher is enabled and has a client. */
    predicate Live()
      reads this
    {
      enabled && hasClient
    }

    /**
     * `_publish_batch`: False without a call when disabled, without a
     * client or with nothing to send; otherwise one call, True iff it
     * returned.
     */
    method PublishBatch(metrics: seq<MetricDatum>, accepts: PutCall -> bool) returns (ok: bool, call: Option<PutCall>)
      ensures call.Some? <==> Sends(Live(), metrics)
      ensures call.Some? ==> call.value == CallFor(namespace, metrics)
      ensures ok <==> Sends(Live(), metrics) && accepts(CallFor(namespace, metrics))
    {
      if !enabled || !hasClient || metrics == [] {
        return false, None;
      }
      var metricData: seq<DatumEntry> := [];
      for i := 0 to |metrics|
        invariant metricData == MapSeq(EntryOf, metrics[..i])
      {
        assert metrics[..i + 1] == metrics[..i] + [metrics[i]];
        MapSeqAppend(EntryOf, metrics[..i], metrics[i]);
        metricData := metricData + [EntryOf(metrics[i])];
      }
      assert metrics[..|metrics|] == metrics;
      var c := PutCall(namespace, metricData);
      return accepts(c), Some(c);
    }

    /**
     * `flush`: True at once for an empty buffer; otherwise the buffer is
     * emptied before publishing, even when publishing fails, and its
     * contents go out in order in slices of 20.
     */
    method Flush(accepts: PutCall -> bool) returns (ok: bool, calls: seq<PutCall>)
      modifies this
      ensures buffer == [] && enabled == old(enabled) && hasClient == old(hasClient)
      ensures old(buffer) == [] ==> ok && calls == []
      ensures old(buffer) != [] ==> (calls, ok) == FlushRun(Live(), namespace, Batches(old(buffer), BatchSize), accepts)
    {
      if buffer == [] {
        return true, [];
      }
      var metrics := buffer;
      var live := enabled && hasClient;
      buffer := [];
      ok := true;
      calls := [];
      ghost var done: seq<seq<MetricDatum>> := [];
      var i := 0;
      while i < |metrics|
        invariant i <= |metrics| && buffer == []
        invariant Batches(metrics, BatchSize) == done + Batches(metrics[i..], BatchSize)
        invariant enabled == old(enabled) && hasClient == old(hasClient) && live == Live()
        invariant calls == FlushRun(live, namespace, done, accepts).0
        invariant ok == FlushRun(live, namespace, done, accepts).1
        decreases |metrics| - i
      {
        var hi := Min(i + BatchSize, |metrics|);
        var batch := metrics[i..hi];
        BatchesStep(metrics, BatchSize, i, done);
        FlushRunStep(live, namespace, done, batch, accepts);
        var published, call := PublishBatch(batch, accepts);
        if call.Some? {
          calls := calls + [call.value];
        }
        if !published {
          ok := false;
        }
        done := done + [batch];
        i := hi;
      }
      assert metrics[i..] == [];
      assert done + [] == done;
    }

    /**
     * What `put_metric` did: nothing while disabled; one call of its own when
     * immediate; otherwise the metric joins the buffer, which is flushed once
     * it holds a batch.
     */
    twostate predicate PutDone(p: Put, immediate: bool, now: int, accepts: PutCall -> bool, ok: bool, calls: seq<PutCall>)
      reads this
    {
      var m := MetricDatum(p.name, p.value, p.unit, p.dimensions, now);
      Valid() && enabled == old(enabled) && hasClient == old(hasClient) &&
      (!old(enabled) ==> ok && calls == [] && buffer == old(buffer)) &&
      (old(enabled) && immediate ==>
        buffer == old(buffer) &&
        (ok <==> Sends(Live(), [m]) && accepts(CallFor(namespace, [m]))) &&
        calls == (if Sends(Live(), [m]) then [CallFor(namespace, [m])] else [])) &&
      (old(enabled) && !immediate && |old(buffer)| + 1 < BatchSize ==> ok && calls == [] && buffer == old(buffer) + [m]) &&
      (old(enabled) && !immediate && |old(buffer)| + 1 >= BatchSize ==>
        buffer == [] && (calls, ok) == FlushRun(Live(), namespace, Batches(old(buffer) + [m], BatchSize), accepts))
    }

    /**
     * `put_metric`: True and nothing else while disabled; published alone
     * when immediate; otherwise buffered, and the buffer flushed once it
     * holds a batch.
     */
    method PutMetric(p: Put, immediate: bool, now: int, accepts: PutCall -> bool) returns (ok: bool, calls: seq<PutCall>)
      requires Valid()
      modifies this
      ensures PutDone(p, immediate, now, accepts, ok, calls)
      ensures !immediate ==> Published(buffer, calls) == PutEffect(namespace, old(enabled), old(Live()), old(buffer), p, now, accepts)
    {
      if !enabled {
        return true, [];
      }
      var m := MetricDatum(p.name, p.value, p.unit, p.dimensions, now);
      if immediate {
        var call;
        ok, call := PublishBatch([m], accepts);
        calls := if call.Some? then [call.value] else [];
        return;
      }
      buffer := buffer + [m];
      if |buffer| >= BatchSize {
        ok, calls := Flush(accepts);
        return;
      }
      return true, [];
    }

    /** A full buffer goes out in one call: the auto-flush never needs a second slice. */
    lemma AutoFlushOneBatch(m: MetricDatum)
      requires Valid() && |buffer| + 1 >= BatchSize
      ensures Batches(buffer + [m], BatchSize) == [buffer + [m]]
    {
    }

    /** `increment`: a Count metric. */
    method Increment(name: string, value: real, dimensions: Dimensions, now: int, accepts: PutCall -> bool)
      returns (ok: bool, calls: seq<PutCall>)
      requires Valid()
      modifies this
      ensures PutDone(Put(name, value, "Count", dimensions), false, now, accepts, ok, calls)
      ensures Published(buffer, calls) == PutEffect(namespace, old(enabled), old(Live()), old(buffer), Put(name, value, "Count", dimensions), now, accepts)
    {
      ok, calls := PutMetric(Put(name, value, "Count", dimensions), false, now, accepts);
    }

    /** `track_latency`: a Milliseconds metric. */
    method TrackLatency(name: string, latencyMs: real, dimensions: Dimensions, now: int, accepts: PutCall -> bool)
      returns (ok: bool, calls: seq<PutCall>)
      requires Valid()
      modifies this
      ensures PutDone(Put(name, latencyMs, "Milliseconds", dimensions), false, now, accepts, ok, calls)
      ensures Published(buffer, calls) == PutEffect(namespace, old(enabled), old(Live()), old(buffer), Put(name, latencyMs, "Milliseconds", dimensions), now, accepts)
    {
      ok, calls := PutMetric(Put(name, latencyMs, "Milliseconds", dimensions), false, now, accepts);
    }

    /** `track_cost`: a metric with unit None (USD is not a CloudWatch unit). */
    method TrackCost(name: string, costUsd: real, dimensions: Dimensions, now: int, accepts: PutCall -> bool)
      returns (ok: bool, calls: seq<PutCall>)
      requires Valid()
      modifies this
      ensures PutDone(Put(name, costUsd, "None", dimensions), false, now, accepts, ok, calls)
      ensures Published(buffer, calls) == PutEffect(namespace, old(enabled), old(Live()), old(buffer), Put(name, costUsd, "None", dimensions), now, accepts)
    {
      ok, calls := PutMetric(Put(name, costUsd, "None", dimensions), false, now, accepts);
    }
  }

  // ---------------------------------------------------------------------------
  // track_query_metrics

  /** The latency and contexts metrics every query reports first. */
  function QueryOpening(latencyMs: real, contextsUsed: int, dims: Dimensions): seq<Put> {
    [Put("QueryLatency", latencyMs, "Milliseconds", dims), Put("ContextsUsed", contextsUsed as real, "Count", dims)]
  }

  /** The cost metric, only for a positive cost. */
  function QueryCostPut(costUsd: real, dims: Dimensions): seq<Put> {
    if costUsd > 0.0 then [Put("QueryCost", costUsd, "None", dims)] else []
  }

  /** The outcome metric. */
  function QueryOutcome(success: bool, dims: Dimensions): Put {
    Put(if success then "QuerySuccess" else "QueryFailure", 1.0, "Count", dims)
  }

  /** The `put_metric` calls `track_query_metrics` makes, in order. */
  function QueryPuts(userId: string, latencyMs: real, contextsUsed: int, model: string, costUsd: real, success: bool)
    : seq<Put>
  {
    var dims := [("UserId", userId), ("Model", model)];
    QueryOpening(latencyMs, contextsUsed, dims) + QueryCostPut(costUsd, dims) + [QueryOutcome(success, dims)]
  }

  function CountNamed(puts: seq<Put>, name: string): nat {
    if puts == [] then 0 else (if puts[0].name == name then 1 else 0) + CountNamed(puts[1..], name)
  }

  lemma {:induction false} CountNamedAppend(a: seq<Put>, b: seq<Put>, name: string)
    ensures CountNamed(a + b, name) == CountNamed(a, name) + CountNamed(b, name)
  {
    if a == [] {
      assert a + b == b;
    } else {
      assert (a + b)[1..] == a[1..] + b;
      CountNamedAppend(a[1..], b, name);
    }
  }

  lemma CountOne(p: Put, name: string)
    ensures CountNamed([p], name) == if p.name == name then 1 else 0
  {
    assert [p][1..] == [];
  }

  /** How often a name occurs in a query's metrics: in the opening, the cost part and the outcome. */
  lemma CountQueryPuts(userId: string, latencyMs: real, contextsUsed: int, model: string, costUsd: real, success: bool,
                       name: string)
    ensures var dims := [("UserId", userId), ("Model", model)];
      CountNamed(QueryPuts(userId, latencyMs, contextsUsed, model, costUsd, success), name) ==
        CountNamed(QueryOpening(latencyMs, contextsUsed, dims), name) + CountNamed(QueryCostPut(costUsd, dims), name)
        + (if QueryOutcome(success, dims).name == name then 1 else 0)
  {
    var dims := [("UserId", userId), ("Model", model)];
    var head := QueryOpening(latencyMs, contextsUsed, dims);
    var cost := QueryCostPut(costUsd, dims);
    var last := QueryOutcome(success, dims);
    CountNamedAppend(head + cost, [last], name);
    CountNamedAppend(head, cost, name);
    CountOne(last, name);
  }

  /** The counts of one name in a query's metrics, unfolded into its parts. */
  lemma CountQueryName(userId: string, latencyMs: real, contextsUsed: int, model: string, costUsd: real, success: bool,
                       name: string)
    ensures var dims := [("UserId", userId), ("Model", model)];
      CountNamed(QueryPuts(userId, latencyMs, contextsUsed, model, costUsd, success), name) ==
        (if name == "QueryLatency" then 1 else 0) + (if name == "ContextsUsed" then 1 else 0)
        + (if costUsd > 0.0 && name == "QueryCost" then 1 else 0)
        + (if QueryOutcome(success, dims).name == name then 1 else 0)
  {
    var dims := [("UserId", userId), ("Model", model)];
    var head := QueryOpening(latencyMs, contextsUsed, dims);
    assert head == [head[0]] + [head[1]];
    CountNamedAppend([head[0]], [head[1]], name);
    CountOne(head[0], name);
    CountOne(head[1], name);
    if costUsd > 0.0 {
      CountOne(QueryCostPut(costUsd, dims)[0], name);
    }
    CountQueryPuts(userId, latencyMs, contextsUsed, model, costUsd, success, name);
  }

  /**
   * A query reports its latency (in milliseconds) and its context count
   * first and once each, exactly one of QuerySuccess and QueryFailure, the
   * one its outcome names, and QueryCost exactly when the cost is positive.
   */
  lemma QueryPutsFacts(userId: string, latencyMs: real, contextsUsed: int, model: string, costUsd: real, success: bool)
    ensures var puts := QueryPuts(userId, latencyMs, contextsUsed, model, costUsd, success);
      var dims := [("UserId", userId), ("Model", model)];
      |puts| >= 3 &&
      puts[0] == Put("QueryLatency", latencyMs, "Milliseconds", dims) &&
      puts[1] == Put("ContextsUsed", contextsUsed as real, "Count", dims) &&
      CountNamed(puts, "QueryLatency") == 1 && CountNamed(puts, "ContextsUsed") == 1 &&
      CountNamed(puts, "QuerySuccess") + CountNamed(puts, "QueryFailure") == 1 &&
      (CountNamed(puts, "QuerySuccess") == 1 <==> success) &&
      CountNamed(puts, "QueryCost") == (if costUsd > 0.0 then 1 else 0)
  {
    CountQueryName(userId, latencyMs, contextsUsed, model, costUsd, success, "QueryLatency");
    CountQueryName(userId, latencyMs, contextsUsed, model, costUsd, success, "ContextsUsed");
    CountQueryName(userId, latencyMs, contextsUsed, model, costUsd, success, "QuerySuccess");
    CountQueryName(userId, latencyMs, contextsUsed, model, costUsd, success, "QueryFailure");
    CountQueryName(userId, latencyMs, contextsUsed, model, costUsd, success, "QueryCost");
  }

  /**
   * `track_query_metrics` on the shared publisher: the buffered
   * `put_metric` calls of QueryPuts, in order. `sent` is every
   * `put_metric_data` call they made; the publisher's flags stay as they were.
   */
  method TrackQueryMetrics(metrics: CloudWatchMetrics, userId: string, latencyMs: real, contextsUsed: int, model: string,
                           costUsd: real, success: bool, now: int, accepts: PutCall -> bool)
    returns (sent: seq<PutCall>)
    requires metrics.Valid()
    modifies metrics
    ensures metrics.Valid() && metrics.enabled == old(metrics.enabled) && metrics.hasClient == old(metrics.hasClient)
    ensures Published(metrics.buffer, sent) ==
      PutsFrom(metrics.namespace, old(metrics.enabled), old(metrics.Live()), Published(old(metrics.buffer), []),
               QueryPuts(userId, latencyMs, contextsUsed, model, costUsd, success), now, accepts)
  {
    var dims := [("UserId", userId), ("Model", model)];
    ghost var enabled, live := metrics.enabled, metrics.Live();
    ghost var start := Published(metrics.buffer, []);
    ghost var done: seq<Put> := [];
    sent := [];
    var ok, calls := metrics.TrackLatency("QueryLatency", latencyMs, dims, now, accepts);
    PutsFromSnoc(metrics.namespace, enabled, live, start, done, Put("QueryLatency", latencyMs, "Milliseconds", dims), now, accepts);
    sent, done := sent + calls, done + [Put("QueryLatency", latencyMs, "Milliseconds", dims)];
    ok, calls := metrics.Increment("ContextsUsed", contextsUsed as real, dims, now, accepts);
    PutsFromSnoc(metrics.namespace, enabled, live, start, done, Put("ContextsUsed", contextsUsed as real, "Count", dims), now, accepts);
    sent, done := sent + calls, done + [Put("ContextsUsed", contextsUsed as real, "Count", dims)];
    if costUsd > 0.0 {
      ok, calls := metrics.TrackCost("QueryCost", costUsd, dims, now, accepts);
      PutsFromSnoc(metrics.namespace, enabled, live, start, done, Put("QueryCost", costUsd, "None", dims), now, accepts);
      sent, done := sent + calls, done + [Put("QueryCost", costUsd, "None", dims)];
    }
    var outcome := QueryOutcome(success, dims);
    if success {
      ok, calls := metrics.Increment("QuerySuccess", 1.0, dims, now, accepts);
    } else {
      ok, calls := metrics.Increment("QueryFailure", 1.0, dims, now, accepts);
    }
    PutsFromSnoc(metrics.namespace, enabled, live, start, done, outcome, now, accepts);
    sent, done := sent + calls, done + [outcome];
    assert done == QueryPuts(userId, latencyMs, contextsUsed, model, costUsd, success);
  }
}
