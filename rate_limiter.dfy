/**
 * Sliding-window rate limiting (backend/app/services/rate_limiter.py).
 *
 * A window counter keeps paired sequences of timestamps and amounts; an
 * entry stays live while its timestamp is not older than `now - span`.
 * The clock is an explicit integer parameter `now` of every operation.
 */
module RateLimiter {
  import opened Lib

  /** Every counter the limiter creates spans 60 seconds. */
  const WindowSeconds: int := 60

  /** The state of one SlidingWindowCounter. */
  datatype Window = Window(limit: int, span: int, timestamps: seq<int>, values: seq<int>)

  /** The two deques have the same length. */
  predicate Paired(w: Window) {
    |w.timestamps| == |w.values|
  }

  predicate Sorted(ts: seq<int>) {
    forall i, j :: 0 <= i < j < |ts| ==> ts[i] <= ts[j]
  }

  function NewWindow(limit: int): (w: Window)
    ensures Paired(w) && w.timestamps == [] && w.limit == limit && w.span == WindowSeconds
  {
    Window(limit, WindowSeconds, [], [])
  }

  /** One iteration of _cleanup's loop: drop the oldest timestamp and, if any, the oldest amount. */
  function PopOldest(w: Window): (p: Window)
    requires |w.timestamps| > 0
    ensures p.limit == w.limit && p.span == w.span && |p.timestamps| == |w.timestamps| - 1
    ensures Paired(w) ==> Paired(p)
  {
    w.(timestamps := w.timestamps[1..], values := if |w.values| > 0 then w.values[1..] else w.values)
  }

  /**
   * _cleanup: pops entries from the front while the oldest timestamp is
   * older than `now - span`.
   */
  function Cleaned(w: Window, now: int): (c: Window)
    ensures c.limit == w.limit && c.span == w.span && |c.timestamps| <= |w.timestamps|
    ensures Paired(w) ==> Paired(c)
    decreases |w.timestamps|
  {
    if |w.timestamps| > 0 && w.timestamps[0] < now - w.span then Cleaned(PopOldest(w), now) else w
  }

  /**
   * Cleanup removes a prefix of the entries: every removed timestamp is
   * older than `now - span` and the oldest kept one is not; the amounts
   * lose the same prefix.
   */
  lemma CleanedDropsExpired(w: Window, now: int)
    ensures Cleaned(w, now).timestamps == w.timestamps[|w.timestamps| - |Cleaned(w, now).timestamps|..]
    ensures forall j :: 0 <= j < |w.timestamps| - |Cleaned(w, now).timestamps| ==> w.timestamps[j] < now - w.span
    ensures Cleaned(w, now).timestamps == [] || Cleaned(w, now).timestamps[0] >= now - w.span
    ensures Paired(w) ==> Cleaned(w, now).values == w.values[|w.values| - |Cleaned(w, now).values|..]
  {
    CleanedTimestampsSuffix(w, now);
    CleanedRemovedExpired(w, now);
    CleanedOldestKept(w, now);
    if Paired(w) {
      CleanedValuesSuffix(w, now);
    }
  }

  /** The timestamps after cleanup are a suffix of those before. */
  lemma {:induction false} CleanedTimestampsSuffix(w: Window, now: int)
    ensures Cleaned(w, now).timestamps == w.timestamps[|w.timestamps| - |Cleaned(w, now).timestamps|..]
    decreases |w.timestamps|
  {
    var c := Cleaned(w, now);
    if |w.timestamps| > 0 && w.timestamps[0] < now - w.span {
      var p := PopOldest(w);
      assert p.timestamps == w.timestamps[1..];
      assert c == Cleaned(p, now);
      CleanedTimestampsSuffix(p, now);
      var d := |w.timestamps| - |c.timestamps|;
      assert p.timestamps[d - 1..] == w.timestamps[d..];
    } else {
      assert c == w;
      assert w.timestamps[0..] == w.timestamps;
    }
  }

  /** Every timestamp cleanup removes is older than `now - span`. */
  lemma {:induction false} CleanedRemovedExpired(w: Window, now: int)
    ensures forall j :: 0 <= j < |w.timestamps| - |Cleaned(w, now).timestamps| ==> w.timestamps[j] < now - w.span
    decreases |w.timestamps|
  {
    if |w.timestamps| > 0 && w.timestamps[0] < now - w.span {
      var p := PopOldest(w);
      CleanedRemovedExpired(p, now);
      var d := |w.timestamps| - |Cleaned(p, now).timestamps|;
      forall j | 0 <= j < d
        ensures w.timestamps[j] < now - w.span
      {
        if j > 0 {
          assert w.timestamps[j] == p.timestamps[j - 1];
        }
      }
    }
  }

  /** The oldest timestamp cleanup keeps is not older than `now - span`. */
  lemma {:induction false} CleanedOldestKept(w: Window, now: int)
    ensures Cleaned(w, now).timestamps == [] || Cleaned(w, now).timestamps[0] >= now - w.span
    decreases |w.timestamps|
  {
    if |w.timestamps| > 0 && w.timestamps[0] < now - w.span {
      CleanedOldestKept(PopOldest(w), now);
    }
  }

  /** With one amount per timestamp, the amounts lose the same prefix. */
  lemma {:induction false} CleanedValuesSuffix(w: Window, now: int)
    requires Paired(w)
    ensures Cleaned(w, now).values == w.values[|w.values| - |Cleaned(w, now).values|..]
    decreases |w.timestamps|
  {
    var c := Cleaned(w, now);
    if |w.timestamps| > 0 && w.timestamps[0] < now - w.span {
      var p := PopOldest(w);
      assert Paired(p) && p.values == w.values[1..];
      assert c == Cleaned(p, now);
      CleanedValuesSuffix(p, now);
      var d := |w.values| - |c.values|;
      assert p.values[d - 1..] == w.values[d..];
    } else {
      assert c == w;
      assert w.values[0..] == w.values;
    }
  }

  /** With non-decreasing timestamps, every entry that survives cleanup is live. */
  lemma CleanedKeepsOnlyLive(w: Window, now: int)
    requires Sorted(w.timestamps)
    ensures forall j :: 0 <= j < |Cleaned(w, now).timestamps| ==> Cleaned(w, now).timestamps[j] >= now - w.span
  {
    CleanedDropsExpired(w, now);
    var c := Cleaned(w, now);
    var d := |w.timestamps| - |c.timestamps|;
    forall j | 0 <= j < |c.timestamps|
      ensures c.timestamps[j] >= now - w.span
    {
      assert c.timestamps[0] == w.timestamps[d];
      assert c.timestamps[j] == w.timestamps[d + j];
    }
  }

  /** A second cleanup at the same instant removes nothing. */
  lemma CleanedIdempotent(w: Window, now: int)
    ensures Cleaned(Cleaned(w, now), now) == Cleaned(w, now)
  {
    CleanedDropsExpired(w, now);
  }

  /** `sum(values) if values else len(timestamps)`. */
  function Total(w: Window): (t: int)
    ensures Paired(w) ==> t == Sum(w.values)
  {
    if |w.values| > 0 then Sum(w.values) else |w.timestamps|
  }

  /** The live total after cleanup at `now`. */
  function Live(w: Window, now: int): int {
    Total(Cleaned(w, now))
  }

  /** try_acquire succeeds iff the live total plus the amount stays within the limit. */
  predicate Admits(w: Window, now: int, count: int) {
    Live(w, now) + count <= w.limit
  }

  /** The counter after try_acquire(count) at `now`: cleaned, and with one entry more when admitted. */
  function Acquired(w: Window, now: int, count: int): (a: Window)
    ensures a.limit == w.limit && a.span == w.span
    ensures Admits(w, now, count) ==>
              a.timestamps == Cleaned(w, now).timestamps + [now] && a.values == Cleaned(w, now).values + [count]
    ensures !Admits(w, now, count) ==> a == Cleaned(w, now)
  {
    var c := Cleaned(w, now);
    if Total(c) + count > w.limit then c
    else c.(timestamps := c.timestamps + [now], values := c.values + [count])
  }

  /** try_acquire after a cleanup at the same instant is try_acquire. */
  lemma AcquiredAfterCleanup(w: Window, now: int, count: int)
    ensures Acquired(Cleaned(w, now), now, count) == Acquired(w, now, count)
    ensures Admits(Cleaned(w, now), now, count) == Admits(w, now, count)
  {
    CleanedIdempotent(w, now);
  }

  /**
   * An admitted amount is added to the live total; a rejected one leaves it
   * as it was; so a counter within its limit stays within it.
   */
  lemma AcquiredConsumes(w: Window, now: int, count: int)
    requires Paired(w) && w.span >= 0
    ensures Paired(Acquired(w, now, count))
    ensures Admits(w, now, count) ==> Live(Acquired(w, now, count), now) == Live(w, now) + count
    ensures !Admits(w, now, count) ==> Live(Acquired(w, now, count), now) == Live(w, now)
    ensures Live(w, now) <= w.limit ==> Live(Acquired(w, now, count), now) <= w.limit
  {
    var c := Cleaned(w, now);
    CleanedIdempotent(w, now);
    if Admits(w, now, count) {
      var a := Acquired(w, now, count);
      CleanedDropsExpired(w, now);
      assert a.timestamps[0] >= now - w.span;
      SumAppend(c.values, [count]);
    }
  }

  /** A counter the status check found room in records the amount after that check's cleanup. */
  lemma RecordAfterCheck(w: Window, now: int, count: int)
    requires Paired(w) && w.span >= 0 && Admits(w, now, count)
    ensures Admits(Cleaned(w, now), now, count)
    ensures Paired(Acquired(Cleaned(w, now), now, count)) && Acquired(Cleaned(w, now), now, count).span >= 0
    ensures Live(Acquired(Cleaned(w, now), now, count), now) == Live(w, now) + count
  {
    AcquiredAfterCleanup(w, now, count);
    AcquiredConsumes(w, now, count);
  }

  /** A suffix of an ordered sequence is ordered and bounded by the same value. */
  lemma SuffixSorted(ts: seq<int>, k: nat, bound: int)
    requires k <= |ts| && Sorted(ts) && forall j :: 0 <= j < |ts| ==> ts[j] <= bound
    ensures Sorted(ts[k..]) && forall j :: 0 <= j < |ts[k..]| ==> ts[k..][j] <= bound
  {
    assert forall j :: 0 <= j < |ts[k..]| ==> ts[k..][j] == ts[k + j];
  }

  /** Appending a value no smaller than every element keeps a sequence ordered. */
  lemma SnocSorted(ts: seq<int>, x: int)
    requires Sorted(ts) && forall j :: 0 <= j < |ts| ==> ts[j] <= x
    ensures Sorted(ts + [x])
  {
    assert forall j :: 0 <= j < |ts| ==> (ts + [x])[j] == ts[j];
  }

  /** Appending at a time no earlier than the newest entry keeps the timestamps ordered. */
  lemma AcquiredKeepsOrder(w: Window, now: int, count: int)
    requires Sorted(w.timestamps)
    requires forall j :: 0 <= j < |w.timestamps| ==> w.timestamps[j] <= now
    ensures Sorted(Acquired(w, now, count).timestamps)
  {
    CleanedDropsExpired(w, now);
    var c := Cleaned(w, now);
    SuffixSorted(w.timestamps, |w.timestamps| - |c.timestamps|, now);
    if Admits(w, now, count) {
      SnocSorted(c.timestamps, now);
    }
  }

  /** get_remaining: `max(0, limit - live total)`. */
  function RemainingAt(w: Window, now: int): (r: int)
    ensures r >= 0 && r >= w.limit - Live(w, now)
    ensures r == 0 || r == w.limit - Live(w, now)
  {
    Max(0, w.limit - Live(w, now))
  }

  /** get_reset_time: when the oldest entry expires, or now for an empty counter. */
  function ResetTime(w: Window, now: int): (t: int)
    ensures w.timestamps == [] ==> t == now
  {
    if |w.timestamps| > 0 then w.timestamps[0] + w.span else now
  }

  /** After cleanup at `now` the reset time never lies in the past. */
  lemma ResetTimeNotPast(w: Window, now: int)
    ensures ResetTime(Cleaned(w, now), now) >= now
  {
    CleanedDropsExpired(w, now);
  }

  /** reset: both deques emptied. */
  function Cleared(w: Window): (c: Window)
    ensures Paired(c) && c.timestamps == [] && c.limit == w.limit && c.span == w.span
  {
    w.(timestamps := [], values := [])
  }

  /** After reset the whole (non-negative) limit is available again. */
  lemma RemainingAfterReset(w: Window, now: int)
    requires w.limit >= 0
    ensures RemainingAt(Cleared(w), now) == w.limit
  {
  }

  /** SlidingWindowCounter: the deques are fields the methods reassign. */
  class SlidingWindowCounter {
    var limit: int
    var span: int
    var timestamps: seq<int>
    var values: seq<int>

    function State(): Window
      reads this
    {
      Window(limit, span, timestamps, values)
    }

    ghost predicate Valid()
      reads this
    {
      Paired(State())
    }

    constructor(limit: int, span: int)
      ensures State() == Window(limit, span, [], []) && Valid()
    {
      this.limit := limit;
      this.span := span;
      timestamps := [];
      values := [];
    }

    /** _cleanup. */
    method Cleanup(now: int)
      modifies this
      ensures State() == Cleaned(old(State()), now)
    {
      var cutoff := now - span;
      while |timestamps| > 0 && timestamps[0] < cutoff
        invariant limit == old(limit) && span == old(span)
        invariant Cleaned(State(), now) == Cleaned(old(State()), now)
        decreases |timestamps|
      {
        timestamps := timestamps[1..];
        if |values| > 0 {
          values := values[1..];
        }
      }
    }

    /** try_acquire(count) at `now`. */
    method TryAcquire(count: int, now: int) returns (ok: bool)
      modifies this
      ensures ok == Admits(old(State()), now, count)
      ensures State() == Acquired(old(State()), now, count)
    {
      Cleanup(now);
      var currentTotal := if |values| > 0 then Sum(values) else |timestamps|;
      if currentTotal + count > limit {
        return false;
      }
      timestamps := timestamps + [now];
      values := values + [count];
      ok := true;
    }

    /** get_remaining at `now`; the cleanup it performs is kept. */
    method GetRemaining(now: int) returns (r: int)
      modifies this
      ensures r == RemainingAt(old(State()), now)
      ensures State() == Cleaned(old(State()), now)
    {
      Cleanup(now);
      var currentTotal := if |values| > 0 then Sum(values) else |timestamps|;
      r := Max(0, limit - currentTotal);
    }

    /** get_reset_time; `now` stands for `time.time()`. */
    method GetResetTime(now: int) returns (t: int)
      ensures t == ResetTime(State(), now)
    {
      if |timestamps| > 0 {
        return timestamps[0] + span;
      }
      return now;
    }

    method Reset()
      modifies this
      ensures State() == Cleared(old(State()))
    {
      timestamps := [];
      values := [];
    }
  }

  /** RateLimitConfig without the queueing fields (burst_multiplier, queue_timeout). */
  datatype RateLimitConfig = RateLimitConfig(
    requestsPerMinute: int,
    tokensPerMinute: int,
    perUserRpm: int,
    perUserTpm: int)

  const DefaultConfig: RateLimitConfig := RateLimitConfig(60, 100000, 20, 50000)

  datatype LimitType = Requests | Tokens

  datatype RateLimitStatus = RateLimitStatus(
    requestsRemaining: int,
    tokensRemaining: int,
    resetAt: int,
    isLimited: bool,
    retryAfter: int)

  /** RateLimitExceeded raised because the status check found the caller limited; the message text is not modelled. */
  datatype RateLimitExceeded = Limited(retryAfter: int)

  /** The counter a per-user map holds for `user`, or a fresh one with `limit`. */
  function UserWindow(m: map<string, Window>, user: string, limit: int): (w: Window)
    ensures user in m ==> w == m[user]
    ensures user !in m ==> w == NewWindow(limit)
  {
    if user in m then m[user] else NewWindow(limit)
  }

  function Min4(a: int, b: int, c: int, d: int): (m: int)
    ensures m <= a && m <= b && m <= c && m <= d
    ensures m == a || m == b || m == c || m == d
  {
    Min(Min(a, b), Min(c, d))
  }

  /**
   * check_rate_limit over the two global and the two user counters as they
   * are before the call, all read at the instant `now`.
   */
  function StatusOf(gr: Window, gt: Window, ur: Window, ut: Window, estimatedTokens: int, now: int): (s: RateLimitStatus)
    ensures s.requestsRemaining == Min(RemainingAt(gr, now), RemainingAt(ur, now))
    ensures s.tokensRemaining == Min(RemainingAt(gt, now), RemainingAt(ut, now))
    ensures s.isLimited <==> s.requestsRemaining <= 0 || (estimatedTokens > 0 && s.tokensRemaining < estimatedTokens)
    ensures s.retryAfter >= 0 && (!s.isLimited ==> s.retryAfter == 0)
    ensures s.resetAt == now + WindowSeconds
  {
    var requests := Min(RemainingAt(gr, now), RemainingAt(ur, now));
    var tokens := Min(RemainingAt(gt, now), RemainingAt(ut, now));
    var limited := requests <= 0 || (estimatedTokens > 0 && tokens < estimatedTokens);
    var retry :=
      if limited then
        Max(0, Min4(ResetTime(Cleaned(gr, now), now), ResetTime(Cleaned(gt, now), now),
                    ResetTime(Cleaned(ur, now), now), ResetTime(Cleaned(ut, now), now)) - now)
      else 0;
    RateLimitStatus(requests, tokens, now + WindowSeconds, limited, retry)
  }

  /** A limited caller is told to wait until the earliest counter frees up, which is never in the past. */
  lemma RetryAfterIsEarliestReset(gr: Window, gt: Window, ur: Window, ut: Window, estimatedTokens: int, now: int)
    requires StatusOf(gr, gt, ur, ut, estimatedTokens, now).isLimited
    ensures StatusOf(gr, gt, ur, ut, estimatedTokens, now).retryAfter
            == Min4(ResetTime(Cleaned(gr, now), now), ResetTime(Cleaned(gt, now), now),
                    ResetTime(Cleaned(ur, now), now), ResetTime(Cleaned(ut, now), now)) - now
  {
    ResetTimeNotPast(gr, now);
    ResetTimeNotPast(gt, now);
    ResetTimeNotPast(ur, now);
    ResetTimeNotPast(ut, now);
  }

  /**
   * At one instant, a request the status check lets through is admitted by
   * every counter: one request by the request counters and, when positive,
   * the estimated tokens by the token counters.
   */
  lemma UnlimitedIsAdmitted(gr: Window, gt: Window, ur: Window, ut: Window, estimatedTokens: int, now: int)
    requires !StatusOf(gr, gt, ur, ut, estimatedTokens, now).isLimited
    ensures Admits(gr, now, 1) && Admits(ur, now, 1)
    ensures estimatedTokens > 0 ==> Admits(gt, now, estimatedTokens) && Admits(ut, now, estimatedTokens)
  {
  }

  lemma UpdateTwice<K, V>(m: map<K, V>, k: K, a: V, b: V)
    ensures m[k := a][k := b] == m[k := b]
  {
  }

  /** RateLimiter: the per-user dictionaries are map fields; counters are held by value. */
  class RateLimiter {
    var config: RateLimitConfig
    var globalRpm: Window
    var globalTpm: Window
    var userRpm: map<string, Window>
    var userTpm: map<string, Window>

    ghost predicate Valid()
      reads this
    {
      Paired(globalRpm) && Paired(globalTpm) && globalRpm.span >= 0 && globalTpm.span >= 0
      && (forall u :: u in userRpm ==> Paired(userRpm[u]) && userRpm[u].span >= 0)
      && (forall u :: u in userTpm ==> Paired(userTpm[u]) && userTpm[u].span >= 0)
    }

    constructor(config: RateLimitConfig)
      ensures Valid() && this.config == config
      ensures globalRpm == NewWindow(config.requestsPerMinute) && globalTpm == NewWindow(config.tokensPerMinute)
      ensures userRpm == map[] && userTpm == map[]
    {
      this.config := config;
      globalRpm := NewWindow(config.requestsPerMinute);
      globalTpm := NewWindow(config.tokensPerMinute);
      userRpm := map[];
      userTpm := map[];
    }

    /** _get_user_limiter: creates the user's counter on first use, and changes nothing else. */
    method GetUserLimiter(user: string, kind: LimitType) returns (w: Window)
      requires Valid()
      modifies this
      ensures Valid() && config == old(config) && globalRpm == old(globalRpm) && globalTpm == old(globalTpm)
      ensures kind == Requests ==>
                w == UserWindow(old(userRpm), user, config.perUserRpm)
                && userRpm == old(userRpm)[user := w] && userTpm == old(userTpm)
      ensures kind == Tokens ==>
                w == UserWindow(old(userTpm), user, config.perUserTpm)
                && userTpm == old(userTpm)[user := w] && userRpm == old(userRpm)
    {
      if kind == Requests {
        if user !in userRpm {
          userRpm := userRpm[user := NewWindow(config.perUserRpm)];
        }
        w := userRpm[user];
        assert userRpm == old(userRpm)[user := w];
      } else {
        if user !in userTpm {
          userTpm := userTpm[user := NewWindow(config.perUserTpm)];
        }
        w := userTpm[user];
        assert userTpm == old(userTpm)[user := w];
      }
    }

    /**
     * check_rate_limit: reads the four counters at `now` without consuming;
     * the reads clean the counters and create the user's counters.
     */
    method CheckRateLimit(user: string, estimatedTokens: int, now: int) returns (status: RateLimitStatus)
      requires Valid()
      modifies this
      ensures Valid() && config == old(config)
      ensures status == StatusOf(old(globalRpm), old(globalTpm),
                                 UserWindow(old(userRpm), user, config.perUserRpm),
                                 UserWindow(old(userTpm), user, config.perUserTpm), estimatedTokens, now)
      ensures globalRpm == Cleaned(old(globalRpm), now) && globalTpm == Cleaned(old(globalTpm), now)
      ensures userRpm == old(userRpm)[user := Cleaned(UserWindow(old(userRpm), user, config.perUserRpm), now)]
      ensures userTpm == old(userTpm)[user := Cleaned(UserWindow(old(userTpm), user, config.perUserTpm), now)]
    {
      // the two _get_user_limiter calls, whose entries are overwritten below
      var ur := UserWindow(userRpm, user, config.perUserRpm);
      var ut := UserWindow(userTpm, user, config.perUserTpm);
      status := StatusOf(globalRpm, globalTpm, ur, ut, estimatedTokens, now);
      globalRpm := Cleaned(globalRpm, now);
      globalTpm := Cleaned(globalTpm, now);
      userRpm := userRpm[user := Cleaned(ur, now)];
      userTpm := userTpm[user := Cleaned(ut, now)];
    }

    /**
     * acquire with wait=False: a limited caller gets RateLimitExceeded and
     * nothing is recorded; otherwise one request (and the estimated tokens,
     * when positive) is recorded on the global and on the user's counters.
     */
    method Acquire(user: string, estimatedTokens: int, now: int) returns (r: Result<bool, RateLimitExceeded>)
      requires Valid()
      modifies this
      ensures Valid() && config == old(config)
      ensures r.Err? <==> StatusOf(old(globalRpm), old(globalTpm),
                                  UserWindow(old(userRpm), user, config.perUserRpm),
                                  UserWindow(old(userTpm), user, config.perUserTpm), estimatedTokens, now).isLimited
      ensures r.Err? ==>
                r.error == Limited(StatusOf(old(globalRpm), old(globalTpm),
                                            UserWindow(old(userRpm), user, config.perUserRpm),
                                            UserWindow(old(userTpm), user, config.perUserTpm), estimatedTokens, now).retryAfter)
      ensures r.Ok? ==> r.value
      ensures globalRpm == if r.Ok? then Acquired(old(globalRpm), now, 1) else Cleaned(old(globalRpm), now)
      ensures globalTpm == if r.Ok? && estimatedTokens > 0 then Acquired(old(globalTpm), now, estimatedTokens)
                           else Cleaned(old(globalTpm), now)
      ensures userRpm == old(userRpm)[user := if r.Ok? then Acquired(UserWindow(old(userRpm), user, config.perUserRpm), now, 1)
                                              else Cleaned(UserWindow(old(userRpm), user, config.perUserRpm), now)]
      ensures userTpm == old(userTpm)[user := if r.Ok? && estimatedTokens > 0
                                              then Acquired(UserWindow(old(userTpm), user, config.perUserTpm), now, estimatedTokens)
                                              else Cleaned(UserWindow(old(userTpm), user, config.perUserTpm), now)]
    {
      ghost var gr, gt := globalRpm, globalTpm;
      ghost var ur0 := UserWindow(userRpm, user, config.perUserRpm);
      ghost var ut0 := UserWindow(userTpm, user, config.perUserTpm);
      var status := CheckRateLimit(user, estimatedTokens, now);
      if status.isLimited {
        return Err(Limited(status.retryAfter));
      }
      UnlimitedIsAdmitted(gr, gt, ur0, ut0, estimatedTokens, now);
      AcquiredAfterCleanup(gr, now, 1);
      AcquiredAfterCleanup(ur0, now, 1);
      AcquiredAfterCleanup(gt, now, estimatedTokens);
      AcquiredAfterCleanup(ut0, now, estimatedTokens);
      ghost var ur1, ut1 := Cleaned(ur0, now), Cleaned(ut0, now);
      Record(user, estimatedTokens, now);
      UpdateTwice(old(userRpm), user, ur1, Acquired(ur1, now, 1));
      if estimatedTokens > 0 {
        UpdateTwice(old(userTpm), user, ut1, Acquired(ut1, now, estimatedTokens));
      }
      return Ok(true);
    }

    /**
     * The consuming half of acquire, once the check has passed: one request
     * and the positive estimated tokens go to the global counters, whose
     * try_acquire cannot fail at the check's instant, and then to the
     * user's counters, whose outcome acquire ignores.
     */
    method Record(user: string, estimatedTokens: int, now: int)
      requires Valid() && user in userRpm && user in userTpm
      requires Admits(globalRpm, now, 1) && (estimatedTokens > 0 ==> Admits(globalTpm, now, estimatedTokens))
      modifies this
      ensures Valid() && config == old(config)
      ensures globalRpm == Acquired(old(globalRpm), now, 1)
      ensures globalTpm == if estimatedTokens > 0 then Acquired(old(globalTpm), now, estimatedTokens) else old(globalTpm)
      ensures userRpm == old(userRpm)[user := Acquired(old(userRpm)[user], now, 1)]
      ensures userTpm == if estimatedTokens > 0 then old(userTpm)[user := Acquired(old(userTpm)[user], now, estimatedTokens)]
                         else old(userTpm)
    {
      AcquiredConsumes(globalRpm, now, 1);
      var admitted := Admits(globalRpm, now, 1);
      globalRpm := Acquired(globalRpm, now, 1);
      if !admitted {
        // "Global RPM limit exceeded": the check already admitted one request at this instant
        assert false;
      }
      if estimatedTokens > 0 {
        AcquiredConsumes(globalTpm, now, estimatedTokens);
        admitted := Admits(globalTpm, now, estimatedTokens);
        globalTpm := Acquired(globalTpm, now, estimatedTokens);
        if !admitted {
          // "Global TPM limit exceeded": likewise admitted by the check
          assert false;
        }
      }
      // _get_user_limiter returns the counters the check created
      var ur := userRpm[user];
      var ut := userTpm[user];
      AcquiredConsumes(ur, now, 1);
      userRpm := userRpm[user := Acquired(ur, now, 1)];
      if estimatedTokens > 0 {
        AcquiredConsumes(ut, now, estimatedTokens);
        userTpm := userTpm[user := Acquired(ut, now, estimatedTokens)];
      }
    }

    /**
     * reset(user): a non-empty user id resets only that user's counters
     * (when they exist); no id, or the empty one, resets the globals and
     * drops every per-user counter.
     */
    method Reset(user: Option<string>)
      requires Valid()
      modifies this
      ensures Valid() && config == old(config)
      ensures user.Some? && user.value != "" ==>
                globalRpm == old(globalRpm) && globalTpm == old(globalTpm)
                && userRpm == (if user.value in old(userRpm) then old(userRpm)[user.value := Cleared(old(userRpm)[user.value])] else old(userRpm))
                && userTpm == (if user.value in old(userTpm) then old(userTpm)[user.value := Cleared(old(userTpm)[user.value])] else old(userTpm))
      ensures !(user.Some? && user.value != "") ==>
                globalRpm == Cleared(old(globalRpm)) && globalTpm == Cleared(old(globalTpm))
                && userRpm == map[] && userTpm == map[]
    {
      if user.Some? && user.value != "" {
        var u := user.value;
        if u in userRpm {
          userRpm := userRpm[u := Cleared(userRpm[u])];
        }
        if u in userTpm {
          userTpm := userTpm[u := Cleared(userTpm[u])];
        }
      } else {
        globalRpm := Cleared(globalRpm);
        globalTpm := Cleared(globalTpm);
        userRpm := map[];
        userTpm := map[];
      }
    }
  }
}
