// Budget accounting for the chat model: daily and monthly ledgers of spend per
// user, the calendar resets that empty them, and the status report that decides
// when requests fall back from the Sonnet tier to the cheaper Haiku tier.
// Costs are exact reals; the wall clock is passed in as the current date and
// month strings.

module BudgetManager {
  import opened Lib

  datatype ModelTier = Sonnet | Haiku

  /** Price in USD per million tokens. */
  datatype Pricing = Pricing(input: real, output: real)

  const SonnetPricing := Pricing(3.0, 15.0)
  const HaikuPricing := Pricing(0.25, 1.25)

  /** The pricing table lookup; any model name other than "haiku" and "sonnet"
      falls back to the Sonnet prices. */
  function PricingFor(model: string): (p: Pricing)
    ensures p == SonnetPricing || p == HaikuPricing
    ensures p == HaikuPricing <==> model == "haiku"
  {
    if model == "haiku" then HaikuPricing else SonnetPricing
  }

  function CalculateCost(inputTokens: int, outputTokens: int, model: string): (c: real)
    ensures inputTokens >= 0 && outputTokens >= 0 ==> c >= 0.0
    ensures inputTokens == 0 && outputTokens == 0 ==> c == 0.0
  {
    var p := PricingFor(model);
    (inputTokens as real / 1000000.0) * p.input + (outputTokens as real / 1000000.0) * p.output
  }

  /** A model the table does not know is charged exactly like Sonnet. */
  lemma UnknownModelCostsAsSonnet(inputTokens: int, outputTokens: int, model: string)
    requires model != "haiku" && model != "sonnet"
    ensures CalculateCost(inputTokens, outputTokens, model) == CalculateCost(inputTokens, outputTokens, "sonnet")
  {
  }

  /** For the same non-negative token counts Haiku never costs more than Sonnet. */
  lemma HaikuNeverDearer(inputTokens: nat, outputTokens: nat)
    ensures CalculateCost(inputTokens, outputTokens, "haiku") <= CalculateCost(inputTokens, outputTokens, "sonnet")
  {
    var i := inputTokens as real / 1000000.0;
    var o := outputTokens as real / 1000000.0;
    assert i * 0.25 <= i * 3.0;
    assert o * 1.25 <= o * 15.0;
  }

  /** Charging two requests separately costs the same as charging their sum. */
  lemma CostAdditive(i1: int, o1: int, i2: int, o2: int, model: string)
    ensures CalculateCost(i1 + i2, o1 + o2, model)
         == CalculateCost(i1, o1, model) + CalculateCost(i2, o2, model)
  {
    var p := PricingFor(model);
    assert (i1 + i2) as real / 1000000.0 == i1 as real / 1000000.0 + i2 as real / 1000000.0;
    assert (o1 + o2) as real / 1000000.0 == o1 as real / 1000000.0 + o2 as real / 1000000.0;
  }

  datatype BudgetConfig = BudgetConfig(
    dailyBudgetUsd: real,
    monthlyBudgetUsd: real,
    sonnetThresholdPct: real,
    perUserDailyUsd: real,
    fallbackEnabled: bool)

  const DefaultConfig := BudgetConfig(10.0, 200.0, 0.7, 2.0, true)

  datatype UsageRecord = UsageRecord(inputTokens: int, outputTokens: int, costUsd: real, model: string, timestamp: real)

  datatype BudgetStatus = BudgetStatus(
    dailySpentUsd: real,
    monthlySpentUsd: real,
    dailyRemainingUsd: real,
    monthlyRemainingUsd: real,
    dailyBudgetPct: real,
    monthlyBudgetPct: real,
    recommendedModel: ModelTier,
    isOverBudget: bool,
    fallbackActive: bool)

  // ---------------------------------------------------------------------------
  // Ledgers
  // ---------------------------------------------------------------------------

  /** Sum of the values of a map, the keys taken in any order. */
  ghost function MapSum(m: map<string, real>): real
    decreases |m|
  {
    if m == map[] then 0.0
    else
      var k :| k in m;
      m[k] + MapSum(m - {k})
  }

  /** Any key can be taken out first. */
  lemma {:induction false} MapSumRemove(m: map<string, real>, k: string)
    requires k in m
    ensures MapSum(m) == m[k] + MapSum(m - {k})
    decreases |m|
  {
    var j :| j in m && MapSum(m) == m[j] + MapSum(m - {j});
    if j != k {
      MapSumRemove(m - {j}, k);
      MapSumRemove(m - {k}, j);
      assert m - {j} - {k} == m - {k} - {j};
    }
  }

  function Spent(m: map<string, real>, user: string): real
  {
    if user in m then m[user] else 0.0
  }

  /** Overwriting one entry changes the sum by exactly the change of that entry. */
  lemma MapSumUpdate(m: map<string, real>, k: string, v: real)
    ensures MapSum(m[k := v]) == MapSum(m) - Spent(m, k) + v
  {
    MapSumRemove(m[k := v], k);
    if k in m {
      MapSumRemove(m, k);
      assert m[k := v] - {k} == m - {k};
    } else {
      assert m[k := v] - {k} == m;
    }
  }

  /** One accounting period: spend per user, the running total, and the date
      (or month) the period started. */
  datatype Ledger = Ledger(usage: map<string, real>, total: real, period: string)

  /** The running total equals the sum of what each user spent. */
  ghost predicate Balanced(l: Ledger)
  {
    l.total == MapSum(l.usage)
  }

  function Fresh(period: string): (l: Ledger)
    ensures Balanced(l) && l.total == 0.0 && l.period == period
  {
    Ledger(map[], 0.0, period)
  }

  /** The ledger as seen at `now`: emptied and restarted when the period changed. */
  function Rolled(l: Ledger, now: string): Ledger
  {
    if now != l.period then Fresh(now) else l
  }

  /** Adds `cost` both to the user's entry and to the total. */
  function Charged(l: Ledger, user: string, cost: real): Ledger
  {
    Ledger(l.usage[user := Spent(l.usage, user) + cost], l.total + cost, l.period)
  }

  lemma RolledFacts(l: Ledger, now: string)
    ensures Rolled(l, now).period == now
    ensures Balanced(l) ==> Balanced(Rolled(l, now))
    ensures now == l.period ==> Rolled(l, now) == l
    ensures now != l.period ==> Rolled(l, now).usage == map[] && Rolled(l, now).total == 0.0
  {
  }

  /** Charging keeps the total equal to the per-user sum. */
  lemma ChargedBalanced(l: Ledger, user: string, cost: real)
    requires Balanced(l)
    ensures Balanced(Charged(l, user, cost))
  {
    MapSumUpdate(l.usage, user, Spent(l.usage, user) + cost);
  }

  /** Charging moves the user's spend and the total by the cost, and no other user's spend. */
  lemma ChargedFacts(l: Ledger, user: string, cost: real)
    ensures Spent(Charged(l, user, cost).usage, user) == Spent(l.usage, user) + cost
    ensures Charged(l, user, cost).total == l.total + cost
    ensures forall u :: u != user ==> Spent(Charged(l, user, cost).usage, u) == Spent(l.usage, u)
    ensures Charged(l, user, cost).period == l.period
  {
  }

  // ---------------------------------------------------------------------------
  // Status
  // ---------------------------------------------------------------------------

  function Remaining(budget: real, spent: real): (r: real)
    ensures r >= 0.0 && r >= budget - spent
    ensures r == 0.0 || r == budget - spent
  {
    if budget - spent > 0.0 then budget - spent else 0.0
  }

  function Percent(spent: real, budget: real): real
  {
    if budget > 0.0 then (spent / budget) * 100.0 else 0.0
  }

  function StatusOf(config: BudgetConfig, dailySpent: real, monthlySpent: real): (s: BudgetStatus)
    ensures s.dailySpentUsd == dailySpent && s.monthlySpentUsd == monthlySpent
    ensures s.recommendedModel == Haiku <==> s.fallbackActive
  {
    var dailyPct := Percent(dailySpent, config.dailyBudgetUsd);
    var monthlyPct := Percent(monthlySpent, config.monthlyBudgetUsd);
    var threshold := config.sonnetThresholdPct * 100.0;
    var fallback := (dailyPct >= threshold || monthlyPct >= threshold) && config.fallbackEnabled;
    BudgetStatus(
      dailySpent, monthlySpent,
      Remaining(config.dailyBudgetUsd, dailySpent), Remaining(config.monthlyBudgetUsd, monthlySpent),
      dailyPct, monthlyPct,
      if fallback then Haiku else Sonnet,
      dailySpent >= config.dailyBudgetUsd || monthlySpent >= config.monthlyBudgetUsd,
      fallback)
  }

  /** Over budget means the daily or the monthly spend reached its budget. */
  lemma OverBudgetIff(config: BudgetConfig, dailySpent: real, monthlySpent: real)
    ensures StatusOf(config, dailySpent, monthlySpent).isOverBudget
        <==> dailySpent >= config.dailyBudgetUsd || monthlySpent >= config.monthlyBudgetUsd
  {
  }

  /** Fallback only happens when it is enabled, and then exactly when a spend
      reaches the threshold share of its (positive) budget. */
  lemma FallbackIff(config: BudgetConfig, dailySpent: real, monthlySpent: real)
    requires config.dailyBudgetUsd > 0.0 && config.monthlyBudgetUsd > 0.0
    ensures StatusOf(config, dailySpent, monthlySpent).fallbackActive
        <==> config.fallbackEnabled
             && (dailySpent >= config.sonnetThresholdPct * config.dailyBudgetUsd
                 || monthlySpent >= config.sonnetThresholdPct * config.monthlyBudgetUsd)
  {
    PercentAtLeast(dailySpent, config.dailyBudgetUsd, config.sonnetThresholdPct);
    PercentAtLeast(monthlySpent, config.monthlyBudgetUsd, config.sonnetThresholdPct);
  }

  lemma PercentAtLeast(spent: real, budget: real, share: real)
    requires budget > 0.0
    ensures Percent(spent, budget) >= share * 100.0 <==> spent >= share * budget
  {
    var q := spent / budget;
    assert spent == q * budget;
    if q >= share {
      assert q * budget >= share * budget;
    } else {
      assert q * budget < share * budget;
    }
  }

  /** With fallback enabled and a threshold of at most the whole budget, being
      over budget always recommends Haiku. */
  lemma OverBudgetFallsBack(config: BudgetConfig, dailySpent: real, monthlySpent: real)
    requires config.dailyBudgetUsd > 0.0 && config.monthlyBudgetUsd > 0.0
    requires config.fallbackEnabled && 0.0 <= config.sonnetThresholdPct <= 1.0
    requires StatusOf(config, dailySpent, monthlySpent).isOverBudget
    ensures StatusOf(config, dailySpent, monthlySpent).recommendedModel == Haiku
  {
    FallbackIff(config, dailySpent, monthlySpent);
    if dailySpent >= config.dailyBudgetUsd {
      assert config.sonnetThresholdPct * config.dailyBudgetUsd <= config.dailyBudgetUsd;
    } else {
      assert config.sonnetThresholdPct * config.monthlyBudgetUsd <= config.monthlyBudgetUsd;
    }
  }

  /** Spending more never switches the recommendation back to Sonnet. */
  lemma FallbackMonotone(config: BudgetConfig, d1: real, m1: real, d2: real, m2: real)
    requires config.dailyBudgetUsd > 0.0 && config.monthlyBudgetUsd > 0.0
    requires d1 <= d2 && m1 <= m2
    requires StatusOf(config, d1, m1).fallbackActive
    ensures StatusOf(config, d2, m2).fallbackActive
  {
    FallbackIff(config, d1, m1);
    FallbackIff(config, d2, m2);
  }

  // ---------------------------------------------------------------------------
  // Reports
  // ---------------------------------------------------------------------------

  /** One user's spend: today's and this month's, the per-user limit and what is left of it today. */
  datatype UserSpending = UserSpending(dailySpentUsd: real, monthlySpentUsd: real, dailyLimitUsd: real, dailyRemainingUsd: real)

  /** What a request would cost on either tier, and what Haiku saves. */
  datatype CostEstimate = CostEstimate(
    estimatedInputTokens: int,
    estimatedOutputTokens: int,
    sonnetCostUsd: real,
    haikuCostUsd: real,
    savingsWithHaikuUsd: real,
    savingsPct: real)

  /** `estimate_request_cost`: the model argument is accepted and not used; both tiers are always priced. */
  function EstimateRequestCost(inputTokens: int, outputTokens: int, model: string): (e: CostEstimate)
    ensures e.estimatedInputTokens == inputTokens && e.estimatedOutputTokens == outputTokens
    ensures e.sonnetCostUsd == CalculateCost(inputTokens, outputTokens, "sonnet")
    ensures e.haikuCostUsd == CalculateCost(inputTokens, outputTokens, "haiku")
    ensures e.savingsWithHaikuUsd == e.sonnetCostUsd - e.haikuCostUsd
  {
    var sonnet := CalculateCost(inputTokens, outputTokens, "sonnet");
    var haiku := CalculateCost(inputTokens, outputTokens, "haiku");
    CostEstimate(inputTokens, outputTokens, sonnet, haiku, sonnet - haiku,
      if sonnet > 0.0 then (1.0 - haiku / sonnet) * 100.0 else 0.0)
  }

  /** Haiku is priced at a twelfth of Sonnet, so it saves 11/12 of any positive Sonnet cost and never costs more. */
  lemma EstimateSavings(inputTokens: nat, outputTokens: nat, model: string)
    ensures var e := EstimateRequestCost(inputTokens, outputTokens, model);
      e.haikuCostUsd * 12.0 == e.sonnetCostUsd &&
      e.savingsWithHaikuUsd >= 0.0 &&
      (e.sonnetCostUsd > 0.0 <==> inputTokens + outputTokens > 0) &&
      e.savingsPct == (if inputTokens + outputTokens > 0 then 1100.0 / 12.0 else 0.0)
  {
    var sonnet := CalculateCost(inputTokens, outputTokens, "sonnet");
    var haiku := CalculateCost(inputTokens, outputTokens, "haiku");
    assert haiku * 12.0 == sonnet;
    HaikuNeverDearer(inputTokens, outputTokens);
    if inputTokens + outputTokens > 0 {
      assert sonnet > 0.0;
      assert haiku / sonnet == 1.0 / 12.0;
    }
  }

  /** One ledger in `get_stats`: spend, budget, what is left, how many users spent, and the period. */
  datatype LedgerStats = LedgerStats(spentUsd: real, budgetUsd: real, remainingUsd: real, users: nat, period: string)

  datatype BudgetStats = BudgetStats(daily: LedgerStats, monthly: LedgerStats, sonnetThresholdPct: real, perUserDailyUsd: real, fallbackEnabled: bool)

  function StatsOf(l: Ledger, budget: real): (s: LedgerStats)
    ensures s.spentUsd == l.total && s.budgetUsd == budget && s.period == l.period
    ensures s.users == |l.usage| && s.remainingUsd == Remaining(budget, l.total)
  {
    LedgerStats(l.total, budget, Remaining(budget, l.total), |l.usage|, l.period)
  }

  /** A charge counts its user once: a new user adds one, a returning one none. */
  lemma ChargedUsers(l: Ledger, user: string, cost: real)
    ensures |Charged(l, user, cost).usage| == |l.usage| + (if user in l.usage then 0 else 1)
    ensures user in Charged(l, user, cost).usage
  {
    var m := l.usage[user := Spent(l.usage, user) + cost];
    if user in l.usage {
      assert m.Keys == l.usage.Keys;
    } else {
      assert m.Keys == l.usage.Keys + {user};
    }
  }

  // ---------------------------------------------------------------------------
  // The manager
  // ---------------------------------------------------------------------------

  class BudgetManager {
    const config: BudgetConfig
    var daily: Ledger
    var monthly: Ledger

    ghost predicate Valid()
      reads this
    {
      Balanced(daily) && Balanced(monthly)
    }

    /** `today` and `month` are the current UTC date ("%Y-%m-%d") and month ("%Y-%m"). */
    constructor(config: Option<BudgetConfig>, today: string, month: string)
      ensures this.config == (if config.Some? then config.value else DefaultConfig)
      ensures daily == Fresh(today) && monthly == Fresh(month)
      ensures Valid()
    {
      this.config := if config.Some? then config.value else DefaultConfig;
      daily := Fresh(today);
      monthly := Fresh(month);
    }

    /** Empties each ledger whose period has ended, independently of the other. */
    method CheckReset(today: string, month: string)
      modifies this
      requires Valid()
      ensures Valid()
      ensures daily == Rolled(old(daily), today) && monthly == Rolled(old(monthly), month)
    {
      if today != daily.period {
        daily := Fresh(today);
      }
      if month != monthly.period {
        monthly := Fresh(month);
      }
    }

    method RecordUsage(inputTokens: int, outputTokens: int, model: string, userId: string,
                       today: string, month: string, timestamp: real)
      returns (record: UsageRecord)
      modifies this
      requires Valid()
      ensures Valid()
      ensures record == UsageRecord(inputTokens, outputTokens, CalculateCost(inputTokens, outputTokens, model), model, timestamp)
      ensures daily == Charged(Rolled(old(daily), today), userId, record.costUsd)
      ensures monthly == Charged(Rolled(old(monthly), month), userId, record.costUsd)
    {
      var cost := CalculateCost(inputTokens, outputTokens, model);
      CheckReset(today, month);
      ChargedBalanced(daily, userId, cost);
      ChargedBalanced(monthly, userId, cost);
      daily := Charged(daily, userId, cost);
      monthly := Charged(monthly, userId, cost);
      record := UsageRecord(inputTokens, outputTokens, cost, model, timestamp);
    }

    method GetStatus(today: string, month: string) returns (status: BudgetStatus)
      modifies this
      requires Valid()
      ensures Valid()
      ensures daily == Rolled(old(daily), today) && monthly == Rolled(old(monthly), month)
      ensures status == StatusOf(config, daily.total, monthly.total)
    {
      CheckReset(today, month);
      status := StatusOf(config, daily.total, monthly.total);
    }

    method GetRecommendedModel(today: string, month: string) returns (tier: ModelTier)
      modifies this
      requires Valid()
      ensures Valid()
      ensures daily == Rolled(old(daily), today) && monthly == Rolled(old(monthly), month)
      ensures tier == Haiku <==> StatusOf(config, daily.total, monthly.total).fallbackActive
    {
      var status := GetStatus(today, month);
      tier := status.recommendedModel;
    }

    /** True while the user's spend today is strictly below the per-user limit. */
    method CheckUserBudget(userId: string, today: string, month: string) returns (within: bool)
      modifies this
      requires Valid()
      ensures Valid()
      ensures daily == Rolled(old(daily), today) && monthly == Rolled(old(monthly), month)
      ensures within <==> Spent(daily.usage, userId) < config.perUserDailyUsd
    {
      CheckReset(today, month);
      within := Spent(daily.usage, userId) < config.perUserDailyUsd;
    }

    /** `get_user_spending`: the user's spend in both ledgers after the calendar reset, and what is left of the per-user limit. */
    method GetUserSpending(userId: string, today: string, month: string) returns (r: UserSpending)
      modifies this
      requires Valid()
      ensures Valid()
      ensures daily == Rolled(old(daily), today) && monthly == Rolled(old(monthly), month)
      ensures r.dailySpentUsd == Spent(daily.usage, userId) && r.monthlySpentUsd == Spent(monthly.usage, userId)
      ensures r.dailyLimitUsd == config.perUserDailyUsd
      ensures r.dailyRemainingUsd == Remaining(config.perUserDailyUsd, r.dailySpentUsd)
    {
      CheckReset(today, month);
      var d := Spent(daily.usage, userId);
      var m := Spent(monthly.usage, userId);
      r := UserSpending(d, m, config.perUserDailyUsd, Remaining(config.perUserDailyUsd, d));
    }

    /** `get_stats`: both ledgers after the calendar reset, and the configuration. */
    method GetStats(today: string, month: string) returns (stats: BudgetStats)
      modifies this
      requires Valid()
      ensures Valid()
      ensures daily == Rolled(old(daily), today) && monthly == Rolled(old(monthly), month)
      ensures stats.daily == StatsOf(daily, config.dailyBudgetUsd) && stats.monthly == StatsOf(monthly, config.monthlyBudgetUsd)
      ensures stats.daily.period == today && stats.monthly.period == month
      ensures stats.sonnetThresholdPct == config.sonnetThresholdPct * 100.0
      ensures stats.perUserDailyUsd == config.perUserDailyUsd && stats.fallbackEnabled == config.fallbackEnabled
    {
      CheckReset(today, month);
      stats := BudgetStats(StatsOf(daily, config.dailyBudgetUsd), StatsOf(monthly, config.monthlyBudgetUsd),
        config.sonnetThresholdPct * 100.0, config.perUserDailyUsd, config.fallbackEnabled);
    }

    /** Clears the selected ledgers only; a cleared ledger restarts at the current period. */
    method Reset(resetDaily: bool, resetMonthly: bool, today: string, month: string)
      modifies this
      requires Valid()
      ensures Valid()
      ensures daily == (if resetDaily then Fresh(today) else old(daily))
      ensures monthly == (if resetMonthly then Fresh(month) else old(monthly))
    {
      if resetDaily {
        daily := Fresh(today);
      }
      if resetMonthly {
        monthly := Fresh(month);
      }
    }
  }
}
