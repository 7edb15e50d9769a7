/** When a backtest buys and how much: even shares of the cash over the dates that are left. */
module BacktestSizing {
  import opened Prelude
  import opened LedgerEvents
  import opened CohortLedgers
  import opened PointInTime
  import opened Backtest
  import opened BacktestAccounts
  import opened BacktestDiscipline
  import opened BacktestCapital

  /** The purchase dates from a date through the horizon: all of them, or the Mondays. */
  ghost function DatesLeft(date: Date, horizon: Date, weekly: bool): set<Date> {
    set d | date <= d <= horizon && (weekly ==> Weekday(d) == 1)
  }

  ghost function DatesAmong(date: Date, n: nat, weekly: bool): set<Date> {
    set d | date <= d < date + n && (weekly ==> Weekday(d) == 1)
  }

  lemma {:induction false} AmongGrows(date: Date, n: nat, weekly: bool)
    ensures |DatesAmong(date, n + 1, weekly)|
         == |DatesAmong(date, n, weekly)| + if weekly && Weekday(date + n) != 1 then 0 else 1
  {
    hide Weekday;
    var day := date + n;
    assert DatesAmong(date, n + 1, weekly)
        == DatesAmong(date, n, weekly) + if weekly && Weekday(day) != 1 then {} else {day};
  }

  lemma {:induction false} DailyCount(date: Date, n: nat)
    ensures |DatesAmong(date, n, false)| == n
  {
    if n == 0 {
      assert DatesAmong(date, 0, false) == {};
    } else {
      DailyCount(date, n - 1);
      AmongGrows(date, n - 1, false);
    }
  }

  /** How far the first Monday lies ahead. */
  function ToMonday(date: Date): nat {
    (8 - Weekday(date)) % 7
  }

  lemma MondaysRecur(date: Date, n: nat)
    ensures Weekday(date + n) == 1 <==> n >= ToMonday(date) && (n - ToMonday(date)) % 7 == 0
  {
  }

  lemma {:induction false} MondayCount(date: Date, n: nat)
    ensures |DatesAmong(date, n, true)|
         == if n <= ToMonday(date) then 0 else 1 + (n - 1 - ToMonday(date)) / 7
  {
    if n == 0 {
      assert DatesAmong(date, 0, true) == {};
    } else {
      MondayCount(date, n - 1);
      AmongGrows(date, n - 1, true);
      MondaysRecur(date, n - 1);
      hide Weekday, ToMonday;
    }
  }

  /** The slots are the number of purchase dates left, and at least one. */
  lemma RemainingIsCount(date: Date, horizon: Date, weekly: bool)
    ensures var left := |DatesLeft(date, horizon, weekly)|;
            RemainingDates(date, horizon, weekly) == if left == 0 then 1 else left
  {
    var n := if horizon < date then 0 else horizon - date + 1;
    assert DatesLeft(date, horizon, weekly) == DatesAmong(date, n, weekly);
    DailyCount(date, n);
    MondayCount(date, n);
    hide Weekday;
  }

  /** What the score of the features makes of an even share. */
  function ShareOf(p: Policy, score: real, stale: bool): real {
    var raw := 1.0 - p.sensitivity * score;
    if !p.adaptive || stale then 1.0
    else if raw < p.minMultiplier || p.maxMultiplier < p.minMultiplier then p.minMultiplier
    else if raw > p.maxMultiplier then p.maxMultiplier
    else raw
  }

  /** The cash, an even share of it times the multiplier, or the cap, whichever is least. */
  ghost predicate IsLeast(amount: real, cash: real, share: real, cap: real) {
    && amount <= cash && amount <= share && amount <= cap
    && (amount == cash || amount == share || amount == cap)
  }

  ghost function EvenShare(p: Policy, date: Date, cash: real): real {
    var left := |DatesLeft(date, p.horizon, p.weekly)|;
    cash / ((if left == 0 then 1 else left) as real)
  }

  /** What a bar would spend on some cash. */
  ghost predicate OrderFor(s: Setup, bar: Bar, cash: real, amount: real) {
    var (score, stale) := FeatureScore(s, bar.at);
    IsLeast(amount, cash, EvenShare(s.policy, DateOf(bar.at), cash) * ShareOf(s.policy, score, stale),
            s.execution.maxTrade)
  }

  /** Whether a bar is one to buy at, whatever the amount. */
  ghost predicate Due(s: Setup, bar: Bar, cash: real, trades: seq<Trade>) {
    var (score, stale) := FeatureScore(s, bar.at);
    && (s.policy.weekly ==> Weekday(DateOf(bar.at)) == 1)
    && (trades != [] ==> DateOf(trades[|trades| - 1].at) != DateOf(bar.at))
    && cash > DUST
    && !(s.policy.adaptive && stale && s.policy.staleBehavior == "skip")
  }

  /** The three cost rates of an execution, in all. */
  ghost function Costs(e: Execution): real {
    e.feeBps / 10000.0 + e.halfSpreadBps / 10000.0 + e.slippageBps / 10000.0
  }

  /** A trade at a bar: its price, its units net of costs, and what it was decided on. */
  ghost predicate TradedAt(s: Setup, bar: Bar, amount: real, t: Trade) {
    var (score, stale) := FeatureScore(s, bar.at);
    && t.at == bar.at && t.price == bar.price && t.spend == amount && t.score == score
    && t.multiplier == ShareOf(s.policy, score, stale)
    && t.units * (bar.price * (1.0 + Costs(s.execution))) == amount
  }

  /** Why a bar does not trade. */
  ghost function ReasonOf(s: Setup, bar: Bar, cash: real, trades: seq<Trade>): SkipReason {
    var (score, stale) := FeatureScore(s, bar.at);
    if s.policy.weekly && Weekday(DateOf(bar.at)) != 1 then OffDay
    else if trades != [] && DateOf(trades[|trades| - 1].at) == DateOf(bar.at) then DuplicateDay
    else if cash <= DUST then NoCash
    else if s.policy.adaptive && stale && s.policy.staleBehavior == "skip" then StaleFeatures
    else BelowMinimum
  }

  /** One more skip for this reason, and as many as before for every other; an off day is not counted. */
  ghost predicate CountsSkip(before: Report, after: Report, reason: SkipReason) {
    forall other :: SkipCount(after, other)
                    == SkipCount(before, other) + if other == reason && reason != OffDay then 1 else 0
  }

  /**
   * A bar that is due trades what it would spend, unless that is below the minimum;
   * no other bar trades, and each of those counts as one skip for its reason.
   */
  ghost predicate BarLaw(s: Setup, before: Run, cash: real, bar: Bar, after: Run) {
    exists amount: real ::
      && OrderFor(s, bar, cash, amount)
      && if Due(s, bar, cash, before.trades) && amount >= s.execution.minTrade then
           && (exists t :: after.trades == before.trades + [t] && TradedAt(s, bar, amount, t))
           && after.report.skipped == before.report.skipped
         else
           && after.trades == before.trades
           && CountsSkip(before.report, after.report, ReasonOf(s, bar, cash, before.trades))
  }

  /** The run knows the date of its last trade. */
  ghost predicate KnowsLast(r: Run) {
    r.lastTradeDate == if r.trades == [] then None else Some(DateOf(r.trades[|r.trades| - 1].at))
  }

  lemma MultiplierIsShare(p: Policy, score: real)
    requires p.adaptive
    ensures Multiplier(p, score) == ShareOf(p, score, false)
  {
  }

  lemma OrderIsLeast(s: Setup, bar: Bar, cash: real)
    ensures var (score, stale) := FeatureScore(s, bar.at);
            OrderFor(s, bar, cash,
                     OrderSize(cash, RemainingDates(DateOf(bar.at), s.policy.horizon, s.policy.weekly),
                               ShareOf(s.policy, score, stale), s.execution.maxTrade))
  {
    hide FeatureScore, ShareOf, DateOf, Weekday, RemainingDates, DatesLeft;
    RemainingIsCount(DateOf(bar.at), s.policy.horizon, s.policy.weekly);
  }

  /** The decision at a bar, in terms of what is due and what it would spend. */
  lemma DecisionLaw(s: Setup, cs: seq<Cohort>, r: Run, bar: Bar)
    requires KnowsLast(r) && Decide(s, cs, r.lastTradeDate, bar).Ok?
    ensures var (score, stale) := FeatureScore(s, bar.at);
            var amount := OrderSize(Cash(cs), RemainingDates(DateOf(bar.at), s.policy.horizon, s.policy.weekly),
                                    ShareOf(s.policy, score, stale), s.execution.maxTrade);
            var d := Decide(s, cs, r.lastTradeDate, bar).value;
            if Due(s, bar, Cash(cs), r.trades) && amount >= s.execution.minTrade then
              d == Buy(amount, ShareOf(s.policy, score, stale), score)
            else d == Skip(ReasonOf(s, bar, Cash(cs), r.trades))
  {
    hide FeatureScore, DateOf, Weekday, RemainingDates, OrderSize, Cash, Multiplier;
    var (score, stale) := FeatureScore(s, bar.at);
    if s.policy.adaptive {
      MultiplierIsShare(s.policy, score);
    }
  }

  /** A policy that meets outdated features without a rule for them. */
  ghost predicate Unruled(s: Setup, bar: Bar, cash: real, trades: seq<Trade>) {
    var (score, stale) := FeatureScore(s, bar.at);
    && (s.policy.weekly ==> Weekday(DateOf(bar.at)) == 1)
    && (trades != [] ==> DateOf(trades[|trades| - 1].at) != DateOf(bar.at))
    && cash > DUST
    && s.policy.adaptive && stale && s.policy.staleBehavior != "skip" && s.policy.staleBehavior != "fixed"
  }

  lemma DecisionFailsIff(s: Setup, cs: seq<Cohort>, r: Run, bar: Bar)
    requires KnowsLast(r)
    ensures Decide(s, cs, r.lastTradeDate, bar).Err? <==> Unruled(s, bar, Cash(cs), r.trades)
  {
    hide FeatureScore, DateOf, Weekday, RemainingDates, OrderSize, Cash, Multiplier;
  }

  /** A purchase fails exactly when its price or its costs make it a division by zero. */
  lemma PurchaseFailsIff(e: Execution, r: Run, bar: Bar, d: Decision)
    requires d.Buy? && d.amount <= Cash(r.cohorts)
    ensures Purchased(e, r, bar, d).Err? <==> bar.price * (1.0 + Costs(e)) == 0.0 || 1.0 + Costs(e) == 0.0
  {
    RateIsSum(e);
    hide Cash, Drain, CostRate, Costs, Acquired, Cost, Worth, MaxReal;
  }

  /** A bar that would buy, at a price or a cost rate of nothing. */
  ghost predicate Worthless(s: Setup, bar: Bar, cash: real, trades: seq<Trade>) {
    && Due(s, bar, cash, trades)
    && (exists amount: real :: OrderFor(s, bar, cash, amount) && amount >= s.execution.minTrade)
    && (bar.price * (1.0 + Costs(s.execution)) == 0.0 || 1.0 + Costs(s.execution) == 0.0)
  }

  /**
   * Once its capital events are paid, a bar fails exactly when the policy has no rule
   * for outdated features, or when it buys at a price or cost rate of nothing.
   */
  lemma BarFailsIff(s: Setup, pending: seq<CapitalEvent>, r: Run, bar: Bar)
    requires KnowsLast(r) && Absorb(r.cohorts, pending, r.nextEvent, bar.at).Ok?
    ensures var cash := Cash(Absorb(r.cohorts, pending, r.nextEvent, bar.at).value.0);
            StepBar(s, pending, r, bar).Err? <==> Unruled(s, bar, cash, r.trades) || Worthless(s, bar, cash, r.trades)
  {
    hide Absorb, Decide, Purchased, Marked, Skipped, FeatureScore, ShareOf, DateOf, Due, OrderFor, OrderSize,
         RemainingDates, Cash, ReasonOf, Unruled, Costs;
    var (cohorts, index) := Absorb(r.cohorts, pending, r.nextEvent, bar.at).value;
    var now := r.(cohorts := cohorts, nextEvent := index, report := Marked(r.report, r.units, bar));
    DecisionFailsIff(s, cohorts, r, bar);
    OrderIsLeast(s, bar, Cash(cohorts));
    OneOrder(s, bar, Cash(cohorts));
    if Decide(s, cohorts, r.lastTradeDate, bar).Ok? {
      var d := Decide(s, cohorts, r.lastTradeDate, bar).value;
      DecisionLaw(s, cohorts, r, bar);
      if d.Buy? {
        BuyMeans(s, cohorts, r.lastTradeDate, bar);
        PurchaseFailsIff(s.execution, now, bar, d);
      }
    } else {
      UnruledIsUndecided(s, bar, Cash(cohorts), r.trades);
    }
  }

  lemma UnruledIsUndecided(s: Setup, bar: Bar, cash: real, trades: seq<Trade>)
    ensures Unruled(s, bar, cash, trades) ==> Due(s, bar, cash, trades)
  {
    hide FeatureScore, DateOf, Weekday;
  }

  /** There is only one amount a bar would spend. */
  lemma OneOrder(s: Setup, bar: Bar, cash: real)
    ensures forall a: real, b: real :: OrderFor(s, bar, cash, a) && OrderFor(s, bar, cash, b) ==> a == b
  {
    hide FeatureScore, ShareOf, EvenShare, DateOf;
  }

  lemma PurchaseTrades(s: Setup, r: Run, bar: Bar, d: Decision)
    requires d.Buy? && Purchased(s.execution, r, bar, d).Ok?
    requires var (score, stale) := FeatureScore(s, bar.at);
             d.score == score && d.multiplier == ShareOf(s.policy, score, stale)
    ensures var next := Purchased(s.execution, r, bar, d).value;
            && KnowsLast(next) && next.report.skipped == r.report.skipped
            && exists t :: next.trades == r.trades + [t] && TradedAt(s, bar, d.amount, t)
  {
    hide TakeFrom, CostRate, Acquired, Cost, Worth, MaxReal, FeatureScore, ShareOf, DateOf;
    PurchaseShape(s.execution, r, bar, d);
    var rate := CostRate(s.execution);
    AcquiredIsExact(d.amount, bar.price, rate);
    RateIsSum(s.execution);
    var t := Trade(bar.at, d.amount, bar.price, Acquired(d.amount, bar.price, rate), d.multiplier, d.score);
    assert TradedAt(s, bar, d.amount, t);
  }

  lemma RateIsSum(e: Execution)
    ensures CostRate(e) == Costs(e)
  {
  }

  lemma AcquiredIsExact(amount: real, price: real, rate: real)
    requires price * (1.0 + rate) != 0.0
    ensures Acquired(amount, price, rate) * (price * (1.0 + rate)) == amount
  {
    var d := price * (1.0 + rate);
    var q := amount / d;
    assert q * d == amount;
  }

  lemma StepObeysLaw(s: Setup, pending: seq<CapitalEvent>, r: Run, bar: Bar)
    requires KnowsLast(r) && StepBar(s, pending, r, bar).Ok?
    ensures BarLaw(s, r, Cash(AtBar(s, pending, r, bar)), bar, StepBar(s, pending, r, bar).value)
    ensures KnowsLast(StepBar(s, pending, r, bar).value)
  {
    hide Absorb, Decide, Purchased, Marked, Skipped, FeatureScore, ShareOf, DateOf, Due, TradedAt, OrderFor, OrderSize,
         RemainingDates, Cash, ReasonOf, CountsSkip;
    var (cohorts, index) := Absorb(r.cohorts, pending, r.nextEvent, bar.at).value;
    var now := r.(cohorts := cohorts, nextEvent := index, report := Marked(r.report, r.units, bar));
    var d := Decide(s, cohorts, r.lastTradeDate, bar).value;
    DecisionLaw(s, cohorts, r, bar);
    OrderIsLeast(s, bar, Cash(cohorts));
    MarkCountsNothing(r.report, r.units, bar);
    if d.Buy? {
      PurchaseTrades(s, now, bar, d);
    } else {
      SkipCountsOne(r.report, now.report, d.reason);
    }
  }

  lemma MarkCountsNothing(r: Report, units: real, bar: Bar)
    ensures Marked(r, units, bar).skipped == r.skipped
  {
    hide Worth, Fall, MaxReal;
  }

  lemma SkipCountsOne(before: Report, now: Report, reason: SkipReason)
    requires now.skipped == before.skipped
    ensures CountsSkip(before, Skipped(now, reason), reason)
  {
  }

  lemma {:induction false} RunKnowsLast(s: Setup, pending: seq<CapitalEvent>, bars: seq<Bar>)
    requires RunBars(s, pending, bars).Ok?
    ensures KnowsLast(RunBars(s, pending, bars).value)
  {
    hide StepBar, KnowsLast;
    if bars == [] {
      StartKnows();
    } else {
      RunKnowsLast(s, pending, bars[..|bars| - 1]);
      StepObeysLaw(s, pending, RunBars(s, pending, bars[..|bars| - 1]).value, bars[|bars| - 1]);
    }
  }

  lemma StartKnows()
    ensures KnowsLast(START)
  {
  }

  /**
   * Every bar of a completed backtest obeys the sizing law: it trades exactly when it
   * is due and the order reaches the minimum, and then it spends the least of the
   * cash, an even share of it over the purchase dates left times the multiplier, and
   * the cap. The cash is that of the cohorts of `BarsSeeUsableCapital`.
   */
  lemma EveryBarObeysLaw(x: Input, n: nat)
    requires Backtested(x).Ok? && n < |BarsThrough(x.bars, x.asOf, x.policy.horizon)|
    ensures var s, pending := SetupOf(x), Sorted(UsableBy(x.events, x.asOf));
            var bars := BarsThrough(x.bars, x.asOf, x.policy.horizon);
            && RunBars(s, pending, bars).Ok?
            && StepBar(s, pending, RunTo(s, pending, bars, n), bars[n]).Ok?
            && BarLaw(s, RunTo(s, pending, bars, n),
                      Cash(AtBar(s, pending, RunTo(s, pending, bars, n), bars[n])), bars[n],
                      RunTo(s, pending, bars, n + 1))
  {
    var s, pending := SetupOf(x), Sorted(UsableBy(x.events, x.asOf));
    var bars := BarsThrough(x.bars, x.asOf, x.policy.horizon);
    BarStands(s, pending, bars, n);
    hide Sorted, UsableBy, BarsThrough, RunBars, StepBar, BarLaw, Cash, AtBar, KnowsLast;
    RunKnowsLast(s, pending, bars[..n]);
    StepObeysLaw(s, pending, RunTo(s, pending, bars, n), bars[n]);
  }

  /** A number that behaves as a square root. */
  ghost predicate IsRoot(root: real, square: real) {
    root >= 0.0 && root * root == square
  }

  /** The last values of a history: all of them, or the last five. */
  ghost predicate AreRecent(values: seq<real>, history: seq<Revision>) {
    && |values| == (if |history| < 5 then |history| else 5)
    && forall i | 0 <= i < |values| :: values[i] == history[|history| - |values| + i].value
  }

  /** Where a score stands that measures a deviation in units of a root, at most two either way. */
  ghost predicate Measures(score: real, deviation: real, root: real) {
    if root == 0.0 then score == 0.0
    else
      && (-2.0 < score < 2.0 ==> score * root == deviation)
      && (score <= -2.0 ==> score == -2.0 && deviation <= -2.0 * root)
      && (score >= 2.0 ==> score == 2.0 && deviation >= 2.0 * root)
      && (score > 0.0 <==> deviation > 0.0) && (score < 0.0 <==> deviation < 0.0)
  }

  ghost function SpreadOf(values: seq<real>, mean: real): real {
    SquaredDeviations(values, mean) / ((if |values| > 2 then |values| - 1 else 1) as real)
  }

  function SumSquares(xs: seq<real>): real {
    if xs == [] then 0.0 else SumSquares(xs[..|xs| - 1]) + xs[|xs| - 1] * xs[|xs| - 1]
  }

  /** The deviations in terms of the plain sums, around any centre. */
  lemma {:induction false} DeviationsExpand(xs: seq<real>, mean: real)
    ensures SquaredDeviations(xs, mean)
         == SumSquares(xs) - 2.0 * mean * SumReals(xs) + (|xs| as real) * mean * mean
  {
    hide *;
    if xs == [] {
      NoDeviations(xs, mean);
    } else {
      var front, x := xs[..|xs| - 1], xs[|xs| - 1];
      DeviationsExpand(front, mean);
      LastDeviation(xs, mean);
      Expansion(SumSquares(front), SumReals(front), |front| as real, mean, x);
    }
  }

  lemma NoDeviations(xs: seq<real>, mean: real)
    requires xs == []
    ensures SquaredDeviations(xs, mean)
         == SumSquares(xs) - 2.0 * mean * SumReals(xs) + (|xs| as real) * mean * mean
  {
  }

  lemma LastDeviation(xs: seq<real>, mean: real)
    requires xs != []
    ensures var front, x := xs[..|xs| - 1], xs[|xs| - 1];
            && SquaredDeviations(xs, mean) == SquaredDeviations(front, mean) + (x - mean) * (x - mean)
            && SumSquares(xs) == SumSquares(front) + x * x && SumReals(xs) == SumReals(front) + x
            && |xs| as real == |front| as real + 1.0
  {
  }

  lemma Expansion(squares: real, sum: real, n: real, mean: real, x: real)
    ensures squares - 2.0 * mean * sum + n * mean * mean + (x - mean) * (x - mean)
         == (squares + x * x) - 2.0 * mean * (sum + x) + (n + 1.0) * mean * mean
  {
  }

  /**
   * The score of a series: by how many sample standard deviations its last value
   * lies off the mean of the recent ones, at most two either way. So it is positive
   * when the last value lies above the mean, and negative below.
   */
  lemma ScoreIsDeviation(history: seq<Revision>, sqrt: real -> real)
    requires |history| > 0
    ensures AreRecent(Recent(history), history)
    ensures var values := Recent(history);
            var mean := SumReals(values) / (|values| as real);
            IsRoot(sqrt(SpreadOf(values, mean)), SpreadOf(values, mean)) ==>
              Measures(SeriesScore(history, sqrt), values[|values| - 1] - mean, sqrt(SpreadOf(values, mean)))
  {
    var values := Recent(history);
    var mean := SumReals(values) / (|values| as real);
    var root := sqrt(SpreadOf(values, mean));
    var deviation := values[|values| - 1] - mean;
    assert SeriesScore(history, sqrt) == if root == 0.0 then 0.0 else Clamp(-2.0, 2.0, deviation / root);
    hide SumReals, SquaredDeviations, SpreadOf, Recent, SeriesScore, Clamp, Measures;
    if IsRoot(root, SpreadOf(values, mean)) {
      ClampMeasures(values[|values| - 1] - mean, root);
    }
  }

  lemma ClampMeasures(d: real, root: real)
    requires root >= 0.0
    ensures Measures(if root == 0.0 then 0.0 else Clamp(-2.0, 2.0, d / root), d, root)
  {
    if root > 0.0 {
      ClampedQuotient(d, root);
    }
    hide Clamp;
  }

  lemma ClampedQuotient(d: real, root: real)
    requires root > 0.0
    ensures var score := Clamp(-2.0, 2.0, d / root);
            && (-2.0 < score < 2.0 ==> score * root == d)
            && (score <= -2.0 ==> score == -2.0 && d <= -2.0 * root)
            && (score >= 2.0 ==> score == 2.0 && d >= 2.0 * root)
            && (score > 0.0 <==> d > 0.0) && (score < 0.0 <==> d < 0.0)
  {
    var q := d / root;
    assert q * root == d;
  }

  /** The history of a series as a decision sees it; the flow of funds is published a day late. */
  ghost function SeenOf(s: Setup, at: Time, series: string): seq<Revision> {
    History(s.revisions, series, at, if series == "btc_etf_flow_usd" then 1 else 0)
  }

  /** A series with too short a history, or one whose last value is too old. */
  ghost predicate Outdated(s: Setup, at: Time, series: string) {
    var history := SeenOf(s, at, series);
    |history| < 2 || DateOf(at) - history[|history| - 1].date > s.policy.staleAfterDays
  }

  /** The sum of the scores of the series that have one. */
  ghost function ScoreSum(s: Setup, at: Time, features: seq<string>): real {
    if features == [] then 0.0
    else
      var history := SeenOf(s, at, features[|features| - 1]);
      ScoreSum(s, at, features[..|features| - 1])
      + if |history| < 2 then 0.0 else SeriesScore(history, s.sqrt)
  }

  ghost function ScoreCount(s: Setup, at: Time, features: seq<string>): nat {
    if features == [] then 0
    else
      ScoreCount(s, at, features[..|features| - 1])
      + if |SeenOf(s, at, features[|features| - 1])| < 2 then 0 else 1
  }

  lemma {:induction false} ScoresTold(s: Setup, at: Time, features: seq<string>)
    ensures var (scores, stale) := Scores(s, at, features);
            && SumReals(scores) == ScoreSum(s, at, features) && |scores| == ScoreCount(s, at, features)
            && (stale <==> SomeOutdated(s, at, features))
  {
    hide HistoryFor, SeenOf, SeriesScore, DateOf, SomeOutdated;
    if features != [] {
      var front, last := features[..|features| - 1], features[|features| - 1];
      ScoresTold(s, at, front);
      OutdatedSnoc(s, at, front, last);
      SeenIsHistory(s, at, last);
      assert features == front + [last];
      var (scores, stale) := Scores(s, at, front);
      var history := HistoryFor(s.revisions, last, at);
      if |history| >= 2 {
        assert (scores + [SeriesScore(history, s.sqrt)])[..|scores|] == scores;
      }
    } else {
      NoneOutdated(s, at);
    }
  }

  lemma SeenIsHistory(s: Setup, at: Time, series: string)
    ensures SeenOf(s, at, series) == HistoryFor(s.revisions, series, at)
  {
    hide History;
  }

  ghost predicate SomeOutdated(s: Setup, at: Time, features: seq<string>) {
    exists series :: series in features && Outdated(s, at, series)
  }

  lemma OutdatedSnoc(s: Setup, at: Time, features: seq<string>, series: string)
    ensures SomeOutdated(s, at, features + [series]) <==> SomeOutdated(s, at, features) || Outdated(s, at, series)
  {
    hide Outdated;
    assert forall x :: x in features + [series] <==> x in features || x == series;
  }

  lemma NoneOutdated(s: Setup, at: Time)
    ensures !SomeOutdated(s, at, [])
  {
  }

  /** The features count as stale exactly when one of them is outdated; their score is the average of those known. */
  lemma FeatureScoreIsAverage(s: Setup, at: Time)
    ensures var (score, stale) := FeatureScore(s, at);
            && (stale <==> SomeOutdated(s, at, s.policy.features))
            && score * (ScoreCount(s, at, s.policy.features) as real) == ScoreSum(s, at, s.policy.features)
            && (ScoreCount(s, at, s.policy.features) == 0 ==> score == 0.0)
  {
    ScoresTold(s, at, s.policy.features);
    hide SomeOutdated, ScoreSum, ScoreCount, Scores;
    var (scores, stale) := Scores(s, at, s.policy.features);
    if scores != [] {
      hide SumReals;
      QuotientTimes(SumReals(scores), |scores| as real);
    }
  }

  lemma QuotientTimes(a: real, b: real)
    requires b != 0.0
    ensures a / b * b == a
  {
  }

  /** A plain daily backtest: one deposit before the first bar, and one bar on every date through the horizon. */
  ghost predicate Plain(x: Input, deposit: CapitalEvent) {
    && !x.policy.adaptive && !x.policy.weekly
    && x.events == [deposit] && deposit.kind.DepositKind? && deposit.amount > 0.0
    && x.bars != [] && deposit.usableAt <= x.bars[0].at && x.bars[|x.bars| - 1].at <= x.asOf
    && BarsOrdered(x.bars)
    && (forall i | 0 <= i < |x.bars| :: DateOf(x.bars[i].at) == x.policy.horizon - |x.bars| + 1 + i)
    && (forall bar | bar in x.bars :: bar.price * (1.0 + CostRate(x.execution)) != 0.0)
    && 1.0 + CostRate(x.execution) != 0.0
  }

  /** One share of the deposit for every bar. */
  ghost function Share(x: Input, deposit: CapitalEvent): real
    requires x.bars != []
  {
    deposit.amount / (|x.bars| as real)
  }

  /** After some bars, that many equal trades, and the rest of the deposit in its one cohort. */
  ghost predicate Evenly(r: Run, deposit: CapitalEvent, share: real, n: nat) {
    && |r.trades| == n && (forall t | t in r.trades :: t.spend == share)
    && KnowsLast(r)
    && r.nextEvent == (if n == 0 then 0 else 1)
    && (if n == 0 then r.cohorts == []
        else |r.cohorts| == 1 && r.cohorts[0].cash == deposit.amount - (n as real) * share)
  }

  lemma OneCohort(cs: seq<Cohort>)
    requires |cs| == 1
    ensures Cash(cs) == cs[0].cash
  {
    assert cs[..0] == [];
  }

  lemma TakeFromOne(cs: seq<Cohort>, amount: real)
    requires |cs| == 1 && 0.0 <= amount <= cs[0].cash
    ensures TakeFrom(cs, amount, Purchase).Ok?
    ensures |TakeFrom(cs, amount, Purchase).value| == 1
    ensures TakeFrom(cs, amount, Purchase).value[0].cash == cs[0].cash - amount
  {
    OneCohort(cs);
  }

  lemma DailyLeft(date: Date, horizon: Date)
    requires date <= horizon
    ensures RemainingDates(date, horizon, false) == horizon - date + 1
  {
  }

  lemma ShareOfRest(cash: real, left: int, share: real)
    requires left >= 1 && cash == (left as real) * share
    ensures cash / (left as real) == share
    ensures share >= 0.0 ==> cash >= share
  {
    var l := left as real;
    assert (cash / l - share) * l == 0.0;
  }

  /** The one bar's worth of the plain run. */
  lemma EvenStep(x: Input, deposit: CapitalEvent, r: Run, n: nat)
    requires Plain(x, deposit) && n < |x.bars| && Evenly(r, deposit, Share(x, deposit), n)
    requires n > 0 ==> r.trades[n - 1].at == x.bars[n - 1].at
    requires var share := Share(x, deposit);
             share > DUST && x.execution.minTrade <= share <= x.execution.maxTrade
    ensures var step := StepBar(SetupOf(x), [deposit], r, x.bars[n]);
            && step.Ok? && Evenly(step.value, deposit, Share(x, deposit), n + 1)
            && step.value.trades[n].at == x.bars[n].at
  {
    var s, bar, share := SetupOf(x), x.bars[n], Share(x, deposit);
    PriceCounts(x, deposit, n);
    EvenCash(x, deposit, r, n);
    var cohorts := Absorb(r.cohorts, [deposit], r.nextEvent, bar.at).value.0;
    EvenDecision(x, deposit, r, n, cohorts);
    hide *;
    var now := r.(cohorts := cohorts, nextEvent := 1, report := Marked(r.report, r.units, bar));
    var d := Decide(s, cohorts, r.lastTradeDate, bar).value;
    StepIsPurchase(s, [deposit], r, bar, cohorts, d);
    TakeFromOne(cohorts, share);
    EvenPurchase(x, deposit, r, now, n, d);
  }

  lemma PriceCounts(x: Input, deposit: CapitalEvent, n: nat)
    requires Plain(x, deposit) && n < |x.bars|
    ensures x.bars[n].price * (1.0 + CostRate(x.execution)) != 0.0 && 1.0 + CostRate(x.execution) != 0.0
    ensures SetupOf(x).execution == x.execution
  {
    hide CostRate, DateOf, KnownBy;
    assert x.bars[n] in x.bars;
  }

  lemma StepIsPurchase(
    s: Setup, pending: seq<CapitalEvent>, r: Run, bar: Bar, cohorts: seq<Cohort>, d: Decision)
    requires Absorb(r.cohorts, pending, r.nextEvent, bar.at) == Ok((cohorts, 1))
    requires Decide(s, cohorts, r.lastTradeDate, bar) == Ok(d) && d.Buy?
    ensures var now := r.(cohorts := cohorts, nextEvent := 1, report := Marked(r.report, r.units, bar));
            StepBar(s, pending, r, bar) == Purchased(s.execution, now, bar, d)
  {
    hide Absorb, Decide, Purchased, Marked;
  }

  /** The purchase of one share. */
  lemma EvenPurchase(x: Input, deposit: CapitalEvent, r: Run, now: Run, n: nat, d: Decision)
    requires n < |x.bars| && Evenly(r, deposit, Share(x, deposit), n)
    requires now.trades == r.trades && now.nextEvent == 1 && |now.cohorts| == 1
    requires now.cohorts[0].cash == deposit.amount - (n as real) * Share(x, deposit)
    requires d.Buy? && d.amount == Share(x, deposit) && 0.0 <= d.amount <= now.cohorts[0].cash
    requires var rate := CostRate(x.execution); x.bars[n].price * (1.0 + rate) != 0.0 && 1.0 + rate != 0.0
    ensures var next := Purchased(x.execution, now, x.bars[n], d);
            && next.Ok? && Evenly(next.value, deposit, Share(x, deposit), n + 1)
            && next.value.trades[n].at == x.bars[n].at
  {
    hide Purchased, DateOf, CostRate, TakeFrom, Acquired, Cost, Worth, MaxReal, Share;
    var share := Share(x, deposit);
    TakeFromOne(now.cohorts, share);
    PurchaseSucceeds(x.execution, now, x.bars[n], d);
    PurchaseShape(x.execution, now, x.bars[n], d);
    OneMoreShare(deposit.amount, n, share);
  }

  lemma OneMoreShare(amount: real, n: nat, share: real)
    ensures amount - (n as real) * share - share == amount - ((n + 1) as real) * share
  {
  }

  lemma PurchaseSucceeds(e: Execution, r: Run, bar: Bar, d: Decision)
    requires d.Buy? && TakeFrom(r.cohorts, d.amount, Purchase).Ok?
    requires bar.price * (1.0 + CostRate(e)) != 0.0 && 1.0 + CostRate(e) != 0.0
    ensures Purchased(e, r, bar, d).Ok?
    ensures Purchased(e, r, bar, d).value.nextEvent == r.nextEvent
    ensures Purchased(e, r, bar, d).value.lastTradeDate == Some(DateOf(bar.at))
  {
    hide TakeFrom, CostRate, Acquired, Cost, Worth, MaxReal, DateOf;
  }

  /** What a bar of the plain run has to spend. */
  lemma EvenCash(x: Input, deposit: CapitalEvent, r: Run, n: nat)
    requires Plain(x, deposit) && n < |x.bars| && Evenly(r, deposit, Share(x, deposit), n)
    ensures var absorbed := Absorb(r.cohorts, [deposit], r.nextEvent, x.bars[n].at);
            && absorbed.Ok? && absorbed.value.1 == 1 && |absorbed.value.0| == 1
            && absorbed.value.0[0].cash == deposit.amount - (n as real) * Share(x, deposit)
            && absorbed.value.0[0].cash == ((|x.bars| - n) as real) * Share(x, deposit)
  {
    hide DateOf, Weekday;
    var share := Share(x, deposit);
    QuotientTimes(deposit.amount, |x.bars| as real);
    assert ((|x.bars| - n) as real) * share == (|x.bars| as real) * share - (n as real) * share;
    if n == 0 {
      AbsorbOne(deposit, x.bars[0].at);
    }
  }

  lemma AbsorbOne(deposit: CapitalEvent, at: Time)
    requires deposit.kind.DepositKind? && deposit.usableAt <= at
    ensures Absorb([], [deposit], 0, at)
         == Ok(([Cohort(deposit.id, deposit.amount, deposit.amount, 0.0, 0.0)], 1))
  {
    var one := [Cohort(deposit.id, deposit.amount, deposit.amount, 0.0, 0.0)];
    assert Deposited([], deposit.id, deposit.amount) == one;
    assert ApplyCapitalEvent([], deposit) == Ok(one);
    assert Absorb(one, [deposit], 1, at) == Ok((one, 1));
  }

  lemma EvenDecision(x: Input, deposit: CapitalEvent, r: Run, n: nat, cohorts: seq<Cohort>)
    requires Plain(x, deposit) && n < |x.bars| && Evenly(r, deposit, Share(x, deposit), n)
    requires n > 0 ==> r.trades[n - 1].at == x.bars[n - 1].at
    requires |cohorts| == 1 && cohorts[0].cash == ((|x.bars| - n) as real) * Share(x, deposit)
    requires var share := Share(x, deposit);
             share > DUST && x.execution.minTrade <= share <= x.execution.maxTrade
    ensures Decide(SetupOf(x), cohorts, r.lastTradeDate, x.bars[n]).Ok?
    ensures var d := Decide(SetupOf(x), cohorts, r.lastTradeDate, x.bars[n]).value;
            d.Buy? && d.amount == Share(x, deposit)
    ensures 0.0 <= Share(x, deposit) <= cohorts[0].cash
  {
    hide DateOf, Weekday, KnownBy, FeatureScore, Share;
    var share, date := Share(x, deposit), DateOf(x.bars[n].at);
    OneCohort(cohorts);
    DailyLeft(date, x.policy.horizon);
    ShareOfRest(cohorts[0].cash, |x.bars| - n, share);
    if n > 0 {
      assert DateOf(x.bars[n - 1].at) != date;
    }
  }

  lemma {:induction false} EvenRun(x: Input, deposit: CapitalEvent, n: nat)
    requires Plain(x, deposit) && n <= |x.bars|
    requires var share := Share(x, deposit);
             share > DUST && x.execution.minTrade <= share <= x.execution.maxTrade
    ensures RunBars(SetupOf(x), [deposit], x.bars[..n]).Ok?
    ensures var r := RunBars(SetupOf(x), [deposit], x.bars[..n]).value;
            Evenly(r, deposit, Share(x, deposit), n) && (n > 0 ==> r.trades[n - 1].at == x.bars[n - 1].at)
  {
    hide StepBar, Plain, Share, DateOf;
    if n == 0 {
      StartKnows();
    } else {
      EvenRun(x, deposit, n - 1);
      assert x.bars[..n][..n - 1] == x.bars[..n - 1];
      EvenStep(x, deposit, RunBars(SetupOf(x), [deposit], x.bars[..n - 1]).value, n - 1);
    }
  }

  lemma {:induction false} AllThrough(bars: seq<Bar>, asOf: Time, horizon: Date)
    requires forall bar | bar in bars :: bar.at <= asOf && DateOf(bar.at) <= horizon
    ensures BarsThrough(bars, asOf, horizon) == bars
  {
    if bars != [] {
      assert bars[0] in bars && forall bar :: bar in bars[1..] ==> bar in bars;
      AllThrough(bars[1..], asOf, horizon);
    }
  }

  /**
   * A plain daily policy spends its deposit evenly: where no bound is reached, every
   * bar buys for the same share, and nothing is left at the end.
   */
  lemma PlainSpendsEvenly(x: Input, deposit: CapitalEvent)
    requires Plain(x, deposit)
    requires var share := Share(x, deposit);
             share > DUST && x.execution.minTrade <= share <= x.execution.maxTrade
    ensures Backtested(x).Ok?
    ensures var r := Backtested(x).value;
            && |r.trades| == |x.bars| && (forall t | t in r.trades :: t.spend == Share(x, deposit))
            && Cash(r.cohorts) == 0.0
  {
    hide RunBars, Sorted, UsableBy, BarsThrough, DateOf, KnownBy, Plain, Absorb, Evenly, Cash, Share, EndOf;
    var n := |x.bars|;
    PlainInput(x, deposit);
    AllThrough(x.bars, x.asOf, x.policy.horizon);
    EvenRun(x, deposit, n);
    assert x.bars[..n] == x.bars;
    var r := RunBars(SetupOf(x), [deposit], x.bars).value;
    EvenEnd(x, deposit, r, EndOf(x.policy.horizon));
  }

  lemma EvenEnd(x: Input, deposit: CapitalEvent, r: Run, at: Time)
    requires x.bars != [] && Evenly(r, deposit, Share(x, deposit), |x.bars|)
    ensures |r.trades| == |x.bars| && (forall t | t in r.trades :: t.spend == Share(x, deposit))
    ensures Cash(r.cohorts) == 0.0 && Absorb(r.cohorts, [deposit], r.nextEvent, at) == Ok((r.cohorts, 1))
  {
    QuotientTimes(deposit.amount, |x.bars| as real);
    OneCohort(r.cohorts);
    hide Cash, KnowsLast;
  }

  lemma PlainInput(x: Input, deposit: CapitalEvent)
    requires Plain(x, deposit)
    ensures Sorted(UsableBy(x.events, x.asOf)) == [deposit] && x.bars != []
    ensures forall bar | bar in x.bars :: bar.at <= x.asOf && DateOf(bar.at) <= x.policy.horizon
  {
    hide DateOf;
    assert [deposit][..0] == [];
    assert x.bars[0].at <= x.bars[|x.bars| - 1].at;
  }
}
