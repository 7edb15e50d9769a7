/**
 * The point-in-time backtest: a run over price bars that spends admitted capital
 * under a policy, looking only at what was known at each decision.
 */
module Backtest {
  import opened Prelude
  import opened LedgerEvents
  import opened CohortLedgers
  import opened PointInTime

  datatype Policy = Policy(
    horizon: Date, weekly: bool, adaptive: bool, features: seq<string>, staleAfterDays: int, staleBehavior: string,
    sensitivity: real, minMultiplier: real, maxMultiplier: real)

  datatype Execution = Execution(feeBps: real, halfSpreadBps: real, slippageBps: real, maxTrade: real, minTrade: real)

  datatype BacktestError = Capital(error: CohortError) | UnsupportedStaleBehavior | DivisionByZero

  /** What decisions are taken under; the square root is not interpreted. */
  datatype Setup = Setup(policy: Policy, execution: Execution, revisions: seq<Revision>, sqrt: real -> real)

  datatype Trade = Trade(at: Time, spend: real, price: real, units: real, multiplier: real, score: real)

  /** Why a bar brought no trade; a weekly policy does not count the days it is not due. */
  datatype SkipReason = OffDay | DuplicateDay | NoCash | StaleFeatures | BelowMinimum

  /** What a backtest reports besides its trades. */
  datatype Report = Report(peak: real, drawdown: real, skipped: map<SkipReason, nat>, lastBar: Option<Bar>)

  /** The running state of a backtest. */
  datatype Run = Run(
    cohorts: seq<Cohort>, nextEvent: nat, units: real, spend: real, fees: real, turnover: real, trades: seq<Trade>,
    lastTradeDate: Option<Date>, report: Report)

  const START: Run := Run([], 0, 0.0, 0.0, 0.0, 0.0, [], None, Report(0.0, 0.0, map[], None))

  function MaxReal(a: real, b: real): real {
    if b > a then b else a
  }

  function Clamp(low: real, high: real, x: real): real {
    MaxReal(low, Min(high, x))
  }

  function RemainingDates(date: Date, horizon: Date, weekly: bool): (slots: int)
    ensures slots >= 1
  {
    if !weekly then
      if horizon - date + 1 > 1 then horizon - date + 1 else 1
    else
      var firstMonday := date + (8 - Weekday(date)) % 7;
      if firstMonday > horizon then 1 else 1 + (horizon - firstMonday) / 7
  }

  function SumReals(xs: seq<real>): real {
    if xs == [] then 0.0 else SumReals(xs[..|xs| - 1]) + xs[|xs| - 1]
  }

  function SquaredDeviations(xs: seq<real>, mean: real): real {
    if xs == [] then 0.0
    else SquaredDeviations(xs[..|xs| - 1], mean) + (xs[|xs| - 1] - mean) * (xs[|xs| - 1] - mean)
  }

  /** The last values of a history, at most five. */
  function Recent(history: seq<Revision>): (values: seq<real>)
    ensures history != [] ==> values != []
  {
    var n := if |history| > 5 then |history| - 5 else 0;
    seq(|history| - n, i requires 0 <= i < |history| - n => history[n + i].value)
  }

  function SeriesScore(history: seq<Revision>, sqrt: real -> real): real
    requires history != []
  {
    var values := Recent(history);
    var mean := SumReals(values) / (|values| as real);
    var scale := sqrt(SquaredDeviations(values, mean) / ((if |values| > 2 then |values| - 1 else 1) as real));
    if scale == 0.0 then 0.0 else Clamp(-2.0, 2.0, (values[|values| - 1] - mean) / scale)
  }

  function HistoryFor(revisions: seq<Revision>, series: string, at: Time): seq<Revision> {
    History(revisions, series, at, if series == "btc_etf_flow_usd" then 1 else 0)
  }

  /** The scores of the series that have a history, and whether any series is missing or stale. */
  function Scores(s: Setup, at: Time, features: seq<string>): (seq<real>, bool) {
    if features == [] then ([], false)
    else
      var (scores, stale) := Scores(s, at, features[..|features| - 1]);
      var history := HistoryFor(s.revisions, features[|features| - 1], at);
      if |history| < 2 then (scores, true)
      else (scores + [SeriesScore(history, s.sqrt)],
            stale || DateOf(at) - history[|history| - 1].date > s.policy.staleAfterDays)
  }

  function Average(scores: seq<real>): real {
    if scores == [] then 0.0 else SumReals(scores) / (|scores| as real)
  }

  function FeatureScore(s: Setup, at: Time): (real, bool) {
    var (scores, stale) := Scores(s, at, s.policy.features);
    (Average(scores), stale)
  }

  function ApplyCapitalEvent(cs: seq<Cohort>, e: CapitalEvent): Result<seq<Cohort>, BacktestError> {
    if e.kind.DepositKind? then Ok(Deposited(cs, e.id, e.amount))
    else
      var taken := TakeFrom(cs, e.amount, Withdrawal);
      if taken.Err? then Err(Capital(taken.error)) else Ok(taken.value)
  }

  /** Applies the pending events that are usable by a time, in their order. */
  function Absorb(cs: seq<Cohort>, pending: seq<CapitalEvent>, next: nat, at: Time)
    : Result<(seq<Cohort>, nat), BacktestError>
    decreases |pending| - next
  {
    if next >= |pending| || pending[next].usableAt > at then Ok((cs, next))
    else
      var applied :- ApplyCapitalEvent(cs, pending[next]);
      Absorb(applied, pending, next + 1, at)
  }

  datatype Decision = Skip(reason: SkipReason) | Buy(amount: real, multiplier: real, score: real)

  /** How much more or less than an even share a score asks for. */
  function Multiplier(p: Policy, score: real): real {
    Clamp(p.minMultiplier, p.maxMultiplier, 1.0 - p.sensitivity * score)
  }

  /** An even share of the cash for every remaining date, scaled, within the cash and the cap. */
  function OrderSize(cash: real, slots: int, multiplier: real, maxTrade: real): (order: real)
    requires slots >= 1
    ensures order <= cash && order <= maxTrade
  {
    Min(Min(cash, cash / (slots as real) * multiplier), maxTrade)
  }

  /** The units an order buys at a price that the costs raise. */
  function Acquired(amount: real, price: real, rate: real): real
    requires price * (1.0 + rate) != 0.0
  {
    amount / (price * (1.0 + rate))
  }

  /** The part of an order that goes to costs. */
  function Cost(amount: real, rate: real): real
    requires 1.0 + rate != 0.0
  {
    amount * rate / (1.0 + rate)
  }

  /** What a policy decides at a bar, given the cohorts, the last trade and the score of the features. */
  function DecideOn(
    p: Policy, e: Execution, cs: seq<Cohort>, lastTradeDate: Option<Date>, bar: Bar, scored: (real, bool))
    : Result<Decision, BacktestError>
  {
    var date, cash := DateOf(bar.at), Cash(cs);
    if p.weekly && Weekday(date) != 1 then Ok(Skip(OffDay))
    else if lastTradeDate == Some(date) then Ok(Skip(DuplicateDay))
    else if cash <= DUST then Ok(Skip(NoCash))
    else
      var (score, stale) := scored;
      if p.adaptive && stale && p.staleBehavior == "skip" then Ok(Skip(StaleFeatures))
      else if p.adaptive && stale && p.staleBehavior != "fixed" then Err(UnsupportedStaleBehavior)
      else
        var multiplier := if p.adaptive && !stale then Multiplier(p, score) else 1.0;
        var order := OrderSize(cash, RemainingDates(date, p.horizon, p.weekly), multiplier, e.maxTrade);
        if order < e.minTrade then Ok(Skip(BelowMinimum)) else Ok(Buy(order, multiplier, score))
  }

  function Decide(s: Setup, cs: seq<Cohort>, lastTradeDate: Option<Date>, bar: Bar): Result<Decision, BacktestError> {
    DecideOn(s.policy, s.execution, cs, lastTradeDate, bar, FeatureScore(s, bar.at))
  }

  function CostRate(e: Execution): real {
    (e.feeBps + e.halfSpreadBps + e.slippageBps) / 10000.0
  }

  /** What units are worth at a price. */
  function Worth(units: real, price: real): real {
    units * price
  }

  /** How far a value has fallen from its peak. */
  function Fall(peak: real, value: real): real
    requires peak != 0.0
  {
    (peak - value) / peak
  }

  /** Marks the holding to a bar. */
  function Marked(r: Report, units: real, bar: Bar): Report {
    var value := Worth(units, bar.price);
    var peak := MaxReal(r.peak, value);
    r.(peak := peak, drawdown := if peak == 0.0 then r.drawdown else MaxReal(r.drawdown, Fall(peak, value)),
       lastBar := Some(bar))
  }

  function SkipCount(r: Report, reason: SkipReason): nat {
    if reason in r.skipped then r.skipped[reason] else 0
  }

  function Skipped(r: Report, reason: SkipReason): Report {
    if reason.OffDay? then r else r.(skipped := r.skipped[reason := SkipCount(r, reason) + 1])
  }

  /** A purchase: the cohorts pay the order, and units arrive net of costs. */
  function Purchased(e: Execution, r: Run, bar: Bar, d: Decision): Result<Run, BacktestError>
    requires d.Buy?
  {
    var rate := CostRate(e);
    var taken := TakeFrom(r.cohorts, d.amount, Purchase);
    if taken.Err? then Err(Capital(taken.error))
    else if bar.price * (1.0 + rate) == 0.0 || 1.0 + rate == 0.0 then Err(DivisionByZero)
    else
      var acquired := Acquired(d.amount, bar.price, rate);
      Ok(Run(taken.value, r.nextEvent, r.units + acquired, r.spend + d.amount, r.fees + Cost(d.amount, rate),
             r.turnover + d.amount,
             r.trades + [Trade(bar.at, d.amount, bar.price, acquired, d.multiplier, d.score)], Some(DateOf(bar.at)),
             r.report.(peak := MaxReal(r.report.peak, Worth(r.units + acquired, bar.price)))))
  }

  function StepBar(s: Setup, pending: seq<CapitalEvent>, r: Run, bar: Bar): Result<Run, BacktestError> {
    if Absorb(r.cohorts, pending, r.nextEvent, bar.at).Err? then
      Err(Absorb(r.cohorts, pending, r.nextEvent, bar.at).error)
    else
      var (cohorts, nextEvent) := Absorb(r.cohorts, pending, r.nextEvent, bar.at).value;
      var now := r.(cohorts := cohorts, nextEvent := nextEvent, report := Marked(r.report, r.units, bar));
      var decision :- Decide(s, cohorts, r.lastTradeDate, bar);
      if decision.Skip? then Ok(now.(report := Skipped(now.report, decision.reason)))
      else Purchased(s.execution, now, bar, decision)
  }

  function RunBars(s: Setup, pending: seq<CapitalEvent>, bars: seq<Bar>): Result<Run, BacktestError> {
    if bars == [] then Ok(START)
    else
      var before :- RunBars(s, pending, bars[..|bars| - 1]);
      StepBar(s, pending, before, bars[|bars| - 1])
  }

  /** The bars before the first one past the as-of time or the horizon. */
  function BarsThrough(bars: seq<Bar>, asOf: Time, horizon: Date): seq<Bar> {
    if bars == [] || bars[0].at > asOf || DateOf(bars[0].at) > horizon then []
    else [bars[0]] + BarsThrough(bars[1..], asOf, horizon)
  }

  // The last instant of a date.
  function EndOf(date: Date): Time {
    (date + 1) * DAY_NANOS - 1
  }

  /** Everything a backtest is run on. */
  datatype Input = Input(
    bars: seq<Bar>, events: seq<CapitalEvent>, revisions: seq<Revision>, policy: Policy, execution: Execution,
    sqrt: real -> real, asOf: Time)

  function SetupOf(x: Input): Setup {
    Setup(x.policy, x.execution, KnownBy(x.revisions, x.asOf), x.sqrt)
  }

  /** A whole backtest: the bars, and then the events usable by the end of the horizon. */
  function Backtested(x: Input): Result<Run, BacktestError> {
    var pending := Sorted(UsableBy(x.events, x.asOf));
    var r :- RunBars(SetupOf(x), pending, BarsThrough(x.bars, x.asOf, x.policy.horizon));
    if Absorb(r.cohorts, pending, r.nextEvent, EndOf(x.policy.horizon)).Err? then
      Err(Absorb(r.cohorts, pending, r.nextEvent, EndOf(x.policy.horizon)).error)
    else
      var (cohorts, nextEvent) := Absorb(r.cohorts, pending, r.nextEvent, EndOf(x.policy.horizon)).value;
      Ok(r.(cohorts := cohorts, nextEvent := nextEvent))
  }

  ghost predicate BarsOrdered(bars: seq<Bar>) {
    forall i, j | 0 <= i < j < |bars| :: bars[i].at < bars[j].at
  }

  /** The bars up to a time. */
  function BarsBy(bars: seq<Bar>, t: Time): seq<Bar> {
    if bars == [] || bars[0].at > t then [] else [bars[0]] + BarsBy(bars[1..], t)
  }

  function TradesBy(trades: seq<Trade>, t: Time): seq<Trade> {
    if trades == [] then []
    else
      var front, last := TradesBy(trades[..|trades| - 1], t), trades[|trades| - 1];
      if last.at <= t then front + [last] else front
  }

  /** A decision depends only on what was known by any later time. */
  lemma {:induction false} ScoresByTime(s: Setup, t: Time, at: Time, features: seq<string>)
    requires at <= t
    ensures Scores(s.(revisions := KnownBy(s.revisions, t)), at, features) == Scores(s, at, features)
  {
    if features != [] {
      ScoresByTime(s, t, at, features[..|features| - 1]);
      var series := features[|features| - 1];
      LatestOfKnown(s.revisions, t, series, at, if series == "btc_etf_flow_usd" then 1 else 0);
      hide Latest, KnownBy, SeriesScore, ByDate;
    }
  }

  lemma DecideByTime(s: Setup, t: Time, cs: seq<Cohort>, last: Option<Date>, bar: Bar)
    requires bar.at <= t
    ensures Decide(s.(revisions := KnownBy(s.revisions, t)), cs, last, bar) == Decide(s, cs, last, bar)
  {
    ScoresByTime(s, t, bar.at, s.policy.features);
    hide Scores, KnownBy, Average, DecideOn;
  }

  /** Absorbing up to a time sees only the events usable by any later time. */
  lemma {:induction false} AbsorbByTime(cs: seq<Cohort>, pending: seq<CapitalEvent>, next: nat, at: Time, t: Time)
    requires at <= t && InTimeOrder(pending) && next <= |UsableBy(pending, t)|
    ensures Absorb(cs, pending, next, at) == Absorb(cs, UsableBy(pending, t), next, at)
    ensures Absorb(cs, pending, next, at).Ok? ==>
              next <= Absorb(cs, pending, next, at).value.1 <= |UsableBy(pending, t)|
    decreases |pending| - next
  {
    UsableIsPrefix(pending, t);
    hide ApplyCapitalEvent, UsableBy, InTimeOrder;
    if next < |pending| && pending[next].usableAt <= at && ApplyCapitalEvent(cs, pending[next]).Ok? {
      AbsorbByTime(ApplyCapitalEvent(cs, pending[next]).value, pending, next + 1, at, t);
    }
  }

  /** A run over bars up to a time depends only on events and revisions up to that time. */
  lemma {:induction false} RunByTime(s: Setup, pending: seq<CapitalEvent>, bars: seq<Bar>, t: Time)
    requires InTimeOrder(pending) && forall bar :: bar in bars ==> bar.at <= t
    ensures RunBars(s, pending, bars) == RunBars(s.(revisions := KnownBy(s.revisions, t)), UsableBy(pending, t), bars)
    ensures RunBars(s, pending, bars).Ok? ==> RunBars(s, pending, bars).value.nextEvent <= |UsableBy(pending, t)|
  {
    if bars != [] {
      var front, last := bars[..|bars| - 1], bars[|bars| - 1];
      RunByTime(s, pending, front, t);
      if RunBars(s, pending, front).Ok? {
        StepByTime(s, pending, RunBars(s, pending, front).value, last, t);
      }
      hide StepBar, KnownBy, UsableBy, InTimeOrder;
    }
  }

  lemma StepByTime(s: Setup, pending: seq<CapitalEvent>, r: Run, bar: Bar, t: Time)
    requires InTimeOrder(pending) && bar.at <= t && r.nextEvent <= |UsableBy(pending, t)|
    ensures StepBar(s, pending, r, bar)
         == StepBar(s.(revisions := KnownBy(s.revisions, t)), UsableBy(pending, t), r, bar)
    ensures StepBar(s, pending, r, bar).Ok? ==> StepBar(s, pending, r, bar).value.nextEvent <= |UsableBy(pending, t)|
  {
    AbsorbByTime(r.cohorts, pending, r.nextEvent, bar.at, t);
    hide Absorb, Decide, KnownBy, UsableBy, InTimeOrder, Purchased;
    if Absorb(r.cohorts, pending, r.nextEvent, bar.at).Ok? {
      DecideByTime(s, t, Absorb(r.cohorts, pending, r.nextEvent, bar.at).value.0, r.lastTradeDate, bar);
    }
  }
}
