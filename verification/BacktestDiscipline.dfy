/** The trading rules every backtest keeps: one purchase a date, within bounds, on the policy's days. */
module BacktestDiscipline {
  import opened Prelude
  import opened LedgerEvents
  import opened CohortLedgers
  import opened PointInTime
  import opened Backtest
  import opened BacktestAccounts
  import opened BacktestCausality

  ghost predicate TradeOk(p: Policy, e: Execution, trade: Trade) {
    e.minTrade <= trade.spend <= e.maxTrade && (p.weekly ==> Weekday(DateOf(trade.at)) == 1)
  }

  ghost predicate Disciplined(p: Policy, e: Execution, trades: seq<Trade>) {
    && (forall i | 0 <= i < |trades| :: TradeOk(p, e, trades[i]))
    && (forall i, j | 0 <= i < j < |trades| :: DateOf(trades[i].at) < DateOf(trades[j].at))
  }

  /** The run remembers the date of its last trade, which is not after its last bar. */
  ghost predicate Remembers(r: Run, bars: seq<Bar>) {
    if r.trades == [] then r.lastTradeDate.None?
    else
      && r.lastTradeDate == Some(DateOf(r.trades[|r.trades| - 1].at))
      && bars != [] && r.trades[|r.trades| - 1].at <= bars[|bars| - 1].at
  }

  lemma DatesFollowTimes(a: Time, b: Time)
    requires a <= b
    ensures DateOf(a) <= DateOf(b)
  {
  }

  lemma OneMoreOk(p: Policy, e: Execution, trades: seq<Trade>, trade: Trade)
    requires Disciplined(p, e, trades) && TradeOk(p, e, trade)
    requires trades != [] ==> DateOf(trades[|trades| - 1].at) < DateOf(trade.at)
    ensures Disciplined(p, e, trades + [trade])
  {
    hide TradeOk, DateOf;
    assert forall i | 0 <= i < |trades| :: DateOf(trades[i].at) <= DateOf(trades[|trades| - 1].at);
  }

  /** Nothing was added, or one trade within the rules. */
  ghost predicate Adds(p: Policy, e: Execution, r: Run, next: Run, bar: Bar) {
    || (next.trades == r.trades && next.lastTradeDate == r.lastTradeDate)
    || (|next.trades| == |r.trades| + 1 && next.trades[..|r.trades|] == r.trades
        && next.trades[|r.trades|].at == bar.at && TradeOk(p, e, next.trades[|r.trades|])
        && next.lastTradeDate == Some(DateOf(bar.at)) != r.lastTradeDate)
  }

  lemma StepAdds(s: Setup, pending: seq<CapitalEvent>, r: Run, bar: Bar)
    requires StepBar(s, pending, r, bar).Ok?
    ensures Adds(s.policy, s.execution, r, StepBar(s, pending, r, bar).value, bar)
  {
    var cohorts := Absorb(r.cohorts, pending, r.nextEvent, bar.at).value.0;
    var d := Decide(s, cohorts, r.lastTradeDate, bar).value;
    if d.Buy? {
      BuyMeans(s, cohorts, r.lastTradeDate, bar);
    }
    hide Absorb, Decide, CostRate, TakeFrom, Cash, DateOf, Weekday, Acquired, Cost;
  }

  lemma AddsKeep(p: Policy, e: Execution, r: Run, next: Run, bar: Bar, front: seq<Bar>)
    requires Disciplined(p, e, r.trades) && Remembers(r, front) && Adds(p, e, r, next, bar)
    requires front != [] ==> front[|front| - 1].at < bar.at
    ensures Disciplined(p, e, next.trades) && Remembers(next, front + [bar])
  {
    hide DateOf, TradeOk, Disciplined;
    if next.trades != r.trades {
      var trade := next.trades[|r.trades|];
      assert next.trades == r.trades + [trade];
      if r.trades != [] {
        DatesFollowTimes(r.trades[|r.trades| - 1].at, bar.at);
      }
      OneMoreOk(p, e, r.trades, trade);
    }
  }

  lemma {:induction false} RunIsDisciplined(s: Setup, pending: seq<CapitalEvent>, bars: seq<Bar>)
    requires BarsOrdered(bars) && RunBars(s, pending, bars).Ok?
    ensures Disciplined(s.policy, s.execution, RunBars(s, pending, bars).value.trades)
    ensures Remembers(RunBars(s, pending, bars).value, bars)
  {
    if bars != [] {
      var front, bar := bars[..|bars| - 1], bars[|bars| - 1];
      hide StepBar, Disciplined, Remembers, Adds;
      RunIsDisciplined(s, pending, front);
      var r, next := RunBars(s, pending, front).value, RunBars(s, pending, bars).value;
      StepAdds(s, pending, r, bar);
      AddsKeep(s.policy, s.execution, r, next, bar, front);
      assert front + [bar] == bars;
    }
  }

  /**
   * Over every backtest that completes on ordered bars there is at most one
   * purchase a date, each within the order bounds, and under a weekly policy only
   * on Mondays.
   */
  lemma OnePurchaseADate(x: Input)
    requires BarsOrdered(x.bars) && Backtested(x).Ok?
    ensures Disciplined(x.policy, x.execution, Backtested(x).value.trades)
  {
    ThroughIsPrefix(x.bars, x.asOf, x.policy.horizon);
    var bars := BarsThrough(x.bars, x.asOf, x.policy.horizon);
    assert BarsOrdered(bars);
    hide RunBars, Sorted, UsableBy, BarsThrough, Absorb, Disciplined, BarsOrdered;
    RunIsDisciplined(SetupOf(x), Sorted(UsableBy(x.events, x.asOf)), bars);
  }

  /** Bars on days a weekly policy is not due. */
  function OffDays(p: Policy, bars: seq<Bar>): nat {
    if bars == [] then 0
    else
      OffDays(p, bars[..|bars| - 1])
      + if p.weekly && Weekday(DateOf(bars[|bars| - 1].at)) != 1 then 1 else 0
  }

  function SkipTotal(r: Report): nat {
    SkipCount(r, DuplicateDay) + SkipCount(r, NoCash) + SkipCount(r, StaleFeatures) + SkipCount(r, BelowMinimum)
  }

  lemma SkipAdds(r: Report, reason: SkipReason)
    ensures SkipTotal(Skipped(r, reason)) == SkipTotal(r) + if reason.OffDay? then 0 else 1
  {
  }

  lemma MarkSkipsNothing(r: Report, units: real, bar: Bar)
    ensures SkipTotal(Marked(r, units, bar)) == SkipTotal(r)
  {
    hide Worth, Fall, MaxReal;
  }

  lemma PurchaseCounts(e: Execution, r: Run, bar: Bar, d: Decision)
    requires d.Buy? && Purchased(e, r, bar, d).Ok?
    ensures var next := Purchased(e, r, bar, d).value;
            |next.trades| == |r.trades| + 1 && SkipTotal(next.report) == SkipTotal(r.report)
  {
    hide TakeFrom, CostRate, Acquired, Cost, Worth, MaxReal;
  }

  /** One bar is an off day, or counts as one trade or as one skip. */
  lemma StepCounts(s: Setup, pending: seq<CapitalEvent>, r: Run, bar: Bar)
    requires StepBar(s, pending, r, bar).Ok?
    ensures var next := StepBar(s, pending, r, bar).value;
            |next.trades| + SkipTotal(next.report)
            == |r.trades| + SkipTotal(r.report) + if s.policy.weekly && Weekday(DateOf(bar.at)) != 1 then 0 else 1
  {
    hide Absorb, Decide, Purchased, Marked, Skipped, SkipTotal, Weekday, DateOf;
    var (cohorts, nextEvent) := Absorb(r.cohorts, pending, r.nextEvent, bar.at).value;
    var now := r.(cohorts := cohorts, nextEvent := nextEvent, report := Marked(r.report, r.units, bar));
    var d := Decide(s, cohorts, r.lastTradeDate, bar).value;
    OffDayMeans(s, cohorts, r.lastTradeDate, bar);
    MarkSkipsNothing(r.report, r.units, bar);
    if d.Skip? {
      SkipAdds(now.report, d.reason);
    } else {
      PurchaseCounts(s.execution, now, bar, d);
    }
  }

  lemma OffDayMeans(s: Setup, cs: seq<Cohort>, last: Option<Date>, bar: Bar)
    requires Decide(s, cs, last, bar).Ok?
    ensures s.policy.weekly && Weekday(DateOf(bar.at)) != 1 <==> Decide(s, cs, last, bar).value == Skip(OffDay)
  {
    hide FeatureScore, Multiplier, RemainingDates, Weekday, OrderSize, Cash;
  }

  lemma {:induction false} BarsAreCounted(s: Setup, pending: seq<CapitalEvent>, bars: seq<Bar>)
    requires RunBars(s, pending, bars).Ok?
    ensures var r := RunBars(s, pending, bars).value;
            |r.trades| + SkipTotal(r.report) + OffDays(s.policy, bars) == |bars|
  {
    if bars != [] {
      var front, bar := bars[..|bars| - 1], bars[|bars| - 1];
      BarsAreCounted(s, pending, front);
      StepCounts(s, pending, RunBars(s, pending, front).value, bar);
      hide StepBar, Weekday, DateOf, SkipTotal;
    }
  }

  /** Every bar of a completed backtest ends as a trade, as exactly one counted skip, or as a day not due. */
  lemma EveryBarCounts(x: Input)
    requires Backtested(x).Ok?
    ensures var r, bars := Backtested(x).value, BarsThrough(x.bars, x.asOf, x.policy.horizon);
            |r.trades| + SkipTotal(r.report) + OffDays(x.policy, bars) == |bars|
  {
    hide RunBars, Sorted, UsableBy, BarsThrough, Absorb, SkipTotal, OffDays;
    BarsAreCounted(SetupOf(x), Sorted(UsableBy(x.events, x.asOf)), BarsThrough(x.bars, x.asOf, x.policy.horizon));
  }

  /** The peak is no less than any value the holding was marked at, and the drawdown is a share of it. */
  ghost predicate ReportOk(r: Run) {
    && r.units >= 0.0 && r.report.peak >= 0.0 && 0.0 <= r.report.drawdown <= 1.0
    && (r.report.lastBar.Some? ==> Worth(r.units, r.report.lastBar.value.price) <= r.report.peak)
  }

  ghost predicate SoundPrices(e: Execution, bars: seq<Bar>) {
    e.minTrade >= 0.0 && CostRate(e) > -1.0 && forall bar | bar in bars :: bar.price > 0.0
  }

  lemma FallIsShare(peak: real, value: real)
    requires 0.0 <= value <= peak && peak != 0.0
    ensures 0.0 <= Fall(peak, value) <= 1.0
  {
    var f := (peak - value) / peak;
    assert f * peak == peak - value;
  }

  lemma WorthIsPositive(units: real, price: real)
    requires units >= 0.0 && price >= 0.0
    ensures Worth(units, price) >= 0.0
  {
  }

  lemma AcquiredIsPositive(amount: real, price: real, rate: real)
    requires amount >= 0.0 && price > 0.0 && rate > -1.0
    ensures price * (1.0 + rate) != 0.0
    ensures Acquired(amount, price, rate) >= 0.0
  {
    var d, q := price * (1.0 + rate), amount / (price * (1.0 + rate));
    assert d > 0.0;
    assert q * d == amount;
  }

  lemma MarkKeepsReport(r: Run, bar: Bar)
    requires ReportOk(r) && bar.price > 0.0
    ensures var report := Marked(r.report, r.units, bar);
            && ReportOk(r.(report := report)) && report.lastBar == Some(bar)
            && report.drawdown >= r.report.drawdown && report.peak >= r.report.peak
            && (report.peak != 0.0 ==> Fall(report.peak, Worth(r.units, bar.price)) <= report.drawdown)
  {
    WorthIsPositive(r.units, bar.price);
    hide Worth;
    var peak := MaxReal(r.report.peak, Worth(r.units, bar.price));
    if peak != 0.0 {
      FallIsShare(peak, Worth(r.units, bar.price));
    }
    hide Fall;
  }

  lemma PurchaseKeepsReport(e: Execution, r: Run, bar: Bar, d: Decision)
    requires ReportOk(r) && r.report.lastBar == Some(bar) && d.Buy? && d.amount >= 0.0
    requires bar.price > 0.0 && CostRate(e) > -1.0 && Purchased(e, r, bar, d).Ok?
    ensures ReportOk(Purchased(e, r, bar, d).value)
    ensures Purchased(e, r, bar, d).value.report.drawdown == r.report.drawdown
  {
    AcquiredIsPositive(d.amount, bar.price, CostRate(e));
    hide TakeFrom, CostRate, Acquired, Cost, Worth;
  }

  lemma StepKeepsReport(s: Setup, pending: seq<CapitalEvent>, r: Run, bar: Bar)
    requires ReportOk(r) && SoundPrices(s.execution, [bar]) && StepBar(s, pending, r, bar).Ok?
    ensures var next := StepBar(s, pending, r, bar).value;
            ReportOk(next) && next.report.drawdown >= r.report.drawdown
  {
    assert bar in [bar];
    var (cohorts, nextEvent) := Absorb(r.cohorts, pending, r.nextEvent, bar.at).value;
    var now := r.(cohorts := cohorts, nextEvent := nextEvent, report := Marked(r.report, r.units, bar));
    var d := Decide(s, cohorts, r.lastTradeDate, bar).value;
    MarkKeepsReport(r, bar);
    if d.Buy? {
      BuyMeans(s, cohorts, r.lastTradeDate, bar);
      hide Absorb, Decide, Marked, Purchased, CostRate, Worth, Fall, Cash;
      PurchaseKeepsReport(s.execution, now, bar, d);
    }
    hide Absorb, Decide, Marked, Purchased, CostRate, Worth, Fall, Cash;
  }

  lemma {:induction false} RunKeepsReport(s: Setup, pending: seq<CapitalEvent>, bars: seq<Bar>, n: nat)
    requires n <= |bars| && SoundPrices(s.execution, bars) && RunBars(s, pending, bars).Ok?
    ensures ReportOk(RunBars(s, pending, bars).value)
    ensures RunBars(s, pending, bars[..n]).Ok?
    ensures RunBars(s, pending, bars[..n]).value.report.drawdown <= RunBars(s, pending, bars).value.report.drawdown
  {
    if bars == [] {
      assert bars[..n] == bars;
    } else {
      var front, bar := bars[..|bars| - 1], bars[|bars| - 1];
      hide StepBar, ReportOk;
      assert SoundPrices(s.execution, front) && SoundPrices(s.execution, [bar]) by {
        assert bar in bars && forall x :: x in front ==> x in bars;
      }
      hide SoundPrices;
      var m := if n == |bars| then n - 1 else n;
      assert front[..m] == bars[..m];
      RunKeepsReport(s, pending, front, m);
      StepKeepsReport(s, pending, RunBars(s, pending, front).value, bar);
      assert n == |bars| ==> bars[..n] == bars;
    }
  }

  /**
   * With positive prices the reported drawdown is a share between none and all, it
   * is at least that of every earlier point of the run, and the peak is at least
   * the last marked value.
   */
  lemma DrawdownIsAShare(x: Input, n: nat)
    requires Backtested(x).Ok? && SoundPrices(x.execution, BarsThrough(x.bars, x.asOf, x.policy.horizon))
    requires n <= |BarsThrough(x.bars, x.asOf, x.policy.horizon)|
    ensures ReportOk(Backtested(x).value)
    ensures var bars, pending := BarsThrough(x.bars, x.asOf, x.policy.horizon), Sorted(UsableBy(x.events, x.asOf));
            && RunBars(SetupOf(x), pending, bars[..n]).Ok?
            && RunBars(SetupOf(x), pending, bars[..n]).value.report.drawdown <= Backtested(x).value.report.drawdown
  {
    hide RunBars, Sorted, UsableBy, BarsThrough, Absorb, SoundPrices, Worth;
    RunKeepsReport(SetupOf(x), Sorted(UsableBy(x.events, x.asOf)), BarsThrough(x.bars, x.asOf, x.policy.horizon), n);
  }

  /** One bar marks the holding, and leaves as peak the larger of that and what it holds afterwards. */
  lemma StepMarks(s: Setup, pending: seq<CapitalEvent>, r: Run, bar: Bar)
    requires StepBar(s, pending, r, bar).Ok?
    ensures var next, m := StepBar(s, pending, r, bar).value, Marked(r.report, r.units, bar);
            next.report.drawdown == m.drawdown && next.report.peak == MaxReal(m.peak, Worth(next.units, bar.price))
  {
    hide Absorb, Decide, TakeFrom, CostRate, Acquired, Cost, Worth, Fall;
  }

  /** What a bar contributes to the report of a run that goes on to it from one state to the next. */
  ghost predicate Counts(before: Run, bar: Bar, after: Run, final: Report) {
    var value, peak := before.units * bar.price, PeakAt(before, bar);
    && value <= peak <= final.peak && after.units * bar.price <= final.peak
    && (peak != 0.0 ==> (peak - value) / peak <= final.drawdown)
  }

  /** The running peak once a bar has marked what is held. */
  ghost function PeakAt(before: Run, bar: Bar): real {
    if before.report.peak < before.units * bar.price then before.units * bar.price else before.report.peak
  }

  ghost predicate ReachesDrawdown(before: Run, bar: Bar, drawdown: real) {
    var value, peak := before.units * bar.price, PeakAt(before, bar);
    peak != 0.0 && drawdown == (peak - value) / peak
  }

  ghost predicate ReachesPeak(before: Run, bar: Bar, after: Run, peak: real) {
    peak == before.units * bar.price || peak == after.units * bar.price
  }

  /** The run before a bar. */
  ghost function RunTo(s: Setup, pending: seq<CapitalEvent>, bars: seq<Bar>, n: nat): Run
    requires n <= |bars| && RunBars(s, pending, bars).Ok?
  {
    RunsPrefix(s, pending, bars, n);
    RunBars(s, pending, bars[..n]).value
  }

  /** Peak and drawdown bound what every bar contributes, and are reached at some bar unless they are nothing. */
  ghost predicate Extremes(s: Setup, pending: seq<CapitalEvent>, bars: seq<Bar>)
    requires RunBars(s, pending, bars).Ok?
  {
    var final := RunBars(s, pending, bars).value.report;
    && (forall n: nat | n < |bars| ::
          Counts(RunTo(s, pending, bars, n), bars[n], RunTo(s, pending, bars, n + 1), final))
    && (final.drawdown == 0.0
        || exists n: nat | n < |bars| :: ReachesDrawdown(RunTo(s, pending, bars, n), bars[n], final.drawdown))
    && (final.peak == 0.0
        || exists n: nat | n < |bars| ::
             ReachesPeak(RunTo(s, pending, bars, n), bars[n], RunTo(s, pending, bars, n + 1), final.peak))
  }

  lemma CountsStill(before: Run, bar: Bar, after: Run, final: Report, later: Report)
    requires Counts(before, bar, after, final) && final.peak <= later.peak && final.drawdown <= later.drawdown
    ensures Counts(before, bar, after, later)
  {
    hide PeakAt;
  }

  /** The last bar counts, and any value that is not that of before is reached at it. */
  lemma LastCounts(before: Run, bar: Bar, after: Run)
    requires var m := Marked(before.report, before.units, bar);
             after.report.drawdown == m.drawdown && after.report.peak == MaxReal(m.peak, Worth(after.units, bar.price))
    ensures Counts(before, bar, after, after.report)
    ensures before.report.peak <= after.report.peak && before.report.drawdown <= after.report.drawdown
    ensures after.report.drawdown == before.report.drawdown || ReachesDrawdown(before, bar, after.report.drawdown)
    ensures after.report.peak == before.report.peak || ReachesPeak(before, bar, after, after.report.peak)
  {
  }

  lemma SamePrefix(s: Setup, pending: seq<CapitalEvent>, bars: seq<Bar>, n: nat)
    requires n < |bars| && RunBars(s, pending, bars).Ok?
    ensures RunBars(s, pending, bars[..|bars| - 1]).Ok?
    ensures RunTo(s, pending, bars[..|bars| - 1], n) == RunTo(s, pending, bars, n)
  {
    assert bars[..|bars| - 1][..n] == bars[..n];
    hide StepBar;
  }

  lemma {:induction false} RunHasExtremes(s: Setup, pending: seq<CapitalEvent>, bars: seq<Bar>)
    requires RunBars(s, pending, bars).Ok?
    ensures Extremes(s, pending, bars)
  {
    hide StepBar, Counts, ReachesDrawdown, ReachesPeak, RunTo, Marked, Worth;
    if bars != [] {
      var front, bar := bars[..|bars| - 1], bars[|bars| - 1];
      SamePrefix(s, pending, bars, |front|);
      RunHasExtremes(s, pending, front);
      ExtremesGrow(s, pending, bars);
    }
  }

  lemma Ends(s: Setup, pending: seq<CapitalEvent>, bars: seq<Bar>)
    requires RunBars(s, pending, bars).Ok?
    ensures RunTo(s, pending, bars, |bars|) == RunBars(s, pending, bars).value
  {
    assert bars[..|bars|] == bars;
    hide RunBars;
  }

  lemma ExtremesGrow(s: Setup, pending: seq<CapitalEvent>, bars: seq<Bar>)
    requires bars != [] && RunBars(s, pending, bars).Ok? && RunBars(s, pending, bars[..|bars| - 1]).Ok?
    requires Extremes(s, pending, bars[..|bars| - 1])
    ensures Extremes(s, pending, bars)
  {
    hide StepBar, Counts, ReachesDrawdown, ReachesPeak, RunTo, Marked, Worth;
    var front, bar := bars[..|bars| - 1], bars[|bars| - 1];
    var r, next := RunBars(s, pending, front).value, RunBars(s, pending, bars).value;
    StepMarks(s, pending, r, bar);
    LastCounts(r, bar, next);
    Ends(s, pending, front);
    Ends(s, pending, bars);
    hide RunBars;
    forall n: nat | n <= |front|
      ensures RunTo(s, pending, front, n) == RunTo(s, pending, bars, n)
    {
      SamePrefix(s, pending, bars, n);
    }
    forall n: nat | n < |bars|
      ensures Counts(RunTo(s, pending, bars, n), bars[n], RunTo(s, pending, bars, n + 1), next.report)
    {
      if n < |front| {
        CountsStill(RunTo(s, pending, front, n), front[n], RunTo(s, pending, front, n + 1), r.report, next.report);
      }
    }
    DrawdownReached(s, pending, bars, r, next);
    PeakReached(s, pending, bars, r, next);
  }

  lemma DrawdownReached(s: Setup, pending: seq<CapitalEvent>, bars: seq<Bar>, r: Run, next: Run)
    requires bars != [] && RunBars(s, pending, bars).Ok? && RunBars(s, pending, bars[..|bars| - 1]) == Ok(r)
    requires Extremes(s, pending, bars[..|bars| - 1])
    requires next.report.drawdown == r.report.drawdown
             || ReachesDrawdown(RunTo(s, pending, bars, |bars| - 1), bars[|bars| - 1], next.report.drawdown)
    ensures next.report.drawdown == 0.0
            || exists n: nat | n < |bars| :: ReachesDrawdown(RunTo(s, pending, bars, n), bars[n], next.report.drawdown)
  {
    hide RunBars, Counts, ReachesDrawdown, ReachesPeak, Before;
    var front := bars[..|bars| - 1];
    if next.report.drawdown == r.report.drawdown && r.report.drawdown != 0.0 {
      var n: nat :| n < |front| && ReachesDrawdown(RunTo(s, pending, front, n), front[n], r.report.drawdown);
      SamePrefix(s, pending, bars, n);
      assert ReachesDrawdown(RunTo(s, pending, bars, n), bars[n], next.report.drawdown);
    }
  }

  lemma PeakReached(s: Setup, pending: seq<CapitalEvent>, bars: seq<Bar>, r: Run, next: Run)
    requires bars != [] && RunBars(s, pending, bars).Ok? && RunBars(s, pending, bars[..|bars| - 1]) == Ok(r)
    requires Extremes(s, pending, bars[..|bars| - 1])
    requires next.report.peak == r.report.peak
             || ReachesPeak(RunTo(s, pending, bars, |bars| - 1), bars[|bars| - 1], RunTo(s, pending, bars, |bars|),
                            next.report.peak)
    ensures next.report.peak == 0.0
            || exists n: nat | n < |bars| ::
                 ReachesPeak(RunTo(s, pending, bars, n), bars[n], RunTo(s, pending, bars, n + 1), next.report.peak)
  {
    hide RunBars, Counts, ReachesDrawdown, ReachesPeak, Before;
    var front := bars[..|bars| - 1];
    if next.report.peak == r.report.peak && r.report.peak != 0.0 {
      var n: nat :| n < |front|
        && ReachesPeak(RunTo(s, pending, front, n), front[n], RunTo(s, pending, front, n + 1), r.report.peak);
      SamePrefix(s, pending, bars, n);
      SamePrefix(s, pending, bars, n + 1);
      assert ReachesPeak(RunTo(s, pending, bars, n), bars[n], RunTo(s, pending, bars, n + 1), next.report.peak);
    }
  }

  /**
   * The reported drawdown is the worst fall from the running peak over all bars, and
   * the peak is the largest value the holding was marked at or bought up to: no bar
   * exceeds either, and each is nothing or the value of some bar.
   */
  lemma DrawdownIsWorstFall(x: Input)
    requires Backtested(x).Ok?
    ensures var bars, pending := BarsThrough(x.bars, x.asOf, x.policy.horizon), Sorted(UsableBy(x.events, x.asOf));
            && RunBars(SetupOf(x), pending, bars).Ok?
            && RunBars(SetupOf(x), pending, bars).value.report == Backtested(x).value.report
            && Extremes(SetupOf(x), pending, bars)
  {
    hide RunBars, Sorted, UsableBy, BarsThrough, Absorb, Extremes;
    RunHasExtremes(SetupOf(x), Sorted(UsableBy(x.events, x.asOf)), BarsThrough(x.bars, x.asOf, x.policy.horizon));
  }
}
