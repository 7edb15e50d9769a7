/** The backtest as it runs: loops over series, events and bars that update a ledger of cohorts. */
module BacktestRun {
  import opened Prelude
  import opened LedgerEvents
  import opened CohortLedgers
  import opened PointInTime
  import opened Backtest
  import opened BacktestReport

  method ScoreFeatures(view: PointInTimeView, s: Setup, at: Time) returns (score: real, stale: bool)
    requires view.revisions == s.revisions
    ensures (score, stale) == FeatureScore(s, at)
  {
    hide SeriesScore, ByDate, Latest;
    var scores: seq<real> := [];
    stale := false;
    var features := s.policy.features;
    for i := 0 to |features|
      invariant (scores, stale) == Scores(s, at, features[..i])
    {
      assert features[..i + 1][..i] == features[..i];
      var series := features[i];
      var history := view.HistoryAt(series, at, if series == "btc_etf_flow_usd" then 1 else 0);
      if |history| < 2 {
        stale := true;
      } else {
        stale := stale || DateOf(at) - history[|history| - 1].date > s.policy.staleAfterDays;
        scores := scores + [SeriesScore(history, s.sqrt)];
      }
    }
    assert features[..|features|] == features;
    score := Average(scores);
  }

  method SortEvents(events: seq<CapitalEvent>, asOf: Time) returns (pending: seq<CapitalEvent>)
    ensures pending == Sorted(UsableBy(events, asOf))
  {
    hide InsertEvent;
    pending := [];
    ghost var usable: seq<CapitalEvent> := [];
    for i := 0 to |events|
      invariant usable == UsableBy(events[..i], asOf) && pending == Sorted(usable)
    {
      assert events[..i + 1][..i] == events[..i];
      if events[i].usableAt <= asOf {
        pending := InsertEvent(pending, events[i]);
        assert (usable + [events[i]])[..|usable|] == usable;
        usable := usable + [events[i]];
      }
    }
    assert events[..|events|] == events;
  }

  method Apply(ledger: CohortLedger, e: CapitalEvent) returns (r: Result<(), BacktestError>)
    modifies ledger
    ensures var spec := ApplyCapitalEvent(old(ledger.cohorts), e);
            if spec.Ok? then r.Ok? && ledger.cohorts == spec.value else r == Err(spec.error)
  {
    hide TakeFrom, Deposited;
    if e.kind.DepositKind? {
      ledger.Deposit(e.id, e.amount);
      return Ok(());
    }
    var taken := ledger.Take(e.amount, Withdrawal);
    if taken.Err? {
      return Err(Capital(taken.error));
    }
    return Ok(());
  }

  /** Applies pending events in order while they are usable. */
  method AbsorbEvents(ledger: CohortLedger, pending: seq<CapitalEvent>, next: nat, at: Time)
    returns (r: Result<nat, BacktestError>)
    modifies ledger
    ensures var spec := Absorb(old(ledger.cohorts), pending, next, at);
            if spec.Ok? then r.Ok? && (ledger.cohorts, r.value) == spec.value else r == Err(spec.error)
  {
    hide ApplyCapitalEvent;
    var index := next;
    while index < |pending| && pending[index].usableAt <= at
      invariant Absorb(old(ledger.cohorts), pending, next, at) == Absorb(ledger.cohorts, pending, index, at)
      decreases |pending| - index
    {
      var applied := Apply(ledger, pending[index]);
      if applied.Err? {
        return Err(applied.error);
      }
      index := index + 1;
    }
    return Ok(index);
  }

  /** The decision at a bar; nothing changes yet. */
  method DecideAt(ledger: CohortLedger, view: PointInTimeView, s: Setup, lastTradeDate: Option<Date>, bar: Bar)
    returns (r: Result<Decision, BacktestError>)
    requires view.revisions == s.revisions
    ensures r == Decide(s, ledger.cohorts, lastTradeDate, bar)
  {
    hide FeatureScore, Cash, Multiplier, RemainingDates, Weekday, OrderSize;
    var p, date := s.policy, DateOf(bar.at);
    if p.weekly && Weekday(date) != 1 {
      return Ok(Skip(OffDay));
    }
    if lastTradeDate == Some(date) {
      return Ok(Skip(DuplicateDay));
    }
    var cash := ledger.CashAtHand();
    if cash <= DUST {
      return Ok(Skip(NoCash));
    }
    var slots := RemainingDates(date, p.horizon, p.weekly);
    var multiplier := 1.0;
    var score, stale := ScoreFeatures(view, s, bar.at);
    if p.adaptive {
      if stale && p.staleBehavior == "skip" {
        return Ok(Skip(StaleFeatures));
      }
      if stale && p.staleBehavior != "fixed" {
        return Err(UnsupportedStaleBehavior);
      }
      if !stale {
        multiplier := Multiplier(p, score);
      }
    }
    var order := OrderSize(cash, slots, multiplier, s.execution.maxTrade);
    if order < s.execution.minTrade {
      return Ok(Skip(BelowMinimum));
    }
    return Ok(Buy(order, multiplier, score));
  }

  lemma {:induction false} BarErrorStands(s: Setup, pending: seq<CapitalEvent>, bars: seq<Bar>, n: nat)
    requires n <= |bars| && RunBars(s, pending, bars[..n]).Err?
    ensures RunBars(s, pending, bars) == Err(RunBars(s, pending, bars[..n]).error)
  {
    hide StepBar;
    if n == |bars| {
      assert bars[..n] == bars;
    } else {
      assert bars[..|bars| - 1][..n] == bars[..n];
      BarErrorStands(s, pending, bars[..|bars| - 1], n);
    }
  }

  lemma NextBar(s: Setup, pending: seq<CapitalEvent>, bars: seq<Bar>, i: nat)
    requires i < |bars| && RunBars(s, pending, bars[..i]).Ok?
    ensures RunBars(s, pending, bars[..i + 1]) == StepBar(s, pending, RunBars(s, pending, bars[..i]).value, bars[i])
    ensures StepBar(s, pending, RunBars(s, pending, bars[..i]).value, bars[i]).Err? ==>
              RunBars(s, pending, bars) == Err(StepBar(s, pending, RunBars(s, pending, bars[..i]).value, bars[i]).error)
  {
    assert bars[..i + 1][..i] == bars[..i];
    hide StepBar;
    if RunBars(s, pending, bars[..i + 1]).Err? {
      BarErrorStands(s, pending, bars, i + 1);
    }
  }

  /** The bars that count are a prefix, ended by the first bar past the as-of time or the horizon. */
  lemma {:induction false} BarsBreak(bars: seq<Bar>, asOf: Time, horizon: Date)
    ensures var through := BarsThrough(bars, asOf, horizon);
            && through <= bars
            && (forall i | 0 <= i < |through| :: bars[i].at <= asOf && DateOf(bars[i].at) <= horizon)
            && (|through| < |bars| ==> bars[|through|].at > asOf || DateOf(bars[|through|].at) > horizon)
  {
    hide DateOf;
    if bars != [] && bars[0].at <= asOf && DateOf(bars[0].at) <= horizon {
      BarsBreak(bars[1..], asOf, horizon);
    }
  }

  /** Pays an order out of the cohorts and books the units, the costs and the trade. */
  method Pay(ledger: CohortLedger, e: Execution, r: Run, bar: Bar, d: Decision)
    returns (next: Result<Run, BacktestError>)
    requires d.Buy? && r.cohorts == ledger.cohorts
    modifies ledger
    ensures next == Purchased(e, r, bar, d)
    ensures next.Ok? ==> next.value.cohorts == ledger.cohorts
  {
    hide TakeFrom, CostRate, Acquired, Cost, Worth, MaxReal;
    var taken := ledger.Take(d.amount, Purchase);
    if taken.Err? {
      return Err(Capital(taken.error));
    }
    var rate := CostRate(e);
    if bar.price * (1.0 + rate) == 0.0 || 1.0 + rate == 0.0 {
      return Err(DivisionByZero);
    }
    var acquired, cost := Acquired(d.amount, bar.price, rate), Cost(d.amount, rate);
    var trade := Trade(bar.at, d.amount, bar.price, acquired, d.multiplier, d.score);
    return Ok(Run(ledger.cohorts, r.nextEvent, r.units + acquired, r.spend + d.amount, r.fees + cost,
                  r.turnover + d.amount, r.trades + [trade], Some(DateOf(bar.at)),
                  r.report.(peak := MaxReal(r.report.peak, Worth(r.units + acquired, bar.price)))));
  }

  method MarkToBar(r: Report, units: real, bar: Bar) returns (next: Report)
    ensures next == Marked(r, units, bar)
  {
    hide Worth, Fall, MaxReal;
    var value := Worth(units, bar.price);
    var peak, drawdown := MaxReal(r.peak, value), r.drawdown;
    if peak != 0.0 {
      drawdown := MaxReal(drawdown, Fall(peak, value));
    }
    return r.(peak := peak, drawdown := drawdown, lastBar := Some(bar));
  }

  /** One bar of the run. */
  method RunBar(
    ledger: CohortLedger, view: PointInTimeView, s: Setup, pending: seq<CapitalEvent>, r: Run, bar: Bar)
    returns (next: Result<Run, BacktestError>)
    requires view.revisions == s.revisions && r.cohorts == ledger.cohorts
    modifies ledger
    ensures next == StepBar(s, pending, r, bar)
    ensures next.Ok? ==> next.value.cohorts == ledger.cohorts
  {
    hide Absorb, Decide, Purchased, Marked, Skipped;
    var eventIndex :- AbsorbEvents(ledger, pending, r.nextEvent, bar.at);
    var report := MarkToBar(r.report, r.units, bar);
    var decision :- DecideAt(ledger, view, s, r.lastTradeDate, bar);
    var now := r.(cohorts := ledger.cohorts, nextEvent := eventIndex, report := report);
    if decision.Skip? {
      return Ok(now.(report := Skipped(report, decision.reason)));
    }
    next := Pay(ledger, s.execution, now, bar, decision);
  }

  /** Runs a backtest: sorts the usable events, walks the bars, and settles the events left by the horizon. */
  method RunBacktest(x: Input) returns (r: Result<Summary, BacktestError>)
    ensures r == Summarised(x)
  {
    hide Absorb, StepBar, Sorted, UsableBy, KnownBy, Reported;
    var ledger := new CohortLedger();
    var view := new PointInTimeView(x.revisions, x.asOf);
    var s := SetupOf(x);
    var pending := SortEvents(x.events, x.asOf);
    ghost var bars := BarsThrough(x.bars, x.asOf, x.policy.horizon);
    BarsBreak(x.bars, x.asOf, x.policy.horizon);
    hide BarsThrough;
    var run := START;
    var i := 0;
    while i < |x.bars| && x.bars[i].at <= x.asOf && DateOf(x.bars[i].at) <= x.policy.horizon
      invariant 0 <= i <= |bars| && run.cohorts == ledger.cohorts && fresh(ledger)
      invariant RunBars(s, pending, bars[..i]) == Ok(run)
      decreases |x.bars| - i
    {
      NextBar(s, pending, bars, i);
      hide RunBars;
      run :- RunBar(ledger, view, s, pending, run, x.bars[i]);
      i := i + 1;
    }
    assert bars[..i] == bars;
    var eventIndex :- AbsorbEvents(ledger, pending, run.nextEvent, EndOf(x.policy.horizon));
    var final := run.(cohorts := ledger.cohorts, nextEvent := eventIndex);
    return Reported(x, final);
  }
}
