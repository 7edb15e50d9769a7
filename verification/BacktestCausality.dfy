/** No backtest looks ahead: its trades up to a time depend on nothing that came after that time. */
module BacktestCausality {
  import opened Prelude
  import opened LedgerEvents
  import opened CohortLedgers
  import opened PointInTime
  import opened Backtest

  lemma StepTrades(s: Setup, pending: seq<CapitalEvent>, r: Run, bar: Bar)
    requires StepBar(s, pending, r, bar).Ok?
    ensures var next := StepBar(s, pending, r, bar).value.trades;
            next == r.trades
            || (|next| == |r.trades| + 1 && next[..|r.trades|] == r.trades && next[|r.trades|].at == bar.at)
  {
    hide Absorb, Decide, CostRate, TakeFrom;
  }

  lemma TradesBySnoc(trades: seq<Trade>, trade: Trade, t: Time)
    ensures TradesBy(trades + [trade], t) == TradesBy(trades, t) + (if trade.at <= t then [trade] else [])
  {
    assert (trades + [trade])[..|trades|] == trades;
  }

  /** The trades up to a time are those of the bars up to that time. */
  lemma {:induction false} TradesSplit(s: Setup, pending: seq<CapitalEvent>, bars: seq<Bar>, n: nat, t: Time)
    requires n <= |bars|
    requires (forall i | 0 <= i < n :: bars[i].at <= t) && (forall i | n <= i < |bars| :: bars[i].at > t)
    requires RunBars(s, pending, bars).Ok?
    ensures RunBars(s, pending, bars[..n]).Ok?
    ensures TradesBy(RunBars(s, pending, bars).value.trades, t) == RunBars(s, pending, bars[..n]).value.trades
  {
    if bars == [] {
      assert bars[..n] == [];
    } else {
      var front, last := bars[..|bars| - 1], bars[|bars| - 1];
      var r, next := RunBars(s, pending, front).value, RunBars(s, pending, bars).value;
      TradesGrow(s, pending, r, last, t);
      hide StepBar, TradesBy;
      if n == |bars| {
        assert bars[..n] == bars && front[..n - 1] == front;
        TradesSplit(s, pending, front, n - 1, t);
      } else {
        assert front[..n] == bars[..n];
        TradesSplit(s, pending, front, n, t);
      }
    }
  }

  lemma TradesGrow(s: Setup, pending: seq<CapitalEvent>, r: Run, bar: Bar, t: Time)
    requires StepBar(s, pending, r, bar).Ok?
    ensures var next := StepBar(s, pending, r, bar).value.trades;
            && (bar.at > t ==> TradesBy(next, t) == TradesBy(r.trades, t))
            && (bar.at <= t && TradesBy(r.trades, t) == r.trades ==> TradesBy(next, t) == next)
  {
    StepTrades(s, pending, r, bar);
    var next := StepBar(s, pending, r, bar).value.trades;
    hide StepBar;
    if next != r.trades {
      assert next == r.trades + [next[|r.trades|]];
      TradesBySnoc(r.trades, next[|r.trades|], t);
    }
  }

  /** Of the bars through a later time, those through an earlier one come first. */
  lemma {:induction false} ThroughSplits(bars: seq<Bar>, t: Time, asOf: Time, horizon: Date)
    requires BarsOrdered(bars) && t <= asOf
    ensures var early, all := BarsThrough(bars, t, horizon), BarsThrough(bars, asOf, horizon);
            && early <= all
            && (forall i | 0 <= i < |early| :: all[i].at <= t)
            && (forall i | |early| <= i < |all| :: all[i].at > t && DateOf(all[i].at) <= horizon)
  {
    hide DateOf;
    ThroughIsPrefix(bars, asOf, horizon);
    if bars != [] && bars[0].at <= t && DateOf(bars[0].at) <= horizon {
      ThroughSplits(bars[1..], t, asOf, horizon);
    }
  }

  lemma {:induction false} ThroughIsPrefix(bars: seq<Bar>, asOf: Time, horizon: Date)
    ensures BarsThrough(bars, asOf, horizon) <= bars
    ensures forall bar :: bar in BarsThrough(bars, asOf, horizon) ==> bar.at <= asOf && DateOf(bar.at) <= horizon
  {
    hide DateOf;
    if bars != [] && bars[0].at <= asOf && DateOf(bars[0].at) <= horizon {
      ThroughIsPrefix(bars[1..], asOf, horizon);
    }
  }

  lemma {:induction false} ThroughOfBarsBy(bars: seq<Bar>, t: Time, horizon: Date)
    ensures BarsThrough(BarsBy(bars, t), t, horizon) == BarsThrough(bars, t, horizon)
  {
    hide DateOf;
    if bars != [] && bars[0].at <= t {
      ThroughOfBarsBy(bars[1..], t, horizon);
    }
  }

  /** The run of the bars up to a time, on what was usable and known by that time. */
  function RunUpTo(x: Input, t: Time): Result<Run, BacktestError> {
    RunBars(Setup(x.policy, x.execution, KnownBy(x.revisions, t), x.sqrt), Sorted(UsableBy(x.events, t)),
            BarsThrough(x.bars, t, x.policy.horizon))
  }

  /** A backtest passes through the run up to any earlier time. */
  lemma PassesThrough(x: Input, t: Time)
    requires BarsOrdered(x.bars) && t <= x.asOf
    ensures var bars, pending := BarsThrough(x.bars, t, x.policy.horizon), Sorted(UsableBy(x.events, x.asOf));
            && RunBars(SetupOf(x), pending, bars) == RunUpTo(x, t)
            && InTimeOrder(pending) && UsableBy(pending, t) == Sorted(UsableBy(x.events, t))
  {
    var bars, pending := BarsThrough(x.bars, t, x.policy.horizon), Sorted(UsableBy(x.events, x.asOf));
    SortedIsInTimeOrder(UsableBy(x.events, x.asOf));
    SortedUsable(UsableBy(x.events, x.asOf), t);
    UsableByEarlier(x.events, t, x.asOf);
    KnownByEarlier(x.revisions, t, x.asOf);
    ThroughIsPrefix(x.bars, t, x.policy.horizon);
    hide RunBars, Sorted, UsableBy, KnownBy, BarsThrough, InTimeOrder;
    RunByTime(SetupOf(x), pending, bars, t);
  }

  /** The trades of a complete backtest up to a time are those of the run up to that time. */
  lemma TradesOfRunUpTo(x: Input, t: Time)
    requires BarsOrdered(x.bars) && t <= x.asOf && Backtested(x).Ok?
    ensures RunUpTo(x, t).Ok?
    ensures TradesBy(Backtested(x).value.trades, t) == RunUpTo(x, t).value.trades
  {
    var all, pending := BarsThrough(x.bars, x.asOf, x.policy.horizon), Sorted(UsableBy(x.events, x.asOf));
    PassesThrough(x, t);
    ThroughSplits(x.bars, t, x.asOf, x.policy.horizon);
    var early := BarsThrough(x.bars, t, x.policy.horizon);
    assert all[..|early|] == early;
    hide RunBars, Sorted, UsableBy, KnownBy, BarsThrough, InTimeOrder, Absorb, RunUpTo;
    TradesSplit(SetupOf(x), pending, all, |early|, t);
  }

  /** Two inputs that cannot be told apart by anything up to a time. */
  ghost predicate AgreeUpTo(x: Input, y: Input, t: Time) {
    && x.policy == y.policy && x.execution == y.execution && x.sqrt == y.sqrt
    && BarsBy(x.bars, t) == BarsBy(y.bars, t)
    && UsableBy(x.events, t) == UsableBy(y.events, t)
    && KnownBy(x.revisions, t) == KnownBy(y.revisions, t)
  }

  /** Inputs that agree up to a time give the same trades up to that time. */
  lemma TradesAreCausal(x: Input, y: Input, t: Time)
    requires BarsOrdered(x.bars) && BarsOrdered(y.bars) && AgreeUpTo(x, y, t)
    requires t <= x.asOf && t <= y.asOf && Backtested(x).Ok? && Backtested(y).Ok?
    ensures TradesBy(Backtested(x).value.trades, t) == TradesBy(Backtested(y).value.trades, t)
  {
    TradesOfRunUpTo(x, t);
    TradesOfRunUpTo(y, t);
    ThroughOfBarsBy(x.bars, t, x.policy.horizon);
    ThroughOfBarsBy(y.bars, t, y.policy.horizon);
    hide RunBars, Sorted, UsableBy, KnownBy, BarsThrough, Backtested, BarsBy, TradesBy;
  }

  /** Fewer events, all of them absorbed in the longer run too, raise no new error. */
  lemma {:induction false} AbsorbFewer(
    cs: seq<Cohort>, pending: seq<CapitalEvent>, some: seq<CapitalEvent>, next: nat, at: Time, bound: Time)
    requires some <= pending && Absorb(cs, pending, next, at).Ok?
    requires forall i | next <= i < |some| :: some[i].usableAt <= bound ==> some[i].usableAt <= at
    ensures Absorb(cs, some, next, bound).Ok?
    decreases |pending| - next
  {
    hide ApplyCapitalEvent;
    if next < |some| && some[next].usableAt <= bound {
      AbsorbFewer(ApplyCapitalEvent(cs, pending[next]).value, pending, some, next + 1, at, bound);
    }
  }

  lemma {:induction false} RunsPrefix(s: Setup, pending: seq<CapitalEvent>, bars: seq<Bar>, n: nat)
    requires n <= |bars| && RunBars(s, pending, bars).Ok?
    ensures RunBars(s, pending, bars[..n]).Ok?
  {
    hide StepBar;
    if n == |bars| {
      assert bars[..n] == bars;
    } else {
      RunsPrefix(s, pending, bars[..|bars| - 1], n);
      assert bars[..|bars| - 1][..n] == bars[..n];
    }
  }

  /** The events left at the end of the shorter run raise no error: the longer run absorbed them first of all. */
  lemma LeftoversAbsorb(x: Input, t: Time)
    requires BarsOrdered(x.bars) && t <= x.asOf && Backtested(x).Ok? && RunUpTo(x, t).Ok?
    ensures var r := RunUpTo(x, t).value;
            Absorb(r.cohorts, Sorted(UsableBy(x.events, t)), r.nextEvent, EndOf(x.policy.horizon)).Ok?
  {
    hide Sorted, UsableBy, KnownBy, BarsThrough, InTimeOrder, Absorb, RunUpTo, StepBar, BarsOrdered;
    var horizon := x.policy.horizon;
    var all, pending := BarsThrough(x.bars, x.asOf, horizon), Sorted(UsableBy(x.events, x.asOf));
    var early, some := BarsThrough(x.bars, t, horizon), Sorted(UsableBy(x.events, t));
    var r := RunUpTo(x, t).value;
    PassesThrough(x, t);
    UsableIsPrefix(pending, t);
    ThroughSplits(x.bars, t, x.asOf, horizon);
    if |early| < |all| {
      var bar := all[|early|];
      RunsPrefix(SetupOf(x), pending, all, |early| + 1);
      assert all[..|early| + 1][..|early|] == early;
      StepAbsorbs(SetupOf(x), pending, r, bar);
      AbsorbFewer(r.cohorts, pending, some, r.nextEvent, bar.at, EndOf(horizon));
    } else {
      assert all == early;
      AbsorbFewer(r.cohorts, pending, some, r.nextEvent, EndOf(horizon), EndOf(horizon));
    }
  }

  lemma StepAbsorbs(s: Setup, pending: seq<CapitalEvent>, r: Run, bar: Bar)
    requires StepBar(s, pending, r, bar).Ok?
    ensures Absorb(r.cohorts, pending, r.nextEvent, bar.at).Ok?
  {
    hide Absorb, Decide, Purchased;
  }

  /**
   * Moving the as-of time back cuts the trades and changes none of them: if the
   * later backtest completes, so does the earlier one, and its trades are exactly
   * those of the later one up to the earlier time.
   */
  lemma EarlierAsOfCutsTrades(x: Input, t: Time)
    requires BarsOrdered(x.bars) && t <= x.asOf && Backtested(x).Ok?
    ensures Backtested(x.(asOf := t)).Ok?
    ensures Backtested(x.(asOf := t)).value.trades == TradesBy(Backtested(x).value.trades, t)
  {
    TradesOfRunUpTo(x, t);
    LeftoversAbsorb(x, t);
    PassesThrough(x.(asOf := t), t);
    hide RunBars, Sorted, UsableBy, KnownBy, BarsThrough, InTimeOrder, Absorb, BarsOrdered, TradesBy;
  }
}
