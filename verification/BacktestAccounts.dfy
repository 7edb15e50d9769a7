/** What a backtest's totals mean: cohort accounts, spending within dust, and costs that add up. */
module BacktestAccounts {
  import opened Prelude
  import opened LedgerEvents
  import opened CohortLedgers
  import opened PointInTime
  import opened Backtest

  function UnitsOf(trades: seq<Trade>): real {
    if trades == [] then 0.0 else UnitsOf(trades[..|trades| - 1]) + trades[|trades| - 1].units
  }

  /** What the units of the trades were worth at their prices. */
  function WorthOf(trades: seq<Trade>): real {
    if trades == [] then 0.0
    else WorthOf(trades[..|trades| - 1]) + Worth(trades[|trades| - 1].units, trades[|trades| - 1].price)
  }

  /** The dust that so many trades may leave. */
  function DustOf(trades: seq<Trade>): real {
    (|trades| as real) * DUST
  }

  /**
   * Every cohort's account balances, the cohorts hold the reported spend up to
   * one piece of dust per trade, and spend is what the units were worth and the costs.
   */
  ghost predicate Accounts(r: Run) {
    && AllOk(r.cohorts)
    && Invested(r.cohorts) <= r.spend <= Invested(r.cohorts) + DustOf(r.trades)
    && r.turnover == r.spend
    && r.units == UnitsOf(r.trades)
    && r.spend == WorthOf(r.trades) + r.fees
  }

  ghost predicate PositiveAmounts(es: seq<CapitalEvent>) {
    forall e | e in es :: e.amount > 0.0
  }

  lemma DepositKeeps(cs: seq<Cohort>, id: Id, amount: real)
    requires AllOk(cs) && amount > 0.0
    ensures AllOk(Deposited(cs, id, amount)) && Invested(Deposited(cs, id, amount)) == Invested(cs)
  {
    assert Deposited(cs, id, amount)[..|cs|] == cs;
  }

  lemma {:induction false} AbsorbKeeps(cs: seq<Cohort>, pending: seq<CapitalEvent>, next: nat, at: Time)
    requires AllOk(cs) && PositiveAmounts(pending) && Absorb(cs, pending, next, at).Ok?
    ensures var (after, _) := Absorb(cs, pending, next, at).value;
            AllOk(after) && Invested(after) == Invested(cs)
    decreases |pending| - next
  {
    if next < |pending| && pending[next].usableAt <= at {
      var e := pending[next];
      assert e.amount > 0.0;
      if e.kind.DepositKind? {
        DepositKeeps(cs, e.id, e.amount);
      } else {
        TakeIsExactToDust(cs, e.amount, Withdrawal);
      }
      hide TakeFrom, Deposited, AllOk, Invested;
      AbsorbKeeps(ApplyCapitalEvent(cs, e).value, pending, next + 1, at);
    }
  }

  /** The order is what the units are worth and the cost. */
  lemma OrderSplits(amount: real, price: real, rate: real)
    requires price * (1.0 + rate) != 0.0 && 1.0 + rate != 0.0
    ensures amount == Worth(Acquired(amount, price, rate), price) + Cost(amount, rate)
  {
    var k := 1.0 + rate;
    Divides(amount, price * k);
    Divides(amount * rate, k);
    var a, c := amount / (price * k), amount * rate / k;
    assert (a * price + c) * k == a * (price * k) + c * k == amount + amount * rate == amount * k;
    Cancels(a * price + c, amount, k);
  }

  lemma Divides(a: real, b: real)
    requires b != 0.0
    ensures a / b * b == a
  {
  }

  lemma Cancels(a: real, b: real, k: real)
    requires k != 0.0 && a * k == b * k
    ensures a == b
  {
    assert (a - b) * k == 0.0;
  }

  lemma OneMoreTrade(trades: seq<Trade>, trade: Trade)
    ensures UnitsOf(trades + [trade]) == UnitsOf(trades) + trade.units
    ensures WorthOf(trades + [trade]) == WorthOf(trades) + Worth(trade.units, trade.price)
  {
    assert (trades + [trade])[..|trades|] == trades;
  }

  lemma OneMoreDust(trades: seq<Trade>, trade: Trade)
    ensures DustOf(trades + [trade]) == DustOf(trades) + DUST
  {
  }

  /** What a purchase books. */
  lemma PurchaseShape(e: Execution, r: Run, bar: Bar, d: Decision)
    requires d.Buy? && Purchased(e, r, bar, d).Ok?
    ensures TakeFrom(r.cohorts, d.amount, Purchase).Ok?
    ensures var rate := CostRate(e); bar.price * (1.0 + rate) != 0.0 && 1.0 + rate != 0.0
    ensures var next, rate := Purchased(e, r, bar, d).value, CostRate(e);
            var trade := Trade(bar.at, d.amount, bar.price, Acquired(d.amount, bar.price, rate), d.multiplier, d.score);
            && next.cohorts == TakeFrom(r.cohorts, d.amount, Purchase).value
            && next.trades == r.trades + [trade]
            && next.units == r.units + trade.units && next.spend == r.spend + d.amount
            && next.turnover == r.turnover + d.amount && next.fees == r.fees + Cost(d.amount, rate)
  {
    hide TakeFrom, CostRate, Acquired, Cost, Worth, MaxReal;
  }

  lemma PurchaseKeeps(e: Execution, r: Run, bar: Bar, d: Decision)
    requires Accounts(r) && d.Buy? && r.cohorts != [] && Purchased(e, r, bar, d).Ok?
    ensures Accounts(Purchased(e, r, bar, d).value)
  {
    hide Purchased, TakeFrom, CostRate, AllOk, Invested, Cash, Withdrawn, UnitsOf, WorthOf, DustOf, Acquired, Cost,
         Worth;
    PurchaseShape(e, r, bar, d);
    var rate := CostRate(e);
    var trade := Trade(bar.at, d.amount, bar.price, Acquired(d.amount, bar.price, rate), d.multiplier, d.score);
    TakeIsExactToDust(r.cohorts, d.amount, Purchase);
    OrderSplits(d.amount, bar.price, rate);
    OneMoreTrade(r.trades, trade);
    OneMoreDust(r.trades, trade);
  }

  lemma {:induction false} RunKeepsAccounts(s: Setup, pending: seq<CapitalEvent>, bars: seq<Bar>)
    requires PositiveAmounts(pending) && RunBars(s, pending, bars).Ok?
    ensures Accounts(RunBars(s, pending, bars).value)
  {
    if bars != [] {
      var front, bar := bars[..|bars| - 1], bars[|bars| - 1];
      RunKeepsAccounts(s, pending, front);
      hide RunBars;
      StepKeepsAccounts(s, pending, RunBars(s, pending, front).value, bar);
    }
  }

  lemma StepKeepsAccounts(s: Setup, pending: seq<CapitalEvent>, r: Run, bar: Bar)
    requires PositiveAmounts(pending) && Accounts(r) && StepBar(s, pending, r, bar).Ok?
    ensures Accounts(StepBar(s, pending, r, bar).value)
  {
    hide Absorb, Decide, Purchased, Accounts, PositiveAmounts, Marked, Skipped;
    LastAbsorbKeeps(r, pending, bar.at);
    var (cohorts, nextEvent) := Absorb(r.cohorts, pending, r.nextEvent, bar.at).value;
    var held := r.(cohorts := cohorts, nextEvent := nextEvent);
    var now := held.(report := Marked(r.report, r.units, bar));
    ReportIsNoAccount(held, now.report);
    var d := Decide(s, cohorts, r.lastTradeDate, bar).value;
    if d.Skip? {
      ReportIsNoAccount(held, Skipped(now.report, d.reason));
    } else {
      BuyMeans(s, cohorts, r.lastTradeDate, bar);
      PurchaseKeeps(s.execution, now, bar, d);
    }
  }

  lemma ReportIsNoAccount(r: Run, report: Report)
    requires Accounts(r)
    ensures Accounts(r.(report := report))
  {
    hide AllOk, Invested, UnitsOf, WorthOf, DustOf;
  }

  /** A policy buys within the cash and the order bounds, once a date, and weekly only on Mondays. */
  lemma BuyMeans(s: Setup, cs: seq<Cohort>, last: Option<Date>, bar: Bar)
    requires Decide(s, cs, last, bar).Ok? && Decide(s, cs, last, bar).value.Buy?
    ensures Cash(cs) > DUST && cs != []
    ensures var amount := Decide(s, cs, last, bar).value.amount;
            s.execution.minTrade <= amount <= s.execution.maxTrade && amount <= Cash(cs)
    ensures last != Some(DateOf(bar.at))
    ensures s.policy.weekly ==> Weekday(DateOf(bar.at)) == 1
  {
    hide FeatureScore, Multiplier, RemainingDates, Weekday, OrderSize;
  }

  lemma {:induction false} SortedHolds(es: seq<CapitalEvent>, e: CapitalEvent)
    ensures e in Sorted(es) <==> e in es
  {
    if es != [] {
      var front, last := es[..|es| - 1], es[|es| - 1];
      SortedHolds(front, e);
      SortedIsInTimeOrder(front);
      InsertKeepsTimeOrder(Sorted(front), last);
      assert es == front + [last];
    }
  }

  lemma {:induction false} UsableAreEvents(es: seq<CapitalEvent>, t: Time, e: CapitalEvent)
    requires e in UsableBy(es, t)
    ensures e in es
  {
    var front, last := es[..|es| - 1], es[|es| - 1];
    if e in UsableBy(front, t) {
      UsableAreEvents(front, t, e);
    }
  }

  /**
   * Over every backtest that completes, on positive amounts: each cohort keeps
   * admitted = cash + invested + withdrawn with no debt, the reported spend is
   * what the cohorts invested and at most one piece of dust per trade more, and
   * it is exactly what the units were worth at their prices and the costs.
   */
  lemma BacktestBalances(x: Input)
    requires PositiveAmounts(x.events) && Backtested(x).Ok?
    ensures Accounts(Backtested(x).value)
  {
    hide RunBars, Sorted, UsableBy, BarsThrough, Absorb, Accounts, PositiveAmounts, KnownBy;
    var pending, bars := Sorted(UsableBy(x.events, x.asOf)), BarsThrough(x.bars, x.asOf, x.policy.horizon);
    PendingIsPositive(x.events, x.asOf);
    RunKeepsAccounts(SetupOf(x), pending, bars);
    LastAbsorbKeeps(RunBars(SetupOf(x), pending, bars).value, pending, EndOf(x.policy.horizon));
  }

  lemma PendingIsPositive(events: seq<CapitalEvent>, asOf: Time)
    requires PositiveAmounts(events)
    ensures PositiveAmounts(Sorted(UsableBy(events, asOf)))
  {
    hide Sorted, UsableBy;
    forall e | e in Sorted(UsableBy(events, asOf))
      ensures e.amount > 0.0
    {
      SortedHolds(UsableBy(events, asOf), e);
      UsableAreEvents(events, asOf, e);
    }
  }

  /** The events absorbed behind the last bar change no account. */
  lemma LastAbsorbKeeps(r: Run, pending: seq<CapitalEvent>, at: Time)
    requires Accounts(r) && PositiveAmounts(pending) && Absorb(r.cohorts, pending, r.nextEvent, at).Ok?
    ensures var (cohorts, nextEvent) := Absorb(r.cohorts, pending, r.nextEvent, at).value;
            Accounts(r.(cohorts := cohorts, nextEvent := nextEvent))
  {
    hide Absorb, AllOk, Invested, UnitsOf, WorthOf, DustOf, PositiveAmounts;
    AbsorbKeeps(r.cohorts, pending, r.nextEvent, at);
  }
}
