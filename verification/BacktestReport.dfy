/** What a backtest reports: its run in rounded numbers, one row for every cohort and every trade. */
module BacktestReport {
  import opened Prelude
  import opened Decimals
  import opened LedgerEvents
  import opened CohortLedgers
  import opened PointInTime
  import opened Backtest
  import opened BacktestAccounts

  datatype HorizonStatus = InProgress | Complete | Infeasible

  /** Cash left once the horizon has passed means that the horizon could not be met. */
  function StatusOf(x: Input, r: Run): HorizonStatus {
    if x.asOf < (x.policy.horizon + 1) * DAY_NANOS then InProgress
    else if Cash(r.cohorts) > DUST then Infeasible
    else Complete
  }

  /** The value of the holding, if the last bar is of the valuation date. */
  function EndingInventory(x: Input, r: Run): Option<real> {
    var date := if x.policy.horizon < DateOf(x.asOf) then x.policy.horizon else DateOf(x.asOf);
    if r.report.lastBar.Some? && DateOf(r.report.lastBar.value.at) == date then
      Some(Worth(r.units, r.report.lastBar.value.price))
    else None
  }

  /** The average price paid, costs included. */
  function Vwap(r: Run): Option<real> {
    if r.units == 0.0 then None else Some(r.spend / r.units)
  }

  function HalfEven(x: real): int {
    var low, part := x.Floor, x - x.Floor as real;
    if part < 0.5 || (part == 0.5 && low % 2 == 0) then low else low + 1
  }

  /** A number to whole units, of which `k` make one. */
  function RoundedTo(x: real, k: real): real
    requires k > 0.0
  {
    HalfEven(x * k) as real / k
  }

  /** A number to so many decimal places, an exact half going to the even neighbour. */
  function Rounded(x: real, places: nat): real {
    RoundedTo(x, Pow10(places) as real)
  }

  datatype CohortRow = CohortRow(
    eventId: Id, admitted: real, invested: real, withdrawn: real, remaining: real, utilization: real)

  function RowOf(c: Cohort): CohortRow
    requires c.admitted != 0.0
  {
    CohortRow(c.eventId, Rounded(c.admitted, 8), Rounded(c.invested, 8), Rounded(c.withdrawn, 8), Rounded(c.cash, 8),
              Rounded(c.invested / c.admitted, 8))
  }

  function TradeRow(t: Trade): Trade {
    Trade(t.at, Rounded(t.spend, 8), t.price, Rounded(t.units, 10), Rounded(t.multiplier, 6), Rounded(t.score, 6))
  }

  function TradeRows(trades: seq<Trade>): seq<Trade> {
    if trades == [] then [] else TradeRows(trades[..|trades| - 1]) + [TradeRow(trades[|trades| - 1])]
  }

  /** A row for every cohort; a cohort that admitted nothing has no utilization. */
  function CohortRows(cs: seq<Cohort>): Result<seq<CohortRow>, BacktestError> {
    if cs == [] then Ok([])
    else
      var rows :- CohortRows(cs[..|cs| - 1]);
      if cs[|cs| - 1].admitted == 0.0 then Err(DivisionByZero) else Ok(rows + [RowOf(cs[|cs| - 1])])
  }

  function RoundedIfAny(x: Option<real>, places: nat): Option<real> {
    if x.None? then None else Some(Rounded(x.value, places))
  }

  datatype Summary = Summary(
    tradeCount: nat, vwap: Option<real>, invested: real, remainingCash: real, units: real,
    endingInventory: Option<real>, maxDrawdown: real, turnover: real, cost: real, status: HorizonStatus,
    skipped: map<SkipReason, nat>, cohorts: seq<CohortRow>, trades: seq<Trade>)

  function Reported(x: Input, r: Run): Result<Summary, BacktestError> {
    var rows :- CohortRows(r.cohorts);
    Ok(Summary(
         |r.trades|, RoundedIfAny(Vwap(r), 8), Rounded(r.spend, 8), Rounded(Cash(r.cohorts), 8), Rounded(r.units, 10),
         RoundedIfAny(EndingInventory(x, r), 8), Rounded(r.report.drawdown, 8), Rounded(r.turnover, 8),
         Rounded(r.fees, 8), StatusOf(x, r), r.report.skipped, rows, TradeRows(r.trades)))
  }

  /** What a backtest returns. */
  function Summarised(x: Input): Result<Summary, BacktestError> {
    if Backtested(x).Err? then Err(Backtested(x).error) else Reported(x, Backtested(x).value)
  }

  /** A whole number of units, of which `k` make one, and within half a unit. */
  ghost predicate NearIn(shown: real, x: real, k: real) {
    -1.0 <= 2.0 * (shown - x) * k <= 1.0 && IsWhole(shown * k)
  }

  ghost predicate Near(shown: real, x: real, places: nat) {
    NearIn(shown, x, Pow10(places) as real)
  }

  ghost predicate IsWhole(x: real) {
    x.Floor as real == x
  }

  lemma RoundedIsNear(x: real, places: nat)
    ensures Near(Rounded(x, places), x, places)
  {
    hide RoundedTo, NearIn, Pow10;
    UnitsAreNear(x, Pow10(places) as real);
  }

  lemma UnitsAreNear(x: real, k: real)
    requires k > 0.0
    ensures NearIn(RoundedTo(x, k), x, k)
  {
    hide NearIn, IsWhole, HalfEven;
    var whole := HalfEven(x * k);
    var shown := RoundedTo(x, k);
    assert shown == whole as real / k;
    HalfEvenIsNear(x * k);
    Divides(whole as real, k);
    NearWhenScaled(whole as real, x, k);
    NearIf(shown, x, k, whole);
  }

  lemma NearIf(shown: real, x: real, k: real, n: int)
    requires shown * k == n as real && -1.0 <= 2.0 * (shown - x) * k <= 1.0
    ensures NearIn(shown, x, k)
  {
    hide IsWhole;
    WholeIsWhole(shown * k, n);
  }

  lemma WholeIsWhole(y: real, n: int)
    requires y == n as real
    ensures IsWhole(y)
  {
  }

  lemma NearWhenScaled(whole: real, x: real, k: real)
    requires k > 0.0 && -0.5 <= whole - x * k <= 0.5
    ensures -1.0 <= 2.0 * (whole / k - x) * k <= 1.0
  {
    Divides(whole, k);
    var q := whole / k;
    assert 2.0 * (q - x) * k == 2.0 * (q * k - x * k);
  }

  /** An exact half goes to the even neighbour. */
  lemma HalfEvenIsNear(y: real)
    ensures -0.5 <= HalfEven(y) as real - y <= 0.5
    ensures HalfEven(y) as real - y == 0.5 || HalfEven(y) as real - y == -0.5 ==> HalfEven(y) % 2 == 0
  {
  }

  predicate AllAdmit(cs: seq<Cohort>) {
    forall c | c in cs :: c.admitted > 0.0
  }

  lemma {:induction false} DrainKeepsAdmitted(cs: seq<Cohort>, amount: real, purpose: Purpose)
    requires AllAdmit(cs)
    ensures AllAdmit(Drain(cs, amount, purpose).0)
  {
    if cs != [] {
      var used := Min(cs[0].cash, amount);
      assert cs[0] in cs && forall c :: c in cs[1..] ==> c in cs;
      assert Use(cs[0], used, purpose).admitted > 0.0;
      if !Negligible(amount - used) {
        DrainKeepsAdmitted(cs[1..], amount - used, purpose);
      }
    }
  }

  lemma {:induction false} AbsorbKeepsAdmitted(cs: seq<Cohort>, pending: seq<CapitalEvent>, next: nat, at: Time)
    requires AllAdmit(cs) && PositiveAmounts(pending) && Absorb(cs, pending, next, at).Ok?
    ensures AllAdmit(Absorb(cs, pending, next, at).value.0)
    decreases |pending| - next
  {
    hide Drain, Cash;
    if next < |pending| && pending[next].usableAt <= at {
      var e := pending[next];
      assert e.amount > 0.0;
      DrainKeepsAdmitted(cs, e.amount, Withdrawal);
      AbsorbKeepsAdmitted(ApplyCapitalEvent(cs, e).value, pending, next + 1, at);
    }
  }

  lemma StepKeepsAdmitted(s: Setup, pending: seq<CapitalEvent>, r: Run, bar: Bar)
    requires PositiveAmounts(pending) && AllAdmit(r.cohorts) && StepBar(s, pending, r, bar).Ok?
    ensures AllAdmit(StepBar(s, pending, r, bar).value.cohorts)
  {
    hide Absorb, Decide, Drain, Cash, AllAdmit, PositiveAmounts, Marked, Skipped, Acquired, Cost, CostRate;
    AbsorbKeepsAdmitted(r.cohorts, pending, r.nextEvent, bar.at);
    var cohorts := Absorb(r.cohorts, pending, r.nextEvent, bar.at).value.0;
    var d := Decide(s, cohorts, r.lastTradeDate, bar).value;
    if d.Buy? {
      DrainKeepsAdmitted(cohorts, d.amount, Purchase);
    }
  }

  lemma {:induction false} RunKeepsAdmitted(s: Setup, pending: seq<CapitalEvent>, bars: seq<Bar>)
    requires PositiveAmounts(pending) && RunBars(s, pending, bars).Ok?
    ensures AllAdmit(RunBars(s, pending, bars).value.cohorts)
  {
    hide StepBar;
    if bars != [] {
      RunKeepsAdmitted(s, pending, bars[..|bars| - 1]);
      StepKeepsAdmitted(s, pending, RunBars(s, pending, bars[..|bars| - 1]).value, bars[|bars| - 1]);
    }
  }

  /** A cohort row shows the cohort's amounts, and so its account balances up to four roundings. */
  ghost predicate ShowsCohort(row: CohortRow, c: Cohort) {
    && row.eventId == c.eventId && c.admitted > 0.0
    && Near(row.admitted, c.admitted, 8) && Near(row.invested, c.invested, 8)
    && Near(row.withdrawn, c.withdrawn, 8) && Near(row.remaining, c.cash, 8)
    && Near(row.utilization, c.invested / c.admitted, 8)
    && -2.0 * DUST <= row.admitted - row.invested - row.withdrawn - row.remaining <= 2.0 * DUST
  }

  lemma RowShowsCohort(c: Cohort)
    requires CohortOk(c) && c.admitted > 0.0
    ensures ShowsCohort(RowOf(c), c)
  {
    RoundedIsNear(c.admitted, 8);
    RoundedIsNear(c.invested, 8);
    RoundedIsNear(c.withdrawn, 8);
    RoundedIsNear(c.cash, 8);
    RoundedIsNear(c.invested / c.admitted, 8);
    hide Rounded, Near;
    NearDust(Rounded(c.admitted, 8), c.admitted);
    NearDust(Rounded(c.invested, 8), c.invested);
    NearDust(Rounded(c.withdrawn, 8), c.withdrawn);
    NearDust(Rounded(c.cash, 8), c.cash);
  }

  lemma NearDust(shown: real, x: real)
    requires Near(shown, x, 8)
    ensures -DUST <= 2.0 * (shown - x) <= DUST
  {
    KnownPowers();
    hide Pow10, IsWhole;
  }

  lemma {:induction false} RowsShowCohorts(cs: seq<Cohort>)
    requires AllOk(cs) && AllAdmit(cs)
    ensures CohortRows(cs).Ok? && |CohortRows(cs).value| == |cs|
    ensures forall i | 0 <= i < |cs| :: ShowsCohort(CohortRows(cs).value[i], cs[i])
  {
    hide RowOf, ShowsCohort, CohortOk;
    if cs != [] {
      assert cs[|cs| - 1] in cs && forall c :: c in cs[..|cs| - 1] ==> c in cs;
      RowsShowCohorts(cs[..|cs| - 1]);
      RowShowsCohort(cs[|cs| - 1]);
    }
  }

  ghost predicate ShowsTrade(row: Trade, t: Trade) {
    && row.at == t.at && row.price == t.price
    && Near(row.spend, t.spend, 8) && Near(row.units, t.units, 10)
    && Near(row.multiplier, t.multiplier, 6) && Near(row.score, t.score, 6)
  }

  lemma RowShowsTrade(t: Trade)
    ensures ShowsTrade(TradeRow(t), t)
  {
    RoundedIsNear(t.spend, 8);
    RoundedIsNear(t.units, 10);
    RoundedIsNear(t.multiplier, 6);
    RoundedIsNear(t.score, 6);
  }

  lemma {:induction false} RowsShowTrades(trades: seq<Trade>)
    ensures |TradeRows(trades)| == |trades|
    ensures forall i | 0 <= i < |trades| :: ShowsTrade(TradeRows(trades)[i], trades[i])
  {
    hide TradeRow, ShowsTrade;
    if trades != [] {
      RowsShowTrades(trades[..|trades| - 1]);
      RowShowsTrade(trades[|trades| - 1]);
    }
  }

  /** The reported totals: what the rounded spend, turnover and cost say of each other and of the rows. */
  ghost predicate ShowsRun(s: Summary, x: Input, r: Run) {
    && s.tradeCount == |s.trades| == |r.trades| && |s.cohorts| == |r.cohorts|
    && (forall i | 0 <= i < |r.cohorts| :: ShowsCohort(s.cohorts[i], r.cohorts[i]))
    && (forall i | 0 <= i < |r.trades| :: ShowsTrade(s.trades[i], r.trades[i]))
    && Near(s.invested, r.spend, 8) && s.turnover == s.invested && Near(s.cost, r.fees, 8)
    && Near(s.remainingCash, Cash(r.cohorts), 8) && Near(s.units, r.units, 10)
    && Near(s.maxDrawdown, r.report.drawdown, 8) && s.skipped == r.report.skipped
    && (s.vwap.None? <==> r.units == 0.0) && (s.vwap.Some? ==> Near(s.vwap.value, r.spend / r.units, 8))
    && (s.endingInventory.Some? <==>
          r.report.lastBar.Some?
          && DateOf(r.report.lastBar.value.at)
             == (if x.policy.horizon < DateOf(x.asOf) then x.policy.horizon else DateOf(x.asOf)))
    && (s.endingInventory.Some? ==> Near(s.endingInventory.value, Worth(r.units, r.report.lastBar.value.price), 8))
    && (s.status.InProgress? <==> x.asOf < (x.policy.horizon + 1) * DAY_NANOS)
    && (s.status.Infeasible? ==> Cash(r.cohorts) > DUST) && (s.status.Complete? ==> Cash(r.cohorts) <= DUST)
  }

  lemma ReportShowsRun(x: Input, r: Run)
    requires Accounts(r) && AllAdmit(r.cohorts)
    ensures Reported(x, r).Ok? && ShowsRun(Reported(x, r).value, x, r)
  {
    hide CohortRows, TradeRows, Rounded, Near, ShowsCohort, ShowsTrade, AllOk, AllAdmit, Cash, Invested, UnitsOf,
         WorthOf, DustOf;
    RowsShowCohorts(r.cohorts);
    RowsShowTrades(r.trades);
    RoundedIsNear(r.spend, 8);
    RoundedIsNear(r.fees, 8);
    RoundedIsNear(Cash(r.cohorts), 8);
    RoundedIsNear(r.units, 10);
    RoundedIsNear(r.report.drawdown, 8);
    if r.units != 0.0 {
      RoundedIsNear(r.spend / r.units, 8);
    }
    if r.report.lastBar.Some? {
      RoundedIsNear(Worth(r.units, r.report.lastBar.value.price), 8);
    }
  }

  /**
   * On positive amounts every backtest that completes also reports, and the report
   * shows it: each number within half a unit of its last place, a row for every
   * cohort whose account balances up to rounding, and a row for every trade.
   */
  lemma ReportIsFaithful(x: Input)
    requires PositiveAmounts(x.events) && Backtested(x).Ok?
    ensures Summarised(x).Ok? && ShowsRun(Summarised(x).value, x, Backtested(x).value)
  {
    hide RunBars, Sorted, UsableBy, BarsThrough, Absorb, Accounts, AllAdmit, PositiveAmounts, KnownBy, Reported,
         ShowsRun;
    var pending, bars := Sorted(UsableBy(x.events, x.asOf)), BarsThrough(x.bars, x.asOf, x.policy.horizon);
    BacktestBalances(x);
    PendingIsPositive(x.events, x.asOf);
    RunKeepsAdmitted(SetupOf(x), pending, bars);
    var r := RunBars(SetupOf(x), pending, bars).value;
    AbsorbKeepsAdmitted(r.cohorts, pending, r.nextEvent, EndOf(x.policy.horizon));
    ReportShowsRun(x, Backtested(x).value);
  }
}
