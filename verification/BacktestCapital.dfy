/** What a backtest does with the capital events: one cohort per deposit, and every withdrawal paid out to dust. */
module BacktestCapital {
  import opened Prelude
  import opened LedgerEvents
  import opened CohortLedgers
  import opened PointInTime
  import opened Backtest
  import opened BacktestAccounts
  import opened BacktestCausality
  import opened BacktestDiscipline

  /** What a cohort was admitted for. */
  datatype Admission = Admission(id: Id, amount: real)

  function AdmissionsOf(cs: seq<Cohort>): seq<Admission> {
    if cs == [] then [] else AdmissionsOf(cs[..|cs| - 1]) + [Admission(cs[|cs| - 1].eventId, cs[|cs| - 1].admitted)]
  }

  /** The deposits among some events, in their order. */
  function DepositsIn(es: seq<CapitalEvent>): seq<Admission> {
    if es == [] then []
    else
      var last := es[|es| - 1];
      DepositsIn(es[..|es| - 1]) + if last.kind.DepositKind? then [Admission(last.id, last.amount)] else []
  }

  /** What some events withdraw. */
  function WithdrawnBy(es: seq<CapitalEvent>): real {
    if es == [] then 0.0
    else
      var last := es[|es| - 1];
      WithdrawnBy(es[..|es| - 1]) + if last.kind.WithdrawalKind? then last.amount else 0.0
  }

  function WithdrawalCount(es: seq<CapitalEvent>): nat {
    if es == [] then 0
    else WithdrawalCount(es[..|es| - 1]) + if es[|es| - 1].kind.WithdrawalKind? then 1 else 0
  }

  /** The cohorts are the deposits, and have paid the withdrawals but for a piece of dust each. */
  ghost predicate Holds(cs: seq<Cohort>, es: seq<CapitalEvent>) {
    && AdmissionsOf(cs) == DepositsIn(es)
    && Withdrawn(cs) <= WithdrawnBy(es) <= Withdrawn(cs) + (WithdrawalCount(es) as real) * DUST
  }

  lemma {:induction false} AdmissionsFront(cs: seq<Cohort>)
    requires cs != []
    ensures AdmissionsOf(cs) == [Admission(cs[0].eventId, cs[0].admitted)] + AdmissionsOf(cs[1..])
  {
    if |cs| > 1 {
      AdmissionsFront(cs[..|cs| - 1]);
      assert cs[..|cs| - 1][1..] == cs[1..][..|cs| - 2];
    }
  }

  lemma {:induction false} DrainKeepsAdmissions(cs: seq<Cohort>, amount: real, purpose: Purpose)
    ensures AdmissionsOf(Drain(cs, amount, purpose).0) == AdmissionsOf(cs)
  {
    hide AdmissionsOf;
    if cs != [] {
      var used := Min(cs[0].cash, amount);
      var after := Drain(cs, amount, purpose).0;
      AdmissionsFront(cs);
      AdmissionsFront(after);
      if Negligible(amount - used) {
        assert after[1..] == cs[1..];
      } else {
        DrainKeepsAdmissions(cs[1..], amount - used, purpose);
        assert after[1..] == Drain(cs[1..], amount - used, purpose).0;
      }
    }
  }

  /** A deposit is always taken, and a withdrawal unless it exceeds the cash by more than dust. */
  lemma EventAppliesIff(cs: seq<Cohort>, e: CapitalEvent)
    ensures ApplyCapitalEvent(cs, e).Ok? <==> e.kind.DepositKind? || e.amount - Cash(cs) <= DUST
  {
    hide Drain, Cash;
  }

  lemma DepositHolds(cs: seq<Cohort>, es: seq<CapitalEvent>, e: CapitalEvent)
    requires Holds(cs, es) && e.kind.DepositKind?
    ensures Holds(Deposited(cs, e.id, e.amount), es + [e])
  {
    var next := Deposited(cs, e.id, e.amount);
    assert next[..|next| - 1] == cs && (es + [e])[..|es|] == es;
  }

  lemma WithdrawalHolds(cs: seq<Cohort>, es: seq<CapitalEvent>, e: CapitalEvent)
    requires Holds(cs, es) && AllOk(cs) && e.kind.WithdrawalKind? && e.amount > 0.0
    requires TakeFrom(cs, e.amount, Withdrawal).Ok?
    ensures Holds(TakeFrom(cs, e.amount, Withdrawal).value, es + [e])
  {
    hide Cash, AllOk, Drain;
    assert (es + [e])[..|es|] == es;
    TakeIsExactToDust(cs, e.amount, Withdrawal);
    DrainKeepsAdmissions(cs, e.amount, Withdrawal);
    assert (WithdrawalCount(es + [e]) as real) * DUST == (WithdrawalCount(es) as real) * DUST + DUST;
  }

  lemma EventHolds(cs: seq<Cohort>, es: seq<CapitalEvent>, e: CapitalEvent)
    requires Holds(cs, es) && AllOk(cs) && e.amount > 0.0 && ApplyCapitalEvent(cs, e).Ok?
    ensures Holds(ApplyCapitalEvent(cs, e).value, es + [e])
    ensures AllOk(ApplyCapitalEvent(cs, e).value)
  {
    hide Holds, TakeFrom, AllOk, Deposited;
    if e.kind.DepositKind? {
      DepositHolds(cs, es, e);
      DepositKeeps(cs, e.id, e.amount);
    } else {
      WithdrawalHolds(cs, es, e);
      TakeIsExactToDust(cs, e.amount, Withdrawal);
    }
  }

  /** Absorbing takes exactly the events usable by a time. */
  lemma {:induction false} AbsorbHolds(cs: seq<Cohort>, pending: seq<CapitalEvent>, next: nat, at: Time)
    requires PositiveAmounts(pending) && InTimeOrder(pending) && AllOk(cs)
    requires next <= |UsableBy(pending, at)| && next <= |pending| && Holds(cs, pending[..next])
    requires Absorb(cs, pending, next, at).Ok?
    ensures var (after, index) := Absorb(cs, pending, next, at).value;
            && index == |UsableBy(pending, at)| <= |pending| && pending[..index] == UsableBy(pending, at)
            && Holds(after, pending[..index]) && AllOk(after)
    decreases |pending| - next
  {
    hide Holds, AllOk, UsableBy, InTimeOrder, ApplyCapitalEvent;
    UsableIsPrefix(pending, at);
    if next < |pending| && pending[next].usableAt <= at {
      var e := pending[next];
      EventHolds(cs, pending[..next], e);
      assert pending[..next] + [e] == pending[..next + 1];
      AbsorbHolds(ApplyCapitalEvent(cs, e).value, pending, next + 1, at);
    }
  }

  lemma PurchaseHolds(e: Execution, r: Run, bar: Bar, d: Decision, es: seq<CapitalEvent>)
    requires Holds(r.cohorts, es) && AllOk(r.cohorts) && r.cohorts != [] && d.Buy? && Purchased(e, r, bar, d).Ok?
    ensures Holds(Purchased(e, r, bar, d).value.cohorts, es) && AllOk(Purchased(e, r, bar, d).value.cohorts)
    ensures Purchased(e, r, bar, d).value.nextEvent == r.nextEvent
  {
    hide Cash, AllOk, Drain, CostRate, Acquired, Cost, AdmissionsOf, DepositsIn, WithdrawnBy, WithdrawalCount;
    TakeIsExactToDust(r.cohorts, d.amount, Purchase);
    DrainKeepsAdmissions(r.cohorts, d.amount, Purchase);
  }

  /** The cohorts a bar decides on. */
  ghost function AtBar(s: Setup, pending: seq<CapitalEvent>, r: Run, bar: Bar): seq<Cohort>
    requires StepBar(s, pending, r, bar).Ok?
  {
    Absorb(r.cohorts, pending, r.nextEvent, bar.at).value.0
  }

  lemma StepHolds(s: Setup, pending: seq<CapitalEvent>, r: Run, bar: Bar)
    requires PositiveAmounts(pending) && InTimeOrder(pending) && AllOk(r.cohorts)
    requires r.nextEvent <= |UsableBy(pending, bar.at)| && r.nextEvent <= |pending|
    requires Holds(r.cohorts, pending[..r.nextEvent]) && StepBar(s, pending, r, bar).Ok?
    ensures Holds(AtBar(s, pending, r, bar), UsableBy(pending, bar.at))
    ensures var next := StepBar(s, pending, r, bar).value;
            && next.nextEvent == |UsableBy(pending, bar.at)| <= |pending|
            && Holds(next.cohorts, pending[..next.nextEvent]) && AllOk(next.cohorts)
  {
    hide Absorb, Decide, Purchased, Holds, AllOk, InTimeOrder, PositiveAmounts, Marked, Skipped, UsableBy;
    UsableIsPrefix(pending, bar.at);
    AbsorbHolds(r.cohorts, pending, r.nextEvent, bar.at);
    var (cohorts, index) := Absorb(r.cohorts, pending, r.nextEvent, bar.at).value;
    var now := r.(cohorts := cohorts, nextEvent := index, report := Marked(r.report, r.units, bar));
    var d := Decide(s, cohorts, r.lastTradeDate, bar).value;
    if d.Buy? {
      BuyMeans(s, cohorts, r.lastTradeDate, bar);
      PurchaseHolds(s.execution, now, bar, d, pending[..index]);
    }
  }

  lemma {:induction false} MoreIsUsable(es: seq<CapitalEvent>, s: Time, t: Time)
    requires s <= t
    ensures |UsableBy(es, s)| <= |UsableBy(es, t)| <= |es|
  {
    if es != [] {
      MoreIsUsable(es[..|es| - 1], s, t);
    }
  }

  /** Over ordered bars, every bar decides on exactly the capital events usable by then. */
  lemma {:induction false} RunHolds(s: Setup, pending: seq<CapitalEvent>, bars: seq<Bar>)
    requires PositiveAmounts(pending) && InTimeOrder(pending) && BarsOrdered(bars) && RunBars(s, pending, bars).Ok?
    ensures var r := RunBars(s, pending, bars).value;
            && r.nextEvent == (if bars == [] then 0 else |UsableBy(pending, bars[|bars| - 1].at)|) <= |pending|
            && Holds(r.cohorts, pending[..r.nextEvent]) && AllOk(r.cohorts)
  {
    hide StepBar, Holds, AllOk, UsableBy, PositiveAmounts, InTimeOrder;
    if bars == [] {
      NothingHolds();
      assert pending[..0] == [];
    } else {
      var front, bar := bars[..|bars| - 1], bars[|bars| - 1];
      RunHolds(s, pending, front);
      var r := RunBars(s, pending, front).value;
      if front != [] {
        MoreIsUsable(pending, front[|front| - 1].at, bar.at);
      }
      StepHolds(s, pending, r, bar);
    }
  }

  lemma NothingHolds()
    ensures Holds([], []) && AllOk([])
  {
  }

  /** The capital events a backtest takes into account by a time. */
  function EventsBy(x: Input, t: Time): seq<CapitalEvent> {
    UsableBy(Sorted(UsableBy(x.events, x.asOf)), t)
  }

  /**
   * At every bar of a completed backtest on ordered bars and positive amounts, the
   * cohorts the bar decides on are exactly the deposits usable by then, in order and
   * at their amounts, and they have paid exactly the withdrawals usable by then, but
   * for at most a piece of dust each.
   */
  lemma BarsSeeUsableCapital(x: Input, n: nat)
    requires PositiveAmounts(x.events) && BarsOrdered(x.bars) && Backtested(x).Ok?
    requires n < |BarsThrough(x.bars, x.asOf, x.policy.horizon)|
    ensures var bars, pending := BarsThrough(x.bars, x.asOf, x.policy.horizon), Sorted(UsableBy(x.events, x.asOf));
            && RunBars(SetupOf(x), pending, bars).Ok?
            && StepBar(SetupOf(x), pending, RunTo(SetupOf(x), pending, bars, n), bars[n]).Ok?
            && Holds(AtBar(SetupOf(x), pending, RunTo(SetupOf(x), pending, bars, n), bars[n]),
                     EventsBy(x, bars[n].at))
  {
    var s, pending := SetupOf(x), Sorted(UsableBy(x.events, x.asOf));
    var bars := BarsThrough(x.bars, x.asOf, x.policy.horizon);
    ThroughIsPrefix(x.bars, x.asOf, x.policy.horizon);
    PendingIsPositive(x.events, x.asOf);
    SortedIsInTimeOrder(UsableBy(x.events, x.asOf));
    BarStands(s, pending, bars, n);
    OrderedPrefix(x.bars, bars);
    OrderedPrefix(bars, bars[..n]);
    hide Sorted, UsableBy, BarsThrough, RunBars, StepBar, Holds, AllOk, PositiveAmounts, InTimeOrder, BarsOrdered,
         AtBar;
    RunHolds(s, pending, bars[..n]);
    NextSees(s, pending, bars, n);
  }

  lemma OrderedPrefix(bars: seq<Bar>, front: seq<Bar>)
    requires BarsOrdered(bars) && front <= bars
    ensures BarsOrdered(front)
  {
  }

  lemma BarStands(s: Setup, pending: seq<CapitalEvent>, bars: seq<Bar>, n: nat)
    requires n < |bars| && RunBars(s, pending, bars).Ok?
    ensures RunBars(s, pending, bars[..n]) == Ok(RunTo(s, pending, bars, n))
    ensures StepBar(s, pending, RunTo(s, pending, bars, n), bars[n]) == Ok(RunTo(s, pending, bars, n + 1))
  {
    RunsPrefix(s, pending, bars, n);
    RunsPrefix(s, pending, bars, n + 1);
    assert bars[..n + 1][..n] == bars[..n];
    hide StepBar;
  }

  lemma NextSees(s: Setup, pending: seq<CapitalEvent>, bars: seq<Bar>, n: nat)
    requires PositiveAmounts(pending) && InTimeOrder(pending) && BarsOrdered(bars) && n < |bars|
    requires RunBars(s, pending, bars).Ok? && StepBar(s, pending, RunTo(s, pending, bars, n), bars[n]).Ok?
    requires var r := RunTo(s, pending, bars, n);
             && r.nextEvent == (if n == 0 then 0 else |UsableBy(pending, bars[n - 1].at)|) <= |pending|
             && Holds(r.cohorts, pending[..r.nextEvent]) && AllOk(r.cohorts)
    ensures Holds(AtBar(s, pending, RunTo(s, pending, bars, n), bars[n]), UsableBy(pending, bars[n].at))
  {
    hide RunBars, StepBar, Holds, AllOk, PositiveAmounts, InTimeOrder, UsableBy, RunTo, AtBar;
    if n > 0 {
      MoreIsUsable(pending, bars[n - 1].at, bars[n].at);
    }
    StepHolds(s, pending, RunTo(s, pending, bars, n), bars[n]);
  }

  /**
   * And in the end they are the deposits usable by both the as-of time and the end
   * of the horizon, and have paid the withdrawals usable by then.
   */
  lemma CohortsAreDeposits(x: Input)
    requires PositiveAmounts(x.events) && BarsOrdered(x.bars) && Backtested(x).Ok?
    ensures Holds(Backtested(x).value.cohorts, EventsBy(x, EndOf(x.policy.horizon)))
    ensures EventsBy(x, EndOf(x.policy.horizon))
         == Sorted(UsableBy(x.events, if x.asOf < EndOf(x.policy.horizon) then x.asOf else EndOf(x.policy.horizon)))
  {
    var s, pending := SetupOf(x), Sorted(UsableBy(x.events, x.asOf));
    var bars := BarsThrough(x.bars, x.asOf, x.policy.horizon);
    var end := EndOf(x.policy.horizon);
    ThroughIsPrefix(x.bars, x.asOf, x.policy.horizon);
    PendingIsPositive(x.events, x.asOf);
    SortedIsInTimeOrder(UsableBy(x.events, x.asOf));
    OrderedPrefix(x.bars, bars);
    BarsEnd(x.bars, x.asOf, x.policy.horizon);
    SortedUsable(UsableBy(x.events, x.asOf), end);
    UsableByBoth(x.events, x.asOf, end);
    hide Sorted, UsableBy, BarsThrough, RunBars, Holds, AllOk, PositiveAmounts, InTimeOrder, BarsOrdered, EndOf;
    RunHolds(s, pending, bars);
    if bars != [] {
      MoreIsUsable(pending, bars[|bars| - 1].at, end);
    }
    var r := RunBars(s, pending, bars).value;
    AbsorbHolds(r.cohorts, pending, r.nextEvent, end);
  }

  lemma {:induction false} BarsEnd(bars: seq<Bar>, asOf: Time, horizon: Date)
    ensures forall bar :: bar in BarsThrough(bars, asOf, horizon) ==> bar.at <= EndOf(horizon)
  {
    if bars != [] && bars[0].at <= asOf && DateOf(bars[0].at) <= horizon {
      BarsEnd(bars[1..], asOf, horizon);
      WithinDate(bars[0].at, horizon);
      hide DateOf, EndOf;
    }
  }

  /** The end of a date is its last instant. */
  lemma EndIsLast(date: Date)
    ensures DateOf(EndOf(date)) == date && DateOf(EndOf(date) + 1) == date + 1
  {
  }

  lemma WithinDate(at: Time, date: Date)
    requires DateOf(at) <= date
    ensures at <= EndOf(date)
  {
  }

  lemma {:induction false} UsableByBoth(es: seq<CapitalEvent>, s: Time, t: Time)
    ensures UsableBy(UsableBy(es, s), t) == UsableBy(es, if s < t then s else t)
  {
    if es != [] {
      UsableByBoth(es[..|es| - 1], s, t);
      UsableBySnoc(UsableBy(es[..|es| - 1], s), es[|es| - 1], t);
    }
  }
}
