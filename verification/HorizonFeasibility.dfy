/**
 * Deadline schedulability of residual capital. A pace test compares, horizon by
 * horizon, everything due by then with what the remaining purchase slots can
 * take; the question here is when that test is exact.
 */
module HorizonFeasibility {
  import opened Prelude
  import opened LedgerEvents

  datatype Limits = Limits(weekdays: set<int>, finalCatchUpDays: nat, maxDaily: u64)

  /** Capital that has to be spent by a date. */
  datatype Residual = Residual(horizon: Date, amount: nat)

  /** Whether day `start + k` is a purchase day towards the horizon: scheduled, or in its final catch-up days. */
  predicate Eligible(l: Limits, start: Date, horizon: Date, k: nat) {
    && start + k <= horizon
    && (horizon - start + 1 - k <= l.finalCatchUpDays || Weekday(start + k) in l.weekdays)
  }

  /** The number of days from the start through the horizon. */
  function Span(start: Date, horizon: Date): nat {
    if horizon < start then 0 else horizon - start + 1
  }

  function CountTo(l: Limits, start: Date, horizon: Date, n: nat): nat {
    if n == 0 then 0
    else CountTo(l, start, horizon, n - 1) + if Eligible(l, start, horizon, n - 1) then 1 else 0
  }

  /** Remaining purchase slots. */
  function Slots(l: Limits, start: Date, horizon: Date): nat {
    CountTo(l, start, horizon, Span(start, horizon))
  }

  /** Everything due by the first `m` horizons. */
  function Due(rs: seq<Residual>, m: nat): nat
    requires m <= |rs|
  {
    if m == 0 then 0 else Due(rs, m - 1) + rs[m - 1].amount
  }

  /** The horizon the pace test calls infeasible: no slot is left, or the slots cannot take what is due. */
  predicate Flagged(l: Limits, start: Date, rs: seq<Residual>, i: nat)
    requires i < |rs|
  {
    var slots := Slots(l, start, rs[i].horizon);
    slots == 0 || Due(rs, i + 1) > slots * l.maxDaily
  }

  predicate NoneFlagged(l: Limits, start: Date, rs: seq<Residual>) {
    forall i | 0 <= i < |rs| :: !Flagged(l, start, rs, i)
  }

  /** How much a plan pays on day `start + k` towards horizon number `i`. */
  type Plan = (nat, nat) -> nat

  ghost function DaySpend(pay: Plan, k: nat, m: nat): nat {
    if m == 0 then 0 else DaySpend(pay, k, m - 1) + pay(k, m - 1)
  }

  ghost function Paid(pay: Plan, i: nat, n: nat): nat {
    if n == 0 then 0 else Paid(pay, i, n - 1) + pay(n - 1, i)
  }

  ghost function Total(pay: Plan, n: nat, m: nat): nat {
    if n == 0 then 0 else Total(pay, n - 1, m) + DaySpend(pay, n - 1, m)
  }

  /** The plan pays only on eligible days, at most the daily cap a day, and meets the first `m` horizons in full. */
  ghost predicate Meets(pay: Plan, l: Limits, start: Date, rs: seq<Residual>, m: nat)
    requires m <= |rs|
  {
    && (forall k: nat, i: nat :: i < m && pay(k, i) > 0 ==> Eligible(l, start, rs[i].horizon, k))
    && (forall k: nat :: DaySpend(pay, k, m) <= l.maxDaily)
    && (forall i: nat :: i < m ==> Paid(pay, i, Span(start, rs[i].horizon)) == rs[i].amount)
  }

  ghost predicate Schedulable(l: Limits, start: Date, rs: seq<Residual>) {
    exists pay: Plan :: Meets(pay, l, start, rs, |rs|)
  }

  /** A day on which a purchase towards a horizon is due: a scheduled weekday, or one of its last days. */
  predicate PurchaseDay(l: Limits, horizon: Date, date: Date) {
    date <= horizon && (horizon - date < l.finalCatchUpDays || Weekday(date) in l.weekdays)
  }

  /** The purchase days towards a horizon that are left; a decided day takes no further purchase. */
  ghost function DaysLeft(l: Limits, observed: Date, todayDecided: bool, horizon: Date): set<Date> {
    set d | observed <= d <= horizon && PurchaseDay(l, horizon, d) && !(todayDecided && d == observed)
  }

  /** The first purchase days towards a horizon from a date on. */
  ghost function DaysTo(l: Limits, start: Date, horizon: Date, n: nat): set<Date> {
    set d | start <= d < start + n && PurchaseDay(l, horizon, d)
  }

  lemma {:induction false} CountIsDays(l: Limits, start: Date, horizon: Date, n: nat)
    ensures CountTo(l, start, horizon, n) == |DaysTo(l, start, horizon, n)|
  {
    hide Weekday;
    if n == 0 {
      assert DaysTo(l, start, horizon, 0) == {};
    } else {
      CountIsDays(l, start, horizon, n - 1);
      var before, day := DaysTo(l, start, horizon, n - 1), start + n - 1;
      assert Eligible(l, start, horizon, n - 1) <==> PurchaseDay(l, horizon, day);
      assert DaysTo(l, start, horizon, n) == before + if PurchaseDay(l, horizon, day) then {day} else {};
    }
  }

  /** The slots are the days left, counted from the first one that can take a purchase. */
  lemma SlotsAreDaysLeft(l: Limits, observed: Date, todayDecided: bool, horizon: Date)
    ensures Slots(l, if todayDecided then observed + 1 else observed, horizon)
         == |DaysLeft(l, observed, todayDecided, horizon)|
  {
    var start := if todayDecided then observed + 1 else observed;
    var n := Span(start, horizon);
    CountIsDays(l, start, horizon, n);
    hide Weekday;
    assert DaysTo(l, start, horizon, n) == DaysLeft(l, observed, todayDecided, horizon);
  }

  /** A plan from the observed day on meets all residuals, and a decided day takes no payment. */
  ghost predicate CanBeSpent(l: Limits, observed: Date, todayDecided: bool, rs: seq<Residual>) {
    exists pay: Plan ::
      Meets(pay, l, observed, rs, |rs|) && (todayDecided ==> forall i: nat :: i < |rs| ==> pay(0, i) == 0)
  }

  lemma {:induction false} ShiftedDay(pay: Plan, later: Plan, k: nat, m: nat)
    requires forall k: nat, i: nat :: i < m ==> later(k, i) == pay(k + 1, i)
    ensures DaySpend(later, k, m) == DaySpend(pay, k + 1, m)
  {
    if m > 0 {
      ShiftedDay(pay, later, k, m - 1);
    }
  }

  lemma {:induction false} ShiftedPaid(pay: Plan, later: Plan, i: nat, n: nat)
    requires forall k: nat :: later(k, i) == pay(k + 1, i)
    requires pay(0, i) == 0
    ensures Paid(later, i, n) == Paid(pay, i, n + 1)
  {
    if n > 0 {
      ShiftedPaid(pay, later, i, n - 1);
    } else {
      assert Paid(pay, i, 1) == Paid(pay, i, 0) + pay(0, i);
    }
  }

  lemma {:induction false} EmptyDay(pay: Plan, k: nat, m: nat)
    requires forall i: nat :: i < m ==> pay(k, i) == 0
    ensures DaySpend(pay, k, m) == 0
  {
    if m > 0 {
      EmptyDay(pay, k, m - 1);
    }
  }

  /** A plan that starts a day later is a plan that pays nothing on the first day. */
  lemma ShiftedMeets(pay: Plan, later: Plan, l: Limits, observed: Date, rs: seq<Residual>)
    requires forall k: nat, i: nat :: i < |rs| ==> later(k, i) == pay(k + 1, i)
    requires forall i: nat :: i < |rs| ==> pay(0, i) == 0
    ensures Meets(pay, l, observed, rs, |rs|) <==> Meets(later, l, observed + 1, rs, |rs|)
  {
    hide Weekday;
    EmptyDay(pay, 0, |rs|);
    forall k: nat
      ensures DaySpend(later, k, |rs|) == DaySpend(pay, k + 1, |rs|)
    {
      ShiftedDay(pay, later, k, |rs|);
    }
    forall i: nat | i < |rs|
      ensures Paid(later, i, Span(observed + 1, rs[i].horizon)) == Paid(pay, i, Span(observed, rs[i].horizon))
    {
      ShiftedPaid(pay, later, i, Span(observed + 1, rs[i].horizon));
    }
    hide Eligible, DaySpend, Paid, Span;
    if Meets(later, l, observed + 1, rs, |rs|) {
      PaysFromLater(pay, later, l, observed, rs);
    }
    if Meets(pay, l, observed, rs, |rs|) {
      PaysFromFirst(pay, later, l, observed, rs);
    }
  }

  lemma PaysFromLater(pay: Plan, later: Plan, l: Limits, observed: Date, rs: seq<Residual>)
    requires forall k: nat, i: nat :: i < |rs| ==> later(k, i) == pay(k + 1, i)
    requires forall i: nat :: i < |rs| ==> pay(0, i) == 0
    requires DaySpend(pay, 0, |rs|) == 0
    requires forall k: nat :: DaySpend(later, k, |rs|) == DaySpend(pay, k + 1, |rs|)
    requires forall i: nat :: i < |rs| ==>
               Paid(later, i, Span(observed + 1, rs[i].horizon)) == Paid(pay, i, Span(observed, rs[i].horizon))
    requires Meets(later, l, observed + 1, rs, |rs|)
    ensures Meets(pay, l, observed, rs, |rs|)
  {
    hide Eligible, DaySpend, Paid, Span;
    forall k: nat, i: nat | i < |rs| && pay(k, i) > 0
      ensures Eligible(l, observed, rs[i].horizon, k)
    {
      assert later(k - 1, i) == pay(k - 1 + 1, i);
      EligibleLater(l, observed, rs[i].horizon, k - 1);
    }
    forall k: nat
      ensures DaySpend(pay, k, |rs|) <= l.maxDaily
    {
      if k > 0 {
        assert DaySpend(later, k - 1, |rs|) == DaySpend(pay, k - 1 + 1, |rs|);
      }
    }
  }

  lemma PaysFromFirst(pay: Plan, later: Plan, l: Limits, observed: Date, rs: seq<Residual>)
    requires forall k: nat, i: nat :: i < |rs| ==> later(k, i) == pay(k + 1, i)
    requires forall k: nat :: DaySpend(later, k, |rs|) == DaySpend(pay, k + 1, |rs|)
    requires forall i: nat :: i < |rs| ==>
               Paid(later, i, Span(observed + 1, rs[i].horizon)) == Paid(pay, i, Span(observed, rs[i].horizon))
    requires Meets(pay, l, observed, rs, |rs|)
    ensures Meets(later, l, observed + 1, rs, |rs|)
  {
    hide Eligible, DaySpend, Paid, Span;
    forall k: nat, i: nat | i < |rs| && later(k, i) > 0
      ensures Eligible(l, observed + 1, rs[i].horizon, k)
    {
      assert pay(k + 1, i) > 0;
      EligibleLater(l, observed, rs[i].horizon, k);
    }
  }

  lemma EligibleLater(l: Limits, observed: Date, horizon: Date, k: nat)
    ensures Eligible(l, observed + 1, horizon, k) == Eligible(l, observed, horizon, k + 1)
  {
  }

  /** What can be spent from the observed day on is what is schedulable from the first day that is left. */
  lemma SpentIsScheduled(l: Limits, observed: Date, todayDecided: bool, rs: seq<Residual>)
    ensures CanBeSpent(l, observed, todayDecided, rs)
       <==> Schedulable(l, if todayDecided then observed + 1 else observed, rs)
  {
    hide Meets;
    var next := observed + 1;
    if todayDecided {
      if pay: Plan :| Meets(pay, l, observed, rs, |rs|) && forall i: nat :: i < |rs| ==> pay(0, i) == 0 {
        var later: Plan := (k: nat, i: nat) => pay(k + 1, i);
        ShiftedMeets(pay, later, l, observed, rs);
      }
      if later: Plan :| Meets(later, l, next, rs, |rs|) {
        var pay: Plan := (k: nat, i: nat) => if k == 0 then 0 else later(k - 1, i);
        ShiftedMeets(pay, later, l, observed, rs);
      }
    }
  }

  lemma {:induction false} SwapSums(pay: Plan, n: nat, m: nat)
    requires m > 0
    ensures Total(pay, n, m) == Total(pay, n, m - 1) + Paid(pay, m - 1, n)
  {
    if n > 0 {
      SwapSums(pay, n - 1, m);
    }
  }

  lemma {:induction false} NothingSpent(pay: Plan, n: nat)
    ensures Total(pay, n, 0) == 0
  {
    if n > 0 {
      NothingSpent(pay, n - 1);
    }
  }

  /** Payments towards a horizon end with it. */
  lemma {:induction false} PaidByHorizon(pay: Plan, l: Limits, start: Date, rs: seq<Residual>, m: nat, i: nat, n: nat)
    requires i < m <= |rs| && Meets(pay, l, start, rs, m)
    ensures Paid(pay, i, n) <= rs[i].amount
    ensures n >= Span(start, rs[i].horizon) ==> Paid(pay, i, n) == rs[i].amount
    decreases if n >= Span(start, rs[i].horizon) then n else Span(start, rs[i].horizon) - n, n
  {
    var span := Span(start, rs[i].horizon);
    if n > span {
      PaidByHorizon(pay, l, start, rs, m, i, n - 1);
      assert !Eligible(l, start, rs[i].horizon, n - 1);
    } else if n < span {
      PaidGrows(pay, i, n, span);
    }
  }

  lemma {:induction false} PaidGrows(pay: Plan, i: nat, a: nat, b: nat)
    requires a <= b
    ensures Paid(pay, i, a) <= Paid(pay, i, b)
  {
    if a < b {
      PaidGrows(pay, i, a, b - 1);
    }
  }

  /** All that a plan spends on the first days is at most what is due, and all of it once the horizons lie behind. */
  lemma {:induction false} TotalIsDue(pay: Plan, l: Limits, start: Date, rs: seq<Residual>, m: nat, n: nat, j: nat)
    requires j <= m <= |rs| && Meets(pay, l, start, rs, m)
    ensures Total(pay, n, j) <= Due(rs, j)
    ensures (forall i: nat :: i < j ==> Span(start, rs[i].horizon) <= n) ==> Total(pay, n, j) == Due(rs, j)
  {
    hide Meets;
    if j == 0 {
      NothingSpent(pay, n);
    } else {
      TotalIsDue(pay, l, start, rs, m, n, j - 1);
      SwapSums(pay, n, j);
      PaidByHorizon(pay, l, start, rs, m, j - 1, n);
    }
  }

  /** What horizon `m` could still be paid on the first `n` days. */
  ghost function Spare(pay: Plan, l: Limits, start: Date, horizon: Date, m: nat, n: nat): int {
    if n == 0 then 0
    else Spare(pay, l, start, horizon, m, n - 1)
         + if Eligible(l, start, horizon, n - 1) then l.maxDaily - DaySpend(pay, n - 1, m) else 0
  }

  lemma OneMore(count: nat, cap: nat)
    ensures (count + 1) * cap == count * cap + cap
  {
  }

  lemma {:induction false} SpareIsEnough(pay: Plan, l: Limits, start: Date, horizon: Date, m: nat, n: nat)
    ensures Spare(pay, l, start, horizon, m, n) >= CountTo(l, start, horizon, n) * l.maxDaily - Total(pay, n, m)
  {
    hide Eligible, DaySpend;
    if n > 0 {
      SpareIsEnough(pay, l, start, horizon, m, n - 1);
      OneMore(CountTo(l, start, horizon, n - 1), l.maxDaily);
    }
  }

  lemma {:induction false} SpareGrows(pay: Plan, l: Limits, start: Date, horizon: Date, m: nat, a: nat, b: nat)
    requires a <= b && forall k: nat :: DaySpend(pay, k, m) <= l.maxDaily
    ensures 0 <= Spare(pay, l, start, horizon, m, a) <= Spare(pay, l, start, horizon, m, b)
    decreases b
  {
    if a < b {
      SpareGrows(pay, l, start, horizon, m, a, b - 1);
    } else if a > 0 {
      SpareGrows(pay, l, start, horizon, m, a - 1, a - 1);
    }
  }

  /** The plan that pays the next horizon as early as its eligible days have room. */
  ghost function Extend(pay: Plan, l: Limits, start: Date, r: Residual, m: nat): Plan
    requires forall k: nat :: DaySpend(pay, k, m) <= l.maxDaily
  {
    (k: nat, i: nat) =>
      if i != m then pay(k, i)
      else
        var a := Spare(pay, l, start, r.horizon, m, k);
        var b := Spare(pay, l, start, r.horizon, m, k + 1);
        if a >= r.amount || b <= a then 0 else if b <= r.amount then b - a else r.amount - a
  }

  lemma {:induction false} ExtendKeepsDays(pay: Plan, l: Limits, start: Date, r: Residual, m: nat, k: nat, j: nat)
    requires j <= m && forall k: nat :: DaySpend(pay, k, m) <= l.maxDaily
    ensures DaySpend(Extend(pay, l, start, r, m), k, j) == DaySpend(pay, k, j)
  {
    if j > 0 {
      ExtendKeepsDays(pay, l, start, r, m, k, j - 1);
    }
  }

  lemma {:induction false} ExtendKeepsPaid(pay: Plan, l: Limits, start: Date, r: Residual, m: nat, i: nat, n: nat)
    requires i != m && forall k: nat :: DaySpend(pay, k, m) <= l.maxDaily
    ensures Paid(Extend(pay, l, start, r, m), i, n) == Paid(pay, i, n)
  {
    if n > 0 {
      ExtendKeepsPaid(pay, l, start, r, m, i, n - 1);
    }
  }

  lemma {:induction false} ExtendPays(pay: Plan, l: Limits, start: Date, r: Residual, m: nat, n: nat)
    requires forall k: nat :: DaySpend(pay, k, m) <= l.maxDaily
    ensures var spare := Spare(pay, l, start, r.horizon, m, n);
            Paid(Extend(pay, l, start, r, m), m, n) == if spare <= r.amount then spare else r.amount
  {
    SpareGrows(pay, l, start, r.horizon, m, n, n);
    if n > 0 {
      ExtendPays(pay, l, start, r, m, n - 1);
      SpareGrows(pay, l, start, r.horizon, m, n - 1, n);
    }
  }

  /** The eligible days of the next horizon have room for all of it. */
  lemma RoomForOneMore(pay: Plan, l: Limits, start: Date, rs: seq<Residual>, m: nat)
    requires m < |rs| && Meets(pay, l, start, rs, m)
    requires Due(rs, m + 1) <= Slots(l, start, rs[m].horizon) * l.maxDaily
    ensures Spare(pay, l, start, rs[m].horizon, m, Span(start, rs[m].horizon)) >= rs[m].amount
  {
    var span := Span(start, rs[m].horizon);
    hide Meets;
    TotalIsDue(pay, l, start, rs, m, span, m);
    SpareIsEnough(pay, l, start, rs[m].horizon, m, span);
    hide Spare, CountTo, Total, Span;
  }

  lemma ExtendDay(pay: Plan, l: Limits, start: Date, r: Residual, m: nat, k: nat)
    requires forall k: nat :: DaySpend(pay, k, m) <= l.maxDaily
    ensures DaySpend(Extend(pay, l, start, r, m), k, m + 1) <= l.maxDaily
    ensures Extend(pay, l, start, r, m)(k, m) > 0 ==> Eligible(l, start, r.horizon, k)
  {
    hide Eligible;
    ExtendKeepsDays(pay, l, start, r, m, k, m);
    SpareGrows(pay, l, start, r.horizon, m, 0, k);
    assert Spare(pay, l, start, r.horizon, m, k + 1)
        == Spare(pay, l, start, r.horizon, m, k)
           + if Eligible(l, start, r.horizon, k) then l.maxDaily - DaySpend(pay, k, m) else 0;
  }

  /** Serving one more horizon, whatever days the earlier ones were served on. */
  lemma OneMoreHorizon(pay: Plan, l: Limits, start: Date, rs: seq<Residual>, m: nat)
    requires m < |rs| && Meets(pay, l, start, rs, m)
    requires Due(rs, m + 1) <= Slots(l, start, rs[m].horizon) * l.maxDaily
    ensures Meets(Extend(pay, l, start, rs[m], m), l, start, rs, m + 1)
  {
    var r, next := rs[m], Extend(pay, l, start, rs[m], m);
    RoomForOneMore(pay, l, start, rs, m);
    assert forall k: nat, i: nat :: i < m ==> next(k, i) == pay(k, i);
    hide Spare, Slots, Due, Span, Paid, DaySpend, Eligible, Extend;
    ExtendPays(pay, l, start, r, m, Span(start, r.horizon));
    forall i: nat | i < m
      ensures Paid(next, i, Span(start, rs[i].horizon)) == rs[i].amount
    {
      ExtendKeepsPaid(pay, l, start, r, m, i, Span(start, rs[i].horizon));
    }
    forall k: nat
      ensures DaySpend(next, k, m + 1) <= l.maxDaily
      ensures next(k, m) > 0 ==> Eligible(l, start, r.horizon, k)
    {
      ExtendDay(pay, l, start, r, m, k);
    }
  }

  lemma {:induction false} Serve(l: Limits, start: Date, rs: seq<Residual>, m: nat) returns (pay: Plan)
    requires m <= |rs|
    requires forall i: nat :: i < m ==> Due(rs, i + 1) <= Slots(l, start, rs[i].horizon) * l.maxDaily
    ensures Meets(pay, l, start, rs, m)
  {
    if m == 0 {
      pay := (k: nat, i: nat) => 0;
    } else {
      pay := Serve(l, start, rs, m - 1);
      hide Meets, Extend, Eligible;
      OneMoreHorizon(pay, l, start, rs, m - 1);
      pay := Extend(pay, l, start, rs[m - 1], m - 1);
    }
  }

  /** If no horizon is flagged there is a schedule, whatever the weekdays and catch-up days. */
  lemma UnflaggedIsSchedulable(l: Limits, start: Date, rs: seq<Residual>)
    requires NoneFlagged(l, start, rs)
    ensures Schedulable(l, start, rs)
  {
    forall i: nat | i < |rs|
      ensures Due(rs, i + 1) <= Slots(l, start, rs[i].horizon) * l.maxDaily
    {
      assert !Flagged(l, start, rs, i);
    }
    hide Meets, Due, Slots;
    var pay := Serve(l, start, rs, |rs|);
  }

  /** A day that serves a horizon serves every later one. */
  ghost predicate Nested(l: Limits, start: Date, rs: seq<Residual>) {
    forall j: nat, i: nat, k: nat ::
      j < i < |rs| && Eligible(l, start, rs[j].horizon, k) ==> Eligible(l, start, rs[i].horizon, k)
  }

  lemma PaidMeansEligible(pay: Plan, l: Limits, start: Date, rs: seq<Residual>, i: nat, k: nat, j: nat)
    requires j <= i < |rs| && Meets(pay, l, start, rs, |rs|) && Nested(l, start, rs)
    ensures pay(k, j) > 0 ==> Eligible(l, start, rs[i].horizon, k)
  {
  }

  lemma NoLaterPayments(pay: Plan, l: Limits, start: Date, rs: seq<Residual>, m: nat, k: nat, j: nat)
    requires 0 < j <= m <= |rs| && Meets(pay, l, start, rs, |rs|) && Nested(l, start, rs)
    requires !Eligible(l, start, rs[m - 1].horizon, k)
    ensures DaySpend(pay, k, j) == 0
  {
    PaidMeansEligible(pay, l, start, rs, m - 1, k, j - 1);
    hide Eligible, Nested, Meets;
    if j > 1 {
      NoLaterPayments(pay, l, start, rs, m, k, j - 1);
    }
  }

  lemma {:induction false} DayGrows(pay: Plan, k: nat, a: nat, b: nat)
    requires a <= b
    ensures DaySpend(pay, k, a) <= DaySpend(pay, k, b)
  {
    if a < b {
      DayGrows(pay, k, a, b - 1);
    }
  }

  lemma DayWithin(pay: Plan, l: Limits, start: Date, rs: seq<Residual>, m: nat, k: nat)
    requires 0 < m <= |rs| && Meets(pay, l, start, rs, |rs|) && Nested(l, start, rs)
    ensures DaySpend(pay, k, m) <= if Eligible(l, start, rs[m - 1].horizon, k) then l.maxDaily else 0
  {
    DayGrows(pay, k, m, |rs|);
    assert DaySpend(pay, k, |rs|) <= l.maxDaily;
    hide Meets, Nested, Eligible;
    if !Eligible(l, start, rs[m - 1].horizon, k) {
      NoLaterPayments(pay, l, start, rs, m, k, m);
    }
  }

  lemma {:induction false} SlotsTakeAll(pay: Plan, l: Limits, start: Date, rs: seq<Residual>, m: nat, n: nat)
    requires 0 < m <= |rs| && Meets(pay, l, start, rs, |rs|) && Nested(l, start, rs)
    ensures Total(pay, n, m) <= CountTo(l, start, rs[m - 1].horizon, n) * l.maxDaily
  {
    hide Meets, Nested, Eligible, DaySpend;
    if n > 0 {
      SlotsTakeAll(pay, l, start, rs, m, n - 1);
      DayWithin(pay, l, start, rs, m, n - 1);
      OneMore(CountTo(l, start, rs[m - 1].horizon, n - 1), l.maxDaily);
    }
  }

  ghost predicate Ascending(rs: seq<Residual>) {
    forall j, i | 0 <= j < i < |rs| :: rs[j].horizon < rs[i].horizon
  }

  /** With nested days, a schedule means that the slots take what is due by every horizon. */
  lemma SchedulableFits(l: Limits, start: Date, rs: seq<Residual>, i: nat)
    requires Ascending(rs) && Nested(l, start, rs) && Schedulable(l, start, rs) && i < |rs|
    ensures Due(rs, i + 1) <= Slots(l, start, rs[i].horizon) * l.maxDaily
  {
    var pay: Plan :| Meets(pay, l, start, rs, |rs|);
    var span := Span(start, rs[i].horizon);
    hide Meets, Nested, Eligible;
    assert forall j: nat :: j < i + 1 ==> Span(start, rs[j].horizon) <= span;
    TotalIsDue(pay, l, start, rs, |rs|, span, i + 1);
    SlotsTakeAll(pay, l, start, rs, i + 1, span);
  }

  ghost predicate AllPositive(rs: seq<Residual>) {
    forall r :: r in rs ==> r.amount > 0
  }

  lemma {:induction false} DueIsPositive(rs: seq<Residual>, m: nat)
    requires 0 < m <= |rs| && AllPositive(rs)
    ensures Due(rs, m) > 0
  {
    if m > 1 {
      DueIsPositive(rs, m - 1);
    }
    assert rs[m - 1] in rs;
  }

  /** With nested days and positive residuals, no horizon is flagged exactly when there is a schedule. */
  lemma PaceTestIsExact(l: Limits, start: Date, rs: seq<Residual>)
    requires Ascending(rs) && Nested(l, start, rs) && AllPositive(rs)
    ensures NoneFlagged(l, start, rs) <==> Schedulable(l, start, rs)
  {
    hide Nested, Schedulable, Ascending;
    if NoneFlagged(l, start, rs) {
      UnflaggedIsSchedulable(l, start, rs);
    }
    if Schedulable(l, start, rs) {
      forall i | 0 <= i < |rs|
        ensures !Flagged(l, start, rs, i)
      {
        SchedulableFits(l, start, rs, i);
        DueIsPositive(rs, i + 1);
      }
    }
  }

  /** Every day is a purchase day towards every horizon, or catch-up days are off: one set of purchase dates. */
  predicate OneCalendar(l: Limits) {
    l.finalCatchUpDays == 0 || forall d | 1 <= d <= 7 :: d in l.weekdays
  }

  lemma OneCalendarNests(l: Limits, start: Date, rs: seq<Residual>)
    requires OneCalendar(l) && Ascending(rs)
    ensures Nested(l, start, rs)
  {
    forall j: nat, i: nat, k: nat | j < i < |rs| && Eligible(l, start, rs[j].horizon, k)
      ensures Eligible(l, start, rs[i].horizon, k)
    {
      assert rs[j].horizon < rs[i].horizon;
      assert 1 <= Weekday(start + k) <= 7;
    }
  }

  /** The pace test tells exactly, for every table of residuals, whether they can still be spent in time. */
  ghost predicate ExactFor(l: Limits) {
    forall start: Date, rs: seq<Residual> | Ascending(rs) && AllPositive(rs) ::
      NoneFlagged(l, start, rs) <==> Schedulable(l, start, rs)
  }

  /** A catch-up day that is no scheduled weekday, and a later horizon that cannot use it. */
  function FalseAlarm(l: Limits, start: Date): seq<Residual> {
    var later := start + l.finalCatchUpDays;
    [Residual(start, 1), Residual(later, Slots(l, start, later) * l.maxDaily)]
  }

  lemma {:induction false} AllSlotsPaid(pay: Plan, l: Limits, start: Date, horizon: Date, n: nat)
    requires forall k: nat :: pay(k, 1) == if Eligible(l, start, horizon, k) then l.maxDaily else 0
    ensures Paid(pay, 1, n) == CountTo(l, start, horizon, n) * l.maxDaily
  {
    hide Eligible;
    if n > 0 {
      AllSlotsPaid(pay, l, start, horizon, n - 1);
      OneMore(CountTo(l, start, horizon, n - 1), l.maxDaily);
    }
  }

  lemma LaterHasSlots(l: Limits, start: Date)
    requires l.finalCatchUpDays > 0
    ensures Slots(l, start, start + l.finalCatchUpDays) > 0
  {
    assert Eligible(l, start, start + l.finalCatchUpDays, l.finalCatchUpDays);
  }

  /** Residuals that can be spent in time and are flagged all the same. */
  lemma FalseAlarmIsOne(l: Limits, start: Date)
    requires l.maxDaily > 0 && l.finalCatchUpDays > 0 && Weekday(start) !in l.weekdays
    ensures var rs := FalseAlarm(l, start);
            Ascending(rs) && AllPositive(rs) && Schedulable(l, start, rs) && Flagged(l, start, rs, 1)
  {
    var rs, later := FalseAlarm(l, start), start + l.finalCatchUpDays;
    LaterHasSlots(l, start);
    assert Slots(l, start, later) * l.maxDaily > 0;
    var pay: Plan := (k: nat, i: nat) =>
      if i == 0 then if k == 0 then 1 else 0
      else if i == 1 && Eligible(l, start, later, k) then l.maxDaily
      else 0;
    AllSlotsPaid(pay, l, start, later, Span(start, later));
    assert !Eligible(l, start, later, 0);
    assert Paid(pay, 0, 1) == 1;
    hide Slots, CountTo, Weekday;
    forall k: nat
      ensures DaySpend(pay, k, 2) <= l.maxDaily
    {
      assert DaySpend(pay, k, 2) == DaySpend(pay, k, 1) + pay(k, 1) == pay(k, 0) + pay(k, 1);
    }
    assert Meets(pay, l, start, rs, |rs|);
    assert Due(rs, 1) == 1;
  }

  /**
   * The pace test is exact if and only if catch-up days are off or every weekday
   * is a purchase day. Otherwise it may raise a false alarm, but never misses one.
   */
  lemma ExactIffOneCalendar(l: Limits)
    requires l.maxDaily > 0
    ensures ExactFor(l) <==> OneCalendar(l)
  {
    hide Schedulable, NoneFlagged, AllPositive;
    if OneCalendar(l) {
      forall start: Date, rs: seq<Residual> | Ascending(rs) && AllPositive(rs)
        ensures NoneFlagged(l, start, rs) <==> Schedulable(l, start, rs)
      {
        OneCalendarNests(l, start, rs);
        PaceTestIsExact(l, start, rs);
      }
    } else {
      var d :| 1 <= d <= 7 && d !in l.weekdays;
      assert Weekday(d - 4) == d;
      FalseAlarmIsOne(l, d - 4);
      FlaggedIsNotNone(l, d - 4, FalseAlarm(l, d - 4), 1);
      hide Ascending, FalseAlarm, Flagged;
      assert !(NoneFlagged(l, d - 4, FalseAlarm(l, d - 4)) <==> Schedulable(l, d - 4, FalseAlarm(l, d - 4)));
    }
  }

  lemma FlaggedIsNotNone(l: Limits, start: Date, rs: seq<Residual>, i: nat)
    requires i < |rs| && Flagged(l, start, rs, i)
    ensures !NoneFlagged(l, start, rs)
  {
  }
}
