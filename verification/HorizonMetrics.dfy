/** The horizon projection of a metrics snapshot, and the cross-check of its capital totals against the ledger. */
module HorizonMetrics {
  import opened Prelude
  import opened LedgerEvents
  import opened LedgerReplay
  import opened CapitalConservation
  import opened HorizonFeasibility

  datatype MetricsError = InconsistentCapitalState | Overflow

  /** One projected horizon; money is in micros. */
  datatype HorizonRow = HorizonRow(
    horizon: Date, daysRemaining: nat, slots: nat, residual: u64, requiredPace: Option<u64>, infeasible: bool)

  /** The residual of one deposit tranche. */
  datatype Tranche = Tranche(targetHorizon: Date, residual: u64)

  // The last date of the calendar, 31 December 262142.
  const LAST_DATE: Date := 95_026_236

  /** Tomorrow once today's purchase is decided, otherwise today. */
  function SlotStart(observed: Date, todayDecided: bool): Date {
    if todayDecided then observed + 1 else observed
  }

  /** Everything due by a date, over any table of residuals. */
  function DueBy(rs: seq<Residual>, date: Date): nat {
    if rs == [] then 0
    else DueBy(rs[..|rs| - 1], date) + if rs[|rs| - 1].horizon <= date then rs[|rs| - 1].amount else 0
  }

  function TranchesDueBy(ts: seq<Tranche>, date: Date): nat {
    if ts == [] then 0
    else TranchesDueBy(ts[..|ts| - 1], date) + if ts[|ts| - 1].targetHorizon <= date then ts[|ts| - 1].residual else 0
  }

  /** The residuals of all tranches with one target horizon. */
  function TranchesAt(ts: seq<Tranche>, date: Date): nat {
    if ts == [] then 0
    else TranchesAt(ts[..|ts| - 1], date) + if ts[|ts| - 1].targetHorizon == date then ts[|ts| - 1].residual else 0
  }

  function TranchesTotal(ts: seq<Tranche>): nat {
    if ts == [] then 0 else TranchesTotal(ts[..|ts| - 1]) + ts[|ts| - 1].residual
  }

  method RemainingPurchaseSlots(l: Limits, start: Date, horizon: Date) returns (slots: nat)
    ensures slots == Slots(l, start, horizon)
  {
    slots := 0;
    if start > horizon {
      return;
    }
    var totalDays := horizon - start + 1;
    for offset := 0 to totalDays
      invariant slots == CountTo(l, start, horizon, offset)
    {
      var catchUp := totalDays - offset <= l.finalCatchUpDays;
      if catchUp || Weekday(start + offset) in l.weekdays {
        slots := slots + 1;
      }
    }
  }

  /** The least amount that `slots` equal payments need to cover what is due. */
  function DivCeil(due: nat, slots: nat): (pace: nat)
    requires slots > 0
    ensures due <= pace * slots
    ensures pace > 0 ==> (pace - 1) * slots < due
    ensures pace <= due
  {
    var pace := (due + slots - 1) / slots;
    DivCeilBounds(due, slots, pace);
    pace
  }

  lemma DivCeilBounds(due: nat, slots: nat, pace: nat)
    requires slots > 0 && pace == (due + slots - 1) / slots
    ensures due <= pace * slots
    ensures pace > 0 ==> (pace - 1) * slots < due
    ensures pace <= due
  {
    var rest := (due + slots - 1) % slots;
    assert due + slots - 1 == pace * slots + rest;
    if pace > 0 {
      assert (pace - 1) * slots == pace * slots - slots;
      if pace > due {
        MulGrows(due, pace - 1, slots);
        assert false;
      }
    }
  }

  lemma MulGrows(a: nat, b: nat, c: nat)
    requires a <= b && c > 0
    ensures a <= a * c <= b * c
  {
  }

  /** A pace within the cap is the same as enough room in the slots. */
  lemma PaceWithinCap(due: nat, slots: nat, cap: nat)
    requires slots > 0
    ensures DivCeil(due, slots) <= cap <==> due <= slots * cap
  {
    var pace := DivCeil(due, slots);
    if pace <= cap {
      MulMonotone(pace, cap, slots);
    } else {
      MulMonotone(cap, pace - 1, slots);
    }
  }

  lemma MulMonotone(a: nat, b: nat, c: nat)
    requires a <= b
    ensures a * c <= b * c == c * b
  {
  }

  /** What a row shows: its days, the slots left, everything due by its date, and the least pace that spends it. */
  ghost predicate RowFor(
    row: HorizonRow, observed: Date, todayDecided: bool, l: Limits, rs: seq<Residual>, i: nat)
    requires i < |rs|
  {
    var slots, due := |DaysLeft(l, observed, todayDecided, rs[i].horizon)|, Due(rs, i + 1);
    && row.horizon == rs[i].horizon
    && row.daysRemaining == (if rs[i].horizon < observed then 0 else rs[i].horizon - observed + 1)
    && row.slots == slots && row.residual == due
    && (slots == 0 ==> row.requiredPace.None?)
    && (slots > 0 ==> row.requiredPace.Some? && IsLeastPace(row.requiredPace.value, due, slots))
    && row.infeasible == (slots == 0 || due > slots * l.maxDaily)
  }

  /** The least amount that `slots` equal payments need to cover what is due. */
  ghost predicate IsLeastPace(pace: nat, due: nat, slots: nat) {
    due <= pace * slots && (pace > 0 ==> (pace - 1) * slots < due)
  }

  /**
   * Projects every horizon. An unflagged projection always can be met; and when
   * every day is a purchase day or catch-up days are off, a projection that can be
   * met is never flagged.
   */
  method ProjectHorizons(observed: Date, todayDecided: bool, l: Limits, residuals: seq<Residual>)
    returns (r: Result<seq<HorizonRow>, MetricsError>)
    requires observed <= LAST_DATE && Ascending(residuals)
    requires forall x :: x in residuals ==> x.amount <= U64_MAX
    ensures r.Err? <==> (todayDecided && observed == LAST_DATE) || Due(residuals, |residuals|) > U64_MAX
    ensures r.Ok? ==> |r.value| == |residuals|
                      && forall i | 0 <= i < |residuals| ::
                           RowFor(r.value[i], observed, todayDecided, l, residuals, i)
    ensures r.Ok? && (forall row :: row in r.value ==> !row.infeasible) ==>
              CanBeSpent(l, observed, todayDecided, residuals)
    ensures r.Ok? && OneCalendar(l) && AllPositive(residuals) ==>
              ((forall row :: row in r.value ==> !row.infeasible)
               <==> CanBeSpent(l, observed, todayDecided, residuals))
  {
    hide Slots, Span, Schedulable, OneCalendar, AllPositive, Ascending, DaysLeft, CanBeSpent;
    if todayDecided && observed == LAST_DATE {
      return Err(Overflow);
    }
    var slotStart := SlotStart(observed, todayDecided);
    var cumulative: u64 := 0;
    var rows: seq<HorizonRow> := [];
    var i := 0;
    while i < |residuals|
      invariant 0 <= i <= |residuals|
      invariant cumulative == Due(residuals, i) && |rows| == i
      invariant forall j | 0 <= j < i :: RowFor(rows[j], observed, todayDecided, l, residuals, j)
    {
      var x := residuals[i];
      if cumulative + x.amount > U64_MAX {
        DueGrows(residuals, i + 1, |residuals|);
        return Err(Overflow);
      }
      cumulative := cumulative + x.amount;
      var daysRemaining := if x.horizon - observed + 1 < 0 then 0 else x.horizon - observed + 1;
      var slots := RemainingPurchaseSlots(l, slotStart, x.horizon);
      var required: Option<u64> := if slots > 0 then Some(DivCeil(cumulative, slots)) else None;
      var infeasible := required.None? || required.value > l.maxDaily;
      if slots > 0 {
        PaceWithinCap(cumulative, slots, l.maxDaily);
      }
      var row := HorizonRow(x.horizon, daysRemaining, slots, cumulative, required, infeasible);
      SlotsAreDaysLeft(l, observed, todayDecided, x.horizon);
      assert RowFor(row, observed, todayDecided, l, residuals, i);
      rows := rows + [row];
      i := i + 1;
    }
    RowsTellFlags(rows, observed, todayDecided, l, residuals);
    return Ok(rows);
  }

  lemma {:induction false} DueGrows(rs: seq<Residual>, a: nat, b: nat)
    requires a <= b <= |rs|
    ensures Due(rs, a) <= Due(rs, b)
  {
    if a < b {
      DueGrows(rs, a, b - 1);
    }
  }

  lemma RowsTellFlags(rows: seq<HorizonRow>, observed: Date, todayDecided: bool, l: Limits, rs: seq<Residual>)
    requires |rows| == |rs| && Ascending(rs)
    requires forall i | 0 <= i < |rs| :: RowFor(rows[i], observed, todayDecided, l, rs, i)
    ensures (forall row :: row in rows ==> !row.infeasible) ==> CanBeSpent(l, observed, todayDecided, rs)
    ensures OneCalendar(l) && AllPositive(rs) ==>
              ((forall row :: row in rows ==> !row.infeasible) <==> CanBeSpent(l, observed, todayDecided, rs))
  {
    hide Slots, Due, OneCalendar, AllPositive, Schedulable, Ascending, CanBeSpent, DaysLeft;
    var start := SlotStart(observed, todayDecided);
    SpentIsScheduled(l, observed, todayDecided, rs);
    assert (forall row :: row in rows ==> !row.infeasible) <==> NoneFlagged(l, start, rs) by {
      forall i | 0 <= i < |rs|
        ensures rows[i].infeasible == Flagged(l, start, rs, i) && rows[i] in rows
      {
        SlotsAreDaysLeft(l, observed, todayDecided, rs[i].horizon);
        assert RowFor(rows[i], observed, todayDecided, l, rs, i);
      }
    }
    if NoneFlagged(l, start, rs) {
      UnflaggedIsSchedulable(l, start, rs);
    }
    if OneCalendar(l) && AllPositive(rs) {
      OneCalendarNests(l, start, rs);
      PaceTestIsExact(l, start, rs);
    }
  }

  /** Adds a residual to a table kept in the order of its horizons. */
  function AddResidual(rs: seq<Residual>, horizon: Date, amount: nat): (next: seq<Residual>)
  {
    if rs == [] then [Residual(horizon, amount)]
    else
      var last := rs[|rs| - 1];
      if last.horizon < horizon then rs + [Residual(horizon, amount)]
      else if last.horizon == horizon then rs[..|rs| - 1] + [Residual(horizon, last.amount + amount)]
      else AddResidual(rs[..|rs| - 1], horizon, amount) + [last]
  }

  function AmountAt(rs: seq<Residual>, horizon: Date): nat {
    if rs == [] then 0
    else AmountAt(rs[..|rs| - 1], horizon) + if rs[|rs| - 1].horizon == horizon then rs[|rs| - 1].amount else 0
  }

  /** Adding to the table adds to what is due by every later date, and to nothing else. */
  lemma {:induction false} AddResidualAdds(rs: seq<Residual>, horizon: Date, amount: nat, date: Date)
    ensures DueBy(AddResidual(rs, horizon, amount), date) == DueBy(rs, date) + if horizon <= date then amount else 0
  {
    if rs != [] {
      var front, last := rs[..|rs| - 1], rs[|rs| - 1];
      var next := AddResidual(rs, horizon, amount);
      if last.horizon > horizon {
        AddResidualAdds(front, horizon, amount, date);
        assert next[..|next| - 1] == AddResidual(front, horizon, amount);
      } else if last.horizon == horizon {
        assert next[..|next| - 1] == front;
      } else {
        assert next[..|next| - 1] == rs;
      }
    }
  }

  function LastHorizon(rs: seq<Residual>, horizon: Date): Date {
    if rs == [] || rs[|rs| - 1].horizon < horizon then horizon else rs[|rs| - 1].horizon
  }

  /** The table stays in order. */
  lemma {:induction false} AddResidualAscends(rs: seq<Residual>, horizon: Date, amount: nat)
    requires Ascending(rs)
    ensures var next := AddResidual(rs, horizon, amount);
            Ascending(next) && next != [] && next[|next| - 1].horizon == LastHorizon(rs, horizon)
  {
    hide Ascending;
    if rs == [] {
      OneAscends(Residual(horizon, amount));
    } else {
      var front, last := rs[..|rs| - 1], rs[|rs| - 1];
      AscendingFront(rs);
      if last.horizon > horizon {
        AddResidualAscends(front, horizon, amount);
        AscendingSnoc(AddResidual(front, horizon, amount), last);
      } else if last.horizon == horizon {
        AscendingSnoc(front, Residual(horizon, last.amount + amount));
      } else {
        AscendingSnoc(rs, Residual(horizon, amount));
      }
    }
  }

  /** Only the entry of that horizon changes. */
  lemma {:induction false} AddResidualKeeps(rs: seq<Residual>, horizon: Date, amount: nat, x: Residual)
    requires Ascending(rs) && x in AddResidual(rs, horizon, amount)
    ensures x in rs || x == Residual(horizon, AmountAt(rs, horizon) + amount)
  {
    hide Ascending;
    NothingAt(rs, horizon);
    if rs == [] {
    } else {
      var front, last := rs[..|rs| - 1], rs[|rs| - 1];
      AscendingFront(rs);
      assert last in rs;
      if last.horizon > horizon {
        var inner := AddResidual(front, horizon, amount);
        assert x in inner || x == last;
        if x in inner {
          AddResidualKeeps(front, horizon, amount, x);
        }
      } else if last.horizon == horizon {
        NothingAt(front, horizon);
        assert x in front || x == Residual(horizon, last.amount + amount);
      } else {
        assert x in rs || x == Residual(horizon, amount);
      }
    }
  }

  lemma {:induction false} NothingAt(rs: seq<Residual>, horizon: Date)
    requires Ascending(rs)
    ensures rs == [] || rs[|rs| - 1].horizon < horizon ==> AmountAt(rs, horizon) == 0
  {
    if rs != [] && rs[|rs| - 1].horizon < horizon {
      NothingAt(rs[..|rs| - 1], horizon);
    }
  }

  lemma OneAscends(only: Residual)
    ensures Ascending([only])
  {
  }

  lemma AscendingFront(rs: seq<Residual>)
    requires Ascending(rs) && rs != []
    ensures var front, last := rs[..|rs| - 1], rs[|rs| - 1];
            Ascending(front) && (front == [] || front[|front| - 1].horizon < last.horizon)
  {
  }

  lemma AscendingSnoc(rs: seq<Residual>, last: Residual)
    requires Ascending(rs) && (rs == [] || rs[|rs| - 1].horizon < last.horizon)
    ensures Ascending(rs + [last])
  {
    assert forall j | 0 <= j < |rs| :: rs[j].horizon <= rs[|rs| - 1].horizon;
  }

  /** The amount of one horizon grows, every other stays, and so the whole table grows by it. */
  lemma {:induction false} AddResidualPuts(rs: seq<Residual>, horizon: Date, amount: nat, date: Date)
    ensures var next := AddResidual(rs, horizon, amount);
            && AmountAt(next, date) == AmountAt(rs, date) + (if date == horizon then amount else 0)
            && Due(next, |next|) == Due(rs, |rs|) + amount
  {
    var next := AddResidual(rs, horizon, amount);
    if rs != [] {
      var front, last := rs[..|rs| - 1], rs[|rs| - 1];
      DueOfFront(rs, |front|);
      DueOfFront(next, |next| - 1);
      if last.horizon > horizon {
        AddResidualPuts(front, horizon, amount, date);
        assert next[..|next| - 1] == AddResidual(front, horizon, amount);
      } else if last.horizon == horizon {
        assert next[..|next| - 1] == front;
      } else {
        assert next[..|next| - 1] == rs;
      }
    }
  }

  lemma {:induction false} DueOfFront(rs: seq<Residual>, m: nat)
    requires m < |rs|
    ensures Due(rs[..|rs| - 1], m) == Due(rs, m)
  {
    if m > 0 {
      DueOfFront(rs, m - 1);
    }
  }

  lemma {:induction false} TranchesAtGrows(ts: seq<Tranche>, n: nat, date: Date)
    requires n <= |ts|
    ensures TranchesAt(ts[..n], date) <= TranchesAt(ts, date) <= TranchesTotal(ts)
  {
    if n == |ts| {
      assert ts[..n] == ts;
      if ts != [] {
        TranchesAtGrows(ts[..n - 1], n - 1, date);
      }
    } else {
      TranchesAtGrows(ts[..|ts| - 1], n, date);
      assert ts[..|ts| - 1][..n] == ts[..n];
    }
  }

  /** A table in order that shows for every date what the tranches need at it and by it. */
  ghost predicate Groups(rs: seq<Residual>, ts: seq<Tranche>) {
    && Ascending(rs) && AllPositive(rs)
    && (forall x :: x in rs ==> x.amount <= U64_MAX)
    && (forall date :: DueBy(rs, date) == TranchesDueBy(ts, date))
    && (forall date :: AmountAt(rs, date) == TranchesAt(ts, date) <= U64_MAX)
    && Due(rs, |rs|) == TranchesTotal(ts)
  }

  lemma SpentTranche(rs: seq<Residual>, ts: seq<Tranche>, t: Tranche)
    requires Groups(rs, ts) && t.residual == 0
    ensures Groups(rs, ts + [t])
  {
    hide Ascending, AllPositive, Due, DueBy, AmountAt;
    var more := ts + [t];
    assert more[..|more| - 1] == ts;
    forall date
      ensures TranchesDueBy(more, date) == TranchesDueBy(ts, date) && TranchesAt(more, date) == TranchesAt(ts, date)
    {
    }
  }

  lemma OneMoreTranche(rs: seq<Residual>, ts: seq<Tranche>, t: Tranche)
    requires Groups(rs, ts) && t.residual > 0 && AmountAt(rs, t.targetHorizon) + t.residual <= U64_MAX
    ensures Groups(AddResidual(rs, t.targetHorizon, t.residual), ts + [t])
  {
    hide Ascending, AddResidual, Due, DueBy, AmountAt;
    var next := AddResidual(rs, t.targetHorizon, t.residual);
    assert (ts + [t])[..|ts|] == ts;
    AddResidualAscends(rs, t.targetHorizon, t.residual);
    AddResidualPuts(rs, t.targetHorizon, t.residual, t.targetHorizon);
    forall x | x in next
      ensures 0 < x.amount <= U64_MAX
    {
      AddResidualKeeps(rs, t.targetHorizon, t.residual, x);
    }
    forall date
      ensures DueBy(next, date) == TranchesDueBy(ts + [t], date)
      ensures AmountAt(next, date) == TranchesAt(ts + [t], date) <= U64_MAX
    {
      AddResidualAdds(rs, t.targetHorizon, t.residual, date);
      AddResidualPuts(rs, t.targetHorizon, t.residual, date);
    }
  }

  /** The residuals of all tranches by target horizon; spent tranches do not appear. */
  method GroupResiduals(tranches: seq<Tranche>) returns (r: Result<seq<Residual>, MetricsError>)
    ensures r.Err? <==> exists date :: TranchesAt(tranches, date) > U64_MAX
    ensures r.Ok? ==> Groups(r.value, tranches)
  {
    hide Ascending, AllPositive, Due, DueBy, AddResidual;
    var table: seq<Residual> := [];
    assert Groups(table, []) by { NothingGroups(); }
    var i := 0;
    while i < |tranches|
      invariant 0 <= i <= |tranches|
      invariant Groups(table, tranches[..i])
    {
      var t := tranches[i];
      assert tranches[..i + 1] == tranches[..i] + [t];
      assert tranches[..i + 1][..i] == tranches[..i];
      if t.residual != 0 {
        if AmountAt(table, t.targetHorizon) + t.residual > U64_MAX {
          TranchesAtGrows(tranches, i + 1, t.targetHorizon);
          return Err(Overflow);
        }
        OneMoreTranche(table, tranches[..i], t);
        table := AddResidual(table, t.targetHorizon, t.residual);
      } else {
        SpentTranche(table, tranches[..i], t);
      }
      i := i + 1;
    }
    assert tranches[..i] == tranches;
    return Ok(table);
  }

  lemma NothingGroups()
    ensures Groups([], [])
  {
  }

  /** In a table in order, what is due by the first horizons is what is due by the last of them. */
  lemma {:induction false} DueIsDueBy(rs: seq<Residual>, i: nat)
    requires Ascending(rs) && i < |rs|
    ensures Due(rs, i + 1) == DueBy(rs, rs[i].horizon)
  {
    DueOfPrefix(rs, i + 1, rs[i].horizon);
    LaterIsNotDue(rs, i + 1, rs[i].horizon);
  }

  lemma {:induction false} DueOfPrefix(rs: seq<Residual>, m: nat, date: Date)
    requires m <= |rs| && forall j | 0 <= j < m :: rs[j].horizon <= date
    ensures Due(rs, m) == DueBy(rs[..m], date)
  {
    if m > 0 {
      DueOfPrefix(rs, m - 1, date);
      assert rs[..m][..m - 1] == rs[..m - 1];
    }
  }

  lemma {:induction false} LaterIsNotDue(rs: seq<Residual>, m: nat, date: Date)
    requires m <= |rs| && forall j | m <= j < |rs| :: rs[j].horizon > date
    ensures DueBy(rs, date) == DueBy(rs[..m], date)
  {
    if m == |rs| {
      assert rs[..m] == rs;
    } else {
      LaterIsNotDue(rs[..|rs| - 1], m, date);
      assert rs[..|rs| - 1][..m] == rs[..m];
    }
  }

  /**
   * The projection of all tranches: each row shows what the tranches need by its
   * date, and where there is one calendar of purchase days no row is flagged
   * exactly when everything can still be spent in time.
   */
  method ProjectTranches(observed: Date, todayDecided: bool, l: Limits, tranches: seq<Tranche>)
    returns (r: Result<seq<HorizonRow>, MetricsError>, residuals: seq<Residual>)
    requires observed <= LAST_DATE
    ensures r.Err? <==> (todayDecided && observed == LAST_DATE) || TranchesTotal(tranches) > U64_MAX
    ensures r.Ok? ==>
              && Groups(residuals, tranches)
              && |r.value| == |residuals|
              && forall i | 0 <= i < |residuals| ::
                   RowFor(r.value[i], observed, todayDecided, l, residuals, i)
                   && r.value[i].residual == TranchesDueBy(tranches, r.value[i].horizon)
    ensures r.Ok? && OneCalendar(l) ==>
              ((forall row :: row in r.value ==> !row.infeasible)
               <==> CanBeSpent(l, observed, todayDecided, residuals))
  {
    hide Ascending, CanBeSpent, OneCalendar, AllPositive, DaysLeft;
    residuals := [];
    var grouped := GroupResiduals(tranches);
    if grouped.Err? {
      ghost var date :| TranchesAt(tranches, date) > U64_MAX;
      TranchesAtGrows(tranches, |tranches|, date);
      return Err(grouped.error), residuals;
    }
    residuals := grouped.value;
    r := ProjectHorizons(observed, todayDecided, l, residuals);
    if r.Ok? {
      forall i | 0 <= i < |residuals|
        ensures r.value[i].residual == TranchesDueBy(tranches, r.value[i].horizon)
      {
        DueIsDueBy(residuals, i);
      }
    }
  }

  /** The capital head of a snapshot: the pacing totals must agree with the ledger. */
  datatype CapitalHead = CapitalHead(confirmed: u64, unallocated: u64, deployable: u64)

  ghost function CrossCheck(c: Capital, admitted: u64, committed: u64, spent: u64, uninvested: u64)
    : Result<CapitalHead, MetricsError>
  {
    if AuthoritativeFunding(c).None? then Err(Overflow)
    else if AuthoritativeFunding(c).value < admitted then Err(InconsistentCapitalState)
    else if admitted != c.admitted || committed != c.committed || spent != c.spent || uninvested != Deployable(c) then
      Err(InconsistentCapitalState)
    else Ok(CapitalHead(AuthoritativeFunding(c).value, AuthoritativeFunding(c).value - admitted, Deployable(c)))
  }

  /**
   * On a replayed ledger the subtraction never fails where the totals agree: the
   * cross-check passes exactly when they do, and what it then shows adds up.
   */
  lemma AgreeingTotalsPass(
    events: seq<Event>, admitted: u64, committed: u64, spent: u64, uninvested: u64)
    requires Replay(events).Ok?
    ensures var c := Replay(events).value.capital;
            var r := CrossCheck(c, admitted, committed, spent, uninvested);
            && (r.Ok? <==> AuthoritativeFunding(c).Some? && admitted == c.admitted && committed == c.committed
                           && spent == c.spent && uninvested == c.admitted - c.withdrawn - c.committed - c.spent)
            && (r.Ok? ==> r.value.confirmed == SumOf(NetFunding(c.deposits))
                          && r.value.confirmed
                             == r.value.unallocated + c.withdrawn + committed + spent + r.value.deployable)
  {
    DepositConservation(events);
    DeployableIsExact(events, 0);
    hide Fold, SumOf, Replay;
  }
}
