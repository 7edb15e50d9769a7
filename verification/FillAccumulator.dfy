/**
 * The durable accumulator of an order's fills. The venue shows only a bounded
 * window of fills at a time; the accumulator joins the windows, and money totals
 * are taken only once it holds every fill.
 */
module FillAccumulator {
  import opened Prelude
  import opened LedgerEvents
  import opened Decimals

  datatype FillError =
    | MissingField
    | ContradictoryFill(tradeId: Id)
    | OrderMismatch
    | WorkflowMismatch
    | InvalidDecimal

  /** A fill row as the venue reports it; a connector may leave fields out. */
  datatype FilledOrder = FilledOrder(
    tradeId: Id, size: Option<Decimal>, value: Option<Decimal>, fee: Option<Decimal>, baseFee: Option<Decimal>)

  /** A stored fill: what was bought, what it cost, its whole fee, and the part of the fee taken in HYPE. */
  datatype Fill = Fill(size: Decimal, notional: Decimal, fee: Decimal, baseFee: Decimal)

  type Fills = map<Id, Fill>

  datatype Accumulator = Accumulator(workflowId: Id, exchangeOrderId: string, fills: Fills)

  function Entry(row: FilledOrder): Result<Fill, FillError> {
    if row.size.None? || row.value.None? || row.fee.None? || row.baseFee.None? then Err(MissingField)
    else Ok(Fill(row.size.value, row.value.value, row.fee.value, row.baseFee.value))
  }

  /** Merging a window, row by row. */
  function Merge(fills: Fills, rows: seq<FilledOrder>): Result<Fills, FillError>
    decreases |rows|
  {
    if rows == [] then Ok(fills)
    else
      var id := rows[0].tradeId;
      var entry :- Entry(rows[0]);
      :- Need(id in fills ==> fills[id] == entry, ContradictoryFill(id));
      Merge(fills[id := entry], rows[1..])
  }

  method MergeObservedFills(fills: Fills, rows: seq<FilledOrder>) returns (r: Result<Fills, FillError>)
    ensures r == Merge(fills, rows)
  {
    var merged := fills;
    var i := 0;
    while i < |rows|
      invariant 0 <= i <= |rows|
      invariant Merge(fills, rows) == Merge(merged, rows[i..])
    {
      var row := rows[i];
      assert rows[i..][1..] == rows[i + 1..];
      var entry := Entry(row);
      if entry.Err? {
        return Err(entry.error);
      }
      if row.tradeId in merged && merged[row.tradeId] != entry.value {
        return Err(ContradictoryFill(row.tradeId));
      }
      merged := merged[row.tradeId := entry.value];
      i := i + 1;
    }
    return Ok(merged);
  }

  /** A set of fills held out of a history. */
  ghost predicate Within(fills: Fills, history: Fills) {
    forall id :: id in fills ==> id in history && fills[id] == history[id]
  }

  /** A row with every field reported, as a fill has it. */
  predicate Shows(row: FilledOrder, f: Fill) {
    && row.size == Some(f.size) && row.value == Some(f.notional)
    && row.fee == Some(f.fee) && row.baseFee == Some(f.baseFee)
  }

  /** Every row of the window is a complete row of the history. */
  ghost predicate DrawnFrom(rows: seq<FilledOrder>, history: Fills) {
    forall row :: row in rows ==> row.tradeId in history && Shows(row, history[row.tradeId])
  }

  /** What is stored of a row is what it shows. */
  lemma EntryShows(row: FilledOrder, f: Fill)
    ensures Entry(row) == Ok(f) <==> Shows(row, f)
  {
  }

  function Ids(rows: seq<FilledOrder>): set<Id> {
    set row | row in rows :: row.tradeId
  }

  /** The part of a history with these trade identifiers. */
  function Part(history: Fills, ids: set<Id>): Fills {
    map id | id in history && id in ids :: history[id]
  }

  lemma NothingJoins(fills: Fills, history: Fills)
    requires Within(fills, history)
    ensures fills == Part(history, fills.Keys + Ids([]))
  {
  }

  lemma RowsSplit(rows: seq<FilledOrder>, history: Fills)
    requires rows != [] && DrawnFrom(rows, history)
    ensures rows[0].tradeId in history && Entry(rows[0]) == Ok(history[rows[0].tradeId])
    ensures DrawnFrom(rows[1..], history)
    ensures Ids(rows) == {rows[0].tradeId} + Ids(rows[1..])
  {
    hide Entry, Shows;
    assert rows[0] in rows;
    EntryShows(rows[0], history[rows[0].tradeId]);
    assert forall x :: x in rows <==> x == rows[0] || x in rows[1..];
  }

  lemma OneMoreWithin(fills: Fills, history: Fills, id: Id)
    requires Within(fills, history) && id in history
    ensures Within(fills[id := history[id]], history)
    ensures id in fills ==> fills[id] == history[id]
  {
  }

  /** A window of a history always merges, and adds exactly its rows. */
  lemma {:induction false} MergeJoins(fills: Fills, rows: seq<FilledOrder>, history: Fills)
    requires Within(fills, history) && DrawnFrom(rows, history)
    ensures Merge(fills, rows) == Ok(Part(history, fills.Keys + Ids(rows)))
    decreases |rows|
  {
    hide Within, DrawnFrom, Part, Ids, Entry;
    if rows == [] {
      NothingJoins(fills, history);
    } else {
      var row := rows[0];
      RowsSplit(rows, history);
      var next := fills[row.tradeId := history[row.tradeId]];
      OneMoreWithin(fills, history, row.tradeId);
      MergeJoins(next, rows[1..], history);
      assert next.Keys + Ids(rows[1..]) == fills.Keys + Ids(rows);
    }
  }

  /** Merging never drops or changes a row, whatever the window; it succeeds exactly when some history explains both. */
  lemma {:induction false} MergeSucceedsIff(fills: Fills, rows: seq<FilledOrder>)
    ensures Merge(fills, rows).Ok? <==> exists history: Fills :: Within(fills, history) && DrawnFrom(rows, history)
    ensures Merge(fills, rows).Ok? ==>
              Within(fills, Merge(fills, rows).value) && DrawnFrom(rows, Merge(fills, rows).value)
    decreases |rows|
  {
    if history: Fills :| Within(fills, history) && DrawnFrom(rows, history) {
      MergeJoins(fills, rows, history);
    }
    if Merge(fills, rows).Ok? {
      MergeKeeps(fills, rows);
    }
  }

  lemma {:induction false} MergeKeeps(fills: Fills, rows: seq<FilledOrder>)
    requires Merge(fills, rows).Ok?
    ensures Within(fills, Merge(fills, rows).value) && DrawnFrom(rows, Merge(fills, rows).value)
    decreases |rows|
  {
    if rows != [] {
      var row := rows[0];
      var next := fills[row.tradeId := Entry(row).value];
      MergeKeeps(next, rows[1..]);
      assert forall x :: x in rows <==> x == row || x in rows[1..];
      assert row.tradeId in next;
    }
  }

  /** Merging windows one after the other. */
  function MergeAll(fills: Fills, windows: seq<seq<FilledOrder>>): Result<Fills, FillError> {
    if windows == [] then Ok(fills)
    else
      var before :- MergeAll(fills, windows[..|windows| - 1]);
      Merge(before, windows[|windows| - 1])
  }

  ghost function AllIds(windows: seq<seq<FilledOrder>>): set<Id> {
    if windows == [] then {} else AllIds(windows[..|windows| - 1]) + Ids(windows[|windows| - 1])
  }

  ghost predicate AllDrawnFrom(windows: seq<seq<FilledOrder>>, history: Fills) {
    forall rows :: rows in windows ==> DrawnFrom(rows, history)
  }

  /**
   * The accumulator is a join: any sequence of windows of one history merges, and
   * what it then holds depends only on which fills were ever shown, not on their
   * order or repetition. Nothing once seen is lost.
   */
  lemma {:induction false} WindowsJoin(windows: seq<seq<FilledOrder>>, history: Fills)
    requires AllDrawnFrom(windows, history)
    ensures MergeAll(map[], windows) == Ok(Part(history, AllIds(windows)))
  {
    if windows == [] {
      assert Part(history, {}) == map[];
    } else {
      var front, last := windows[..|windows| - 1], windows[|windows| - 1];
      WindowsJoin(front, history);
      MergeJoins(Part(history, AllIds(front)), last, history);
      ShownIsKnown(front, history);
      assert Part(history, AllIds(front)).Keys == AllIds(front);
    }
  }

  lemma {:induction false} ShownIsKnown(windows: seq<seq<FilledOrder>>, history: Fills)
    requires AllDrawnFrom(windows, history)
    ensures AllIds(windows) <= history.Keys
  {
    if windows != [] {
      ShownIsKnown(windows[..|windows| - 1], history);
      assert DrawnFrom(windows[|windows| - 1], history);
    }
  }

  ghost function Sizes(fills: Fills): map<Id, int> {
    map id | id in fills :: Units(fills[id].size)
  }

  ghost predicate PositiveSizes(fills: Fills) {
    forall id :: id in fills ==> Units(fills[id].size) > 0
  }

  lemma {:induction false} SumSplits(m: map<Id, int>, part: map<Id, int>)
    requires forall k :: k in part ==> k in m && part[k] == m[k]
    ensures SumOf(m) == SumOf(part) + SumOf(m - part.Keys)
    decreases |part|
  {
    if part == map[] {
      assert m - part.Keys == m;
    } else {
      var k :| k in part;
      SmallerWithout(part, k);
      SumTake(part, k);
      SumTake(m, k);
      SumSplits(m - {k}, part - {k});
      assert m - {k} - (part - {k}).Keys == m - part.Keys;
    }
  }

  lemma NoneMissing(missing: map<Id, int>)
    requires SumOf(missing) == 0 && forall id :: id in missing ==> missing[id] > 0
    ensures missing == map[]
  {
    SumNonNegative(missing);
    assert missing.Keys == {};
  }

  /**
   * The completeness test is exact: the held sizes add up to the history's total
   * if and only if every fill of the history is held.
   */
  lemma CompleteIffAllHeld(fills: Fills, history: Fills)
    requires Within(fills, history) && PositiveSizes(history)
    ensures SumOf(Sizes(fills)) == SumOf(Sizes(history)) <==> fills == history
  {
    var all, held := Sizes(history), Sizes(fills);
    SumSplits(all, held);
    var missing := all - held.Keys;
    SumNonNegative(missing);
    if SumOf(missing) == 0 {
      NoneMissing(missing);
      assert forall id :: id in history && id !in fills ==> id in missing;
      assert fills == history;
    }
  }

  method FillsCoverQuantity(fills: Fills, authoritative: Decimal) returns (complete: bool)
    ensures complete <==> SumOf(Sizes(fills)) == Units(authoritative)
  {
    hide Units;
    var total := 0;
    var rest := fills;
    while rest != map[]
      invariant SumOf(Sizes(fills)) == total + SumOf(Sizes(rest))
      decreases |rest|
    {
      var id :| id in rest;
      SumTake(Sizes(rest), id);
      assert Sizes(rest) - {id} == Sizes(rest - {id});
      SmallerWithout(rest, id);
      total := total + Units(rest[id].size);
      rest := rest - {id};
    }
    assert Sizes(map[]) == map[];
    return total == Units(authoritative);
  }

  /** What a fill credits: the bought quantity less what the venue kept of it. */
  function CreditedUnits(f: Fill): int {
    Units(f.size) - Units(f.baseFee)
  }

  /** What a fill takes in USDC besides its notional: its fee, unless that was taken in HYPE. */
  function UsdcFeeUnits(f: Fill): int {
    if Units(f.baseFee) == 0 then Units(f.fee) else 0
  }

  ghost function Credits(fills: Fills): map<Id, int> {
    map id | id in fills :: CreditedUnits(fills[id])
  }

  ghost function Notionals(fills: Fills): map<Id, int> {
    map id | id in fills :: Units(fills[id].notional)
  }

  ghost function UsdcFees(fills: Fills): map<Id, int> {
    map id | id in fills :: UsdcFeeUnits(fills[id])
  }

  /** A decimal quantity as a whole number of atoms, if it is one that fits. */
  function DecimalToAtoms(units: int, atomsPerHype: u64): (r: Result<u64, FillError>)
    ensures r.Ok? ==> r.value * ONE == units * atomsPerHype
    ensures r.Err? && units >= 0 && atomsPerHype > 0 ==> forall atoms: u64 :: atoms * ONE != units * atomsPerHype
  {
    if units < 0 || atomsPerHype == 0 then Err(InvalidDecimal)
    else
      var scaled: nat := units * atomsPerHype;
      WholeAtoms(scaled, ONE);
      if scaled % ONE != 0 || scaled / ONE > U64_MAX then Err(InvalidDecimal) else Ok(scaled / ONE)
  }

  lemma WholeAtoms(n: nat, d: nat)
    requires d > 0
    ensures n % d == 0 ==> n / d * d == n
    ensures forall k: nat :: k * d == n ==> n % d == 0 && n / d == k
  {
    assert n == n / d * d + n % d;
    forall k: nat | k * d == n
      ensures n % d == 0 && n / d == k
    {
      Quotient(n, d, k);
    }
  }

  lemma Quotient(n: nat, d: nat, k: nat)
    requires d > 0 && k * d == n
    ensures n % d == 0 && n / d == k
  {
    var q, r := n / d, n % d;
    assert n == q * d + r;
    assert (k - q) * d == r;
    NoSmallMultiple(k - q, d);
  }

  /** The HYPE credited by the fills; a fill whose fee takes all of it is refused. */
  method CumulativeCreditedHype(fills: Fills, atomsPerHype: u64) returns (r: Result<u64, FillError>)
    ensures (exists id :: id in fills && CreditedUnits(fills[id]) <= 0) ==> r == Err(InvalidDecimal)
    ensures (forall id :: id in fills ==> CreditedUnits(fills[id]) > 0) ==>
              r == DecimalToAtoms(SumOf(Credits(fills)), atomsPerHype)
  {
    hide CreditedUnits, DecimalToAtoms;
    var credited := 0;
    var rest := fills;
    while rest != map[]
      invariant forall id :: id in rest ==> id in fills && rest[id] == fills[id]
      invariant forall id :: id in fills && id !in rest ==> CreditedUnits(fills[id]) > 0
      invariant SumOf(Credits(fills)) == credited + SumOf(Credits(rest))
      decreases |rest|
    {
      var id :| id in rest;
      var net := CreditedUnits(rest[id]);
      if net <= 0 {
        return Err(InvalidDecimal);
      }
      SumTake(Credits(rest), id);
      assert Credits(rest) - {id} == Credits(rest - {id});
      SmallerWithout(rest, id);
      credited := credited + net;
      rest := rest - {id};
    }
    assert Credits(map[]) == map[];
    return DecimalToAtoms(credited, atomsPerHype);
  }

  const MICROS_PER_UNIT: nat := 1_000_000

  /** A decimal amount of USDC in micros, to the nearest micro. */
  function ToMicros(units: int): Result<u64, FillError> {
    if units < 0 || RoundHalfEven(units * MICROS_PER_UNIT, ONE) > U64_MAX then Err(InvalidDecimal)
    else Ok(RoundHalfEven(units * MICROS_PER_UNIT, ONE))
  }

  /** USDC filled and USDC debited, in micros. */
  datatype UsdcTotals = UsdcTotals(filled: u64, debited: u64)

  function UsdcTotalsOf(filledUnits: int, feeUnits: int): Result<UsdcTotals, FillError> {
    if ToMicros(filledUnits).Err? then Err(InvalidDecimal)
    else if ToMicros(filledUnits + feeUnits).Err? then Err(InvalidDecimal)
    else Ok(UsdcTotals(ToMicros(filledUnits).value, ToMicros(filledUnits + feeUnits).value))
  }

  /** A number of micros no further than half a micro from an exact amount, and equal to it if that is whole. */
  ghost predicate NearestMicros(micros: u64, units: int) {
    && 2 * (units * MICROS_PER_UNIT) - ONE <= 2 * (micros * ONE) <= 2 * (units * MICROS_PER_UNIT) + ONE
    && (units * MICROS_PER_UNIT % ONE == 0 ==> micros * ONE == units * MICROS_PER_UNIT)
  }

  /** An amount that is not negative and rounds to micros of 64 bits. */
  ghost predicate FitsMicros(units: int) {
    units >= 0 && 2 * (units * MICROS_PER_UNIT) < (2 * U64_MAX + 1) * ONE
  }

  /** Filled is the notional, debited the notional and the fees, in micros; an error means that one does not fit. */
  ghost predicate UsdcTold(r: Result<UsdcTotals, FillError>, notional: int, fees: int) {
    && (r.Ok? <==> FitsMicros(notional) && FitsMicros(notional + fees))
    && (r.Ok? ==> NearestMicros(r.value.filled, notional) && NearestMicros(r.value.debited, notional + fees))
  }

  lemma MicrosTold(units: int)
    ensures ToMicros(units).Ok? <==> FitsMicros(units)
    ensures ToMicros(units).Ok? ==> NearestMicros(ToMicros(units).value, units)
  {
    hide RoundHalfEven;
    if units >= 0 {
      RoundTold(units * MICROS_PER_UNIT, ONE);
    }
  }

  lemma RoundTold(n: nat, d: nat)
    requires d > 0
    ensures var c := RoundHalfEven(n, d);
            && 2 * n - d <= 2 * (c * d) <= 2 * n + d
            && (n % d == 0 ==> c * d == n)
            && (c <= U64_MAX <==> 2 * n < (2 * U64_MAX + 1) * d)
  {
    hide RoundHalfEven;
    RoundedIsNearest(n, d);
    RoundFits(n, d);
    var c := RoundHalfEven(n, d);
    assert 2 * c * d == 2 * (c * d);
  }

  lemma RoundFits(n: nat, d: nat)
    requires d > 0
    ensures RoundHalfEven(n, d) <= U64_MAX <==> 2 * n < (2 * U64_MAX + 1) * d
  {
    var q, r := n / d, n % d;
    assert n == q * d + r;
    if q < U64_MAX {
      MulLe(q + 1, U64_MAX, d);
      assert (q + 1) * d == q * d + d;
    } else if q > U64_MAX {
      MulLe(U64_MAX + 1, q, d);
    }
  }

  lemma TotalsTold(notional: int, fees: int)
    ensures UsdcTold(UsdcTotalsOf(notional, fees), notional, fees)
  {
    hide ToMicros, FitsMicros, NearestMicros;
    MicrosTold(notional);
    MicrosTold(notional + fees);
  }

  method CumulativeUsdc(fills: Fills) returns (r: Result<UsdcTotals, FillError>)
    ensures r == UsdcTotalsOf(SumOf(Notionals(fills)), SumOf(UsdcFees(fills)))
    ensures UsdcTold(r, SumOf(Notionals(fills)), SumOf(UsdcFees(fills)))
  {
    hide Units, UsdcFeeUnits, UsdcTotalsOf, UsdcTold;
    var filled, fee := 0, 0;
    var rest := fills;
    while rest != map[]
      invariant SumOf(Notionals(fills)) == filled + SumOf(Notionals(rest))
      invariant SumOf(UsdcFees(fills)) == fee + SumOf(UsdcFees(rest))
      decreases |rest|
    {
      var id :| id in rest;
      SumTake(Notionals(rest), id);
      SumTake(UsdcFees(rest), id);
      assert Notionals(rest) - {id} == Notionals(rest - {id});
      assert UsdcFees(rest) - {id} == UsdcFees(rest - {id});
      SmallerWithout(rest, id);
      filled := filled + Units(rest[id].notional);
      fee := fee + UsdcFeeUnits(rest[id]);
      rest := rest - {id};
    }
    assert Notionals(map[]) == map[] && UsdcFees(map[]) == map[];
    TotalsTold(filled, fee);
    return UsdcTotalsOf(filled, fee);
  }

  ghost function Fees(fills: Fills): map<Id, int> {
    map id | id in fills :: Units(fills[id].fee)
  }

  ghost function BaseFees(fills: Fills): map<Id, int> {
    map id | id in fills :: Units(fills[id].baseFee)
  }

  /** The fees of the fills whose fee was taken in HYPE. */
  ghost function FeesTakenInHype(fills: Fills): map<Id, int> {
    map id | id in fills :: if Units(fills[id].baseFee) == 0 then 0 else Units(fills[id].fee)
  }

  lemma {:induction false} SumAdds(a: map<Id, int>, b: map<Id, int>, c: map<Id, int>)
    requires a.Keys == b.Keys == c.Keys && forall k :: k in a ==> a[k] == b[k] + c[k]
    ensures SumOf(a) == SumOf(b) + SumOf(c)
    decreases |a|
  {
    if a != map[] {
      var k :| k in a;
      SmallerWithout(a, k);
      SumTake(a, k);
      SumTake(b, k);
      SumTake(c, k);
      SumAdds(a - {k}, b - {k}, c - {k});
    } else {
      assert b == map[] && c == map[];
    }
  }

  /**
   * Every fee is counted once: in the USDC debit or in the HYPE credit, never in
   * both, and together the two totals account for everything bought and every fee.
   */
  lemma FeesCountOnce(fills: Fills)
    ensures SumOf(Fees(fills)) == SumOf(UsdcFees(fills)) + SumOf(FeesTakenInHype(fills))
    ensures SumOf(Sizes(fills)) == SumOf(Credits(fills)) + SumOf(BaseFees(fills))
    ensures forall id :: id in fills ==> UsdcFees(fills)[id] == 0 || BaseFees(fills)[id] == 0
  {
    hide Units;
    SumAdds(Fees(fills), UsdcFees(fills), FeesTakenInHype(fills));
    SumAdds(Sizes(fills), Credits(fills), BaseFees(fills));
  }

  /**
   * Whatever windows were shown, in whatever order: the held fills pass the
   * completeness test exactly when every fill was shown at least once, and the
   * totals taken then are those of the history.
   */
  lemma CompleteTotalsAreTrue(windows: seq<seq<FilledOrder>>, history: Fills, authoritative: Decimal)
    requires AllDrawnFrom(windows, history) && PositiveSizes(history)
    requires Units(authoritative) == SumOf(Sizes(history))
    ensures MergeAll(map[], windows).Ok?
    ensures var held := MergeAll(map[], windows).value;
            && (SumOf(Sizes(held)) == Units(authoritative) <==> AllIds(windows) == history.Keys)
            && (SumOf(Sizes(held)) == Units(authoritative) ==> held == history)
  {
    WindowsJoin(windows, history);
    ShownIsKnown(windows, history);
    var held := Part(history, AllIds(windows));
    CompleteIffAllHeld(held, history);
    assert held.Keys == AllIds(windows);
  }

  /** What an observation yields once the fills are complete. */
  datatype Observed = Incomplete | Complete(usdc: UsdcTotals, creditedAtoms: u64)

  /** The credit in atoms, if it is a whole number of them that fits. */
  ghost predicate CreditFits(history: Fills, atomsPerHype: u64) {
    && atomsPerHype > 0
    && (forall id :: id in history ==> Units(history[id].baseFee) < Units(history[id].size))
    && exists atoms: u64 :: atoms * ONE == SumOf(Credits(history)) * atomsPerHype
  }

  /** The totals of a whole history: both fit and are given, or an error is. */
  ghost predicate ObservedTold(r: Result<Observed, FillError>, history: Fills, atomsPerHype: u64) {
    && (r.Ok? <==>
          && FitsMicros(SumOf(Notionals(history))) && FitsMicros(SumOf(Notionals(history)) + SumOf(UsdcFees(history)))
          && CreditFits(history, atomsPerHype))
    && (r.Ok? ==>
          && r.value.Complete?
          && UsdcTold(Ok(r.value.usdc), SumOf(Notionals(history)), SumOf(UsdcFees(history)))
          && r.value.creditedAtoms * ONE == SumOf(Credits(history)) * atomsPerHype)
  }

  /** When the credit of some fills can be expressed. */
  lemma CreditTold(fills: Fills, atomsPerHype: u64)
    ensures var r := DecimalToAtoms(SumOf(Credits(fills)), atomsPerHype);
            var all := forall id :: id in fills ==> CreditedUnits(fills[id]) > 0;
            && (all && r.Ok? <==> CreditFits(fills, atomsPerHype))
            && (r.Ok? ==> r.value * ONE == SumOf(Credits(fills)) * atomsPerHype)
  {
    hide DecimalToAtoms, Units;
    AtomsIff(SumOf(Credits(fills)), atomsPerHype);
    if forall id :: id in fills ==> CreditedUnits(fills[id]) > 0 {
      SumNonNegative(Credits(fills));
    }
  }

  lemma AtomsIff(units: int, atomsPerHype: u64)
    ensures DecimalToAtoms(units, atomsPerHype).Ok? ==> atomsPerHype > 0
    ensures units >= 0 && atomsPerHype > 0 ==>
              (DecimalToAtoms(units, atomsPerHype).Ok? <==>
                 exists atoms: u64 :: atoms * ONE == units * atomsPerHype)
  {
    if DecimalToAtoms(units, atomsPerHype).Ok? {
      assert DecimalToAtoms(units, atomsPerHype).value * ONE == units * atomsPerHype;
    }
  }

  /** The accumulator file of one journal. */
  class FillRecord {
    var stored: Option<Accumulator>

    constructor ()
      ensures stored.None?
    {
      stored := None;
    }

    function Held(): Fills
      reads this
    {
      if stored.Some? then stored.value.fills else map[]
    }

    /** Whether a batch of this workflow and this venue order may be merged here. */
    predicate Binds(workflowId: Id, exchangeOrderId: string)
      reads this
    {
      stored.Some? ==>
        stored.value.workflowId == workflowId
        && (stored.value.exchangeOrderId == "" || stored.value.exchangeOrderId == exchangeOrderId)
    }

    method MergeAndPersist(workflowId: Id, exchangeOrderId: string, rows: seq<FilledOrder>)
      returns (r: Result<Accumulator, FillError>)
      modifies this
      ensures r.Ok? <==> old(Binds(workflowId, exchangeOrderId)) && Merge(old(Held()), rows).Ok?
      ensures r.Ok? ==> r.value == Accumulator(workflowId, exchangeOrderId, Merge(old(Held()), rows).value)
                        && stored == Some(r.value)
      ensures r.Err? ==> stored == old(stored)
      ensures !old(Binds(workflowId, exchangeOrderId)) ==> r.error in {OrderMismatch, WorkflowMismatch}
    {
      var loaded := if stored.Some? then stored.value else Accumulator(workflowId, "", map[]);
      if loaded.workflowId != workflowId {
        return Err(WorkflowMismatch);
      }
      if loaded.exchangeOrderId != "" && loaded.exchangeOrderId != exchangeOrderId {
        return Err(OrderMismatch);
      }
      var merged := MergeObservedFills(loaded.fills, rows);
      if merged.Err? {
        return Err(merged.error);
      }
      var next := Accumulator(workflowId, exchangeOrderId, merged.value);
      stored := Some(next);
      return Ok(next);
    }

    /**
     * Merges a window and, if that completes the fills, takes the totals. Judged
     * against the order's fill history as it stands at this point: totals are
     * reported exactly when every fill is held, and they are the history's.
     */
    method Observe(
      workflowId: Id, exchangeOrderId: string, rows: seq<FilledOrder>, authoritative: Decimal, atomsPerHype: u64,
      ghost history: Fills)
      returns (r: Result<Observed, FillError>)
      requires Binds(workflowId, exchangeOrderId)
      requires Within(Held(), history) && DrawnFrom(rows, history) && PositiveSizes(history)
      requires Units(authoritative) == SumOf(Sizes(history))
      modifies this
      ensures Held() == Part(history, old(Held()).Keys + Ids(rows))
      ensures Binds(workflowId, exchangeOrderId) && Within(Held(), history)
      ensures if Held() == history then ObservedTold(r, history, atomsPerHype) else r == Ok(Incomplete)
    {
      hide Units, Merge, UsdcTotalsOf, DecimalToAtoms, CreditedUnits, PositiveSizes, DrawnFrom, SumOf, Sizes,
           FitsMicros, NearestMicros, CreditFits, Notionals, UsdcFees, Credits;
      MergeJoins(Held(), rows, history);
      var merged := MergeAndPersist(workflowId, exchangeOrderId, rows);
      var fills := merged.value.fills;
      CompleteIffAllHeld(fills, history);
      var complete := FillsCoverQuantity(fills, authoritative);
      if !complete {
        return Ok(Incomplete);
      }
      var usdc := CumulativeUsdc(fills);
      if usdc.Err? {
        return Err(usdc.error);
      }
      var atoms := CumulativeCreditedHype(fills, atomsPerHype);
      CreditTold(fills, atomsPerHype);
      if atoms.Err? {
        return Err(atoms.error);
      }
      return Ok(Complete(usdc.value, atoms.value));
    }
  }
}
