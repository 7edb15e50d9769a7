/**
 * Sizing one purchase order: the limit price on the venue's grid, the floored
 * quantity, the commitment that carries the reserve, and the two capital checks
 * an order passes before it is submitted. Amounts are in micros of USDC and
 * atoms of HYPE.
 */
module OrderSizing {
  import opened Prelude
  import opened Decimals

  datatype SizingError = InvalidPrice | InvalidQuantity | ZeroQuantity | ReserveOverflow | CapitalBound

  const BPS: nat := 10_000
  const ATOMS_PER_HYPE: nat := 100_000_000
  const MICROS: real := 1000000.0

  function ApplyBpsMarkup(base: real, bps: nat): real {
    base * ((BPS + bps) as real) / 10000.0
  }

  predicate InMicros(amount: real, micros: u64) {
    micros as real == amount * MICROS
  }

  /**
   * The worst-case price on the venue's tick. It is accepted exactly when it is
   * positive and a whole number of micros that fits, and then it is that number.
   */
  function LimitPriceOnGrid(worstCase: real, normalize: real -> real): (r: Result<u64, SizingError>)
    ensures r.Ok? ==> r.value > 0 && InMicros(normalize(worstCase), r.value)
    ensures r.Err? ==> forall m: u64 :: m > 0 ==> !InMicros(normalize(worstCase), m)
  {
    var onGrid := normalize(worstCase);
    if onGrid <= 0.0 then Err(InvalidPrice)
    else
      var micros := (onGrid * MICROS).Floor;
      if micros > U64_MAX || micros as real != onGrid * MICROS then Err(InvalidPrice) else Ok(micros)
  }

  function LotAtoms(sizeDecimals: nat): (lot: nat)
    requires sizeDecimals <= 8
    ensures lot > 0
  {
    Pow10(8 - sizeDecimals)
  }

  /** The quantity for a budget: the decimal quotient, down to whole lots, in atoms. */
  function QuantityForBudget(planned: u64, price: u64, sizeDecimals: nat): Result<u64, SizingError>
    requires sizeDecimals <= 8
  {
    var quotient := Divide(planned, price);
    if price == 0 then Err(InvalidPrice)
    else if quotient.None? then Err(InvalidQuantity)
    else
      var atoms := WholeParts(quotient.value, sizeDecimals) * LotAtoms(sizeDecimals);
      if atoms < 0 || atoms > U64_MAX then Err(InvalidQuantity)
      else if atoms == 0 then Err(ZeroQuantity)
      else Ok(atoms)
  }

  /** The commitment for a plan: the plan grossed up by the reserve, rounded up. */
  function GrossUpReserve(planned: u64, reserveBps: nat): Result<u64, SizingError> {
    if reserveBps >= BPS then Err(ReserveOverflow)
    else
      var rounded := (planned * BPS + (BPS - reserveBps) - 1) / (BPS - reserveBps);
      if rounded > U64_MAX then Err(ReserveOverflow) else Ok(rounded)
  }

  /** The largest notional an order can fill, rounded up to a micro. */
  function MaxNotional(atoms: u64, price: u64): nat {
    (atoms * price + ATOMS_PER_HYPE - 1) / ATOMS_PER_HYPE
  }

  /** The notional of a whole order at its limit. */
  function LimitNotional(atoms: u64, price: u64): real {
    (atoms as real / 100000000.0) * (price as real / MICROS)
  }

  /** The two capital bounds on an order about to be submitted. */
  function CapitalChecks(planned: u64, committed: u64, atoms: u64, price: u64, maxFeeBps: nat): Outcome<SizingError> {
    var limitNotional := LimitNotional(atoms, price);
    if limitNotional > planned as real / MICROS then Fail(CapitalBound)
    else if ApplyBpsMarkup(limitNotional, maxFeeBps) > committed as real / MICROS then Fail(CapitalBound)
    else Pass
  }

  lemma ProductOfQuotients(a: int, p: int)
    ensures (a as real / 100000000.0) * (p as real / MICROS) == (a * p) as real / 100000000000000.0
  {
    var x, y := a as real, p as real;
    assert (a * p) as real == x * y;
    assert (x / 100000000.0) * (y / 1000000.0) == x * y / 100000000000000.0;
  }

  /** The bounds in whole numbers. */
  lemma ChecksInWholeNumbers(planned: u64, committed: u64, atoms: u64, price: u64, fee: nat)
    ensures CapitalChecks(planned, committed, atoms, price, fee).Pass?
         <==> atoms * price <= planned * ATOMS_PER_HYPE
              && atoms * price * (BPS + fee) <= committed * ATOMS_PER_HYPE * BPS
  {
    var n := atoms * price;
    ProductOfQuotients(atoms, price);
    var notional := LimitNotional(atoms, price);
    assert notional == n as real / 100000000000000.0;
    assert notional > planned as real / MICROS <==> n > planned * ATOMS_PER_HYPE;
    var m := n * (BPS + fee);
    assert m as real == (n as real) * ((BPS + fee) as real);
    assert ApplyBpsMarkup(notional, fee) == m as real / 1000000000000000000.0;
    assert ApplyBpsMarkup(notional, fee) > committed as real / MICROS <==> m > committed * ATOMS_PER_HYPE * BPS;
  }

  lemma LotScale(sizeDecimals: nat)
    requires sizeDecimals <= 8
    ensures Pow10(sizeDecimals) * LotAtoms(sizeDecimals) == ATOMS_PER_HYPE
  {
    assert Pow10(0) == 1 && Pow10(1) == 10 && Pow10(2) == 100 && Pow10(3) == 1000 && Pow10(4) == 10000;
    assert Pow10(5) == 100000 && Pow10(6) == 1000000 && Pow10(7) == 10000000 && Pow10(8) == 100000000;
  }

  /** The rounding of the division never shows: the lots are those of the true quotient. */
  lemma SizedInLots(planned: u64, price: u64, sizeDecimals: nat)
    requires sizeDecimals <= 8 && price > 0
    ensures var lots, r := planned * Pow10(sizeDecimals) / price, QuantityForBudget(planned, price, sizeDecimals);
            && lots >= 0
            && r == (if lots * LotAtoms(sizeDecimals) > U64_MAX then Err(InvalidQuantity)
                     else if lots * LotAtoms(sizeDecimals) == 0 then Err(ZeroQuantity)
                     else Ok(lots * LotAtoms(sizeDecimals)))
  {
    hide Divide, WholeParts, Pow10, LotAtoms;
    QuotientHoldsParts(planned, price, sizeDecimals);
    var n := planned * Pow10(sizeDecimals);
    assert n == n / price * price + n % price;
    NoSmallMultiple(n / price, price);
    MulLe(0, n / price, LotAtoms(sizeDecimals));
  }

  /**
   * The size is the largest whole number of lots the plan can pay: it costs at most
   * the plan, also rounded up to a micro, and one more lot would cost more.
   */
  lemma SizedIsLargest(planned: u64, price: u64, sizeDecimals: nat)
    requires sizeDecimals <= 8 && QuantityForBudget(planned, price, sizeDecimals).Ok?
    ensures var atoms, lot := QuantityForBudget(planned, price, sizeDecimals).value, LotAtoms(sizeDecimals);
            && atoms % lot == 0 && MaxNotional(atoms, price) <= planned
            && atoms * price <= planned * ATOMS_PER_HYPE < (atoms + lot) * price
  {
    PricePositive(planned, price, sizeDecimals);
    hide *;
    var lot, scale := LotAtoms(sizeDecimals), Pow10(sizeDecimals);
    var lots := planned * scale / price;
    SizedInLots(planned, price, sizeDecimals);
    LotScale(sizeDecimals);
    LotsAreLargest(planned, price, scale, lot);
    CeilWithin(lots * lot, price, planned);
  }

  lemma LotsAreLargest(planned: nat, price: nat, scale: nat, lot: nat)
    requires price > 0 && lot > 0 && scale * lot == ATOMS_PER_HYPE
    ensures var lots := planned * scale / price;
            lots >= 0 && lots * lot >= 0 && lots * lot % lot == 0
            && (lots * lot) * price <= planned * ATOMS_PER_HYPE < (lots * lot + lot) * price
  {
    var n, lots := planned * scale, planned * scale / price;
    assert n == lots * price + n % price;
    assert (lots + 1) * price == lots * price + price;
    NoSmallMultiple(lots, price);
    MulLe(0, lots, lot);
    LotCost(lots, lot, scale, price, planned);
    NextLotCost(lots, lot, scale, price, planned);
    WholeLots(lots, lot);
  }

  lemma PricePositive(planned: u64, price: u64, sizeDecimals: nat)
    requires sizeDecimals <= 8 && QuantityForBudget(planned, price, sizeDecimals).Ok?
    ensures price > 0
  {
  }

  lemma LotCost(lots: nat, lot: nat, scale: nat, price: nat, planned: nat)
    requires lots * price <= planned * scale && scale * lot == ATOMS_PER_HYPE
    ensures (lots * lot) * price <= planned * ATOMS_PER_HYPE
  {
    MulLe(lots * price, planned * scale, lot);
    assert (lots * lot) * price == (lots * price) * lot;
    assert (planned * scale) * lot == planned * (scale * lot);
  }

  lemma CeilWithin(atoms: u64, price: u64, planned: nat)
    requires atoms * price <= planned * ATOMS_PER_HYPE
    ensures MaxNotional(atoms, price) <= planned
  {
  }

  /** An order is refused for its size exactly when the plan pays no lot, or more than 64 bits of atoms. */
  lemma SizingFailsIff(planned: u64, price: u64, sizeDecimals: nat)
    requires sizeDecimals <= 8 && price > 0
    ensures QuantityForBudget(planned, price, sizeDecimals) == Err(ZeroQuantity)
       <==> planned * Pow10(sizeDecimals) < price
    ensures QuantityForBudget(planned, price, sizeDecimals) == Err(InvalidQuantity)
       <==> (U64_MAX / LotAtoms(sizeDecimals) + 1) * price <= planned * Pow10(sizeDecimals)
  {
    hide QuantityForBudget, Pow10, LotAtoms;
    SizedInLots(planned, price, sizeDecimals);
    var lot, n := LotAtoms(sizeDecimals), planned * Pow10(sizeDecimals);
    var lots := n / price;
    MulLe(0, planned, Pow10(sizeDecimals));
    AtMostQuotient(n, price, 1);
    AtMostQuotient(n, price, U64_MAX / lot + 1);
    AtMostQuotient(U64_MAX, lot, lots);
    NoSmallMultiple(lots, lot);
  }

  /** A multiple of the divisor is within a number exactly when its factor is within the quotient. */
  lemma AtMostQuotient(n: nat, d: nat, k: nat)
    requires d > 0
    ensures k * d <= n <==> k <= n / d
  {
    var q, r := n / d, n % d;
    assert n == q * d + r;
    if k <= q {
      MulLe(k, q, d);
    } else {
      MulLe(q + 1, k, d);
    }
    assert (q + 1) * d == q * d + d;
  }

  lemma NextLotCost(lots: nat, lot: nat, scale: nat, price: nat, planned: nat)
    requires planned * scale < (lots + 1) * price && scale * lot == ATOMS_PER_HYPE && lot > 0
    ensures planned * ATOMS_PER_HYPE < (lots * lot + lot) * price
  {
    var a, b := planned * scale, (lots + 1) * price;
    assert a * lot < b * lot by {
      NoSmallMultiple(b - a, lot);
      assert (b - a) * lot == b * lot - a * lot;
    }
    assert b * lot == (lots * lot + lot) * price;
    assert a * lot == planned * (scale * lot);
  }

  lemma WholeLots(lots: int, lot: nat)
    requires lot > 0
    ensures lots * lot % lot == 0
  {
    var n, q, r := lots * lot, lots * lot / lot, lots * lot % lot;
    assert n == q * lot + r;
    assert (lots - q) * lot == r;
    NoSmallMultiple(lots - q, lot);
  }

  lemma CancelLe(left: int, right: int, d: nat)
    requires d > 0 && left * d <= right * d
    ensures left <= right
  {
    NoSmallMultiple(left - right, d);
    assert (left - right) * d == left * d - right * d;
  }

  /** The commitment is the least amount whose unreserved part covers the plan. */
  lemma CommitmentCovers(planned: u64, reserveBps: nat)
    requires GrossUpReserve(planned, reserveBps).Ok?
    ensures var committed := GrossUpReserve(planned, reserveBps).value;
            && committed * (BPS - reserveBps) >= planned * BPS
            && (committed > 0 ==> (committed - 1) * (BPS - reserveBps) < planned * BPS)
  {
    var d := BPS - reserveBps;
    var n := planned * BPS + d - 1;
    assert n == n / d * d + n % d;
    assert (n / d - 1) * d == n / d * d - d;
  }

  /** There is no commitment exactly when the reserve takes everything or none of 64 bits covers the plan. */
  lemma CommitmentFailsIff(planned: u64, reserveBps: nat)
    ensures GrossUpReserve(planned, reserveBps).Err?
       <==> reserveBps >= BPS || U64_MAX * (BPS - reserveBps) < planned * BPS
  {
    if reserveBps < BPS {
      var d := BPS - reserveBps;
      AtMostQuotient(planned * BPS + d - 1, d, U64_MAX + 1);
      assert (U64_MAX + 1) * d == U64_MAX * d + d;
    }
  }

  /** The largest notional is the least number of micros that is not below the order's. */
  lemma NotionalIsCeiling(atoms: u64, price: u64)
    ensures var micros := MaxNotional(atoms, price);
            atoms * price <= micros * ATOMS_PER_HYPE && (micros > 0 ==> (micros - 1) * ATOMS_PER_HYPE < atoms * price)
  {
    var n := atoms * price;
    MulLe(0, atoms, price);
  }

  /** A fee ceiling that the reserve covers, whatever the size of the order. */
  predicate FeeFits(feeBps: nat, reserveBps: nat) {
    reserveBps <= BPS && (BPS + feeBps) * (BPS - reserveBps) <= BPS * BPS
  }

  lemma ReserveOfTheFeeFits(feeBps: nat, reserveBps: nat)
    requires feeBps <= reserveBps < BPS
    ensures FeeFits(feeBps, reserveBps)
  {
    assert (BPS + feeBps) * (BPS - reserveBps)
        == BPS * BPS - BPS * (reserveBps - feeBps) - feeBps * reserveBps;
    assert feeBps * reserveBps >= 0;
  }

  lemma MarkedUpFits(n: nat, planned: nat, committed: nat, fee: nat, reserve: nat)
    requires reserve < BPS && FeeFits(fee, reserve)
    requires n <= planned * ATOMS_PER_HYPE && committed * (BPS - reserve) >= planned * BPS
    ensures n * (BPS + fee) <= committed * ATOMS_PER_HYPE * BPS
  {
    var d := BPS - reserve;
    // n (1 + fee) d <= planned ATOMS (1 + fee) d <= planned ATOMS BPS BPS <= committed d ATOMS BPS
    var fd := (BPS + fee) * d;
    assert n * fd <= (planned * ATOMS_PER_HYPE) * fd by { MulLe(n, planned * ATOMS_PER_HYPE, fd); }
    assert (planned * ATOMS_PER_HYPE) * fd <= (planned * ATOMS_PER_HYPE) * (BPS * BPS) by {
      MulLe(fd, BPS * BPS, planned * ATOMS_PER_HYPE);
    }
    assert (planned * BPS) * (ATOMS_PER_HYPE * BPS) <= (committed * d) * (ATOMS_PER_HYPE * BPS) by {
      MulLe(planned * BPS, committed * d, ATOMS_PER_HYPE * BPS);
    }
    var left, right := n * (BPS + fee), committed * ATOMS_PER_HYPE * BPS;
    assert left * d == n * fd;
    assert right * d == (committed * d) * (ATOMS_PER_HYPE * BPS);
    CancelLe(left, right, d);
  }

  /** Within its plan, and with a commitment that covers the plan, an order passes both bounds. */
  lemma CoveredOrderPasses(planned: u64, committed: u64, atoms: u64, price: u64, fee: nat, reserve: nat)
    requires reserve < BPS && FeeFits(fee, reserve)
    requires atoms * price <= planned * ATOMS_PER_HYPE && committed * (BPS - reserve) >= planned * BPS
    ensures CapitalChecks(planned, committed, atoms, price, fee).Pass?
  {
    hide *;
    MarkedUpFits(atoms * price, planned, committed, fee, reserve);
    ChecksInWholeNumbers(planned, committed, atoms, price, fee);
  }

  /**
   * Under a live policy, whose reserve is at least its fee ceiling, no sized order
   * is ever refused for capital: its notional fits the plan, also rounded up to a
   * micro, and marked up by the fee it fits every commitment whose unreserved part
   * covers the plan, as the commitment of `CommitmentCovers` does.
   */
  lemma LiveOrdersSubmit(
    planned: u64, committed: u64, price: u64, sizeDecimals: nat, feeBps: nat, reserveBps: nat)
    requires sizeDecimals <= 8 && QuantityForBudget(planned, price, sizeDecimals).Ok?
    requires feeBps <= reserveBps < BPS && committed * (BPS - reserveBps) >= planned * BPS
    ensures var atoms := QuantityForBudget(planned, price, sizeDecimals).value;
            MaxNotional(atoms, price) <= planned && CapitalChecks(planned, committed, atoms, price, feeBps).Pass?
  {
    hide *;
    var atoms := QuantityForBudget(planned, price, sizeDecimals).value;
    SizedIsLargest(planned, price, sizeDecimals);
    ReserveOfTheFeeFits(feeBps, reserveBps);
    CoveredOrderPasses(planned, committed, atoms, price, feeBps, reserveBps);
  }

  /** Every order that can be sized and committed also passes the capital checks. */
  ghost predicate EveryOrderSubmits(feeBps: nat, reserveBps: nat) {
    forall planned: u64, price: u64, sizeDecimals: nat |
      sizeDecimals <= 8 && QuantityForBudget(planned, price, sizeDecimals).Ok?
      && GrossUpReserve(planned, reserveBps).Ok? ::
      CapitalChecks(planned, GrossUpReserve(planned, reserveBps).value,
                    QuantityForBudget(planned, price, sizeDecimals).value, price, feeBps).Pass?
  }

  /** One HYPE, where a plan pays for one and not for two. */
  lemma OneHype(planned: u64, price: u64)
    requires 0 < price <= planned < 2 * price
    ensures QuantityForBudget(planned, price, 0) == Ok(ATOMS_PER_HYPE)
  {
    hide QuantityForBudget;
    assert Pow10(0) == 1;
    LotScale(0);
    SizedInLots(planned, price, 0);
    BetweenMultiples(planned, 1, price);
  }

  /** One HYPE at a price that is the whole plan, with a commitment that needs no rounding. */
  lemma TightOrder(feeBps: nat, reserveBps: nat)
    requires reserveBps < BPS && !FeeFits(feeBps, reserveBps)
    ensures var planned := BPS - reserveBps;
            && QuantityForBudget(planned, planned, 0) == Ok(ATOMS_PER_HYPE)
            && GrossUpReserve(planned, reserveBps) == Ok(BPS)
            && CapitalChecks(planned, BPS, ATOMS_PER_HYPE, planned, feeBps).Fail?
  {
    hide QuantityForBudget, CapitalChecks;
    var planned := BPS - reserveBps;
    OneHype(planned, planned);
    assert (planned * BPS + planned - 1) / planned == BPS by { ExactQuotient(planned, BPS); }
    ChecksInWholeNumbers(planned, BPS, ATOMS_PER_HYPE, planned, feeBps);
    assert ATOMS_PER_HYPE * planned * (BPS + feeBps) == ((BPS + feeBps) * planned) * ATOMS_PER_HYPE;
  }

  lemma ExactQuotient(d: nat, k: nat)
    requires d > 0
    ensures (d * k + d - 1) / d == k
  {
    assert (k + 1) * d == d * k + d;
    BetweenMultiples(d * k + d - 1, k, d);
  }

  /**
   * Whatever the reserve, some order passes: where lots round the quantity well
   * below the plan, the room left pays the fee. So no reserve fails every size.
   */
  lemma SomeOrderPasses(committed: u64, feeBps: nat, reserveBps: nat)
    requires feeBps < BPS && reserveBps < BPS && committed * (BPS - reserveBps) >= 19_999 * BPS
    ensures QuantityForBudget(19_999, 10_000, 0) == Ok(ATOMS_PER_HYPE)
    ensures CapitalChecks(19_999, committed, ATOMS_PER_HYPE, 10_000, feeBps).Pass?
  {
    hide QuantityForBudget, CapitalChecks;
    OneHype(19_999, 10_000);
    ChecksInWholeNumbers(19_999, committed, ATOMS_PER_HYPE, 10_000, feeBps);
    MulLe(BPS - reserveBps, BPS, committed);
  }

  /** The exact threshold: orders of every size pass if and only if the reserve covers the marked-up fee. */
  lemma ReserveThresholdIsExact(feeBps: nat, reserveBps: nat)
    requires reserveBps < BPS
    ensures EveryOrderSubmits(feeBps, reserveBps) <==> FeeFits(feeBps, reserveBps)
  {
    hide Pow10, QuantityForBudget, GrossUpReserve, CapitalChecks, FeeFits;
    if FeeFits(feeBps, reserveBps) {
      forall planned: u64, price: u64, sizeDecimals: nat |
        sizeDecimals <= 8 && QuantityForBudget(planned, price, sizeDecimals).Ok?
        && GrossUpReserve(planned, reserveBps).Ok?
        ensures CapitalChecks(planned, GrossUpReserve(planned, reserveBps).value,
                              QuantityForBudget(planned, price, sizeDecimals).value, price, feeBps).Pass?
      {
        OrderSubmits(planned, price, sizeDecimals, feeBps, reserveBps);
      }
    } else {
      TightOrder(feeBps, reserveBps);
    }
  }

  lemma OrderSubmits(planned: u64, price: u64, sizeDecimals: nat, feeBps: nat, reserveBps: nat)
    requires sizeDecimals <= 8 && QuantityForBudget(planned, price, sizeDecimals).Ok?
    requires GrossUpReserve(planned, reserveBps).Ok? && reserveBps < BPS && FeeFits(feeBps, reserveBps)
    ensures CapitalChecks(planned, GrossUpReserve(planned, reserveBps).value,
                          QuantityForBudget(planned, price, sizeDecimals).value, price, feeBps).Pass?
  {
    hide *;
    var atoms := QuantityForBudget(planned, price, sizeDecimals).value;
    var committed := GrossUpReserve(planned, reserveBps).value;
    SizedIsLargest(planned, price, sizeDecimals);
    CommitmentCovers(planned, reserveBps);
    CoveredOrderPasses(planned, committed, atoms, price, feeBps, reserveBps);
  }
}
