/** Exact decimals as the venue reports them: a coefficient and a scale of at most 28 digits. */
module Decimals {
  import opened Prelude

  const MAX_SCALE: nat := 28

  function Pow10(n: nat): (p: nat)
    ensures p > 0
  {
    if n == 0 then 1 else 10 * Pow10(n - 1)
  }

  /** Two decimals with one value may still be written differently, as 0.3 and 0.30 are. */
  datatype DecimalForm = DecimalForm(coefficient: int, scale: nat)

  type Decimal = d: DecimalForm | d.scale <= MAX_SCALE witness DecimalForm(0, 0)

  // How many units of the finest scale make one.
  const ONE: nat := Pow10(MAX_SCALE)

  /** The value of a decimal, in units of the finest scale. */
  function Units(d: Decimal): int {
    d.coefficient * Pow10(MAX_SCALE - d.scale)
  }

  /** Units compare decimals by value, however they are written: they agree when the cross products do. */
  lemma UnitsAreValues(a: Decimal, b: Decimal)
    ensures Units(a) == Units(b) <==> a.coefficient * Pow10(b.scale) == b.coefficient * Pow10(a.scale)
    ensures a == DecimalForm(1, 0) ==> Units(a) == ONE
  {
    PowAdds(a.scale, MAX_SCALE - a.scale);
    PowAdds(b.scale, MAX_SCALE - b.scale);
    hide Pow10;
    var x, y := Pow10(MAX_SCALE - a.scale), Pow10(MAX_SCALE - b.scale);
    var k, l := Pow10(a.scale), Pow10(b.scale);
    assert k * x == ONE && l * y == ONE;
    CrossProducts(a.coefficient, b.coefficient, k, x, l, y);
  }

  lemma CrossProducts(a: int, b: int, k: nat, x: nat, l: nat, y: nat)
    requires k > 0 && x > 0 && l > 0 && y > 0 && k * x == l * y
    ensures a * x == b * y <==> a * l == b * k
  {
    var n := k * x;
    assert (a * x) * (k * l) == (a * l) * n;
    assert (b * y) * (k * l) == (b * k) * n;
    assert k * l > 0 && n > 0;
    CancelFactor(a * x, b * y, k * l);
    CancelFactor(a * l, b * k, n);
  }

  lemma CancelFactor(a: int, b: int, n: nat)
    requires n > 0
    ensures a * n == b * n <==> a == b
  {
    assert (a - b) * n == a * n - b * n;
    NoSmallMultiple(a - b, n);
  }

  /** The nearest integer to `n / d`, an exact half going to the even neighbour. */
  function RoundHalfEven(n: nat, d: nat): nat
    requires d > 0
  {
    var q, r := n / d, n % d;
    if 2 * r < d || (2 * r == d && q % 2 == 0) then q else q + 1
  }

  /** Rounding is off by at most half, and exact on whole numbers. */
  lemma RoundedIsNearest(n: nat, d: nat)
    requires d > 0
    ensures 2 * RoundHalfEven(n, d) * d <= 2 * n + d
    ensures 2 * n <= 2 * RoundHalfEven(n, d) * d + d
    ensures n % d == 0 ==> RoundHalfEven(n, d) * d == n
    ensures 2 * (n % d) == d ==> RoundHalfEven(n, d) % 2 == 0
  {
    var q, r := n / d, n % d;
    assert n == q * d + r;
    assert (q + 1) * d == q * d + d;
    assert 2 * RoundHalfEven(n, d) * d == 2 * (RoundHalfEven(n, d) * d);
  }

  // The largest coefficient, of 96 bits.
  const MAX_COEFFICIENT: nat := 0xFFFF_FFFF_FFFF_FFFF_FFFF_FFFF

  /** The coefficient of a quotient, rounded at a scale. */
  function CoefficientAt(n: nat, d: nat, scale: nat): nat
    requires d > 0
  {
    RoundHalfEven(n * Pow10(scale), d)
  }

  predicate Fits(n: nat, d: nat, scale: nat)
    requires d > 0
  {
    CoefficientAt(n, d, scale) <= MAX_COEFFICIENT
  }

  /** The finest scale, down from a given one, at which the rounded quotient still fits its coefficient. */
  function DivisionScale(n: nat, d: nat, scale: nat): (s: nat)
    requires d > 0
    ensures s <= scale
    ensures s == 0 || Fits(n, d, s)
    ensures s == scale || !Fits(n, d, s + 1)
  {
    if scale == 0 || Fits(n, d, scale) then scale else DivisionScale(n, d, scale - 1)
  }

  /** The quotient of two amounts in one unit, to the nearest decimal of the finest scale that fits. */
  function Divide(n: nat, d: nat): Option<Decimal> {
    if d == 0 then None
    else
      var s := DivisionScale(n, d, MAX_SCALE);
      if Fits(n, d, s) then Some(DecimalForm(CoefficientAt(n, d, s), s)) else None
  }

  /** The whole multiples of a tenth-power fraction that a decimal holds. */
  function WholeParts(x: Decimal, places: nat): int {
    x.coefficient * Pow10(places) / Pow10(x.scale)
  }

  lemma {:induction false} PowAdds(a: nat, b: nat)
    ensures Pow10(a + b) == Pow10(a) * Pow10(b)
  {
    if a > 0 {
      PowAdds(a - 1, b);
    }
  }

  lemma PowGrows(a: nat, b: nat)
    requires a <= b
    ensures Pow10(a) <= Pow10(b)
  {
    PowAdds(a, b - a);
    MulLe(1, Pow10(b - a), Pow10(a));
  }

  lemma KnownPowers()
    ensures Pow10(0) == 1 && Pow10(8) == 100_000_000 && Pow10(9) == 1_000_000_000
    ensures Pow10(20) == 100_000_000_000_000_000_000
  {
    assert Pow10(4) == 10_000;
    assert Pow10(8) == 100_000_000 by { PowAdds(4, 4); }
    assert Pow10(16) == 10_000_000_000_000_000 by { PowAdds(8, 8); }
    PowAdds(4, 16);
    assert Pow10(9) == 10 * Pow10(8);
  }

  /** With 64-bit amounts the finest scale leaves less than half a unit of error for every divisor. */
  lemma ScaleIsFine(n: u64, d: u64)
    requires d > 0
    ensures var s := DivisionScale(n, d, MAX_SCALE);
            && s >= 9 && Fits(n, d, s) && d < 2 * Pow10(s - 8)
  {
    var s := DivisionScale(n, d, MAX_SCALE);
    KnownPowers();
    hide Fits, DivisionScale, Pow10;
    if s < MAX_SCALE {
      var t := Pow10(s + 1);
      TooFine(n, d, t, s + 1);
      if s < 9 {
        PowGrows(s + 1, 9);
        assert false;
      }
      PowAdds(9, s - 8);
    }
  }

  lemma TooFine(n: u64, d: u64, t: nat, scale: nat)
    requires d > 0 && t == Pow10(scale) && !Fits(n, d, scale)
    ensures t > 4_000_000_000 * d >= 4_000_000_000
  {
    hide Pow10, RoundHalfEven;
    var c := RoundHalfEven(n * t, d);
    RoundedIsNearest(n * t, d);
    MulLe(n, U64_MAX, t);
    MulLe(MAX_COEFFICIENT + 1, c, d);
    assert 2 * c * d == 2 * (c * d);
  }

  lemma RoundedAbove(n: nat, d: nat, low: nat)
    requires d > 0 && low * d <= n
    ensures RoundHalfEven(n, d) >= low
  {
    var q, r := n / d, n % d;
    assert n == q * d + r;
    assert (q + 1) * d == q * d + d;
    if q < low {
      MulLe(q + 1, low, d);
    }
  }

  lemma RoundedBelow(n: nat, d: nat, high: nat)
    requires d > 0 && 2 * n + d < 2 * (high * d)
    ensures RoundHalfEven(n, d) < high
  {
    hide RoundHalfEven;
    var c := RoundHalfEven(n, d);
    RoundedIsNearest(n, d);
    assert 2 * c * d == 2 * (c * d);
    if high <= c {
      MulLe(high, c, d);
    }
  }

  lemma BetweenMultiples(x: nat, k: nat, s: nat)
    requires s > 0 && k * s <= x < (k + 1) * s
    ensures x / s == k
  {
    var q, r := x / s, x % s;
    assert x == q * s + r;
    assert (q - k) * s == q * s - k * s;
    NoSmallMultiple(q - k, s);
    assert (k + 1) * s == k * s + s;
  }

  /** Rounding at a scale this fine does not change how many whole parts the quotient holds. */
  lemma RoundingKeepsParts(n: nat, d: nat, parts: nat, fine: nat)
    requires d > 0 && parts > 0 && fine > 0 && d < 2 * fine
    ensures RoundHalfEven(n * (parts * fine), d) * parts / (parts * fine) == n * parts / d
  {
    hide RoundHalfEven;
    var k, s := n * parts / d, parts * fine;
    var c := RoundHalfEven(n * s, d);
    PartsBelow(n, d, parts, fine);
    PartsAbove(n, d, parts, fine);
    Regroup(k, parts, fine);
    Regroup(k + 1, parts, fine);
    MulLe(k * fine, c, parts);
    MulLe(c + 1, (k + 1) * fine, parts);
    assert (c + 1) * parts == c * parts + parts;
    BetweenMultiples(c * parts, k, s);
  }

  lemma Regroup(k: nat, parts: nat, fine: nat)
    ensures (k * fine) * parts == k * (parts * fine)
  {
  }

  lemma PartsBelow(n: nat, d: nat, parts: nat, fine: nat)
    requires d > 0
    ensures n * parts / d * fine <= RoundHalfEven(n * (parts * fine), d)
  {
    hide RoundHalfEven;
    var k, r := n * parts / d, n * parts % d;
    assert n * parts == k * d + r;
    Regroup(n, fine, parts);
    assert (k * fine) * d == (k * d) * fine;
    MulLe(k * d, n * parts, fine);
    RoundedAbove(n * (parts * fine), d, k * fine);
  }

  lemma PartsAbove(n: nat, d: nat, parts: nat, fine: nat)
    requires d > 0 && d < 2 * fine
    ensures RoundHalfEven(n * (parts * fine), d) < (n * parts / d + 1) * fine
  {
    hide RoundHalfEven;
    var k, r := n * parts / d, n * parts % d;
    assert n * parts == k * d + r;
    Regroup(n, fine, parts);
    var next := (k + 1) * d;
    assert next == k * d + d;
    assert ((k + 1) * fine) * d == next * fine;
    MulLe(n * parts + 1, next, fine);
    assert (n * parts + 1) * fine == n * parts * fine + fine;
    RoundedBelow(n * (parts * fine), d, (k + 1) * fine);
  }

  /**
   * The quotient of two 64-bit amounts always exists, and although it is rounded it
   * holds exactly as many whole parts of up to eight decimals as the true quotient.
   */
  lemma QuotientHoldsParts(n: u64, d: u64, places: nat)
    requires d > 0 && places <= 8
    ensures Divide(n, d).Some?
    ensures WholeParts(Divide(n, d).value, places) == n * Pow10(places) / d
  {
    var s := DivisionScale(n, d, MAX_SCALE);
    ScaleIsFine(n, d);
    hide Fits, DivisionScale, Pow10, RoundHalfEven;
    PowAdds(places, s - places);
    PowGrows(s - 8, s - places);
    RoundingKeepsParts(n, d, Pow10(places), Pow10(s - places));
  }

  lemma MulLe(a: nat, b: nat, k: nat)
    requires a <= b
    ensures a * k <= b * k == k * b
  {
  }

  lemma NoSmallMultiple(x: int, d: nat)
    ensures x >= 1 ==> x * d >= d
    ensures x <= -1 ==> x * d + d <= 0
    ensures x == 0 ==> x * d == 0
  {
    if x >= 1 {
      MulLe(1, x, d);
    } else if x <= -1 {
      MulLe(1, -x, d);
      assert x * d == -((-x) * d);
    }
  }
}
