/** Capital cohorts of a backtest: every deposit is a cohort, and money is taken from the oldest first. */
module CohortLedgers {
  import opened Prelude
  import opened LedgerEvents

  // Amounts this small are treated as nothing.
  const DUST: real := 0.00000001

  predicate Negligible(amount: real) {
    amount <= DUST
  }

  datatype Purpose = Purchase | Withdrawal

  datatype Cohort = Cohort(eventId: Id, admitted: real, cash: real, invested: real, withdrawn: real)

  function Min(a: real, b: real): real {
    if b < a then b else a
  }

  function Cash(cs: seq<Cohort>): real {
    if cs == [] then 0.0 else Cash(cs[..|cs| - 1]) + cs[|cs| - 1].cash
  }

  function Invested(cs: seq<Cohort>): real {
    if cs == [] then 0.0 else Invested(cs[..|cs| - 1]) + cs[|cs| - 1].invested
  }

  function Withdrawn(cs: seq<Cohort>): real {
    if cs == [] then 0.0 else Withdrawn(cs[..|cs| - 1]) + cs[|cs| - 1].withdrawn
  }

  function Use(c: Cohort, used: real, purpose: Purpose): Cohort {
    if purpose.Purchase? then c.(cash := c.cash - used, invested := c.invested + used)
    else c.(cash := c.cash - used, withdrawn := c.withdrawn + used)
  }

  /** The cohorts after taking an amount oldest first, and what was left untaken. */
  function Drain(cs: seq<Cohort>, amount: real, purpose: Purpose): (r: (seq<Cohort>, real))
    ensures |r.0| == |cs|
  {
    if cs == [] then ([], amount)
    else
      var used := Min(cs[0].cash, amount);
      var left := amount - used;
      if Negligible(left) then ([Use(cs[0], used, purpose)] + cs[1..], left)
      else
        var (rest, untaken) := Drain(cs[1..], left, purpose);
        ([Use(cs[0], used, purpose)] + rest, untaken)
  }

  /** A cohort accounts for everything admitted to it and never goes into debt. */
  predicate CohortOk(c: Cohort) {
    c.admitted == c.cash + c.invested + c.withdrawn && c.cash >= 0.0
  }

  predicate AllOk(cs: seq<Cohort>) {
    forall c | c in cs :: CohortOk(c)
  }

  function Deposited(cs: seq<Cohort>, id: Id, amount: real): seq<Cohort> {
    cs + [Cohort(id, amount, amount, 0.0, 0.0)]
  }

  lemma {:induction false} SumsFront(cs: seq<Cohort>)
    requires cs != []
    ensures Cash(cs) == cs[0].cash + Cash(cs[1..])
    ensures Invested(cs) == cs[0].invested + Invested(cs[1..])
    ensures Withdrawn(cs) == cs[0].withdrawn + Withdrawn(cs[1..])
  {
    if |cs| > 1 {
      SumsFront(cs[..|cs| - 1]);
      assert cs[..|cs| - 1][1..] == cs[1..][..|cs| - 2];
    }
  }

  lemma {:induction false} CashIsNotNegative(cs: seq<Cohort>)
    requires AllOk(cs)
    ensures Cash(cs) >= 0.0
  {
    if cs != [] {
      assert cs[|cs| - 1] in cs;
      CashIsNotNegative(cs[..|cs| - 1]);
    }
  }

  /** Draining keeps every cohort's account. */
  lemma {:induction false} DrainKeepsAccounts(cs: seq<Cohort>, amount: real, purpose: Purpose)
    requires AllOk(cs)
    ensures AllOk(Drain(cs, amount, purpose).0)
  {
    if cs != [] {
      var used := Min(cs[0].cash, amount);
      var c := Use(cs[0], used, purpose);
      assert cs[0] in cs && CohortOk(c);
      assert forall x :: x in cs[1..] ==> x in cs;
      hide CohortOk, Use, Min;
      if amount - used > DUST {
        DrainKeepsAccounts(cs[1..], amount - used, purpose);
      }
    }
  }

  /** It stops within dust of an amount the cash can cover. */
  lemma {:induction false} DrainLeavesDust(cs: seq<Cohort>, amount: real, purpose: Purpose)
    requires AllOk(cs)
    ensures amount <= Cash(cs) + DUST ==> Drain(cs, amount, purpose).1 <= DUST
    ensures cs != [] || amount >= 0.0 ==> Drain(cs, amount, purpose).1 >= 0.0
  {
    if cs != [] {
      var used := Min(cs[0].cash, amount);
      SumsFront(cs);
      assert cs[0] in cs && forall x :: x in cs[1..] ==> x in cs;
      CashIsNotNegative(cs[1..]);
      hide Use;
      if amount - used > DUST {
        DrainLeavesDust(cs[1..], amount - used, purpose);
      }
    }
  }

  /** What leaves the cash of the cohorts is exactly what is recorded as invested or withdrawn. */
  lemma {:induction false} DrainMoves(cs: seq<Cohort>, amount: real, purpose: Purpose)
    ensures var (after, left) := Drain(cs, amount, purpose);
            && Cash(after) == Cash(cs) - (amount - left)
            && Invested(after) == Invested(cs) + (if purpose.Purchase? then amount - left else 0.0)
            && Withdrawn(after) == Withdrawn(cs) + (if purpose.Purchase? then 0.0 else amount - left)
  {
    hide Cash, Invested, Withdrawn;
    if cs != [] {
      var (after, left) := Drain(cs, amount, purpose);
      var used := Min(cs[0].cash, amount);
      SumsFront(cs);
      SumsFront(after);
      if Negligible(amount - used) {
        assert after[1..] == cs[1..];
      } else {
        DrainMoves(cs[1..], amount - used, purpose);
        assert after[1..] == Drain(cs[1..], amount - used, purpose).0;
      }
    }
  }

  /** A cohort changes only once every older one is drained. */
  lemma {:induction false} OldestFirst(cs: seq<Cohort>, amount: real, purpose: Purpose, i: nat, j: nat)
    requires AllOk(cs) && j < i < |cs|
    requires Drain(cs, amount, purpose).0[i] != cs[i]
    ensures Drain(cs, amount, purpose).0[j].cash == 0.0
  {
    var used := Min(cs[0].cash, amount);
    assert cs[0] in cs && forall x :: x in cs[1..] ==> x in cs;
    if amount - used > DUST && j > 0 {
      OldestFirst(cs[1..], amount - used, purpose, i - 1, j - 1);
    }
  }

  datatype CohortError = ExceedsCapital(purpose: Purpose)

  /** Taking is refused beyond the cash at hand and dust. */
  function TakeFrom(cs: seq<Cohort>, amount: real, purpose: Purpose): Result<seq<Cohort>, CohortError> {
    if amount > Cash(cs) + DUST then Err(ExceedsCapital(purpose)) else Ok(Drain(cs, amount, purpose).0)
  }

  /** The cohorts of one backtest, updated in place. */
  class CohortLedger {
    var cohorts: seq<Cohort>

    constructor ()
      ensures cohorts == []
    {
      cohorts := [];
    }

    method CashAtHand() returns (cash: real)
      ensures cash == Cash(cohorts)
    {
      cash := 0.0;
      for i := 0 to |cohorts|
        invariant cash == Cash(cohorts[..i])
      {
        assert cohorts[..i + 1][..i] == cohorts[..i];
        cash := cash + cohorts[i].cash;
      }
      assert cohorts[..|cohorts|] == cohorts;
    }

    method Deposit(id: Id, amount: real)
      modifies this
      ensures cohorts == Deposited(old(cohorts), id, amount)
    {
      cohorts := cohorts + [Cohort(id, amount, amount, 0.0, 0.0)];
    }

    method Take(amount: real, purpose: Purpose) returns (r: Result<(), CohortError>)
      modifies this
      ensures var spec := TakeFrom(old(cohorts), amount, purpose);
              if spec.Ok? then r.Ok? && cohorts == spec.value else r == Err(spec.error) && cohorts == old(cohorts)
    {
      var cash := CashAtHand();
      if amount > cash + DUST {
        return Err(ExceedsCapital(purpose));
      }
      DrainInPlace(amount, purpose);
      return Ok(());
    }

    method DrainInPlace(amount: real, purpose: Purpose)
      modifies this
      ensures cohorts == Drain(old(cohorts), amount, purpose).0
    {
      ghost var taken := Drain(cohorts, amount, purpose).0;
      TakeStarts(cohorts, amount, purpose);
      hide *;
      var remaining := amount;
      var i := 0;
      while i < |cohorts|
        invariant 0 <= i <= |cohorts|
        invariant Midway(cohorts, i, remaining, purpose, taken)
      {
        var used := Min(cohorts[i].cash, remaining);
        TakeTurns(cohorts, i, remaining, purpose, taken);
        cohorts := cohorts[i := Use(cohorts[i], used, purpose)];
        remaining := remaining - used;
        if Negligible(remaining) {
          return;
        }
        i := i + 1;
      }
      TakeEnds(cohorts, remaining, purpose, taken);
    }
  }

  /** The first `i` cohorts are as the take leaves them; draining the others leaves them so too. */
  ghost predicate Midway(cs: seq<Cohort>, i: nat, remaining: real, purpose: Purpose, taken: seq<Cohort>) {
    i <= |cs| && |taken| == |cs| && cs[..i] == taken[..i] && Drain(cs[i..], remaining, purpose).0 == taken[i..]
  }

  lemma TakeStarts(cs: seq<Cohort>, amount: real, purpose: Purpose)
    ensures Midway(cs, 0, amount, purpose, Drain(cs, amount, purpose).0)
  {
    assert cs[0..] == cs;
    hide Drain;
  }

  lemma TakeEnds(cs: seq<Cohort>, remaining: real, purpose: Purpose, taken: seq<Cohort>)
    requires Midway(cs, |cs|, remaining, purpose, taken)
    ensures cs == taken
  {
    hide Drain;
  }

  lemma TakeTurns(cs: seq<Cohort>, i: nat, remaining: real, purpose: Purpose, taken: seq<Cohort>)
    requires i < |cs| && Midway(cs, i, remaining, purpose, taken)
    ensures var used := Min(cs[i].cash, remaining);
            var next := cs[i := Use(cs[i], used, purpose)];
            if Negligible(remaining - used) then next == taken
            else Midway(next, i + 1, remaining - used, purpose, taken)
  {
    hide Use, Min, Drain, Negligible, Cash, Invested, Withdrawn, Midway;
    var used := Min(cs[i].cash, remaining);
    var c, rest := Use(cs[i], used, purpose), cs[i + 1..];
    var tail := if Negligible(remaining - used) then rest else Drain(rest, remaining - used, purpose).0;
    MidwayMeans(cs, i, remaining, purpose, taken);
    DrainTurn(cs[i], rest, remaining, purpose);
    ReplaceAt(cs, i, c, taken, tail);
    if !Negligible(remaining - used) {
      MidwayIf(cs[i := c], i + 1, remaining - used, purpose, taken);
    }
  }

  lemma MidwayMeans(cs: seq<Cohort>, i: nat, remaining: real, purpose: Purpose, taken: seq<Cohort>)
    requires Midway(cs, i, remaining, purpose, taken)
    ensures i <= |cs| && |taken| == |cs| && cs[..i] == taken[..i] && Drain(cs[i..], remaining, purpose).0 == taken[i..]
  {
  }

  lemma MidwayIf(cs: seq<Cohort>, i: nat, remaining: real, purpose: Purpose, taken: seq<Cohort>)
    requires i <= |cs| && |taken| == |cs| && cs[..i] == taken[..i]
    requires Drain(cs[i..], remaining, purpose).0 == taken[i..]
    ensures Midway(cs, i, remaining, purpose, taken)
  {
  }

  lemma ReplaceAt(cs: seq<Cohort>, i: nat, c: Cohort, taken: seq<Cohort>, tail: seq<Cohort>)
    requires i < |cs| == |taken| && cs[..i] == taken[..i]
    ensures cs[i..] == [cs[i]] + cs[i + 1..]
    ensures cs[i := c][i + 1..] == cs[i + 1..]
    ensures [c] + tail == taken[i..] ==> cs[i := c][..i + 1] == taken[..i + 1] && tail == taken[i + 1..]
    ensures [c] + cs[i + 1..] == taken[i..] ==> cs[i := c] == taken
  {
    hide *;
    if [c] + tail == taken[i..] {
      assert taken[i..][1..] == tail;
      assert taken[i] == c;
    }
    if [c] + cs[i + 1..] == taken[i..] {
      assert taken == taken[..i] + taken[i..];
    }
  }

  lemma DrainTurn(first: Cohort, rest: seq<Cohort>, remaining: real, purpose: Purpose)
    ensures var used := Min(first.cash, remaining);
            Drain([first] + rest, remaining, purpose).0
            == [Use(first, used, purpose)]
               + if Negligible(remaining - used) then rest else Drain(rest, remaining - used, purpose).0
  {
    assert ([first] + rest)[1..] == rest;
  }

  /** A take is refused exactly when the amount exceeds the cash of all cohorts by more than dust. */
  lemma TakeFailsIff(cs: seq<Cohort>, amount: real, purpose: Purpose)
    ensures TakeFrom(cs, amount, purpose).Err? <==> amount - Cash(cs) > DUST
    ensures DUST * 100000000.0 == 1.0
  {
  }

  /** A take keeps every cohort's account, and what it moves differs from what was asked by at most dust. */
  lemma TakeIsExactToDust(cs: seq<Cohort>, amount: real, purpose: Purpose)
    requires AllOk(cs) && TakeFrom(cs, amount, purpose).Ok?
    requires cs != [] || amount >= 0.0
    ensures var after := TakeFrom(cs, amount, purpose).value;
            var taken := Cash(cs) - Cash(after);
            && AllOk(after)
            && taken <= amount <= taken + DUST
            && (if purpose.Purchase? then Invested(after) == Invested(cs) + taken && Withdrawn(after) == Withdrawn(cs)
                else Withdrawn(after) == Withdrawn(cs) + taken && Invested(after) == Invested(cs))
  {
    DrainKeepsAccounts(cs, amount, purpose);
    DrainLeavesDust(cs, amount, purpose);
    DrainMoves(cs, amount, purpose);
  }
}
