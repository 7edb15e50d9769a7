/** Result types, the ledger's error kinds, and checked 64-bit money arithmetic. */
module Prelude {
  datatype Option<+T> = None | Some(value: T)

  datatype Result<+T, +E> = Ok(value: T) | Err(error: E) {
    predicate IsFailure() {
      Err?
    }

    function PropagateFailure<U>(): Result<U, E>
      requires Err?
    {
      Err(error)
    }

    function Extract(): T
      requires Ok?
    {
      value
    }
  }

  /** A check that carries no value: `:- Need(condition, error);` */
  datatype Outcome<+E> = Pass | Fail(error: E) {
    predicate IsFailure() {
      Fail?
    }

    function PropagateFailure<U>(): Result<U, E>
      requires Fail?
    {
      Err(error)
    }
  }

  function Need<E>(condition: bool, error: E): Outcome<E> {
    if condition then Pass else Fail(error)
  }

  /** The error kinds of the ledger; the text each one carries is not modelled. */
  datatype LedgerError =
    | InvalidEvent
    | EventCollision
    | UnknownDeposit
    | AdmissionExceedsDeposit
    | InsufficientDeployableCapital
    | CommitmentCollision
    | ActionIdCollision
    | RewardIdCollision
    | CorrectionIdCollision
    | RuntimeCycleCollision
    | UnknownRuntimeCycle
    | DecisionDateCollision
    | DecisionIdCollision
    | DecisionDateMismatch
    | DecisionCommitmentCollision
    | UnknownDecision
    | InsufficientDecisionBacking
    | OrderIdCollision
    | FillIdCollision
    | FeeIdCollision
    | UnknownOrder
    | FillExceedsDecisionPlan
    | DecisionCostsExceedCommitment
    | UnknownCommitment
    | CommitmentAlreadySettled
    | DebitExceedsCommitment
    | DebitBelowRecordedCosts
    | TruncatedLedger
    | CorruptLedger
    | MissingSnapshot
    | SnapshotMismatch
    | StaleSnapshot
    | CorruptPending
    | MissingProtectedAnchor
    | ProtectedAnchorMismatch
    | CorruptRestorePending
    | RestoreDestinationNotEmpty
    | ConcurrentModification
    | ArithmeticOverflow

  const U64_MAX: int := 0xFFFF_FFFF_FFFF_FFFF

  type u64 = n: int | 0 <= n <= U64_MAX

  function CheckedAdd(left: u64, right: u64): Result<u64, LedgerError> {
    if left + right <= U64_MAX then Ok(left + right) else Err(ArithmeticOverflow)
  }

  function CheckedSub(left: u64, right: u64): Result<u64, LedgerError> {
    if right <= left then Ok(left - right) else Err(CorruptLedger)
  }

  function SaturatingAdd(left: u64, right: u64): u64 {
    if left + right <= U64_MAX then left + right else U64_MAX
  }

  function SaturatingSub(left: u64, right: u64): u64 {
    if right <= left then left - right else 0
  }

  function Max(left: int, right: int): int {
    if left < right then right else left
  }

  function MaxOption(left: Option<int>, right: int): int {
    if left.Some? then Max(left.value, right) else right
  }

  /** The sum of a finite map of amounts, in no particular order. */
  ghost function SumOf<K>(m: map<K, int>): int {
    if m == map[] then 0
    else
      var k :| k in m;
      m[k] + SumOf(m - {k})
  }

  /** Any key may be taken out first. */
  lemma {:induction false} SumTake<K>(m: map<K, int>, k: K)
    requires k in m
    ensures SumOf(m) == m[k] + SumOf(m - {k})
    decreases |m|
  {
    var j :| j in m && SumOf(m) == m[j] + SumOf(m - {j});
    if j != k {
      assert |m - {j}| < |m| && |m - {k}| < |m| by {
        SmallerWithout(m, j);
        SmallerWithout(m, k);
      }
      SumTake(m - {j}, k);
      SumTake(m - {k}, j);
      assert m - {j} - {k} == m - {k} - {j};
    }
  }

  lemma SmallerWithout<K, V>(m: map<K, V>, k: K)
    requires k in m
    ensures |m - {k}| < |m|
  {
    assert (m - {k}).Keys == m.Keys - {k};
    assert |(m - {k}).Keys| == |m.Keys| - 1;
    assert |(m - {k}).Keys| == |m - {k}| && |m.Keys| == |m|;
  }

  lemma SumPut<K>(m: map<K, int>, k: K, v: int)
    ensures SumOf(m[k := v]) == v + SumOf(m - {k})
    ensures k !in m ==> SumOf(m[k := v]) == v + SumOf(m)
    ensures k in m ==> SumOf(m[k := v]) == v - m[k] + SumOf(m)
  {
    SumTake(m[k := v], k);
    assert m[k := v] - {k} == m - {k};
    if k in m {
      SumTake(m, k);
    } else {
      assert m - {k} == m;
    }
  }

  lemma {:induction false} SumBounds<K>(low: map<K, int>, high: map<K, int>)
    requires low.Keys == high.Keys
    requires forall k :: k in low ==> low[k] <= high[k]
    ensures SumOf(low) <= SumOf(high)
    decreases |low|
  {
    if low != map[] {
      var k :| k in low;
      SumTake(low, k);
      SumTake(high, k);
      SmallerWithout(low, k);
      SumBounds(low - {k}, high - {k});
    } else {
      assert high == map[];
    }
  }

  /** With no negative amounts, no entry exceeds the sum. */
  lemma {:induction false} SumNonNegative<K>(m: map<K, int>)
    requires forall k :: k in m ==> m[k] >= 0
    ensures SumOf(m) >= 0
    ensures forall k :: k in m ==> m[k] <= SumOf(m)
    decreases |m|
  {
    forall k | k in m
      ensures 0 <= m[k] <= SumOf(m)
    {
      SmallerWithout(m, k);
      SumNonNegative(m - {k});
      SumTake(m, k);
    }
    if m != map[] {
      var k :| k in m;
      assert m[k] <= SumOf(m);
    }
  }
}
