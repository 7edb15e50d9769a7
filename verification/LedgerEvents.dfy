/** Journal events and the validation every event passes before it is replayed. */
module LedgerEvents {
  import opened Prelude

  type Id = string

  // Nanoseconds since the epoch, UTC.
  type Time = int

  // Days since the epoch, UTC.
  type Date = int

  const DAY_NANOS: int := 86_400_000_000_000

  function DateOf(at: Time): Date {
    at / DAY_NANOS
  }

  /** Monday is 1 and Sunday 7; day 0 was a Thursday. */
  function Weekday(date: Date): int {
    (date + 3) % 7 + 1
  }

  /** Dates are the UTC days, and weekdays turn with them; 5 January 2026 is a Monday. */
  lemma CalendarIsCivil(at: Time, date: Date)
    ensures DateOf(at) == date <==> date * DAY_NANOS <= at < (date + 1) * DAY_NANOS
    ensures 1 <= Weekday(date) <= 7 && Weekday(date + 1) == (if Weekday(date) == 7 then 1 else Weekday(date) + 1)
    ensures Weekday(20_458) == 1
  {
  }

  datatype CapitalAllocation = CapitalAllocation(trancheId: Id, amount: u64)

  datatype EventKind =
    | AuthoritativeDeposit(amount: u64)
    | AuthoritativeParentFunding(amount: u64, parentAccount: string, executionAccount: string)
    | AuthoritativeTransferWithdrawal(
        unadmitted: seq<CapitalAllocation>, amount: u64, executionAccount: string, counterparty: string)
    | DepositAdmission(depositEventId: Id, amount: u64)
    | AuthoritativeWithdrawal(amount: u64)
    | CapitalCommitted(commitmentId: Id, amount: u64)
    | CapitalSettled(commitmentId: Id, debited: u64)
    | BalanceObserved(observedUsdc: u64, observedHypeAtoms: u64)
    | DailyDecision(decisionId: Id, decisionDate: Date, commitmentId: Id, planned: u64, committed: u64)
    | DailySkip(decisionId: Id, decisionDate: Date, reason: string)
    | OrderRecorded(orderId: Id, decisionId: Id)
    | FillRecorded(fillId: Id, orderId: Id, filled: u64, receivedHypeAtoms: u64)
    | FeeRecorded(feeId: Id, orderId: Id, fee: u64)
    | StakingDepositRecorded(actionId: Id, hypeAtoms: u64)
    | DelegationRecorded(actionId: Id, validatorId: Id, hypeAtoms: u64)
    | RewardRecorded(rewardId: Id, hypeAtoms: u64)
    | ReconciliationCorrection(correctionId: Id, observedUsdc: u64, observedHypeAtoms: u64, reason: string)
    | RuntimeCyclePrepared(cycleHash: string)
    | RuntimeCycleCommitted(cycleHash: string)

  datatype Event = Event(id: Id, at: Time, kind: EventKind)

  /** Unicode white space, as string trimming sees it. */
  predicate IsSpace(c: char) {
    '\U{0009}' <= c <= '\U{000D}' || c == ' ' || c == '\U{0085}' || c == '\U{00A0}' || c == '\U{1680}'
    || '\U{2000}' <= c <= '\U{200A}' || c == '\U{2028}' || c == '\U{2029}' || c == '\U{202F}'
    || c == '\U{205F}' || c == '\U{3000}'
  }

  /** Non-empty and equal to its own trimmed form. */
  predicate IsId(s: string) {
    |s| > 0 && !IsSpace(s[0]) && !IsSpace(s[|s| - 1])
  }

  predicate IsText(s: string) {
    exists i | 0 <= i < |s| :: !IsSpace(s[i])
  }

  predicate IsLowerHex(s: string) {
    forall i | 0 <= i < |s| :: '0' <= s[i] <= '9' || 'a' <= s[i] <= 'f'
  }

  predicate IsSha256(s: string) {
    |s| == 64 && IsLowerHex(s)
  }

  predicate IsAccount(s: string) {
    |s| == 42 && s[..2] == "0x" && IsLowerHex(s[2..])
  }

  predicate UniqueTranches(allocations: seq<CapitalAllocation>) {
    forall i, j | 0 <= i < j < |allocations| :: allocations[i].trancheId != allocations[j].trancheId
  }

  predicate IsAllocation(a: CapitalAllocation) {
    IsId(a.trancheId) && a.amount > 0
  }

  /** Checks allocations one after the other, each for itself before it is compared with those seen. */
  function ValidateAllocations(allocations: seq<CapitalAllocation>, seen: set<Id>): (r: Outcome<LedgerError>)
    ensures r.Pass? <==> (forall a :: a in allocations ==> IsAllocation(a) && a.trancheId !in seen)
                         && UniqueTranches(allocations)
  {
    if allocations == [] then Pass
    else
      var first, rest := allocations[0], allocations[1..];
      assert allocations == [first] + rest;
      assert UniqueTranches(allocations) <==>
             UniqueTranches(rest) && forall a :: a in rest ==> a.trancheId != first.trancheId;
      if !IsAllocation(first) then Fail(InvalidEvent)
      else if first.trancheId in seen then Fail(CorruptLedger)
      else ValidateAllocations(rest, seen + {first.trancheId})
  }

  function ValidateAccounts(other: string, execution: string): Outcome<LedgerError> {
    Need(IsAccount(other) && IsAccount(execution) && other != execution, CorruptLedger)
  }

  function ValidateEvent(event: Event): Outcome<LedgerError> {
    if !IsId(event.id) then Fail(InvalidEvent)
    else
      match event.kind
      case AuthoritativeParentFunding(amount, parent, execution) =>
        if amount == 0 then Fail(InvalidEvent) else ValidateAccounts(parent, execution)
      case AuthoritativeTransferWithdrawal(unadmitted, amount, execution, counterparty) =>
        if amount == 0 then Fail(InvalidEvent)
        else if ValidateAllocations(unadmitted, {}).Fail? then ValidateAllocations(unadmitted, {})
        else ValidateAccounts(counterparty, execution)
      case AuthoritativeDeposit(amount) => Need(amount > 0, InvalidEvent)
      case AuthoritativeWithdrawal(amount) => Need(amount > 0, InvalidEvent)
      case DepositAdmission(deposit, amount) => Need(IsId(deposit) && amount > 0, InvalidEvent)
      case CapitalCommitted(commitment, amount) => Need(IsId(commitment) && amount > 0, InvalidEvent)
      case CapitalSettled(commitment, _) => Need(IsId(commitment), InvalidEvent)
      case BalanceObserved(_, _) => Pass
      case DailyDecision(decision, _, commitment, planned, committed) =>
        Need(IsId(decision) && IsId(commitment) && planned > 0 && planned <= committed, InvalidEvent)
      case DailySkip(decision, _, reason) => Need(IsId(decision) && IsText(reason), InvalidEvent)
      case OrderRecorded(order, decision) => Need(IsId(order) && IsId(decision), InvalidEvent)
      case FillRecorded(fill, order, filled, received) =>
        Need(IsId(fill) && IsId(order) && filled > 0 && received > 0, InvalidEvent)
      case FeeRecorded(fee, order, amount) => Need(IsId(fee) && IsId(order) && amount > 0, InvalidEvent)
      case StakingDepositRecorded(action, atoms) => Need(IsId(action) && atoms > 0, InvalidEvent)
      case DelegationRecorded(action, validator, atoms) =>
        Need(IsId(action) && IsId(validator) && atoms > 0, InvalidEvent)
      case RewardRecorded(reward, atoms) => Need(IsId(reward) && atoms > 0, InvalidEvent)
      case ReconciliationCorrection(correction, _, _, reason) =>
        Need(IsId(correction) && IsText(reason), InvalidEvent)
      case RuntimeCyclePrepared(hash) => Need(IsSha256(hash), InvalidEvent)
      case RuntimeCycleCommitted(hash) => Need(IsSha256(hash), InvalidEvent)
  }
}
