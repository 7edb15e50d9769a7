/**
 * Exactly which events a journal accepts next. The conditions speak of the
 * journal's own events and sums over them; the replayed state does not appear.
 */
module Acceptance {
  import opened Prelude
  import opened LedgerEvents
  import opened CapitalTimeline
  import opened LedgerReplay
  import opened CapitalConservation
  import opened PurchaseChain
  import opened PurchaseHistory
  import opened JournalTotals
  import opened JournalKeys
  import opened JournalSources
  import opened CapitalStanding
  import opened TaggedTimeline
  import opened SettlementProgress

  /** Enough capital stands from a time on to take an amount out. */
  ghost predicate MayTake(events: seq<Event>, at: Time, amount: int) {
    StandsFrom(Movements(events), at, amount)
  }

  /** A deposit that is not later has room for an amount besides what was admitted and returned. */
  ghost predicate HasRoom(events: seq<Event>, at: Time, deposit: Id, amount: int) {
    exists f ::
      && f in events && Funds(f, deposit) && f.at <= at
      && Tally(events, AdmissionsTo(deposit)) + Tally(events, ReturnsTo(deposit)) + amount <= f.kind.amount
  }

  ghost predicate MayAdmit(events: seq<Event>, at: Time, deposit: Id, amount: int) {
    HasRoom(events, at, deposit, amount) && Tally(events, AllAdmissions) + amount <= U64_MAX
  }

  ghost predicate MayTransfer(events: seq<Event>, at: Time, unadmitted: seq<CapitalAllocation>, amount: int) {
    && (forall a :: a in unadmitted ==> HasRoom(events, at, a.trancheId, a.amount))
    && Allocated(unadmitted) <= amount
    && MayTake(events, at, amount - Allocated(unadmitted))
  }

  predicate DecidesOn(e: Event, commitment: Id) {
    e.kind.DailyDecision? && e.kind.commitmentId == commitment
  }

  predicate Decides(e: Event, decision: Id) {
    e.kind.DailyDecision? && e.kind.decisionId == decision
  }

  predicate Commits(e: Event, commitment: Id) {
    e.kind.CapitalCommitted? && e.kind.commitmentId == commitment
  }

  ghost predicate IsSettled(events: seq<Event>, commitment: Id) {
    exists e :: e in events && e.kind.CapitalSettled? && e.kind.commitmentId == commitment
  }

  /** New, covered, and fit for a decision that already names it. */
  ghost predicate MayCommit(events: seq<Event>, at: Time, commitment: Id, amount: int) {
    && (forall e :: e in events ==> !Commits(e, commitment))
    && (forall d :: d in events && DecidesOn(d, commitment) ==> d.kind.committed <= amount && at <= d.at)
    && MayTake(events, at, amount)
  }

  /** Dated by its day, with a free date and a free identifier. */
  ghost predicate MayConclude(events: seq<Event>, at: Time, date: Date, decision: Id) {
    && date == DateOf(at)
    && forall e :: e in events && IsOutcome(e.kind) ==> e.kind.decisionDate != date && e.kind.decisionId != decision
  }

  /** An outcome on a commitment that no decision names and that, if it is there, backs it. */
  ghost predicate MayDecide(
    events: seq<Event>, at: Time, date: Date, decision: Id, commitment: Id, committed: int)
  {
    && MayConclude(events, at, date, decision)
    && (forall d :: d in events ==> !DecidesOn(d, commitment))
    && (forall k :: k in events && Commits(k, commitment) ==>
          committed <= k.kind.amount && k.at <= at && !IsSettled(events, commitment))
  }

  /** A decision of the journal, not later, on an unsettled commitment of at least its amount, not later either. */
  ghost predicate Backed(events: seq<Event>, at: Time, d: Event, k: Event) {
    && d in events && d.kind.DailyDecision? && d.at <= at
    && k in events && Commits(k, d.kind.commitmentId) && k.at <= at
    && d.kind.committed <= k.kind.amount && !IsSettled(events, d.kind.commitmentId)
  }

  ghost predicate MayOrder(events: seq<Event>, at: Time, order: Id, decision: Id) {
    && (forall e :: e in events && e.kind.OrderRecorded? ==> e.kind.orderId != order)
    && exists d, k :: Backed(events, at, d, k) && d.kind.decisionId == decision
  }

  /** A decision that an order of the journal, not later, belongs to, on an unsettled commitment. */
  ghost predicate OrderedOn(events: seq<Event>, at: Time, order: Id, o: Event, d: Event) {
    && o in events && o.at <= at && o.kind.OrderRecorded? && o.kind.orderId == order
    && d in events && Decides(d, o.kind.decisionId) && !IsSettled(events, d.kind.commitmentId)
  }

  ghost predicate MayFill(events: seq<Event>, at: Time, fill: Id, order: Id, filled: int) {
    && (forall e :: e in events && e.kind.FillRecorded? ==> e.kind.fillId != fill)
    && exists o, d ::
         && OrderedOn(events, at, order, o, d)
         && Tally(events, FillsOf(d.kind.decisionId)) + filled <= d.kind.planned
         && Tally(events, FillsOf(d.kind.decisionId)) + filled + Tally(events, FeesOf(d.kind.decisionId))
            <= d.kind.committed
  }

  ghost predicate MayCharge(events: seq<Event>, at: Time, fee: Id, order: Id, amount: int) {
    && (forall e :: e in events && e.kind.FeeRecorded? ==> e.kind.feeId != fee)
    && exists o, d ::
         && OrderedOn(events, at, order, o, d)
         && Tally(events, FillsOf(d.kind.decisionId)) + Tally(events, FeesOf(d.kind.decisionId)) + amount
            <= d.kind.committed
  }

  /** An order, fill or fee recorded under a decision. */
  ghost predicate ActsUnder(events: seq<Event>, e: Event, decision: Id) {
    || (e.kind.OrderRecorded? && e.kind.decisionId == decision)
    || ((e.kind.FillRecorded? || e.kind.FeeRecorded?) && OrderedUnder(events, e.kind.orderId, decision))
  }

  /** A debit within the commitment, its decision and the costs, dated behind everything linked to it. */
  ghost predicate MaySettle(events: seq<Event>, at: Time, commitment: Id, debited: int) {
    && !IsSettled(events, commitment)
    && (exists k :: k in events && Commits(k, commitment) && k.at <= at && debited <= k.kind.amount)
    && Tally(events, CostsOf(commitment)) <= debited
    && forall d :: d in events && DecidesOn(d, commitment) ==>
         && debited <= d.kind.committed && d.at <= at
         && forall e :: e in events && ActsUnder(events, e, d.kind.decisionId) ==> e.at <= at
  }

  /** What an event must be in itself. */
  predicate WellFormed(event: Event) {
    && IsId(event.id)
    && match event.kind
       case AuthoritativeDeposit(amount) => amount > 0
       case AuthoritativeParentFunding(amount, parent, execution) =>
         amount > 0 && IsAccount(parent) && IsAccount(execution) && parent != execution
       case AuthoritativeTransferWithdrawal(unadmitted, amount, execution, counterparty) =>
         && amount > 0 && IsAccount(counterparty) && IsAccount(execution) && counterparty != execution
         && (forall a :: a in unadmitted ==> IsId(a.trancheId) && a.amount > 0)
         && (forall i, j | 0 <= i < j < |unadmitted| :: unadmitted[i].trancheId != unadmitted[j].trancheId)
       case DepositAdmission(deposit, amount) => IsId(deposit) && amount > 0
       case AuthoritativeWithdrawal(amount) => amount > 0
       case CapitalCommitted(commitment, amount) => IsId(commitment) && amount > 0
       case CapitalSettled(commitment, _) => IsId(commitment)
       case BalanceObserved(_, _) => true
       case DailyDecision(decision, _, commitment, planned, committed) =>
         IsId(decision) && IsId(commitment) && 0 < planned <= committed
       case DailySkip(decision, _, reason) => IsId(decision) && IsText(reason)
       case OrderRecorded(order, decision) => IsId(order) && IsId(decision)
       case FillRecorded(fill, order, filled, received) => IsId(fill) && IsId(order) && filled > 0 && received > 0
       case FeeRecorded(fee, order, amount) => IsId(fee) && IsId(order) && amount > 0
       case StakingDepositRecorded(action, atoms) => IsId(action) && atoms > 0
       case DelegationRecorded(action, validator, atoms) => IsId(action) && IsId(validator) && atoms > 0
       case RewardRecorded(reward, atoms) => IsId(reward) && atoms > 0
       case ReconciliationCorrection(correction, _, _, reason) => IsId(correction) && IsText(reason)
       case RuntimeCyclePrepared(cycle) => IsSha256(cycle)
       case RuntimeCycleCommitted(cycle) => IsSha256(cycle)
  }

  /** What the journal asks of the next event, besides a fresh identifier. */
  ghost predicate Fitting(events: seq<Event>, event: Event) {
    match event.kind
    case AuthoritativeDeposit(_) => true
    case AuthoritativeParentFunding(_, _, _) => true
    case AuthoritativeTransferWithdrawal(unadmitted, amount, _, _) => MayTransfer(events, event.at, unadmitted, amount)
    case DepositAdmission(deposit, amount) => MayAdmit(events, event.at, deposit, amount)
    case AuthoritativeWithdrawal(amount) => MayTake(events, event.at, amount)
    case CapitalCommitted(commitment, amount) => MayCommit(events, event.at, commitment, amount)
    case CapitalSettled(commitment, debited) => MaySettle(events, event.at, commitment, debited)
    case BalanceObserved(_, _) => true
    case DailyDecision(decision, date, commitment, _, committed) =>
      MayDecide(events, event.at, date, decision, commitment, committed)
    case DailySkip(decision, date, _) => MayConclude(events, event.at, date, decision)
    case OrderRecorded(order, decision) => MayOrder(events, event.at, order, decision)
    case FillRecorded(fill, order, filled, _) => MayFill(events, event.at, fill, order, filled)
    case FeeRecorded(fee, order, amount) => MayCharge(events, event.at, fee, order, amount)
    case StakingDepositRecorded(action, _) => !Claimed(events, ActionNamed(action))
    case DelegationRecorded(action, _, _) => !Claimed(events, ActionNamed(action))
    case RewardRecorded(reward, _) => !Claimed(events, RewardNamed(reward))
    case ReconciliationCorrection(correction, _, _, _) => !Claimed(events, CorrectionNamed(correction))
    case RuntimeCyclePrepared(cycle) => !Claimed(events, Preparation(cycle))
    case RuntimeCycleCommitted(cycle) => Claimed(events, Preparation(cycle)) && !Claimed(events, Completion(cycle))
  }

  lemma ValidIff(event: Event)
    ensures ValidateEvent(event).Pass? <==> WellFormed(event)
  {
    hide IsSpace, IsText, IsSha256, IsAccount, IsId;
  }

  /** The timeline check of a debit, in terms of what stands. */
  lemma TakeIff(events: seq<Event>, c: Capital, at: Time, amount: u64)
    requires TimelineBalances(c) && c.timeline == StableSort(Movements(events))
    ensures RecordTimelineEntry(c.timeline, at, 0, amount).Ok? <==> MayTake(events, at, amount)
    ensures MayTake(events, at, amount) ==> c.withdrawn + c.committed + c.spent + amount <= c.admitted
  {
    hide StableSort, InsertByTime, RunTimeline, Covered, Net, Movements, StandsFrom, Sorted;
    var x := Entry(at, 0, amount);
    RunIsNet(c.timeline, 0);
    DebitRunsIff(c.timeline, x, 0);
    DebitIsCoveredIff(Movements(events), at, amount);
    if RunTimeline(InsertByTime(c.timeline, x), 0).Ok? {
      RunIsNet(InsertByTime(c.timeline, x), 0);
      NetOfInsert(c.timeline, x);
    }
  }

  lemma AdmissionRuns(tagged: seq<Tagged>, c: Capital, at: Time, amount: u64)
    requires TagsFit(tagged, c) && TimelineBalances(c) && c.admitted + amount <= U64_MAX
    ensures RecordTimelineEntry(c.timeline, at, amount, 0).Ok?
  {
    hide Insert, Untag, AdmitSum, Awaits, Unmentioned, WellMatched, InsertByTime, RunTimeline, Covered, Sorted,
         Ordered, Net;
    var x := Tagged(Entry(at, amount, 0), Admit);
    RunIsNet(c.timeline, 0);
    RefundKeepsCovered(c.timeline, x.entry, 0);
    InsertPlain(tagged, x, map[]);
    UntagInsert(tagged, x);
    AdmitSumInsert(tagged, x);
    NeverOverflows(Insert(tagged, x), map[], 0);
  }

  /** What the state shows of a deposit's room. */
  lemma RoomIff(events: seq<Event>, c: Capital, at: Time, deposit: Id, amount: int)
    requires DepositsTold(events, c) && CapitalTallied(events, c)
    ensures HasRoom(events, at, deposit, amount)
       <==> deposit in c.deposits && c.deposits[deposit].at <= at
            && c.deposits[deposit].admitted + c.deposits[deposit].returned + amount <= c.deposits[deposit].authoritative
  {
    hide Tally, DebitOf;
    assert DepositTallied(events, c, deposit);
    if deposit in c.deposits {
      var f :| f in events && Funds(f, deposit);
      assert Funds(f, f.id);
    }
  }

  lemma AdmitIff(events: seq<Event>, tagged: seq<Tagged>, c: Capital, at: Time, deposit: Id, amount: u64)
    requires DepositsTold(events, c) && CapitalTallied(events, c) && TimelineBalances(c) && TagsFit(tagged, c)
    ensures RecordAdmission(c, at, deposit, amount).Ok? <==> MayAdmit(events, at, deposit, amount)
  {
    RoomIff(events, c, at, deposit, amount);
    AdmittedTallied(events, c);
    hide RecordTimelineEntry, HasRoom, DepositsTold, CapitalTallied, TimelineBalances, TagsFit, Tally;
    if c.admitted + amount <= U64_MAX {
      AdmissionRuns(tagged, c, at, amount);
    }
  }

  lemma AdmittedTallied(events: seq<Event>, c: Capital)
    requires CapitalTallied(events, c)
    ensures c.admitted == Tally(events, AllAdmissions)
  {
    hide Tally, DepositTallied, DebitOf;
  }

  lemma WithdrawIff(events: seq<Event>, c: Capital, at: Time, amount: u64)
    requires TimelineBalances(c) && c.timeline == StableSort(Movements(events))
    ensures RecordDebit(c, at, amount).Ok? <==> MayTake(events, at, amount)
  {
    hide RecordTimelineEntry, MayTake, TimelineBalances, StableSort, Movements;
    TakeIff(events, c, at, amount);
  }

  /** Returning unadmitted funding passes exactly when every listed deposit has room for its own amount. */
  lemma {:induction false} ReturnsIff(
    deposits: map<Id, Deposit>, at: Time, allocations: seq<CapitalAllocation>, returned: u64)
    requires UniqueTranches(allocations)
    ensures ReturnUnadmitted(deposits, at, allocations, returned).Ok?
       <==> (forall a :: a in allocations ==> AllocationFits(deposits, at, a))
            && returned + Allocated(allocations) <= U64_MAX
  {
    AllocatedIsPositive(allocations);
    if allocations != [] {
      var a, rest := allocations[0], allocations[1..];
      assert allocations == [a] + rest;
      AllocatedIsPositive(rest);
      if AllocationFits(deposits, at, a) && returned + a.amount <= U64_MAX {
        var d := deposits[a.trancheId];
        var next := deposits[a.trancheId := d.(returned := d.returned + a.amount)];
        ReturnsIff(next, at, rest, returned + a.amount);
        forall b | b in rest
          ensures AllocationFits(next, at, b) <==> AllocationFits(deposits, at, b)
        {
          var i :| 0 <= i < |rest| && rest[i] == b;
          assert allocations[i + 1] == b && allocations[0] == a;
        }
      }
    }
  }

  ghost predicate AllocationFits(deposits: map<Id, Deposit>, at: Time, a: CapitalAllocation) {
    && a.trancheId in deposits && deposits[a.trancheId].at <= at
    && deposits[a.trancheId].admitted + deposits[a.trancheId].returned + a.amount <= deposits[a.trancheId].authoritative
  }

  lemma {:induction false} AllocatedIsPositive(allocations: seq<CapitalAllocation>)
    ensures Allocated(allocations) >= 0
  {
    if allocations != [] {
      AllocatedIsPositive(allocations[1..]);
    }
  }

  lemma TransferIff(events: seq<Event>, c: Capital, at: Time, unadmitted: seq<CapitalAllocation>, amount: u64)
    requires DepositsTold(events, c) && CapitalTallied(events, c) && TimelineBalances(c)
    requires c.timeline == StableSort(Movements(events)) && UniqueTranches(unadmitted)
    ensures RecordTransferWithdrawal(c, at, unadmitted, amount).Ok? <==> MayTransfer(events, at, unadmitted, amount)
  {
    hide RecordDebit, ReturnUnadmitted, MayTake, HasRoom, DepositsTold, CapitalTallied, StableSort, Movements,
         Allocated, AllocatedTo, UniqueTranches, RunTimeline, Net, Sorted;
    AllocatedIsPositive(unadmitted);
    ReturnsIff(c.deposits, at, unadmitted, 0);
    forall a | a in unadmitted
      ensures AllocationFits(c.deposits, at, a) <==> HasRoom(events, at, a.trancheId, a.amount)
    {
      RoomIff(events, c, at, a.trancheId, a.amount);
    }
    if ReturnUnadmitted(c.deposits, at, unadmitted, 0).Ok? {
      var (deposits, back) := ReturnUnadmitted(c.deposits, at, unadmitted, 0).value;
      ReturnsAreBooked(c.deposits, at, unadmitted, 0);
      if back <= amount {
        WithdrawIff(events, c.(deposits := deposits), at, amount - back);
      }
    }
  }

  ghost predicate HasOutcomeOn(events: seq<Event>, date: Date) {
    exists e :: e in events && IsOutcome(e.kind) && e.kind.decisionDate == date
  }

  ghost predicate HasOutcomeNamed(events: seq<Event>, id: Id) {
    exists e :: e in events && IsOutcome(e.kind) && e.kind.decisionId == id
  }

  ghost predicate HasDecisionOn(events: seq<Event>, commitment: Id) {
    exists e :: e in events && DecidesOn(e, commitment)
  }

  ghost predicate HasOrder(events: seq<Event>, id: Id) {
    exists e :: e in events && e.kind.OrderRecorded? && e.kind.orderId == id
  }

  ghost predicate HasFill(events: seq<Event>, id: Id) {
    exists e :: e in events && e.kind.FillRecorded? && e.kind.fillId == id
  }

  ghost predicate HasFee(events: seq<Event>, id: Id) {
    exists e :: e in events && e.kind.FeeRecorded? && e.kind.feeId == id
  }

  /** The purchase tables hold exactly the identifiers and dates of the journal's events. */
  ghost predicate KeysTold(events: seq<Event>, s: State) {
    && (forall k :: k in s.capital.commitments && s.capital.commitments[k].settled <==> IsSettled(events, k))
    && (forall date :: date in s.purchases.outcomes <==> HasOutcomeOn(events, date))
    && (forall id :: id in s.purchases.decisionIds <==> HasOutcomeNamed(events, id))
    && (forall k :: k in s.purchases.decisionCommitmentIds <==> HasDecisionOn(events, k))
    && (forall id :: id in s.purchases.orders <==> HasOrder(events, id))
    && (forall id :: id in s.purchases.fills <==> HasFill(events, id))
    && (forall id :: id in s.purchases.fees <==> HasFee(events, id))
  }

  lemma ClaimMeans(events: seq<Event>, id: Id, date: Date)
    ensures Claimed(events, SettlementOf(id)) <==> IsSettled(events, id)
    ensures Claimed(events, Day(date)) <==> HasOutcomeOn(events, date)
    ensures Claimed(events, DecisionNamed(id)) <==> HasOutcomeNamed(events, id)
    ensures Claimed(events, DecisionOn(id)) <==> HasDecisionOn(events, id)
  {
  }

  lemma VenueClaimMeans(events: seq<Event>, id: Id)
    ensures Claimed(events, OrderNamed(id)) <==> HasOrder(events, id)
    ensures Claimed(events, FillNamed(id)) <==> HasFill(events, id)
    ensures Claimed(events, FeeNamed(id)) <==> HasFee(events, id)
  {
  }

  lemma UseMeans(r: Replayed, id: Id, date: Date)
    ensures Used(r, SettlementOf(id)) <==> id in r.state.capital.commitments && r.state.capital.commitments[id].settled
    ensures Used(r, Day(date)) <==> date in r.state.purchases.outcomes
    ensures Used(r, DecisionNamed(id)) <==> id in r.state.purchases.decisionIds
    ensures Used(r, DecisionOn(id)) <==> id in r.state.purchases.decisionCommitmentIds
    ensures Used(r, OrderNamed(id)) <==> id in r.state.purchases.orders
    ensures Used(r, FillNamed(id)) <==> id in r.state.purchases.fills
    ensures Used(r, FeeNamed(id)) <==> id in r.state.purchases.fees
  {
  }

  lemma KeysAlwaysTold(events: seq<Event>)
    requires Fold(events).Ok?
    ensures KeysTold(events, Fold(events).value.state)
  {
    hide Fold, Used, Claimed, IsSettled, HasOutcomeOn, HasOutcomeNamed, HasDecisionOn, HasOrder, HasFill, HasFee;
    var r := Fold(events).value;
    forall id
      ensures id in r.state.capital.commitments && r.state.capital.commitments[id].settled <==> IsSettled(events, id)
      ensures id in r.state.purchases.decisionIds <==> HasOutcomeNamed(events, id)
      ensures id in r.state.purchases.decisionCommitmentIds <==> HasDecisionOn(events, id)
      ensures id in r.state.purchases.orders <==> HasOrder(events, id)
      ensures id in r.state.purchases.fills <==> HasFill(events, id)
      ensures id in r.state.purchases.fees <==> HasFee(events, id)
    {
      KeysFor(events, id, 0);
    }
    forall date
      ensures date in r.state.purchases.outcomes <==> HasOutcomeOn(events, date)
    {
      KeysFor(events, "", date);
    }
  }

  lemma KeysFor(events: seq<Event>, id: Id, date: Date)
    requires Fold(events).Ok?
    ensures var s := Fold(events).value.state;
            && (id in s.capital.commitments && s.capital.commitments[id].settled <==> IsSettled(events, id))
            && (date in s.purchases.outcomes <==> HasOutcomeOn(events, date))
            && (id in s.purchases.decisionIds <==> HasOutcomeNamed(events, id))
            && (id in s.purchases.decisionCommitmentIds <==> HasDecisionOn(events, id))
            && (id in s.purchases.orders <==> HasOrder(events, id))
            && (id in s.purchases.fills <==> HasFill(events, id))
            && (id in s.purchases.fees <==> HasFee(events, id))
  {
    hide Fold, Used, Claimed, IsSettled, HasOutcomeOn, HasOutcomeNamed, HasDecisionOn, HasOrder, HasFill, HasFee;
    KeysAreClaimedOnce(events, SettlementOf(id));
    KeysAreClaimedOnce(events, Day(date));
    KeysAreClaimedOnce(events, DecisionNamed(id));
    KeysAreClaimedOnce(events, DecisionOn(id));
    KeysAreClaimedOnce(events, OrderNamed(id));
    KeysAreClaimedOnce(events, FillNamed(id));
    KeysAreClaimedOnce(events, FeeNamed(id));
    ClaimMeans(events, id, date);
    VenueClaimMeans(events, id);
    UseMeans(Fold(events).value, id, date);
  }

  /** The commitments of the state are the commitment events. */
  lemma CommitmentIff(events: seq<Event>, s: State, k: Id)
    requires Agrees(events, s)
    ensures k in s.capital.commitments <==> exists e :: e in events && Commits(e, k)
    ensures forall e :: e in events && Commits(e, k) ==>
              s.capital.commitments[k].at == e.at && s.capital.commitments[k].committed == e.kind.amount
  {
    hide ChainOk, DecisionIn, OrderIn, FillIn, FeeIn;
    var c := s.capital;
    forall e | e in events && Commits(e, k)
      ensures k in c.commitments && c.commitments[k].at == e.at && c.commitments[k].committed == e.kind.amount
    {
      assert Recorded(e, c, s.purchases);
    }
    if k in c.commitments {
      assert CommitmentIn(events, k, c.commitments[k]);
    }
  }

  /** A decision event and the decision the state holds under its identifier. */
  ghost predicate Terms(e: Event, d: Decision) {
    && e.kind.DailyDecision? && e.at == d.at && e.kind.commitmentId == d.commitmentId
    && e.kind.planned == d.planned && e.kind.committed == d.committed
  }

  /** The decisions of the state are the decision events. */
  lemma DecisionIff(events: seq<Event>, s: State, d: Id)
    requires Agrees(events, s)
    ensures d in s.purchases.decisions <==> exists e :: e in events && Decides(e, d)
    ensures forall e :: e in events && Decides(e, d) ==> Terms(e, s.purchases.decisions[d])
  {
    hide ChainOk, CommitmentIn, OrderIn, FillIn, FeeIn;
    var p := s.purchases;
    forall e | e in events && Decides(e, d)
      ensures d in p.decisions && Terms(e, p.decisions[d])
    {
      assert Recorded(e, s.capital, p);
    }
    if d in p.decisions {
      assert DecisionIn(events, d, p.decisions[d]);
    }
  }

  lemma OrderIff(events: seq<Event>, s: State, o: Id)
    requires Agrees(events, s)
    ensures o in s.purchases.orders <==> HasOrder(events, o)
    ensures forall e :: e in events && e.kind.OrderRecorded? && e.kind.orderId == o ==>
              s.purchases.orders[o] == Order(e.at, e.kind.decisionId)
  {
    hide ChainOk, CommitmentIn, DecisionIn, FillIn, FeeIn;
    var p := s.purchases;
    forall e | e in events && e.kind.OrderRecorded? && e.kind.orderId == o
      ensures o in p.orders && p.orders[o] == Order(e.at, e.kind.decisionId)
    {
      assert Recorded(e, s.capital, p);
    }
    if o in p.orders {
      assert OrderIn(events, o, p.orders[o]);
    }
  }

  /** The decision that names a commitment, in the state and in the journal. */
  lemma LinkedIff(events: seq<Event>, s: State, k: Id)
    requires Agrees(events, s)
    ensures var linked := LinkedDecision(s.purchases, k);
            && (linked.Some? <==> HasDecisionOn(events, k))
            && forall e :: e in events && DecidesOn(e, k) ==>
                 linked == Some(e.kind.decisionId) && Terms(e, s.purchases.decisions[linked.value])
  {
    AgreesIsChained(events, s);
    ChainedOnce(s);
    hide Agrees, ChainOk, LinkedDecision, OneDecisionEach;
    var p := s.purchases;
    forall e | e in events && DecidesOn(e, k)
      ensures LinkedDecision(p, k) == Some(e.kind.decisionId) && Terms(e, p.decisions[e.kind.decisionId])
    {
      DecisionIff(events, s, e.kind.decisionId);
      assert Decides(e, e.kind.decisionId);
      assert Links(p, e.kind.decisionId, k);
      LinkIsUnique(p, e.kind.decisionId, k);
    }
    var linked := LinkedDecision(p, k);
    if linked.Some? {
      DecisionIff(events, s, linked.value);
      var e :| e in events && Decides(e, linked.value);
      assert DecidesOn(e, k);
    }
  }

  lemma CommitIff(events: seq<Event>, s: State, at: Time, k: Id, amount: u64)
    requires Agrees(events, s) && TimelineBalances(s.capital)
    requires s.capital.timeline == StableSort(Movements(events))
    ensures RecordCommitment(s.capital, s.purchases, at, k, amount).Ok? <==> MayCommit(events, at, k, amount)
  {
    hide Agrees, LinkedDecision, RecordTimelineEntry, MayTake, TimelineBalances, StableSort, Movements;
    CommitmentIff(events, s, k);
    LinkedIff(events, s, k);
    TakeIff(events, s.capital, at, amount);
    if LinkedDecision(s.purchases, k).Some? {
      var e :| e in events && DecidesOn(e, k);
    }
  }

  lemma ConcludeIff(events: seq<Event>, s: State, at: Time, date: Date, decision: Id)
    requires KeysTold(events, s)
    ensures RecordDailyOutcome(s.purchases, at, date, decision).Ok? <==> MayConclude(events, at, date, decision)
  {
    hide DateOf, IsSettled, HasDecisionOn, HasOrder, HasFill, HasFee;
    assert date in s.purchases.outcomes <==> HasOutcomeOn(events, date);
    assert decision in s.purchases.decisionIds <==> HasOutcomeNamed(events, decision);
  }

  lemma DecideIff(
    events: seq<Event>, s: State, at: Time, date: Date, decision: Id, k: Id, planned: u64, committed: u64)
    requires Agrees(events, s) && KeysTold(events, s)
    ensures RecordDecision(s.capital, s.purchases, at, date, decision, k, planned, committed).Ok?
       <==> MayDecide(events, at, date, decision, k, committed)
  {
    hide Agrees, KeysTold, RecordDailyOutcome, MayConclude, IsSettled;
    ConcludeIff(events, s, at, date, decision);
    CommitmentIff(events, s, k);
    NamesIff(events, s, k);
    SettledIff(events, s, k);
    OutcomeKeepsNames(s.purchases, at, date, decision);
    if k in s.capital.commitments {
      var e :| e in events && Commits(e, k);
    }
  }

  lemma NamesIff(events: seq<Event>, s: State, k: Id)
    requires KeysTold(events, s)
    ensures k in s.purchases.decisionCommitmentIds <==> HasDecisionOn(events, k)
  {
    hide IsSettled, HasOutcomeOn, HasOutcomeNamed, HasDecisionOn, HasOrder, HasFill, HasFee;
  }

  lemma OutcomeKeepsNames(p: Purchases, at: Time, date: Date, decision: Id)
    ensures RecordDailyOutcome(p, at, date, decision).Ok? ==>
              RecordDailyOutcome(p, at, date, decision).value.decisionCommitmentIds == p.decisionCommitmentIds
  {
  }

  lemma SettledIff(events: seq<Event>, s: State, k: Id)
    requires KeysTold(events, s)
    ensures k in s.capital.commitments && s.capital.commitments[k].settled <==> IsSettled(events, k)
  {
    hide IsSettled, HasOutcomeOn, HasOutcomeNamed, HasDecisionOn, HasOrder, HasFill, HasFee;
  }

  lemma OrderNeeds(events: seq<Event>, s: State, at: Time, order: Id, decision: Id)
    requires Agrees(events, s) && KeysTold(events, s)
    requires RecordOrder(s.capital, s.purchases, at, order, decision).Ok?
    ensures MayOrder(events, at, order, decision)
  {
    hide Agrees, KeysTold, IsSettled, Backed;
    var k := s.purchases.decisions[decision].commitmentId;
    OrderIff(events, s, order);
    DecisionIff(events, s, decision);
    CommitmentIff(events, s, k);
    SettledIff(events, s, k);
    var d :| d in events && Decides(d, decision);
    var e :| e in events && Commits(e, k);
    assert Backed(events, at, d, e) by { BackedIf(events, at, d, e); }
  }

  lemma BackedIf(events: seq<Event>, at: Time, d: Event, k: Event)
    requires d in events && d.kind.DailyDecision? && d.at <= at
    requires k in events && Commits(k, d.kind.commitmentId) && k.at <= at && d.kind.committed <= k.kind.amount
    requires !IsSettled(events, d.kind.commitmentId)
    ensures Backed(events, at, d, k)
  {
  }

  lemma OrderSuffices(events: seq<Event>, s: State, at: Time, order: Id, decision: Id)
    requires Agrees(events, s) && KeysTold(events, s)
    requires MayOrder(events, at, order, decision)
    ensures RecordOrder(s.capital, s.purchases, at, order, decision).Ok?
  {
    hide Agrees, KeysTold, IsSettled;
    var d, k :| Backed(events, at, d, k) && d.kind.decisionId == decision;
    assert Decides(d, decision);
    OrderIff(events, s, order);
    DecisionIff(events, s, decision);
    CommitmentIff(events, s, d.kind.commitmentId);
    SettledIff(events, s, d.kind.commitmentId);
  }

  lemma OrderAcceptedIff(events: seq<Event>, s: State, at: Time, order: Id, decision: Id)
    requires Agrees(events, s) && KeysTold(events, s)
    ensures RecordOrder(s.capital, s.purchases, at, order, decision).Ok? <==> MayOrder(events, at, order, decision)
  {
    hide *;
    if RecordOrder(s.capital, s.purchases, at, order, decision).Ok? {
      OrderNeeds(events, s, at, order, decision);
    }
    if MayOrder(events, at, order, decision) {
      OrderSuffices(events, s, at, order, decision);
    }
  }

  /** What fills and fees need besides their amounts: an order that is not later, on an unsettled commitment. */
  ghost predicate MayCost(c: Capital, p: Purchases, at: Time, order: Id, d: Id) {
    && order in p.orders && p.orders[order].at <= at && p.orders[order].decisionId == d
    && d in p.decisions && p.decisions[d].at <= at && HasUnsettledBacking(c, p.decisions[d])
  }

  lemma OrderedNeeds(events: seq<Event>, s: State, at: Time, order: Id, d: Id) returns (o: Event, e: Event)
    requires Agrees(events, s) && KeysTold(events, s) && MayCost(s.capital, s.purchases, at, order, d)
    ensures OrderedOn(events, at, order, o, e) && Decides(e, d) && Terms(e, s.purchases.decisions[d])
  {
    hide Agrees, KeysTold, IsSettled;
    OrderIff(events, s, order);
    DecisionIff(events, s, d);
    SettledIff(events, s, s.purchases.decisions[d].commitmentId);
    o :| o in events && o.kind.OrderRecorded? && o.kind.orderId == order;
    e :| e in events && Decides(e, d);
  }

  lemma OrderedSuffices(events: seq<Event>, s: State, at: Time, order: Id, o: Event, e: Event)
    requires Agrees(events, s) && KeysTold(events, s) && OrderedOn(events, at, order, o, e)
    ensures MayCost(s.capital, s.purchases, at, order, e.kind.decisionId)
    ensures Terms(e, s.purchases.decisions[e.kind.decisionId])
  {
    AgreesIsChained(events, s);
    OrderFollows(s, order);
    hide Agrees, KeysTold, IsSettled, ChainOk;
    OrderIff(events, s, order);
    DecisionIff(events, s, e.kind.decisionId);
    SettledIff(events, s, e.kind.commitmentId);
  }

  lemma OrderFollows(s: State, order: Id)
    requires ChainOk(s.capital, s.purchases)
    ensures order in s.purchases.orders ==>
              var o := s.purchases.orders[order];
              && o.decisionId in s.purchases.decisions && s.purchases.decisions[o.decisionId].at <= o.at
              && s.purchases.decisions[o.decisionId].commitmentId in s.capital.commitments
  {
    hide CommitmentOk, DecisionOk, OneDecisionEach;
  }

  /** In a chained state, costs stay within the 64-bit limit. */
  lemma FillRecordIff(s: State, at: Time, fill: Id, order: Id, filled: u64)
    requires ChainOk(s.capital, s.purchases)
    ensures RecordFill(s.capital, s.purchases, at, fill, order, filled).Ok?
       <==> fill !in s.purchases.fills
            && order in s.purchases.orders
            && var d := s.purchases.orders[order].decisionId;
               MayCost(s.capital, s.purchases, at, order, d)
               && s.purchases.decisions[d].filled + filled <= s.purchases.decisions[d].planned
               && s.purchases.decisions[d].filled + filled + s.purchases.decisions[d].fee
                  <= s.purchases.decisions[d].committed
  {
    hide ChainOk, HasUnsettledBacking;
  }

  lemma FeeRecordIff(s: State, at: Time, fee: Id, order: Id, amount: u64)
    requires ChainOk(s.capital, s.purchases)
    ensures RecordFee(s.capital, s.purchases, at, fee, order, amount).Ok?
       <==> fee !in s.purchases.fees
            && order in s.purchases.orders
            && var d := s.purchases.orders[order].decisionId;
               MayCost(s.capital, s.purchases, at, order, d)
               && s.purchases.decisions[d].filled + s.purchases.decisions[d].fee + amount
                  <= s.purchases.decisions[d].committed
  {
    hide ChainOk, HasUnsettledBacking;
  }

  lemma FillsTold(events: seq<Event>, s: State, d: Id)
    requires PurchasesTallied(events, s.purchases) && d in s.purchases.decisions
    ensures s.purchases.decisions[d].filled == Tally(events, FillsOf(d))
    ensures s.purchases.decisions[d].fee == Tally(events, FeesOf(d))
  {
    hide Tally, BookedCosts;
    assert FilledOf(s.purchases, d) == Tally(events, FillsOf(d));
    assert FeeOf(s.purchases, d) == Tally(events, FeesOf(d));
  }

  lemma FillNeeds(events: seq<Event>, s: State, at: Time, fill: Id, order: Id, filled: u64)
    requires Agrees(events, s) && KeysTold(events, s) && PurchasesTallied(events, s.purchases)
    requires RecordFill(s.capital, s.purchases, at, fill, order, filled).Ok?
    ensures MayFill(events, at, fill, order, filled)
  {
    hide Agrees, KeysTold, ChainOk, RecordFill, Tally, PurchasesTallied, OrderedOn, MayCost, IsSettled;
    AgreesIsChained(events, s);
    FillRecordIff(s, at, fill, order, filled);
    FillsKnown(events, s, fill);
    var d := s.purchases.orders[order].decisionId;
    var o, e := OrderedNeeds(events, s, at, order, d);
    CostIsKnown(s, at, order, d);
    FillsTold(events, s, d);
  }

  lemma FillSuffices(events: seq<Event>, s: State, at: Time, fill: Id, order: Id, filled: u64, o: Event, e: Event)
    requires Agrees(events, s) && KeysTold(events, s) && PurchasesTallied(events, s.purchases)
    requires OrderedOn(events, at, order, o, e) && !HasFill(events, fill)
    requires Tally(events, FillsOf(e.kind.decisionId)) + filled <= e.kind.planned
    requires Tally(events, FillsOf(e.kind.decisionId)) + filled + Tally(events, FeesOf(e.kind.decisionId))
             <= e.kind.committed
    ensures RecordFill(s.capital, s.purchases, at, fill, order, filled).Ok?
  {
    hide Agrees, KeysTold, ChainOk, RecordFill, Tally, PurchasesTallied, OrderedOn, MayCost, IsSettled, HasFill;
    AgreesIsChained(events, s);
    FillRecordIff(s, at, fill, order, filled);
    FillsKnown(events, s, fill);
    OrderedSuffices(events, s, at, order, o, e);
    CostIsKnown(s, at, order, e.kind.decisionId);
    FillsTold(events, s, e.kind.decisionId);
  }

  lemma FillIff(events: seq<Event>, s: State, at: Time, fill: Id, order: Id, filled: u64)
    requires Agrees(events, s) && KeysTold(events, s) && PurchasesTallied(events, s.purchases)
    ensures RecordFill(s.capital, s.purchases, at, fill, order, filled).Ok?
       <==> MayFill(events, at, fill, order, filled)
  {
    hide Agrees, KeysTold, RecordFill, Tally, PurchasesTallied, IsSettled;
    if RecordFill(s.capital, s.purchases, at, fill, order, filled).Ok? {
      FillNeeds(events, s, at, fill, order, filled);
    }
    if MayFill(events, at, fill, order, filled) {
      var o, e :|
        && OrderedOn(events, at, order, o, e)
        && Tally(events, FillsOf(e.kind.decisionId)) + filled <= e.kind.planned
        && Tally(events, FillsOf(e.kind.decisionId)) + filled + Tally(events, FeesOf(e.kind.decisionId))
           <= e.kind.committed;
      FillSuffices(events, s, at, fill, order, filled, o, e);
    }
  }

  lemma CostIsKnown(s: State, at: Time, order: Id, d: Id)
    requires MayCost(s.capital, s.purchases, at, order, d)
    ensures order in s.purchases.orders && s.purchases.orders[order].decisionId == d && d in s.purchases.decisions
  {
  }

  lemma FillsKnown(events: seq<Event>, s: State, id: Id)
    requires KeysTold(events, s)
    ensures id in s.purchases.fills <==> HasFill(events, id)
    ensures id in s.purchases.fees <==> HasFee(events, id)
  {
    hide IsSettled, HasOutcomeOn, HasOutcomeNamed, HasDecisionOn, HasOrder, HasFill, HasFee;
  }

  lemma ChargeNeeds(events: seq<Event>, s: State, at: Time, fee: Id, order: Id, amount: u64)
    requires Agrees(events, s) && KeysTold(events, s) && PurchasesTallied(events, s.purchases)
    requires RecordFee(s.capital, s.purchases, at, fee, order, amount).Ok?
    ensures MayCharge(events, at, fee, order, amount)
  {
    hide Agrees, KeysTold, ChainOk, RecordFee, Tally, PurchasesTallied, OrderedOn, MayCost, IsSettled;
    AgreesIsChained(events, s);
    FeeRecordIff(s, at, fee, order, amount);
    FillsKnown(events, s, fee);
    var d := s.purchases.orders[order].decisionId;
    var o, e := OrderedNeeds(events, s, at, order, d);
    CostIsKnown(s, at, order, d);
    FillsTold(events, s, d);
  }

  lemma ChargeSuffices(events: seq<Event>, s: State, at: Time, fee: Id, order: Id, amount: u64, o: Event, e: Event)
    requires Agrees(events, s) && KeysTold(events, s) && PurchasesTallied(events, s.purchases)
    requires OrderedOn(events, at, order, o, e) && !HasFee(events, fee)
    requires Tally(events, FillsOf(e.kind.decisionId)) + Tally(events, FeesOf(e.kind.decisionId)) + amount
             <= e.kind.committed
    ensures RecordFee(s.capital, s.purchases, at, fee, order, amount).Ok?
  {
    hide Agrees, KeysTold, ChainOk, RecordFee, Tally, PurchasesTallied, OrderedOn, MayCost, IsSettled, HasFee;
    AgreesIsChained(events, s);
    FeeRecordIff(s, at, fee, order, amount);
    FillsKnown(events, s, fee);
    OrderedSuffices(events, s, at, order, o, e);
    CostIsKnown(s, at, order, e.kind.decisionId);
    FillsTold(events, s, e.kind.decisionId);
  }

  lemma ChargeIff(events: seq<Event>, s: State, at: Time, fee: Id, order: Id, amount: u64)
    requires Agrees(events, s) && KeysTold(events, s) && PurchasesTallied(events, s.purchases)
    ensures RecordFee(s.capital, s.purchases, at, fee, order, amount).Ok? <==> MayCharge(events, at, fee, order, amount)
  {
    hide Agrees, KeysTold, RecordFee, Tally, PurchasesTallied, IsSettled;
    if RecordFee(s.capital, s.purchases, at, fee, order, amount).Ok? {
      ChargeNeeds(events, s, at, fee, order, amount);
    }
    if MayCharge(events, at, fee, order, amount) {
      var o, e :|
        && OrderedOn(events, at, order, o, e)
        && Tally(events, FillsOf(e.kind.decisionId)) + Tally(events, FeesOf(e.kind.decisionId)) + amount
           <= e.kind.committed;
      ChargeSuffices(events, s, at, fee, order, amount, o, e);
    }
  }

  /** What a settlement of a decision's commitment is dated behind. */
  lemma ActivityIff(events: seq<Event>, s: State, d: Id, at: Time)
    requires Agrees(events, s) && LatestCostsTold(events, s.purchases) && d in s.purchases.decisions
    ensures NoLaterActivity(s.purchases, d, at)
       <==> s.purchases.decisions[d].at <= at && forall e :: e in events && ActsUnder(events, e, d) ==> e.at <= at
  {
    hide Agrees, LatestCostsTold, ActsUnder;
    if NoLaterActivity(s.purchases, d, at) {
      forall e | e in events && ActsUnder(events, e, d)
        ensures e.at <= at
      {
        ActIsShown(events, s, d, e);
      }
    }
    if s.purchases.decisions[d].at <= at && forall e :: e in events && ActsUnder(events, e, d) ==> e.at <= at {
      ShownIsAct(events, s, d, at);
    }
  }

  lemma ActIsShown(events: seq<Event>, s: State, d: Id, e: Event)
    requires Agrees(events, s) && d in s.purchases.decisions && e in events && ActsUnder(events, e, d)
    ensures (exists o :: o in s.purchases.orders && s.purchases.orders[o] == Order(e.at, d))
            || (s.purchases.decisions[d].latestCostAt.Some? && e.at <= s.purchases.decisions[d].latestCostAt.value)
  {
    hide Agrees, OrderedUnder, Recorded;
    var p := s.purchases;
    RecordedInState(events, s, e);
    RecordedAct(e, s.capital, p);
    if e.kind.OrderRecorded? {
      assert p.orders[e.kind.orderId] == Order(e.at, d);
    } else {
      OrdersAgree(events, s, e.kind.orderId, d);
    }
  }

  lemma RecordedAct(e: Event, c: Capital, p: Purchases)
    requires Recorded(e, c, p)
    ensures e.kind.OrderRecorded? ==>
              e.kind.orderId in p.orders && p.orders[e.kind.orderId] == Order(e.at, e.kind.decisionId)
    ensures e.kind.FillRecorded? || e.kind.FeeRecorded? ==>
              && e.kind.orderId in p.orders && p.orders[e.kind.orderId].decisionId in p.decisions
              && p.decisions[p.orders[e.kind.orderId].decisionId].latestCostAt.Some?
              && e.at <= p.decisions[p.orders[e.kind.orderId].decisionId].latestCostAt.value
  {
    hide NoLaterActivity;
  }

  lemma RecordedInState(events: seq<Event>, s: State, e: Event)
    requires Agrees(events, s) && e in events
    ensures Recorded(e, s.capital, s.purchases)
  {
    hide ChainOk, Sourced, Recorded;
  }

  lemma ShownIsAct(events: seq<Event>, s: State, d: Id, at: Time)
    requires Agrees(events, s) && LatestCostsTold(events, s.purchases) && d in s.purchases.decisions
    requires s.purchases.decisions[d].at <= at && forall e :: e in events && ActsUnder(events, e, d) ==> e.at <= at
    ensures NoLaterActivity(s.purchases, d, at)
  {
    hide Agrees, OrderedUnder;
    var p := s.purchases;
    if p.decisions[d].latestCostAt.Some? {
      assert CostAt(events, p, d, p.decisions[d].latestCostAt.value);
      var e :|
        && e in events && (e.kind.FillRecorded? || e.kind.FeeRecorded?) && e.at == p.decisions[d].latestCostAt.value
        && e.kind.orderId in p.orders && p.orders[e.kind.orderId].decisionId == d;
      OrdersAgree(events, s, e.kind.orderId, d);
      assert ActsUnder(events, e, d);
    }
    forall o | o in p.orders && p.orders[o].decisionId == d
      ensures p.orders[o].at <= at
    {
      OrderIff(events, s, o);
      var e :| e in events && e.kind.OrderRecorded? && e.kind.orderId == o;
      assert ActsUnder(events, e, d);
    }
  }

  lemma SettleIff(events: seq<Event>, tagged: seq<Tagged>, s: State, at: Time, k: Id, debited: u64)
    requires Agrees(events, s) && KeysTold(events, s) && PurchasesTallied(events, s.purchases)
    requires LatestCostsTold(events, s.purchases) && TagsFit(tagged, s.capital) && Balanced(s.capital)
    ensures RecordSettlement(s.capital, s.purchases, at, k, debited).Ok? <==> MaySettle(events, at, k, debited)
  {
    hide Agrees, KeysTold, PurchasesTallied, LatestCostsTold, TagsFit, Balanced, RecordSettlement, ChainOk, IsSettled,
         Tally, BookedCosts, DatedLast, ActsUnder, LinkedDecision;
    AgreesIsChained(events, s);
    CommitmentIff(events, s, k);
    SettledIff(events, s, k);
    SettlementIsOpen(s.capital, s.purchases, at, k, debited);
    if k in s.capital.commitments && !s.capital.commitments[k].settled {
      SettlementAcceptedIff(tagged, s.capital, s.purchases, at, k, debited);
      CostsTold(events, s, k);
      SettleTermsIff(events, s, at, k, debited);
    }
  }

  lemma SettlementIsOpen(c: Capital, p: Purchases, at: Time, k: Id, debited: u64)
    ensures RecordSettlement(c, p, at, k, debited).Ok? ==> k in c.commitments && !c.commitments[k].settled
  {
    hide RecordTimelineEntry, NoLaterActivity, LinkedDecision, RecordedCosts;
  }

  lemma CostsTold(events: seq<Event>, s: State, k: Id)
    requires PurchasesTallied(events, s.purchases)
    ensures BookedCosts(s.purchases, k) == Tally(events, CostsOf(k))
  {
    hide BookedCosts, Tally;
  }

  /** The ceiling and the dating of a settlement, in the state and in the journal. */
  lemma SettleTermsIff(events: seq<Event>, s: State, at: Time, k: Id, debited: u64)
    requires Agrees(events, s) && LatestCostsTold(events, s.purchases) && k in s.capital.commitments
    ensures debited <= DebitCeiling(s.capital, s.purchases, k) && DatedLast(s.capital, s.purchases, k, at)
       <==> debited <= s.capital.commitments[k].committed && s.capital.commitments[k].at <= at
            && forall d :: d in events && DecidesOn(d, k) ==>
                 && debited <= d.kind.committed && d.at <= at
                 && forall e :: e in events && ActsUnder(events, e, d.kind.decisionId) ==> e.at <= at
  {
    hide Agrees, LatestCostsTold, ActsUnder, LinkedDecision, NoLaterActivity;
    LinkedIff(events, s, k);
    var linked := LinkedDecision(s.purchases, k);
    if linked.Some? {
      var d :| d in events && DecidesOn(d, k);
      ActivityIff(events, s, linked.value, at);
    }
  }

  /** Everything the journal tells about the state it replays to. */
  ghost predicate Told(events: seq<Event>, tagged: seq<Tagged>, r: Replayed) {
    && Agrees(events, r.state) && Tallied(events, r.state) && SourcesTold(events, r.state) && KeysTold(events, r.state)
    && Sound(r) && TagsFit(tagged, r.state.capital)
  }

  lemma AlwaysTold(events: seq<Event>) returns (tagged: seq<Tagged>)
    requires Fold(events).Ok?
    ensures Told(events, tagged, Fold(events).value)
  {
    hide *;
    AlwaysAgrees(events);
    CountersAreJournalSums(events);
    SourcesAlwaysTold(events);
    KeysAlwaysTold(events);
    AlwaysBalanced(events);
    tagged := AlwaysTagged(events);
    ToldIf(events, tagged, Fold(events).value);
  }

  lemma ToldIf(events: seq<Event>, tagged: seq<Tagged>, r: Replayed)
    requires Agrees(events, r.state) && Tallied(events, r.state) && SourcesTold(events, r.state)
    requires KeysTold(events, r.state) && Sound(r) && TagsFit(tagged, r.state.capital)
    ensures Told(events, tagged, r)
  {
    hide Agrees, Tallied, SourcesTold, KeysTold, Sound, TagsFit;
  }

  lemma ToldMeans(events: seq<Event>, tagged: seq<Tagged>, r: Replayed)
    requires Told(events, tagged, r)
    ensures Agrees(events, r.state) && KeysTold(events, r.state) && TagsFit(tagged, r.state.capital)
    ensures CapitalTallied(events, r.state.capital) && PurchasesTallied(events, r.state.purchases)
    ensures DepositsTold(events, r.state.capital) && LatestCostsTold(events, r.state.purchases)
    ensures r.state.capital.timeline == StableSort(Movements(events))
    ensures Balanced(r.state.capital) && TimelineBalances(r.state.capital)
  {
    hide Agrees, CapitalTallied, PurchasesTallied, DepositsTold, LatestCostsTold, KeysTold, TagsFit, TimelineBalances,
         OpenBalances, DepositsBalance, StableSort, Movements;
  }

  lemma AdmissionToldIff(events: seq<Event>, tagged: seq<Tagged>, r: Replayed, at: Time, deposit: Id, amount: u64)
    requires Told(events, tagged, r)
    ensures RecordAdmission(r.state.capital, at, deposit, amount).Ok? <==> MayAdmit(events, at, deposit, amount)
  {
    hide *;
    ToldMeans(events, tagged, r);
    AdmitIff(events, tagged, r.state.capital, at, deposit, amount);
  }

  lemma TransferToldIff(
    events: seq<Event>, tagged: seq<Tagged>, r: Replayed, at: Time, unadmitted: seq<CapitalAllocation>, amount: u64)
    requires Told(events, tagged, r) && UniqueTranches(unadmitted)
    ensures RecordTransferWithdrawal(r.state.capital, at, unadmitted, amount).Ok?
       <==> MayTransfer(events, at, unadmitted, amount)
  {
    hide *;
    ToldMeans(events, tagged, r);
    TransferIff(events, r.state.capital, at, unadmitted, amount);
  }

  lemma WithdrawalToldIff(events: seq<Event>, tagged: seq<Tagged>, r: Replayed, at: Time, amount: u64)
    requires Told(events, tagged, r)
    ensures RecordDebit(r.state.capital, at, amount).Ok? <==> MayTake(events, at, amount)
  {
    hide *;
    ToldMeans(events, tagged, r);
    WithdrawIff(events, r.state.capital, at, amount);
  }

  lemma CommitmentToldIff(events: seq<Event>, tagged: seq<Tagged>, r: Replayed, at: Time, k: Id, amount: u64)
    requires Told(events, tagged, r)
    ensures RecordCommitment(r.state.capital, r.state.purchases, at, k, amount).Ok?
       <==> MayCommit(events, at, k, amount)
  {
    hide *;
    ToldMeans(events, tagged, r);
    CommitIff(events, r.state, at, k, amount);
  }

  lemma SettlementToldIff(events: seq<Event>, tagged: seq<Tagged>, r: Replayed, at: Time, k: Id, debited: u64)
    requires Told(events, tagged, r)
    ensures RecordSettlement(r.state.capital, r.state.purchases, at, k, debited).Ok?
       <==> MaySettle(events, at, k, debited)
  {
    hide *;
    ToldMeans(events, tagged, r);
    SettleIff(events, tagged, r.state, at, k, debited);
  }

  /** The capital side takes a fitting event, and no other. */
  lemma CapitalFits(events: seq<Event>, tagged: seq<Tagged>, r: Replayed, event: Event)
    requires Told(events, tagged, r) && WellFormed(event) && MovesCapital(event.kind)
    ensures ApplyCapital(r.state.capital, r.state.purchases, event).Ok? <==> Fitting(events, event)
  {
    var at := event.at;
    TranchesAreUnique(event);
    hide Told, WellFormed, RecordAdmission, RecordTransferWithdrawal, RecordDebit, RecordCommitment, RecordSettlement,
         MayAdmit, MayTransfer, MayTake, MayCommit, MaySettle, UniqueTranches;
    match event.kind
    case DepositAdmission(deposit, amount) => AdmissionToldIff(events, tagged, r, at, deposit, amount);
    case AuthoritativeTransferWithdrawal(listed, amount, _, _) =>
      TransferToldIff(events, tagged, r, at, listed, amount);
    case AuthoritativeWithdrawal(amount) => WithdrawalToldIff(events, tagged, r, at, amount);
    case CapitalCommitted(k, amount) => CommitmentToldIff(events, tagged, r, at, k, amount);
    case CapitalSettled(k, debited) => SettlementToldIff(events, tagged, r, at, k, debited);
    case _ =>
  }

  lemma TranchesAreUnique(event: Event)
    requires WellFormed(event)
    ensures event.kind.AuthoritativeTransferWithdrawal? ==> UniqueTranches(event.kind.unadmitted)
  {
    hide IsId, IsAccount;
  }

  predicate IsPurchase(kind: EventKind) {
    IsOutcome(kind) || kind.OrderRecorded? || kind.FillRecorded? || kind.FeeRecorded?
  }

  lemma PurchaseFits(events: seq<Event>, tagged: seq<Tagged>, r: Replayed, event: Event)
    requires Told(events, tagged, r) && IsPurchase(event.kind)
    ensures ApplyPurchase(r.state.capital, r.state.purchases, event).Ok? <==> Fitting(events, event)
  {
    hide Told, RecordDecision, RecordDailyOutcome, RecordOrder, RecordFill, RecordFee, MayDecide, MayConclude, MayOrder,
         MayFill, MayCharge, Agrees, KeysTold, TagsFit, CapitalTallied, PurchasesTallied, DepositsTold,
         LatestCostsTold, Balanced, TimelineBalances, StableSort, Movements;
    ToldMeans(events, tagged, r);
    var s, at := r.state, event.at;
    match event.kind
    case DailyDecision(decision, date, k, planned, committed) =>
      DecideIff(events, s, at, date, decision, k, planned, committed);
    case DailySkip(decision, date, _) => ConcludeIff(events, s, at, date, decision);
    case OrderRecorded(order, decision) => OrderAcceptedIff(events, s, at, order, decision);
    case FillRecorded(fill, order, filled, _) => FillIff(events, s, at, fill, order, filled);
    case FeeRecorded(fee, order, amount) => ChargeIff(events, s, at, fee, order, amount);
  }

  /** Cycles, actions, rewards and corrections, by their keys. */
  lemma OtherFits(events: seq<Event>, event: Event)
    requires Fold(events).Ok? && !MovesCapital(event.kind) && !IsPurchase(event.kind)
    requires event.id !in Fold(events).value.seen.events
    ensures ApplyRuntime(Fold(events).value.state.runtime, event).Ok? && See(Fold(events).value.seen, event).Ok?
       <==> Fitting(events, event)
  {
    hide Fold, Used, Claimed;
    var r := Fold(events).value;
    match event.kind
    case StakingDepositRecorded(action, _) =>
      KeysAreClaimedOnce(events, ActionNamed(action));
      UsedSomewhere(r, ActionNamed(action));
    case DelegationRecorded(action, _, _) =>
      KeysAreClaimedOnce(events, ActionNamed(action));
      UsedSomewhere(r, ActionNamed(action));
    case RewardRecorded(reward, _) =>
      KeysAreClaimedOnce(events, RewardNamed(reward));
      UsedSomewhere(r, RewardNamed(reward));
    case ReconciliationCorrection(correction, _, _, _) =>
      KeysAreClaimedOnce(events, CorrectionNamed(correction));
      UsedSomewhere(r, CorrectionNamed(correction));
    case RuntimeCyclePrepared(cycle) =>
      KeysAreClaimedOnce(events, Preparation(cycle));
      UsedSomewhere(r, Preparation(cycle));
    case RuntimeCycleCommitted(cycle) =>
      KeysAreClaimedOnce(events, Preparation(cycle));
      KeysAreClaimedOnce(events, Completion(cycle));
      UsedSomewhere(r, Preparation(cycle));
      UsedSomewhere(r, Completion(cycle));
    case _ =>
  }

  /** A step succeeds exactly when every part of it does, and only one part can fail for its kind. */
  lemma StepIff(r: Replayed, event: Event)
    ensures Step(r, event).Ok?
       <==> ValidateEvent(event).Pass? && event.id !in r.seen.events
            && (if MovesCapital(event.kind) then ApplyCapital(r.state.capital, r.state.purchases, event).Ok?
                else if IsPurchase(event.kind) then ApplyPurchase(r.state.capital, r.state.purchases, event).Ok?
                else ApplyRuntime(r.state.runtime, event).Ok? && See(r.seen, event).Ok?)
  {
    hide ValidateEvent, RecordFunding, RecordAdmission, RecordTransferWithdrawal, RecordDebit, RecordCommitment,
         RecordSettlement, RecordDecision, RecordDailyOutcome, RecordOrder, RecordFill, RecordFee;
  }

  /**
   * Exactly which events a journal accepts next: those that are well formed, carry
   * a fresh identifier and fit the journal's own events. So every other refusal of
   * the ledger, by its timeline, its counters or an overflow, is impossible.
   */
  lemma AcceptedIff(events: seq<Event>, event: Event)
    requires Replay(events).Ok?
    ensures Replay(events + [event]).Ok?
       <==> WellFormed(event) && (forall e :: e in events ==> e.id != event.id) && Fitting(events, event)
  {
    hide *;
    ReplayedFolds(events);
    var r := Fold(events).value;
    FoldSnoc(events, event);
    ReplayedFolds(events + [event]);
    SeenIsEventIds(events);
    FreshIff(events, event.id);
    ValidIff(event);
    StepIff(r, event);
    if WellFormed(event) && event.id !in r.seen.events {
      var tagged := AlwaysTold(events);
      if MovesCapital(event.kind) {
        CapitalFits(events, tagged, r, event);
      } else if IsPurchase(event.kind) {
        PurchaseFits(events, tagged, r, event);
      } else {
        OtherFits(events, event);
      }
    }
  }

  lemma ReplayedFolds(events: seq<Event>)
    ensures Replay(events).Ok? <==> Fold(events).Ok?
  {
    hide Fold;
  }

  lemma FreshIff(events: seq<Event>, id: Id)
    ensures id !in EventIds(events) <==> forall e :: e in events ==> e.id != id
  {
  }
}
