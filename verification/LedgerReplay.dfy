/** What one journal event does to the replayed state, and what a whole journal replays to. */
module LedgerReplay {
  import opened Prelude
  import opened LedgerEvents
  import opened CapitalTimeline

  datatype Deposit = Deposit(at: Time, authoritative: u64, admitted: u64, returned: u64)

  datatype Commitment = Commitment(at: Time, committed: u64, debited: u64, settled: bool)

  datatype Decision = Decision(
    at: Time, commitmentId: Id, planned: u64, committed: u64, filled: u64, fee: u64, latestCostAt: Option<Time>)

  datatype Order = Order(at: Time, decisionId: Id)

  /** The money side: where capital came from, what moved it, and the running totals. */
  datatype Capital = Capital(
    deposits: map<Id, Deposit>,
    timeline: seq<Entry>,
    commitments: map<Id, Commitment>,
    admitted: u64,
    withdrawn: u64,
    committed: u64,
    spent: u64,
    lastTransferWithdrawalAt: Option<Time>)

  /** The purchase side: daily outcomes, decisions, orders, fills and fees. */
  datatype Purchases = Purchases(
    outcomes: map<Date, Id>,
    decisionIds: set<Id>,
    decisions: map<Id, Decision>,
    decisionCommitmentIds: set<Id>,
    orders: map<Id, Order>,
    fills: map<Id, Id>,
    fees: map<Id, Id>,
    lastDecisionAt: Option<Time>)

  /** Runtime cycles and the freshest observed balance. */
  datatype Runtime = Runtime(
    cycles: map<string, bool>,
    lastCycle: Option<string>,
    observedUsdc: u64,
    observedHypeAtoms: u64,
    lastObservationAt: Option<Time>)

  datatype State = State(capital: Capital, purchases: Purchases, runtime: Runtime, lastEventAt: Option<Time>)

  const EMPTY: State := State(
    Capital(map[], [], map[], 0, 0, 0, 0, None),
    Purchases(map[], {}, map[], {}, map[], map[], map[], None),
    Runtime(map[], None, 0, 0, None),
    None)

  /** Capital that is admitted and neither withdrawn, committed nor spent, saturating as the source does. */
  function Deployable(c: Capital): u64 {
    SaturatingSub(c.admitted, SaturatingAdd(SaturatingAdd(c.withdrawn, c.committed), c.spent))
  }

  ghost predicate Links(p: Purchases, decision: Id, commitment: Id) {
    decision in p.decisions && p.decisions[decision].commitmentId == commitment
  }

  /** The decision that names a commitment, if there is one. */
  ghost function LinkedDecision(p: Purchases, commitment: Id): (r: Option<Id>)
    ensures r.Some? ==> Links(p, r.value, commitment)
    ensures r.None? ==> forall d :: !Links(p, d, commitment)
  {
    if exists d :: Links(p, d, commitment) then
      var d :| Links(p, d, commitment);
      Some(d)
    else None
  }

  /** The timeline with one more entry, provided it never overdraws or overflows. */
  function RecordTimelineEntry(
    timeline: seq<Entry>, at: Time, credit: u64, debit: u64): Result<seq<Entry>, LedgerError>
  {
    var next := InsertByTime(timeline, Entry(at, credit, debit));
    var closing :- RunTimeline(next, 0);
    Ok(next)
  }

  function RecordFunding(c: Capital, id: Id, at: Time, amount: u64): Capital {
    c.(deposits := c.deposits[id := Deposit(at, amount, 0, 0)])
  }

  function RecordAdmission(c: Capital, at: Time, deposit: Id, amount: u64): Result<Capital, LedgerError> {
    if deposit !in c.deposits then Err(UnknownDeposit) else
    var d := c.deposits[deposit];
    :- Need(d.at <= at, InvalidEvent);
    var admitted :- CheckedAdd(d.admitted, amount);
    var covered :- CheckedAdd(admitted, d.returned);
    :- Need(covered <= d.authoritative, AdmissionExceedsDeposit);
    var timeline :- RecordTimelineEntry(c.timeline, at, amount, 0);
    var total :- CheckedAdd(c.admitted, amount);
    Ok(c.(timeline := timeline, deposits := c.deposits[deposit := d.(admitted := admitted)], admitted := total))
  }

  /** Returns the listed unadmitted amounts to their deposits and adds them up. */
  function ReturnUnadmitted(
    deposits: map<Id, Deposit>, at: Time, allocations: seq<CapitalAllocation>, returned: u64)
    : Result<(map<Id, Deposit>, u64), LedgerError>
  {
    if allocations == [] then Ok((deposits, returned))
    else
      var a := allocations[0];
      :- Need(a.trancheId in deposits, UnknownDeposit);
      var d := deposits[a.trancheId];
      var next :- CheckedAdd(d.returned, a.amount);
      :- Need(d.at <= at, CorruptLedger);
      var covered :- CheckedAdd(next, d.admitted);
      :- Need(covered <= d.authoritative, CorruptLedger);
      var total :- CheckedAdd(returned, a.amount);
      ReturnUnadmitted(deposits[a.trancheId := d.(returned := next)], at, allocations[1..], total)
  }

  /** A withdrawal of admitted capital, together with the deposits it leaves behind. */
  function RecordDebit(c: Capital, at: Time, amount: u64): Result<Capital, LedgerError> {
    var timeline :- RecordTimelineEntry(c.timeline, at, 0, amount);
    var withdrawn :- CheckedAdd(c.withdrawn, amount);
    Ok(c.(timeline := timeline, withdrawn := withdrawn))
  }

  function RecordTransferWithdrawal(
    c: Capital, at: Time, allocations: seq<CapitalAllocation>, amount: u64): Result<Capital, LedgerError>
  {
    var (deposits, returned) :- ReturnUnadmitted(c.deposits, at, allocations, 0);
    var admittedPart :- CheckedSub(amount, returned);
    var debited :- RecordDebit(c.(deposits := deposits), at, admittedPart);
    Ok(debited.(lastTransferWithdrawalAt := Some(MaxOption(c.lastTransferWithdrawalAt, at))))
  }

  ghost function RecordCommitment(
    c: Capital, p: Purchases, at: Time, commitment: Id, amount: u64): Result<Capital, LedgerError>
  {
    if commitment in c.commitments then Err(CommitmentCollision) else
    var linked := LinkedDecision(p, commitment);
    :- Need(linked.Some? ==> p.decisions[linked.value].committed <= amount, InsufficientDecisionBacking);
    :- Need(linked.Some? ==> at <= p.decisions[linked.value].at, InvalidEvent);
    var timeline :- RecordTimelineEntry(c.timeline, at, 0, amount);
    var total :- CheckedAdd(c.committed, amount);
    Ok(c.(timeline := timeline, committed := total,
          commitments := c.commitments[commitment := Commitment(at, amount, 0, false)]))
  }

  /** The recorded fills and fees of the decision that names a commitment. */
  ghost function RecordedCosts(p: Purchases, commitment: Id): Result<u64, LedgerError> {
    var linked := LinkedDecision(p, commitment);
    if linked.Some? then CheckedAdd(p.decisions[linked.value].filled, p.decisions[linked.value].fee) else Ok(0)
  }

  /** Nothing recorded under a decision is later than `at`. */
  ghost predicate NoLaterActivity(p: Purchases, decision: Id, at: Time)
    requires decision in p.decisions
  {
    && p.decisions[decision].at <= at
    && (p.decisions[decision].latestCostAt.Some? ==> p.decisions[decision].latestCostAt.value <= at)
    && forall o :: o in p.orders && p.orders[o].decisionId == decision ==> p.orders[o].at <= at
  }

  ghost function RecordSettlement(
    c: Capital, p: Purchases, at: Time, commitment: Id, debited: u64): Result<Capital, LedgerError>
  {
    var costs :- RecordedCosts(p, commitment);
    var linked := LinkedDecision(p, commitment);
    :- Need(commitment in c.commitments, UnknownCommitment);
    var k := c.commitments[commitment];
    :- Need(!k.settled, CommitmentAlreadySettled);
    :- Need(k.at <= at && (linked.Some? ==> NoLaterActivity(p, linked.value, at)), InvalidEvent);
    :- Need(debited <= k.committed && (linked.Some? ==> debited <= p.decisions[linked.value].committed),
            DebitExceedsCommitment);
    :- Need(costs <= debited, DebitBelowRecordedCosts);
    var timeline :- RecordTimelineEntry(c.timeline, at, k.committed, debited);
    var committed :- CheckedSub(c.committed, k.committed);
    var spent :- CheckedAdd(c.spent, debited);
    Ok(c.(timeline := timeline, committed := committed, spent := spent,
          commitments := c.commitments[commitment := k.(debited := debited, settled := true)]))
  }

  function RecordDailyOutcome(p: Purchases, at: Time, date: Date, decision: Id): Result<Purchases, LedgerError> {
    if date != DateOf(at) then Err(DecisionDateMismatch)
    else if date in p.outcomes then Err(DecisionDateCollision)
    else if decision in p.decisionIds then Err(DecisionIdCollision)
    else
      Ok(p.(outcomes := p.outcomes[date := decision],
            decisionIds := p.decisionIds + {decision},
            lastDecisionAt := Some(MaxOption(p.lastDecisionAt, at))))
  }

  function RecordDecision(
    c: Capital, p: Purchases, at: Time, date: Date, decision: Id, commitment: Id, planned: u64, committed: u64)
    : Result<Purchases, LedgerError>
  {
    if commitment in c.commitments
       && (c.commitments[commitment].settled || c.commitments[commitment].committed < committed) then
      Err(InsufficientDecisionBacking)
    else if commitment in c.commitments && at < c.commitments[commitment].at then
      Err(InvalidEvent)
    else
      var q :- RecordDailyOutcome(p, at, date, decision);
      :- Need(commitment !in p.decisionCommitmentIds, DecisionCommitmentCollision);
      Ok(q.(decisionCommitmentIds := p.decisionCommitmentIds + {commitment},
            decisions := p.decisions[decision := Decision(at, commitment, planned, committed, 0, 0, None)]))
  }

  predicate HasUnsettledBacking(c: Capital, d: Decision) {
    d.commitmentId in c.commitments && !c.commitments[d.commitmentId].settled
  }

  function RecordOrder(
    c: Capital, p: Purchases, at: Time, order: Id, decision: Id): Result<Purchases, LedgerError>
  {
    if decision !in p.decisions then Err(UnknownDecision) else
    var d := p.decisions[decision];
    :- Need(d.at <= at, InvalidEvent);
    :- Need(HasUnsettledBacking(c, d) && d.committed <= c.commitments[d.commitmentId].committed,
            InsufficientDecisionBacking);
    :- Need(c.commitments[d.commitmentId].at <= at, InvalidEvent);
    :- Need(order !in p.orders, OrderIdCollision);
    Ok(p.(orders := p.orders[order := Order(at, decision)]))
  }

  function RecordFill(
    c: Capital, p: Purchases, at: Time, fill: Id, order: Id, filled: u64): Result<Purchases, LedgerError>
  {
    if order !in p.orders then Err(UnknownOrder) else
    var decision := p.orders[order].decisionId;
    :- Need(decision in p.decisions, UnknownDecision);
    var d := p.decisions[decision];
    :- Need(p.orders[order].at <= at && d.at <= at, InvalidEvent);
    :- Need(fill !in p.fills, FillIdCollision);
    :- Need(HasUnsettledBacking(c, d), InsufficientDecisionBacking);
    var next :- CheckedAdd(d.filled, filled);
    :- Need(next <= d.planned, FillExceedsDecisionPlan);
    var costs :- CheckedAdd(next, d.fee);
    :- Need(costs <= d.committed, DecisionCostsExceedCommitment);
    Ok(p.(fills := p.fills[fill := order],
          decisions := p.decisions[decision :=
            d.(filled := next, latestCostAt := Some(MaxOption(d.latestCostAt, at)))]))
  }

  function RecordFee(
    c: Capital, p: Purchases, at: Time, fee: Id, order: Id, amount: u64): Result<Purchases, LedgerError>
  {
    if order !in p.orders then Err(UnknownOrder) else
    var decision := p.orders[order].decisionId;
    :- Need(decision in p.decisions, UnknownDecision);
    var d := p.decisions[decision];
    :- Need(p.orders[order].at <= at && d.at <= at, InvalidEvent);
    :- Need(fee !in p.fees, FeeIdCollision);
    :- Need(HasUnsettledBacking(c, d), InsufficientDecisionBacking);
    var next :- CheckedAdd(d.fee, amount);
    var costs :- CheckedAdd(d.filled, next);
    :- Need(costs <= d.committed, DecisionCostsExceedCommitment);
    Ok(p.(fees := p.fees[fee := order],
          decisions := p.decisions[decision :=
            d.(fee := next, latestCostAt := Some(MaxOption(d.latestCostAt, at)))]))
  }

  function RecordBalance(r: Runtime, at: Time, usdc: u64, atoms: u64): Runtime {
    if r.lastObservationAt.Some? && at < r.lastObservationAt.value then r
    else r.(observedUsdc := usdc, observedHypeAtoms := atoms, lastObservationAt := Some(at))
  }

  function PrepareCycle(r: Runtime, cycle: string): Result<Runtime, LedgerError> {
    if cycle in r.cycles then Err(RuntimeCycleCollision)
    else Ok(r.(cycles := r.cycles[cycle := false]))
  }

  function CommitCycle(r: Runtime, cycle: string): Result<Runtime, LedgerError> {
    if cycle !in r.cycles then Err(UnknownRuntimeCycle)
    else if r.cycles[cycle] then Err(RuntimeCycleCollision)
    else Ok(r.(cycles := r.cycles[cycle := true], lastCycle := Some(cycle)))
  }

  /** The events that move capital. */
  predicate MovesCapital(kind: EventKind) {
    kind.AuthoritativeDeposit? || kind.AuthoritativeParentFunding? || kind.AuthoritativeTransferWithdrawal?
    || kind.DepositAdmission? || kind.AuthoritativeWithdrawal? || kind.CapitalCommitted? || kind.CapitalSettled?
  }

  /** What an event does to the money side. */
  ghost function ApplyCapital(c: Capital, p: Purchases, event: Event): Result<Capital, LedgerError> {
    match event.kind
    case AuthoritativeDeposit(amount) => Ok(RecordFunding(c, event.id, event.at, amount))
    case AuthoritativeParentFunding(amount, _, _) => Ok(RecordFunding(c, event.id, event.at, amount))
    case AuthoritativeTransferWithdrawal(unadmitted, amount, _, _) =>
      RecordTransferWithdrawal(c, event.at, unadmitted, amount)
    case DepositAdmission(deposit, amount) => RecordAdmission(c, event.at, deposit, amount)
    case AuthoritativeWithdrawal(amount) => RecordDebit(c, event.at, amount)
    case CapitalCommitted(commitment, amount) => RecordCommitment(c, p, event.at, commitment, amount)
    case CapitalSettled(commitment, debited) => RecordSettlement(c, p, event.at, commitment, debited)
    case _ => Ok(c)
  }

  /** What an event does to the purchase side. */
  function ApplyPurchase(c: Capital, p: Purchases, event: Event): Result<Purchases, LedgerError> {
    match event.kind
    case DailyDecision(decision, date, commitment, planned, committed) =>
      RecordDecision(c, p, event.at, date, decision, commitment, planned, committed)
    case DailySkip(decision, date, _) => RecordDailyOutcome(p, event.at, date, decision)
    case OrderRecorded(order, decision) => RecordOrder(c, p, event.at, order, decision)
    case FillRecorded(fill, order, filled, _) => RecordFill(c, p, event.at, fill, order, filled)
    case FeeRecorded(fee, order, amount) => RecordFee(c, p, event.at, fee, order, amount)
    case _ => Ok(p)
  }

  /** What an event does to runtime cycles and observed balances. */
  function ApplyRuntime(r: Runtime, event: Event): Result<Runtime, LedgerError> {
    match event.kind
    case BalanceObserved(usdc, atoms) => Ok(RecordBalance(r, event.at, usdc, atoms))
    case ReconciliationCorrection(_, usdc, atoms, _) => Ok(RecordBalance(r, event.at, usdc, atoms))
    case RuntimeCyclePrepared(cycle) => PrepareCycle(r, cycle)
    case RuntimeCycleCommitted(cycle) => CommitCycle(r, cycle)
    case _ => Ok(r)
  }

  /** Each event changes at most one of the three sides; the other two pass it through. */
  ghost function ApplyEvent(s: State, event: Event): Result<State, LedgerError> {
    var capital :- ApplyCapital(s.capital, s.purchases, event);
    var purchases :- ApplyPurchase(s.capital, s.purchases, event);
    var runtime :- ApplyRuntime(s.runtime, event);
    Ok(State(capital, purchases, runtime, s.lastEventAt))
  }

  /** The identifiers a replay has consumed besides those the state itself keeps. */
  datatype Seen = Seen(events: set<Id>, actions: set<Id>, rewards: set<Id>, corrections: set<Id>)

  function See(seen: Seen, event: Event): Result<Seen, LedgerError> {
    if event.id in seen.events then Err(CorruptLedger) else
    var s := seen.(events := seen.events + {event.id});
    match event.kind
    case StakingDepositRecorded(action, _) =>
      :- Need(action !in seen.actions, ActionIdCollision);
      Ok(s.(actions := seen.actions + {action}))
    case DelegationRecorded(action, _, _) =>
      :- Need(action !in seen.actions, ActionIdCollision);
      Ok(s.(actions := seen.actions + {action}))
    case RewardRecorded(reward, _) =>
      :- Need(reward !in seen.rewards, RewardIdCollision);
      Ok(s.(rewards := seen.rewards + {reward}))
    case ReconciliationCorrection(correction, _, _, _) =>
      :- Need(correction !in seen.corrections, CorrectionIdCollision);
      Ok(s.(corrections := seen.corrections + {correction}))
    case _ => Ok(s)
  }

  datatype Replayed = Replayed(state: State, seen: Seen)

  const NOTHING: Replayed := Replayed(EMPTY, Seen({}, {}, {}, {}))

  ghost function Step(r: Replayed, event: Event): Result<Replayed, LedgerError> {
    if ValidateEvent(event).Fail? then Err(ValidateEvent(event).error) else
    var seen :- See(r.seen, event);
    var state :- ApplyEvent(r.state, event);
    Ok(Replayed(state.(lastEventAt := Some(MaxOption(state.lastEventAt, event.at))), seen))
  }

  ghost function Fold(events: seq<Event>): Result<Replayed, LedgerError> {
    if events == [] then Ok(NOTHING)
    else
      var before :- Fold(events[..|events| - 1]);
      Step(before, events[|events| - 1])
  }

  /** The state a journal replays to, or the first reason why it does not replay. */
  ghost function Replay(events: seq<Event>): Result<State, LedgerError> {
    var r :- Fold(events);
    Ok(r.state)
  }

  lemma FoldSnoc(events: seq<Event>, event: Event)
    ensures Fold(events).Ok? ==> Fold(events + [event]) == Step(Fold(events).value, event)
    ensures Fold(events).Err? ==> Fold(events + [event]) == Err(Fold(events).error)
  {
    assert (events + [event])[..|events|] == events;
  }

  /** Every prefix of a journal that replays also replays. */
  lemma {:induction false} PrefixReplays(events: seq<Event>, n: nat)
    requires n <= |events|
    requires Fold(events).Ok?
    ensures Fold(events[..n]).Ok?
  {
    if n < |events| {
      var front := events[..|events| - 1];
      PrefixReplays(front, n);
      assert front[..n] == events[..n];
    } else {
      assert events[..n] == events;
    }
  }

  /** A journal fails to replay for the reason its first failing prefix does. */
  lemma {:induction false} FirstErrorStands(events: seq<Event>, n: nat)
    requires n <= |events|
    requires Fold(events[..n]).Err?
    ensures Fold(events) == Err(Fold(events[..n]).error)
  {
    hide Step;
    if n == |events| {
      assert events[..n] == events;
    } else {
      var front := events[..|events| - 1];
      assert front[..n] == events[..n];
      FirstErrorStands(front, n);
    }
  }

  function EventIds(events: seq<Event>): set<Id> {
    set e | e in events :: e.id
  }

  lemma EventIdsSnoc(events: seq<Event>, event: Event)
    ensures EventIds(events + [event]) == EventIds(events) + {event.id}
  {
    assert forall e :: e in events + [event] <==> e in events || e == event;
  }

  lemma NoEventIds()
    ensures EventIds([]) == {} && NOTHING.seen.events == {}
  {
  }

  lemma IdIsIn(events: seq<Event>, i: nat)
    requires i < |events|
    ensures events[i].id in EventIds(events)
  {
    assert events[i] in events;
  }

  lemma SeesOnce(r: Replayed, event: Event)
    requires Step(r, event).Ok?
    ensures event.id !in r.seen.events
    ensures Step(r, event).value.seen.events == r.seen.events + {event.id}
  {
    hide ApplyEvent, ValidateEvent;
  }

  /** A replay has seen exactly the identifiers of its journal, each of them once. */
  lemma {:induction false} SeenIsEventIds(events: seq<Event>)
    requires Fold(events).Ok?
    ensures Fold(events).value.seen.events == EventIds(events)
    ensures forall i, j | 0 <= i < j < |events| :: events[i].id != events[j].id
  {
    hide Step, EventIds;
    if events == [] {
      NoEventIds();
    } else {
      var front, last := events[..|events| - 1], events[|events| - 1];
      SeenIsEventIds(front);
      SeesOnce(Fold(front).value, last);
      EventIdsSnoc(front, last);
      assert events == front + [last];
      forall i | 0 <= i < |front|
        ensures events[i].id != last.id
      {
        IdIsIn(front, i);
      }
    }
  }
}
