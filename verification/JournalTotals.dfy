/**
 * The money counters of a replayed state are the sums of the journal's own
 * amounts: of every deposit, of every decision, of every commitment, and in all.
 */
module JournalTotals {
  import opened Prelude
  import opened LedgerEvents
  import opened LedgerReplay
  import opened CapitalConservation
  import opened PurchaseChain
  import opened PurchaseHistory

  /** What a total over the journal adds up. */
  datatype Part =
    | FundingOf(deposit: Id)
    | AdmissionsTo(deposit: Id)
    | ReturnsTo(deposit: Id)
    | AllAdmissions
    | AllWithdrawals
    | AllDebits
    | DebitsOf(commitment: Id)
    | FillsOf(decision: Id)
    | FeesOf(decision: Id)
    | CostsOf(commitment: Id)

  function Allocated(allocations: seq<CapitalAllocation>): int {
    if allocations == [] then 0 else allocations[0].amount + Allocated(allocations[1..])
  }

  function AllocatedTo(allocations: seq<CapitalAllocation>, deposit: Id): int {
    if allocations == [] then 0
    else (if allocations[0].trancheId == deposit then allocations[0].amount else 0)
         + AllocatedTo(allocations[1..], deposit)
  }

  /** The journal records this order under this decision. */
  ghost predicate OrderedUnder(events: seq<Event>, order: Id, decision: Id) {
    exists e :: e in events && e.kind == OrderRecorded(order, decision)
  }

  /** The journal records this decision on this commitment. */
  ghost predicate DecidedOn(events: seq<Event>, decision: Id, commitment: Id) {
    exists e ::
      e in events && e.kind.DailyDecision? && e.kind.decisionId == decision && e.kind.commitmentId == commitment
  }

  ghost predicate BuysFor(events: seq<Event>, order: Id, commitment: Id) {
    exists d :: OrderedUnder(events, order, d) && DecidedOn(events, d, commitment)
  }

  /** What an event adds to a total, given the journal before it. */
  ghost function Amount(part: Part, before: seq<Event>, e: Event): int {
    match e.kind
    case AuthoritativeDeposit(amount) => if part == FundingOf(e.id) then amount else 0
    case AuthoritativeParentFunding(amount, _, _) => if part == FundingOf(e.id) then amount else 0
    case DepositAdmission(deposit, amount) =>
      if part == AdmissionsTo(deposit) || part == AllAdmissions then amount else 0
    case AuthoritativeTransferWithdrawal(unadmitted, amount, _, _) =>
      if part.ReturnsTo? then AllocatedTo(unadmitted, part.deposit)
      else if part == AllWithdrawals then amount - Allocated(unadmitted)
      else 0
    case AuthoritativeWithdrawal(amount) => if part == AllWithdrawals then amount else 0
    case CapitalSettled(commitment, debited) =>
      if part == AllDebits || part == DebitsOf(commitment) then debited else 0
    case FillRecorded(_, order, filled, _) =>
      if (part.FillsOf? && OrderedUnder(before, order, part.decision))
         || (part.CostsOf? && BuysFor(before, order, part.commitment)) then filled else 0
    case FeeRecorded(_, order, fee) =>
      if (part.FeesOf? && OrderedUnder(before, order, part.decision))
         || (part.CostsOf? && BuysFor(before, order, part.commitment)) then fee else 0
    case _ => 0
  }

  /** A total over a journal. */
  ghost function Tally(events: seq<Event>, part: Part): int {
    if events == [] then 0
    else
      var front, last := events[..|events| - 1], events[|events| - 1];
      Tally(front, part) + Amount(part, front, last)
  }

  lemma TallySnoc(events: seq<Event>, event: Event, part: Part)
    ensures Tally(events + [event], part) == Tally(events, part) + Amount(part, events, event)
  {
    assert (events + [event])[..|events|] == events;
  }

  /** What the state has booked on a deposit, nothing for one it does not know. */
  function Booked(c: Capital, deposit: Id): Deposit {
    if deposit in c.deposits then c.deposits[deposit] else Deposit(0, 0, 0, 0)
  }

  function DebitOf(c: Capital, commitment: Id): int {
    if commitment in c.commitments then c.commitments[commitment].debited else 0
  }

  function FilledOf(p: Purchases, decision: Id): int {
    if decision in p.decisions then p.decisions[decision].filled else 0
  }

  function FeeOf(p: Purchases, decision: Id): int {
    if decision in p.decisions then p.decisions[decision].fee else 0
  }

  /** The costs booked on the decision that names a commitment, if one does. */
  ghost function BookedCosts(p: Purchases, commitment: Id): int {
    var linked := LinkedDecision(p, commitment);
    if linked.Some? then p.decisions[linked.value].filled + p.decisions[linked.value].fee else 0
  }

  ghost predicate DepositTallied(events: seq<Event>, c: Capital, deposit: Id) {
    && Booked(c, deposit).authoritative == Tally(events, FundingOf(deposit))
    && Booked(c, deposit).admitted == Tally(events, AdmissionsTo(deposit))
    && Booked(c, deposit).returned == Tally(events, ReturnsTo(deposit))
  }

  /** Deposits, commitments and the three running totals are sums over the journal. */
  ghost predicate CapitalTallied(events: seq<Event>, c: Capital) {
    && (forall d :: DepositTallied(events, c, d))
    && (forall k :: DebitOf(c, k) == Tally(events, DebitsOf(k)))
    && c.admitted == Tally(events, AllAdmissions)
    && c.withdrawn == Tally(events, AllWithdrawals)
    && c.spent == Tally(events, AllDebits)
  }

  /** Decisions are sums over the journal, and so are the costs of a commitment. */
  ghost predicate PurchasesTallied(events: seq<Event>, p: Purchases) {
    && (forall d :: FilledOf(p, d) == Tally(events, FillsOf(d)))
    && (forall d :: FeeOf(p, d) == Tally(events, FeesOf(d)))
    && (forall k :: BookedCosts(p, k) == Tally(events, CostsOf(k)))
  }

  /** Returning unadmitted funding books each allocation on its deposit, and their sum. */
  lemma {:induction false} ReturnsAreBooked(
    deposits: map<Id, Deposit>, at: Time, allocations: seq<CapitalAllocation>, returned: u64)
    requires ReturnUnadmitted(deposits, at, allocations, returned).Ok?
    ensures var (after, total) := ReturnUnadmitted(deposits, at, allocations, returned).value;
            && total == returned + Allocated(allocations)
            && after.Keys == deposits.Keys
            && (forall d :: d in deposits ==>
                  after[d] == deposits[d].(returned := after[d].returned)
                  && after[d].returned == deposits[d].returned + AllocatedTo(allocations, d))
            && (forall d :: d !in deposits ==> AllocatedTo(allocations, d) == 0)
  {
    if allocations != [] {
      var a := allocations[0];
      var d := deposits[a.trancheId];
      ReturnsAreBooked(deposits[a.trancheId := d.(returned := d.returned + a.amount)], at, allocations[1..],
                       returned + a.amount);
    }
  }

  /** How one event changes every booked amount of the money side. */
  ghost predicate CapitalMoves(c: Capital, next: Capital, event: Event) {
    && (forall d :: Booked(next, d).authoritative == Booked(c, d).authoritative + Amount(FundingOf(d), [], event))
    && (forall d :: Booked(next, d).admitted == Booked(c, d).admitted + Amount(AdmissionsTo(d), [], event))
    && (forall d :: Booked(next, d).returned == Booked(c, d).returned + Amount(ReturnsTo(d), [], event))
    && (forall k :: DebitOf(next, k) == DebitOf(c, k) + Amount(DebitsOf(k), [], event))
    && next.admitted == c.admitted + Amount(AllAdmissions, [], event)
    && next.withdrawn == c.withdrawn + Amount(AllWithdrawals, [], event)
    && next.spent == c.spent + Amount(AllDebits, [], event)
  }

  lemma TransferAmounts(event: Event)
    requires event.kind.AuthoritativeTransferWithdrawal?
    ensures forall part: Part ::
              Amount(part, [], event)
              == (if part.ReturnsTo? then AllocatedTo(event.kind.unadmitted, part.deposit)
                  else if part == AllWithdrawals then event.kind.amount - Allocated(event.kind.unadmitted)
                  else 0)
  {
    hide Allocated, AllocatedTo, OrderedUnder, BuysFor;
  }

  lemma TransferShape(c: Capital, p: Purchases, event: Event)
    requires event.kind.AuthoritativeTransferWithdrawal? && ApplyCapital(c, p, event).Ok?
    ensures ReturnUnadmitted(c.deposits, event.at, event.kind.unadmitted, 0).Ok?
    ensures var (deposits, back) := ReturnUnadmitted(c.deposits, event.at, event.kind.unadmitted, 0).value;
            var next := ApplyCapital(c, p, event).value;
            && next.deposits == deposits && next.withdrawn == c.withdrawn + event.kind.amount - back
            && next.commitments == c.commitments && next.admitted == c.admitted && next.spent == c.spent
  {
    hide ReturnUnadmitted, RecordTimelineEntry;
  }

  lemma TransferMoves(c: Capital, p: Purchases, event: Event)
    requires event.kind.AuthoritativeTransferWithdrawal? && ApplyCapital(c, p, event).Ok?
    ensures CapitalMoves(c, ApplyCapital(c, p, event).value, event)
  {
    hide *;
    var next := ApplyCapital(c, p, event).value;
    TransferShape(c, p, event);
    ReturnsAreBooked(c.deposits, event.at, event.kind.unadmitted, 0);
    ReturnsMove(c, next, event.kind.unadmitted);
    ReturnedIsMoved(c, next, event);
  }

  lemma ReturnedIsMoved(c: Capital, next: Capital, event: Event)
    requires event.kind.AuthoritativeTransferWithdrawal?
    requires forall d :: Booked(next, d).authoritative == Booked(c, d).authoritative
    requires forall d :: Booked(next, d).admitted == Booked(c, d).admitted
    requires forall d :: Booked(next, d).returned == Booked(c, d).returned + AllocatedTo(event.kind.unadmitted, d)
    requires next.commitments == c.commitments && next.admitted == c.admitted && next.spent == c.spent
    requires next.withdrawn == c.withdrawn + event.kind.amount - Allocated(event.kind.unadmitted)
    ensures CapitalMoves(c, next, event)
  {
    hide Amount, Allocated, AllocatedTo, Booked;
    TransferAmounts(event);
  }

  lemma ReturnsMove(c: Capital, next: Capital, unadmitted: seq<CapitalAllocation>)
    requires next.deposits.Keys == c.deposits.Keys
    requires forall d :: d in c.deposits ==>
               next.deposits[d] == c.deposits[d].(returned := next.deposits[d].returned)
               && next.deposits[d].returned == c.deposits[d].returned + AllocatedTo(unadmitted, d)
    requires forall d :: d !in c.deposits ==> AllocatedTo(unadmitted, d) == 0
    ensures forall d :: Booked(next, d).authoritative == Booked(c, d).authoritative
    ensures forall d :: Booked(next, d).admitted == Booked(c, d).admitted
    ensures forall d :: Booked(next, d).returned == Booked(c, d).returned + AllocatedTo(unadmitted, d)
  {
    hide AllocatedTo;
  }

  lemma SettlementMoves(c: Capital, p: Purchases, event: Event)
    requires forall k :: k in c.commitments ==> CommitmentOk(c.commitments[k])
    requires event.kind.CapitalSettled? && ApplyCapital(c, p, event).Ok?
    ensures CapitalMoves(c, ApplyCapital(c, p, event).value, event)
  {
    hide RecordTimelineEntry, LinkedDecision, RecordedCosts, NoLaterActivity, Amount;
    SettlementAmounts(event);
  }

  lemma FundingMoves(c: Capital, id: Id, at: Time, amount: u64, event: Event)
    requires event.id == id && id !in c.deposits
    requires event.kind == AuthoritativeDeposit(amount)
             || (event.kind.AuthoritativeParentFunding? && event.kind.amount == amount)
    ensures CapitalMoves(c, RecordFunding(c, id, at, amount), event)
  {
    FundingAmounts(event, amount);
    var next := RecordFunding(c, id, at, amount);
    assert next == c.(deposits := c.deposits[id := Deposit(at, amount, 0, 0)]);
    hide Amount, RecordFunding;
    assert forall k :: DebitOf(next, k) == DebitOf(c, k);
    hide DebitOf;
  }

  lemma FundingAmounts(event: Event, amount: u64)
    requires event.kind == AuthoritativeDeposit(amount)
             || (event.kind.AuthoritativeParentFunding? && event.kind.amount == amount)
    ensures forall part: Part :: Amount(part, [], event) == if part == FundingOf(event.id) then amount else 0
  {
    hide Allocated, AllocatedTo, OrderedUnder, BuysFor;
  }

  lemma SettlementAmounts(event: Event)
    requires event.kind.CapitalSettled?
    ensures forall part: Part ::
              Amount(part, [], event)
              == (if part == AllDebits || part == DebitsOf(event.kind.commitmentId) then event.kind.debited else 0)
  {
    hide Allocated, AllocatedTo, OrderedUnder, BuysFor;
  }

  lemma AdmissionMoves(c: Capital, event: Event)
    requires event.kind.DepositAdmission?
    requires RecordAdmission(c, event.at, event.kind.depositEventId, event.kind.amount).Ok?
    ensures CapitalMoves(c, RecordAdmission(c, event.at, event.kind.depositEventId, event.kind.amount).value, event)
  {
    hide RecordTimelineEntry, Allocated, AllocatedTo, OrderedUnder, BuysFor;
  }

  lemma WithdrawalMoves(c: Capital, event: Event)
    requires event.kind.AuthoritativeWithdrawal? && RecordDebit(c, event.at, event.kind.amount).Ok?
    ensures CapitalMoves(c, RecordDebit(c, event.at, event.kind.amount).value, event)
  {
    hide RecordTimelineEntry, Allocated, AllocatedTo, OrderedUnder, BuysFor;
  }

  lemma CommitmentMoves(c: Capital, p: Purchases, event: Event)
    requires event.kind.CapitalCommitted?
    requires RecordCommitment(c, p, event.at, event.kind.commitmentId, event.kind.amount).Ok?
    ensures CapitalMoves(c, RecordCommitment(c, p, event.at, event.kind.commitmentId, event.kind.amount).value, event)
  {
    hide RecordTimelineEntry, LinkedDecision, Allocated, AllocatedTo, OrderedUnder, BuysFor;
  }

  lemma NothingMoves(c: Capital, event: Event)
    requires !MovesCapital(event.kind)
    ensures CapitalMoves(c, c, event)
  {
    hide OrderedUnder, BuysFor;
  }

  lemma EventMoves(c: Capital, p: Purchases, event: Event)
    requires forall k :: k in c.commitments ==> CommitmentOk(c.commitments[k])
    requires event.id !in c.deposits && ApplyCapital(c, p, event).Ok?
    ensures CapitalMoves(c, ApplyCapital(c, p, event).value, event)
  {
    hide CapitalMoves, RecordFunding, RecordTransferWithdrawal, RecordAdmission, RecordDebit, RecordCommitment,
         RecordSettlement;
    match event.kind
    case AuthoritativeDeposit(amount) => FundingMoves(c, event.id, event.at, amount, event);
    case AuthoritativeParentFunding(amount, _, _) => FundingMoves(c, event.id, event.at, amount, event);
    case AuthoritativeTransferWithdrawal(_, _, _, _) => TransferMoves(c, p, event);
    case DepositAdmission(_, _) => AdmissionMoves(c, event);
    case AuthoritativeWithdrawal(_) => WithdrawalMoves(c, event);
    case CapitalCommitted(_, _) => CommitmentMoves(c, p, event);
    case CapitalSettled(_, _) => SettlementMoves(c, p, event);
    case _ => NothingMoves(c, event);
  }

  /** Only fills and fees look at the journal before them. */
  lemma AmountsIgnoreHistory(events: seq<Event>, event: Event)
    ensures forall part: Part :: !part.FillsOf? && !part.FeesOf? && !part.CostsOf? ==>
                                   Amount(part, events, event) == Amount(part, [], event)
  {
    hide OrderedUnder, BuysFor, Allocated, AllocatedTo;
  }

  lemma CapitalTallyStep(events: seq<Event>, event: Event, c: Capital, next: Capital)
    requires CapitalTallied(events, c) && CapitalMoves(c, next, event)
    ensures CapitalTallied(events + [event], next)
  {
    AmountsIgnoreHistory(events, event);
    hide Booked, DebitOf, Tally, Amount;
    forall d
      ensures DepositTallied(events + [event], next, d)
    {
      assert DepositTallied(events, c, d);
      TallySnoc(events, event, FundingOf(d));
      TallySnoc(events, event, AdmissionsTo(d));
      TallySnoc(events, event, ReturnsTo(d));
    }
    forall k
      ensures DebitOf(next, k) == Tally(events + [event], DebitsOf(k))
    {
      TallySnoc(events, event, DebitsOf(k));
    }
    TallySnoc(events, event, AllAdmissions);
    TallySnoc(events, event, AllWithdrawals);
    TallySnoc(events, event, AllDebits);
  }

  /** The order table tells under which decision the journal records an order. */
  lemma OrdersAgree(events: seq<Event>, s: State, order: Id, decision: Id)
    requires Agrees(events, s)
    ensures OrderedUnder(events, order, decision)
       <==> order in s.purchases.orders && s.purchases.orders[order].decisionId == decision
  {
    hide ChainOk, CommitmentIn, DecisionIn, FillIn, FeeIn, Recorded;
    var p := s.purchases;
    if e :| e in events && e.kind == OrderRecorded(order, decision) {
      RecordedOrder(e, s.capital, p);
    }
    if order in p.orders && p.orders[order].decisionId == decision {
      assert OrderIn(events, order, p.orders[order]);
    }
  }

  lemma RecordedOrder(e: Event, c: Capital, p: Purchases)
    requires Recorded(e, c, p) && e.kind.OrderRecorded?
    ensures e.kind.orderId in p.orders && p.orders[e.kind.orderId].decisionId == e.kind.decisionId
  {
  }

  lemma RecordedDecision(e: Event, c: Capital, p: Purchases)
    requires Recorded(e, c, p) && e.kind.DailyDecision?
    ensures Links(p, e.kind.decisionId, e.kind.commitmentId)
  {
  }

  /** The decision table tells which commitment the journal's decision names. */
  lemma DecisionsAgree(events: seq<Event>, s: State, decision: Id, commitment: Id)
    requires Agrees(events, s)
    ensures DecidedOn(events, decision, commitment) <==> Links(s.purchases, decision, commitment)
  {
    hide ChainOk, CommitmentIn, OrderIn, FillIn, FeeIn, Recorded;
    var p := s.purchases;
    if e :| e in events && e.kind.DailyDecision? && e.kind.decisionId == decision && e.kind.commitmentId == commitment {
      RecordedDecision(e, s.capital, p);
    }
    if Links(p, decision, commitment) {
      assert DecisionIn(events, decision, p.decisions[decision]);
    }
  }

  /** A cost counts for the one decision its order was placed under, and for the one commitment behind it. */
  lemma CostCounts(events: seq<Event>, s: State, order: Id)
    requires Agrees(events, s) && order in s.purchases.orders
    ensures var d := s.purchases.orders[order].decisionId;
            && d in s.purchases.decisions
            && (forall x :: OrderedUnder(events, order, x) <==> x == d)
            && (forall k :: BuysFor(events, order, k) <==> k == s.purchases.decisions[d].commitmentId)
  {
    var p := s.purchases;
    var d := p.orders[order].decisionId;
    assert OrderOk(s.capital, p, p.orders[order]);
    hide *;
    forall x
      ensures OrderedUnder(events, order, x) <==> x == d
    {
      OrdersAgree(events, s, order, x);
    }
    forall k
      ensures BuysFor(events, order, k) <==> k == p.decisions[d].commitmentId
    {
      DecisionsAgree(events, s, d, k);
      BuysThrough(events, order, d, k);
      LinksTell(p, d, k);
    }
  }

  lemma BuysThrough(events: seq<Event>, order: Id, decision: Id, commitment: Id)
    requires forall x :: OrderedUnder(events, order, x) <==> x == decision
    ensures BuysFor(events, order, commitment) <==> DecidedOn(events, decision, commitment)
  {
    hide OrderedUnder, DecidedOn;
  }

  lemma LinksTell(p: Purchases, decision: Id, commitment: Id)
    requires decision in p.decisions
    ensures Links(p, decision, commitment) <==> commitment == p.decisions[decision].commitmentId
  {
  }

  /** How one event changes every booked amount of the purchase side. */
  ghost predicate PurchasesMove(events: seq<Event>, p: Purchases, next: Purchases, event: Event) {
    && (forall d :: FilledOf(next, d) == FilledOf(p, d) + Amount(FillsOf(d), events, event))
    && (forall d :: FeeOf(next, d) == FeeOf(p, d) + Amount(FeesOf(d), events, event))
    && (forall k :: BookedCosts(next, k) == BookedCosts(p, k) + Amount(CostsOf(k), events, event))
  }

  /** Booked costs follow the decisions, which name commitments once each. */
  lemma CostsFollowDecisions(p: Purchases, commitment: Id)
    requires OneDecisionEach(p)
    ensures forall d :: Links(p, d, commitment) ==> BookedCosts(p, commitment) == FilledOf(p, d) + FeeOf(p, d)
    ensures (forall d :: !Links(p, d, commitment)) ==> BookedCosts(p, commitment) == 0
  {
    forall d | Links(p, d, commitment)
      ensures BookedCosts(p, commitment) == FilledOf(p, d) + FeeOf(p, d)
    {
      LinkIsUnique(p, d, commitment);
    }
    hide OneDecisionEach;
  }

  /** With the same links, what is booked for a commitment moves as its decision does. */
  lemma BookedMoves(p: Purchases, next: Purchases, commitment: Id, delta: int)
    requires OneDecisionEach(p) && OneDecisionEach(next)
    requires forall d :: Links(p, d, commitment) <==> Links(next, d, commitment)
    requires forall d :: Links(p, d, commitment) ==>
                           FilledOf(next, d) + FeeOf(next, d) == FilledOf(p, d) + FeeOf(p, d) + delta
    requires (forall d :: !Links(p, d, commitment)) ==> delta == 0
    ensures BookedCosts(next, commitment) == BookedCosts(p, commitment) + delta
  {
    hide OneDecisionEach, BookedCosts, Links, FilledOf, FeeOf;
    CostsFollowDecisions(p, commitment);
    CostsFollowDecisions(next, commitment);
  }

  /** A change to the counters of one decision. */
  ghost predicate Counts(p: Purchases, next: Purchases, d: Id, filled: int, fee: int) {
    && d in p.decisions && next.decisions.Keys == p.decisions.Keys
    && (forall x :: x in p.decisions ==> next.decisions[x].commitmentId == p.decisions[x].commitmentId)
    && (forall x :: x in p.decisions && x != d ==> next.decisions[x] == p.decisions[x])
    && next.decisions[d].filled == p.decisions[d].filled + filled
    && next.decisions[d].fee == p.decisions[d].fee + fee
  }

  lemma CountedMoves(p: Purchases, next: Purchases, d: Id, filled: int, fee: int)
    requires OneDecisionEach(p) && OneDecisionEach(next) && Counts(p, next, d, filled, fee)
    ensures forall x :: FilledOf(next, x) == FilledOf(p, x) + if x == d then filled else 0
    ensures forall x :: FeeOf(next, x) == FeeOf(p, x) + if x == d then fee else 0
    ensures forall k :: BookedCosts(next, k)
                     == BookedCosts(p, k) + if k == p.decisions[d].commitmentId then filled + fee else 0
  {
    hide OneDecisionEach, BookedCosts;
    forall k
      ensures BookedCosts(next, k) == BookedCosts(p, k) + if k == p.decisions[d].commitmentId then filled + fee else 0
    {
      assert Links(p, d, p.decisions[d].commitmentId);
      if k == p.decisions[d].commitmentId {
        OnlyLink(p, d, k);
      }
      BookedMoves(p, next, k, if k == p.decisions[d].commitmentId then filled + fee else 0);
    }
  }

  lemma OnlyLink(p: Purchases, d: Id, commitment: Id)
    requires OneDecisionEach(p) && Links(p, d, commitment)
    ensures forall x :: Links(p, x, commitment) <==> x == d
  {
  }

  lemma CostIsCounted(c: Capital, p: Purchases, event: Event)
    requires (event.kind.FillRecorded? || event.kind.FeeRecorded?) && ApplyPurchase(c, p, event).Ok?
    ensures event.kind.orderId in p.orders
    ensures var next, d := ApplyPurchase(c, p, event).value, p.orders[event.kind.orderId].decisionId;
            Counts(p, next, d, if event.kind.FillRecorded? then event.kind.filled else 0,
                   if event.kind.FeeRecorded? then event.kind.fee else 0)
  {
    hide HasUnsettledBacking;
  }

  /** What a fill or fee adds, given the one decision and the one commitment it counts for. */
  lemma CostAmounts(events: seq<Event>, event: Event, decision: Id, commitment: Id, filled: int, fee: int)
    requires event.kind.FillRecorded? || event.kind.FeeRecorded?
    requires filled == if event.kind.FillRecorded? then event.kind.filled else 0
    requires fee == if event.kind.FeeRecorded? then event.kind.fee else 0
    requires forall x :: OrderedUnder(events, event.kind.orderId, x) <==> x == decision
    requires forall k :: BuysFor(events, event.kind.orderId, k) <==> k == commitment
    ensures forall x :: Amount(FillsOf(x), events, event) == if x == decision then filled else 0
    ensures forall x :: Amount(FeesOf(x), events, event) == if x == decision then fee else 0
    ensures forall k :: Amount(CostsOf(k), events, event) == if k == commitment then filled + fee else 0
  {
    hide OrderedUnder, BuysFor;
  }

  lemma CostMoves(events: seq<Event>, s: State, event: Event)
    requires Agrees(events, s) && (event.kind.FillRecorded? || event.kind.FeeRecorded?)
    requires ApplyPurchase(s.capital, s.purchases, event).Ok?
    requires OneDecisionEach(s.purchases)
    requires OneDecisionEach(ApplyPurchase(s.capital, s.purchases, event).value)
    ensures PurchasesMove(events, s.purchases, ApplyPurchase(s.capital, s.purchases, event).value, event)
  {
    hide *;
    var p, next := s.purchases, ApplyPurchase(s.capital, s.purchases, event).value;
    var filled := if event.kind.FillRecorded? then event.kind.filled else 0;
    var fee := if event.kind.FeeRecorded? then event.kind.fee else 0;
    CostIsCounted(s.capital, p, event);
    CostCounts(events, s, event.kind.orderId);
    var d := p.orders[event.kind.orderId].decisionId;
    CostAmounts(events, event, d, p.decisions[d].commitmentId, filled, fee);
    CountedMoves(p, next, d, filled, fee);
    MovesTogether(events, p, next, event, d, p.decisions[d].commitmentId, filled, fee);
  }

  lemma MovesTogether(
    events: seq<Event>, p: Purchases, next: Purchases, event: Event, d: Id, commitment: Id, filled: int, fee: int)
    requires forall x :: Amount(FillsOf(x), events, event) == if x == d then filled else 0
    requires forall x :: Amount(FeesOf(x), events, event) == if x == d then fee else 0
    requires forall k :: Amount(CostsOf(k), events, event) == if k == commitment then filled + fee else 0
    requires forall x :: FilledOf(next, x) == FilledOf(p, x) + if x == d then filled else 0
    requires forall x :: FeeOf(next, x) == FeeOf(p, x) + if x == d then fee else 0
    requires forall k :: BookedCosts(next, k) == BookedCosts(p, k) + if k == commitment then filled + fee else 0
    ensures PurchasesMove(events, p, next, event)
  {
    hide Amount, FilledOf, FeeOf, BookedCosts;
  }

  lemma DecisionIsNew(c: Capital, p: Purchases, event: Event)
    requires OneDecisionEach(p) && event.kind.DailyDecision? && ApplyPurchase(c, p, event).Ok?
    ensures var next, d := ApplyPurchase(c, p, event).value, event.kind.decisionId;
            && d !in p.decisions && d in next.decisions
            && next.decisions == p.decisions[d := next.decisions[d]]
            && next.decisions[d].filled == 0 && next.decisions[d].fee == 0
            && next.decisions[d].commitmentId == event.kind.commitmentId
            && forall x :: !Links(p, x, event.kind.commitmentId)
  {
    hide DateOf;
  }

  lemma DecisionMoves(events: seq<Event>, c: Capital, p: Purchases, event: Event)
    requires OneDecisionEach(p) && event.kind.DailyDecision? && ApplyPurchase(c, p, event).Ok?
    requires OneDecisionEach(ApplyPurchase(c, p, event).value)
    ensures PurchasesMove(events, p, ApplyPurchase(c, p, event).value, event)
  {
    hide OneDecisionEach, ApplyPurchase, BookedCosts, OrderedUnder, BuysFor, Allocated, AllocatedTo;
    var next, d := ApplyPurchase(c, p, event).value, event.kind.decisionId;
    DecisionIsNew(c, p, event);
    forall k
      ensures BookedCosts(next, k) == BookedCosts(p, k)
    {
      if k == event.kind.commitmentId {
        CostsFollowDecisions(p, k);
        CostsFollowDecisions(next, k);
        assert Links(next, d, k);
      } else {
        BookedMoves(p, next, k, 0);
      }
    }
  }

  lemma DecisionsStay(c: Capital, p: Purchases, event: Event)
    requires !event.kind.DailyDecision? && !event.kind.FillRecorded? && !event.kind.FeeRecorded?
    requires ApplyPurchase(c, p, event).Ok?
    ensures ApplyPurchase(c, p, event).value.decisions == p.decisions
  {
    hide DateOf, HasUnsettledBacking;
  }

  lemma QuietMoves(events: seq<Event>, c: Capital, p: Purchases, event: Event)
    requires !event.kind.DailyDecision? && !event.kind.FillRecorded? && !event.kind.FeeRecorded?
    requires ApplyPurchase(c, p, event).Ok?
    requires OneDecisionEach(p) && OneDecisionEach(ApplyPurchase(c, p, event).value)
    ensures PurchasesMove(events, p, ApplyPurchase(c, p, event).value, event)
  {
    hide ApplyPurchase, OneDecisionEach, BookedCosts;
    var next := ApplyPurchase(c, p, event).value;
    DecisionsStay(c, p, event);
    forall k
      ensures BookedCosts(next, k) == BookedCosts(p, k)
    {
      BookedMoves(p, next, k, 0);
    }
    hide OrderedUnder, BuysFor, Allocated, AllocatedTo;
  }

  lemma PurchaseTallyStep(events: seq<Event>, event: Event, p: Purchases, next: Purchases)
    requires PurchasesTallied(events, p) && PurchasesMove(events, p, next, event)
    ensures PurchasesTallied(events + [event], next)
  {
    hide FilledOf, FeeOf, BookedCosts, Tally, Amount;
    forall d
      ensures FilledOf(next, d) == Tally(events + [event], FillsOf(d))
      ensures FeeOf(next, d) == Tally(events + [event], FeesOf(d))
      ensures BookedCosts(next, d) == Tally(events + [event], CostsOf(d))
    {
      TallySnoc(events, event, FillsOf(d));
      TallySnoc(events, event, FeesOf(d));
      TallySnoc(events, event, CostsOf(d));
    }
  }

  lemma EventCounts(events: seq<Event>, s: State, event: Event)
    requires Agrees(events, s) && ApplyPurchase(s.capital, s.purchases, event).Ok?
    requires OneDecisionEach(ApplyPurchase(s.capital, s.purchases, event).value)
    ensures PurchasesMove(events, s.purchases, ApplyPurchase(s.capital, s.purchases, event).value, event)
  {
    assert OneDecisionEach(s.purchases);
    hide *;
    if event.kind.DailyDecision? {
      DecisionMoves(events, s.capital, s.purchases, event);
    } else if event.kind.FillRecorded? || event.kind.FeeRecorded? {
      CostMoves(events, s, event);
    } else {
      QuietMoves(events, s.capital, s.purchases, event);
    }
  }

  ghost predicate Tallied(events: seq<Event>, s: State) {
    CapitalTallied(events, s.capital) && PurchasesTallied(events, s.purchases)
  }

  lemma StepParts(r: Replayed, event: Event)
    requires Sound(r) && Step(r, event).Ok?
    ensures var s, next := r.state, Step(r, event).value.state;
            && event.id !in s.capital.deposits
            && ApplyCapital(s.capital, s.purchases, event) == Ok(next.capital)
            && ApplyPurchase(s.capital, s.purchases, event) == Ok(next.purchases)
  {
    hide Balanced, ApplyCapital, ApplyPurchase, ApplyRuntime, ValidateEvent;
  }

  lemma StepTallies(events: seq<Event>, r: Replayed, event: Event)
    requires CapitalTallied(events, r.state.capital) && PurchasesTallied(events, r.state.purchases)
    requires Agrees(events, r.state) && Sound(r) && Step(r, event).Ok?
    ensures CapitalTallied(events + [event], Step(r, event).value.state.capital)
    ensures PurchasesTallied(events + [event], Step(r, event).value.state.purchases)
  {
    hide *;
    AgreesIsChained(events, r.state);
    ChainedOnce(r.state);
    var s, next := r.state, Step(r, event).value.state;
    StepParts(r, event);
    EventMoves(s.capital, s.purchases, event);
    CapitalTallyStep(events, event, s.capital, next.capital);
    StepKeepsChain(r, event);
    ChainedOnce(next);
    EventCounts(events, s, event);
    PurchaseTallyStep(events, event, s.purchases, next.purchases);
  }

  lemma AgreesIsChained(events: seq<Event>, s: State)
    requires Agrees(events, s)
    ensures ChainOk(s.capital, s.purchases)
  {
    hide ChainOk, Sourced, Recorded;
  }

  lemma ChainedOnce(s: State)
    requires ChainOk(s.capital, s.purchases)
    ensures OneDecisionEach(s.purchases)
    ensures forall k :: k in s.capital.commitments ==> CommitmentOk(s.capital.commitments[k])
  {
    hide OneDecisionEach, CommitmentOk, DecisionOk, OrderOk;
  }

  lemma TalliedStep(events: seq<Event>, r: Replayed, event: Event)
    requires Tallied(events, r.state) && Agrees(events, r.state) && Sound(r) && Step(r, event).Ok?
    ensures Tallied(events + [event], Step(r, event).value.state)
  {
    hide CapitalTallied, PurchasesTallied, Agrees, Sound, Step;
    StepTallies(events, r, event);
  }

  lemma NothingTallied()
    ensures Tallied([], EMPTY)
  {
    hide OneDecisionEach;
  }

  /**
   * The counters of every state a journal replays to are the journal's sums: each
   * decision's fills and fees are those recorded under its orders, each deposit's
   * funding, admissions and returns are its own, each commitment's debit is its
   * settlement's, and the totals admitted, withdrawn and spent are the sums of
   * admissions, of withdrawals and transfers less what they return, and of debits.
   */
  lemma {:induction false} CountersAreJournalSums(events: seq<Event>)
    requires Fold(events).Ok?
    ensures Tallied(events, Fold(events).value.state)
  {
    hide Tallied, Step, Agrees, Sound;
    if events == [] {
      NothingTallied();
    } else {
      var front, last := events[..|events| - 1], events[|events| - 1];
      CountersAreJournalSums(front);
      AlwaysAgrees(front);
      AlwaysBalanced(front);
      TalliedStep(front, Fold(front).value, last);
      assert events == front + [last];
    }
  }
}
