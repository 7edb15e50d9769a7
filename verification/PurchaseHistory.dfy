/**
 * The journal behind the purchase chain: what each accepted event left in the
 * state for good, which events the state's tables come from, and the order in
 * time that this imposes on a whole purchase.
 */
module PurchaseHistory {
  import opened Prelude
  import opened LedgerEvents
  import opened LedgerReplay
  import opened PurchaseChain

  ghost predicate CostRecorded(p: Purchases, order: Id, at: Time) {
    && order in p.orders
    && p.orders[order].at <= at
    && p.orders[order].decisionId in p.decisions
    && p.decisions[p.orders[order].decisionId].latestCostAt.Some?
    && at <= p.decisions[p.orders[order].decisionId].latestCostAt.value
  }

  /** What an event that was accepted once still shows in the state. */
  ghost predicate Recorded(e: Event, c: Capital, p: Purchases) {
    match e.kind
    case CapitalCommitted(k, amount) =>
      k in c.commitments && c.commitments[k].at == e.at && c.commitments[k].committed == amount
    case CapitalSettled(k, debited) =>
      && k in c.commitments && c.commitments[k].settled && c.commitments[k].debited == debited
      && c.commitments[k].at <= e.at
      && forall d :: Links(p, d, k) ==> NoLaterActivity(p, d, e.at)
    case DailyDecision(d, date, k, planned, committed) =>
      && d in p.decisions && p.decisions[d].at == e.at && p.decisions[d].commitmentId == k
      && p.decisions[d].planned == planned && p.decisions[d].committed == committed
    case OrderRecorded(o, d) => o in p.orders && p.orders[o] == Order(e.at, d)
    case FillRecorded(f, o, _, _) => f in p.fills && p.fills[f] == o && CostRecorded(p, o, e.at)
    case FeeRecorded(f, o, _) => f in p.fees && p.fees[f] == o && CostRecorded(p, o, e.at)
    case _ => true
  }

  lemma CapitalLeavesRecorded(e: Event, c: Capital, p: Purchases, event: Event)
    requires ChainOk(c, p) && Recorded(e, c, p)
    requires ApplyCapital(c, p, event).Ok?
    ensures Recorded(e, ApplyCapital(c, p, event).value, p)
  {
    hide RecordTimelineEntry, ReturnUnadmitted, LinkedDecision, ChainOk, RecordedCosts;
    hide NoLaterActivity, CostRecorded;
  }

  lemma PurchaseLeavesRecorded(e: Event, c: Capital, p: Purchases, event: Event)
    requires ChainOk(c, p) && Recorded(e, c, p)
    requires ApplyPurchase(c, p, event).Ok?
    ensures Recorded(e, c, ApplyPurchase(c, p, event).value)
  {
    hide ApplyPurchase, ChainOk, NoLaterActivity;
    var q := ApplyPurchase(c, p, event).value;
    if e.kind.CapitalSettled? {
      forall d | Links(q, d, e.kind.commitmentId)
        ensures NoLaterActivity(q, d, e.at)
      {
        SettledActivityStands(c, p, event, e.kind.commitmentId, d, e.at);
      }
    } else {
      TablesGrow(c, p, event);
    }
  }

  /** A decision whose record, and whose orders, an event did not change. */
  ghost predicate Untouched(p: Purchases, q: Purchases, d: Id) {
    && d in p.decisions && d in q.decisions && q.decisions[d] == p.decisions[d]
    && forall o :: o in q.orders && q.orders[o].decisionId == d ==> o in p.orders && p.orders[o] == q.orders[o]
  }

  lemma SettledUntouchedByDecision(c: Capital, p: Purchases, event: Event, commitment: Id, d: Id)
    requires ChainOk(c, p) && event.kind.DailyDecision?
    requires commitment in c.commitments && c.commitments[commitment].settled
    requires ApplyPurchase(c, p, event).Ok?
    requires Links(ApplyPurchase(c, p, event).value, d, commitment)
    ensures Untouched(p, ApplyPurchase(c, p, event).value, d)
  {
    hide DecisionOk, OrderOk, OneDecisionEach;
  }

  lemma SettledUntouchedByOrder(c: Capital, p: Purchases, event: Event, commitment: Id, d: Id)
    requires event.kind.OrderRecorded?
    requires commitment in c.commitments && c.commitments[commitment].settled
    requires ApplyPurchase(c, p, event).Ok?
    requires Links(ApplyPurchase(c, p, event).value, d, commitment)
    ensures Untouched(p, ApplyPurchase(c, p, event).value, d)
  {
  }

  lemma SettledUntouchedByCost(c: Capital, p: Purchases, event: Event, commitment: Id, d: Id)
    requires event.kind.FillRecorded? || event.kind.FeeRecorded?
    requires commitment in c.commitments && c.commitments[commitment].settled
    requires ApplyPurchase(c, p, event).Ok?
    requires Links(ApplyPurchase(c, p, event).value, d, commitment)
    ensures Untouched(p, ApplyPurchase(c, p, event).value, d)
  {
  }

  /** Nothing can be added under a settled commitment, so nothing later appears there. */
  lemma SettledActivityStands(c: Capital, p: Purchases, event: Event, commitment: Id, d: Id, at: Time)
    requires ChainOk(c, p)
    requires commitment in c.commitments && c.commitments[commitment].settled
    requires forall e :: Links(p, e, commitment) ==> NoLaterActivity(p, e, at)
    requires ApplyPurchase(c, p, event).Ok?
    requires Links(ApplyPurchase(c, p, event).value, d, commitment)
    ensures NoLaterActivity(ApplyPurchase(c, p, event).value, d, at)
  {
    hide ChainOk, RecordDecision, RecordOrder, RecordFill, RecordFee;
    var q := ApplyPurchase(c, p, event).value;
    if event.kind.DailyDecision? {
      SettledUntouchedByDecision(c, p, event, commitment, d);
    } else if event.kind.OrderRecorded? {
      SettledUntouchedByOrder(c, p, event, commitment, d);
    } else if event.kind.FillRecorded? || event.kind.FeeRecorded? {
      SettledUntouchedByCost(c, p, event, commitment, d);
    }
    assert Untouched(p, q, d);
    assert Links(p, d, commitment);
  }

  ghost predicate Later(d: Decision, e: Decision) {
    && e.at == d.at && e.commitmentId == d.commitmentId && e.planned == d.planned && e.committed == d.committed
    && (d.latestCostAt.Some? ==> e.latestCostAt.Some? && d.latestCostAt.value <= e.latestCostAt.value)
  }

  /** Tables of decisions, orders, fills and fees only grow, and latest-cost times only move forward. */
  ghost predicate Grown(p: Purchases, q: Purchases) {
    && (forall o :: o in p.orders ==> o in q.orders && q.orders[o] == p.orders[o])
    && (forall f :: f in p.fills ==> f in q.fills && q.fills[f] == p.fills[f])
    && (forall f :: f in p.fees ==> f in q.fees && q.fees[f] == p.fees[f])
    && (forall d :: d in p.decisions ==> d in q.decisions && Later(p.decisions[d], q.decisions[d]))
  }

  lemma DecisionGrows(
    c: Capital, p: Purchases, at: Time, date: Date, decision: Id, commitment: Id, planned: u64, committed: u64)
    requires OneDecisionEach(p)
    requires RecordDecision(c, p, at, date, decision, commitment, planned, committed).Ok?
    ensures Grown(p, RecordDecision(c, p, at, date, decision, commitment, planned, committed).value)
  {
    DecisionsHaveIds(p);
    hide OneDecisionEach;
  }

  lemma TablesGrow(c: Capital, p: Purchases, event: Event)
    requires ChainOk(c, p)
    requires ApplyPurchase(c, p, event).Ok?
    ensures Grown(p, ApplyPurchase(c, p, event).value)
  {
    hide ChainOk, RecordDecision, RecordOrder, RecordFill, RecordFee, Grown, RecordDailyOutcome, OneDecisionEach;
    ChainNamesOnce(c, p);
    match event.kind
    case DailyDecision(decision, date, commitment, planned, committed) =>
      DecisionGrows(c, p, event.at, date, decision, commitment, planned, committed);
    case DailySkip(decision, date, _) => OutcomeGrows(p, event.at, date, decision);
    case OrderRecorded(order, decision) => OrderGrows(c, p, event.at, order, decision);
    case FillRecorded(fill, order, filled, _) => FillGrows(c, p, event.at, fill, order, filled);
    case FeeRecorded(fee, order, amount) => FeeGrows(c, p, event.at, fee, order, amount);
    case _ => GrownReflexive(p);
  }

  lemma ChainNamesOnce(c: Capital, p: Purchases)
    requires ChainOk(c, p)
    ensures OneDecisionEach(p)
  {
    hide OneDecisionEach;
  }

  lemma GrownReflexive(p: Purchases)
    ensures Grown(p, p)
  {
  }

  lemma OutcomeGrows(p: Purchases, at: Time, date: Date, decision: Id)
    requires RecordDailyOutcome(p, at, date, decision).Ok?
    ensures Grown(p, RecordDailyOutcome(p, at, date, decision).value)
  {
  }

  lemma OrderGrows(c: Capital, p: Purchases, at: Time, order: Id, decision: Id)
    requires RecordOrder(c, p, at, order, decision).Ok?
    ensures Grown(p, RecordOrder(c, p, at, order, decision).value)
  {
  }

  lemma FillGrows(c: Capital, p: Purchases, at: Time, fill: Id, order: Id, filled: u64)
    requires RecordFill(c, p, at, fill, order, filled).Ok?
    ensures Grown(p, RecordFill(c, p, at, fill, order, filled).value)
  {
  }

  lemma FeeGrows(c: Capital, p: Purchases, at: Time, fee: Id, order: Id, amount: u64)
    requires RecordFee(c, p, at, fee, order, amount).Ok?
    ensures Grown(p, RecordFee(c, p, at, fee, order, amount).value)
  {
  }

  lemma CapitalNewlyRecorded(c: Capital, p: Purchases, event: Event)
    requires OneDecisionEach(p)
    requires MovesCapital(event.kind)
    requires ApplyCapital(c, p, event).Ok?
    ensures Recorded(event, ApplyCapital(c, p, event).value, p)
  {
    hide RecordTimelineEntry, ReturnUnadmitted, RecordedCosts, OneDecisionEach;
    if event.kind.CapitalSettled? {
      forall d | Links(p, d, event.kind.commitmentId)
        ensures NoLaterActivity(p, d, event.at)
      {
        LinkIsUnique(p, d, event.kind.commitmentId);
      }
    }
  }

  lemma PurchaseNewlyRecorded(c: Capital, p: Purchases, event: Event)
    requires !MovesCapital(event.kind)
    requires ApplyPurchase(c, p, event).Ok?
    ensures Recorded(event, c, ApplyPurchase(c, p, event).value)
  {
    hide NoLaterActivity;
    match event.kind
    case DailyDecision(_, _, _, _, _) => hide RecordOrder, RecordFill, RecordFee, CostRecorded;
    case OrderRecorded(_, _) => hide RecordDecision, RecordFill, RecordFee, CostRecorded;
    case FillRecorded(_, _, _, _) => hide RecordDecision, RecordOrder, RecordFee;
    case FeeRecorded(_, _, _) => hide RecordDecision, RecordOrder, RecordFill;
    case _ => hide RecordDecision, RecordOrder, RecordFill, RecordFee, CostRecorded;
  }

  ghost predicate CommitmentIn(events: seq<Event>, id: Id, k: Commitment) {
    exists e :: e in events && e.at == k.at && e.kind == CapitalCommitted(id, k.committed)
  }

  ghost predicate DecisionIn(events: seq<Event>, id: Id, d: Decision) {
    exists e :: e in events && e.at == d.at && e.kind.DailyDecision? && e.kind.decisionId == id
      && e.kind.commitmentId == d.commitmentId && e.kind.planned == d.planned && e.kind.committed == d.committed
  }

  ghost predicate OrderIn(events: seq<Event>, id: Id, o: Order) {
    exists e :: e in events && e.at == o.at && e.kind == OrderRecorded(id, o.decisionId)
  }

  ghost predicate FillIn(events: seq<Event>, id: Id, order: Id) {
    exists e :: e in events && e.kind.FillRecorded? && e.kind.fillId == id && e.kind.orderId == order
  }

  ghost predicate FeeIn(events: seq<Event>, id: Id, order: Id) {
    exists e :: e in events && e.kind.FeeRecorded? && e.kind.feeId == id && e.kind.orderId == order
  }

  /** Every row of the state's tables comes from an event of the journal. */
  ghost predicate Sourced(events: seq<Event>, c: Capital, p: Purchases) {
    && (forall k :: k in c.commitments ==> CommitmentIn(events, k, c.commitments[k]))
    && (forall d :: d in p.decisions ==> DecisionIn(events, d, p.decisions[d]))
    && (forall o :: o in p.orders ==> OrderIn(events, o, p.orders[o]))
    && (forall f :: f in p.fills ==> FillIn(events, f, p.fills[f]))
    && (forall f :: f in p.fees ==> FeeIn(events, f, p.fees[f]))
  }

  lemma SourcedGrows(events: seq<Event>, event: Event, c: Capital, p: Purchases)
    requires Sourced(events, c, p)
    ensures Sourced(events + [event], c, p)
  {
    hide CommitmentIn, DecisionIn, OrderIn, FillIn, FeeIn;
    TermsStay(events, event);
    CostsStay(events, event);
  }

  lemma TermsStay(events: seq<Event>, event: Event)
    ensures forall id, k :: CommitmentIn(events, id, k) ==> CommitmentIn(events + [event], id, k)
    ensures forall id, d :: DecisionIn(events, id, d) ==> DecisionIn(events + [event], id, d)
  {
    assert forall e :: e in events ==> e in events + [event];
  }

  lemma CostsStay(events: seq<Event>, event: Event)
    ensures forall id, o :: OrderIn(events, id, o) ==> OrderIn(events + [event], id, o)
    ensures forall id, order :: FillIn(events, id, order) ==> FillIn(events + [event], id, order)
    ensures forall id, order :: FeeIn(events, id, order) ==> FeeIn(events + [event], id, order)
  {
    assert forall e :: e in events ==> e in events + [event];
  }

  lemma CapitalSourced(events: seq<Event>, c: Capital, p: Purchases, event: Event)
    requires Sourced(events, c, p) && event in events
    requires ApplyCapital(c, p, event).Ok?
    ensures Sourced(events, ApplyCapital(c, p, event).value, p)
  {
    hide RecordTimelineEntry, ReturnUnadmitted, RecordedCosts, LinkedDecision, NoLaterActivity;
    hide DecisionIn, OrderIn, FillIn, FeeIn;
  }

  lemma DecisionSourced(events: seq<Event>, c: Capital, p: Purchases, event: Event)
    requires Sourced(events, c, p) && event in events && event.kind.DailyDecision?
    requires ApplyPurchase(c, p, event).Ok?
    ensures Sourced(events, c, ApplyPurchase(c, p, event).value)
  {
    hide CommitmentIn, OrderIn, FillIn, FeeIn;
    var q := ApplyPurchase(c, p, event).value;
    assert DecisionIn(events, event.kind.decisionId, q.decisions[event.kind.decisionId]);
  }

  lemma OrderSourced(events: seq<Event>, c: Capital, p: Purchases, event: Event)
    requires Sourced(events, c, p) && event in events && event.kind.OrderRecorded?
    requires ApplyPurchase(c, p, event).Ok?
    ensures Sourced(events, c, ApplyPurchase(c, p, event).value)
  {
    hide CommitmentIn, DecisionIn, OrderIn, FillIn, FeeIn;
    KindIn(events, event);
  }

  lemma CostSourced(events: seq<Event>, c: Capital, p: Purchases, event: Event)
    requires Sourced(events, c, p) && event in events && (event.kind.FillRecorded? || event.kind.FeeRecorded?)
    requires ApplyPurchase(c, p, event).Ok?
    ensures Sourced(events, c, ApplyPurchase(c, p, event).value)
  {
    hide CommitmentIn, OrderIn, DecisionIn, FillIn, FeeIn;
    var q := ApplyPurchase(c, p, event).value;
    var d := p.orders[event.kind.orderId].decisionId;
    SameTermsIn(events, d, p.decisions[d], q.decisions[d]);
    KindIn(events, event);
  }

  lemma SameTermsIn(events: seq<Event>, id: Id, d: Decision, e: Decision)
    requires DecisionIn(events, id, d)
    requires e.at == d.at && e.commitmentId == d.commitmentId && e.planned == d.planned && e.committed == d.committed
    ensures DecisionIn(events, id, e)
  {
  }

  lemma KindIn(events: seq<Event>, event: Event)
    requires event in events
    ensures event.kind.FillRecorded? ==> FillIn(events, event.kind.fillId, event.kind.orderId)
    ensures event.kind.FeeRecorded? ==> FeeIn(events, event.kind.feeId, event.kind.orderId)
    ensures event.kind.OrderRecorded? ==>
              OrderIn(events, event.kind.orderId, Order(event.at, event.kind.decisionId))
  {
  }

  lemma PurchaseSourced(events: seq<Event>, c: Capital, p: Purchases, event: Event)
    requires Sourced(events, c, p) && event in events
    requires ApplyPurchase(c, p, event).Ok?
    ensures Sourced(events, c, ApplyPurchase(c, p, event).value)
  {
    hide RecordDecision, RecordOrder, RecordFill, RecordFee, CommitmentIn, DecisionIn, OrderIn, FillIn, FeeIn;
    if event.kind.DailyDecision? {
      DecisionSourced(events, c, p, event);
    } else if event.kind.OrderRecorded? {
      OrderSourced(events, c, p, event);
    } else if event.kind.FillRecorded? || event.kind.FeeRecorded? {
      CostSourced(events, c, p, event);
    }
  }

  /** State and journal agree: every event shows in the state, every row of the state is an event. */
  ghost predicate Agrees(events: seq<Event>, s: State) {
    && ChainOk(s.capital, s.purchases)
    && Sourced(events, s.capital, s.purchases)
    && forall e :: e in events ==> Recorded(e, s.capital, s.purchases)
  }

  lemma StepAgrees(events: seq<Event>, r: Replayed, event: Event)
    requires Agrees(events, r.state)
    requires Step(r, event).Ok?
    ensures Agrees(events + [event], Step(r, event).value.state)
  {
    hide ChainOk, Sourced, Recorded, ValidateEvent, ApplyCapital, ApplyPurchase, ApplyRuntime;
    var c, p := r.state.capital, r.state.purchases;
    var c', p' := ApplyCapital(c, p, event).value, ApplyPurchase(c, p, event).value;
    OneSide(c, p, event);
    StepKeepsChain(r, event);
    SourcedGrows(events, event, c, p);
    CapitalSourced(events + [event], c, p, event);
    PurchaseSourced(events + [event], c, p, event);
    forall e | e in events
      ensures Recorded(e, c', p')
    {
      CapitalLeavesRecorded(e, c, p, event);
      PurchaseLeavesRecorded(e, c, p, event);
    }
    NewlyRecorded(c, p, event);
  }

  lemma NewlyRecorded(c: Capital, p: Purchases, event: Event)
    requires ChainOk(c, p)
    requires ApplyCapital(c, p, event).Ok? && ApplyPurchase(c, p, event).Ok?
    ensures Recorded(event, ApplyCapital(c, p, event).value, ApplyPurchase(c, p, event).value)
  {
    hide Recorded, OneDecisionEach, RecordDecision, RecordFill, RecordFee, RecordOrder, RecordDailyOutcome;
    hide RecordFunding, RecordTransferWithdrawal, RecordAdmission, RecordDebit, RecordCommitment, RecordSettlement;
    if MovesCapital(event.kind) {
      CapitalNewlyRecorded(c, p, event);
    } else {
      PurchaseNewlyRecorded(c, p, event);
    }
  }

  /** The state a journal replays to agrees with the journal. */
  lemma {:induction false} AlwaysAgrees(events: seq<Event>)
    requires Fold(events).Ok?
    ensures Agrees(events, Fold(events).value.state)
  {
    hide Step;
    if events != [] {
      hide Agrees;
      var front, last := events[..|events| - 1], events[|events| - 1];
      AlwaysAgrees(front);
      StepAgrees(front, Fold(front).value, last);
      assert events == front + [last];
    }
  }

  ghost predicate IsCost(e: Event, order: Id) {
    (e.kind.FillRecorded? || e.kind.FeeRecorded?) && e.kind.orderId == order
  }

  /** `k` commits, `d` decides on it and `o` orders under that decision, no later than `cost`. */
  ghost predicate RunsForward(k: Event, d: Event, o: Event, cost: Event) {
    && k.kind.CapitalCommitted? && d.kind.DailyDecision? && o.kind.OrderRecorded?
    && IsCost(cost, o.kind.orderId)
    && d.kind.decisionId == o.kind.decisionId
    && k.kind.commitmentId == d.kind.commitmentId
    && k.at <= d.at <= o.at <= cost.at
    && d.kind.committed <= k.kind.amount
  }

  /** Every settlement of a commitment comes after `cost` and stays within the decision. */
  ghost predicate SettledAfter(events: seq<Event>, d: Event, cost: Event) {
    d.kind.DailyDecision? &&
    forall e :: e in events && e.kind.CapitalSettled? && e.kind.commitmentId == d.kind.commitmentId
      ==> cost.at <= e.at && e.kind.debited <= d.kind.committed
  }

  lemma EventsBehindOrder(events: seq<Event>, c: Capital, p: Purchases, order: Id)
    returns (k: Event, d: Event, o: Event)
    requires Sourced(events, c, p) && ChainOk(c, p) && order in p.orders
    ensures k in events && d in events && o in events
    ensures o.kind == OrderRecorded(order, p.orders[order].decisionId) && o.at == p.orders[order].at
    ensures d.kind.DailyDecision? && d.kind.decisionId == o.kind.decisionId
    ensures d.kind.decisionId in p.decisions
    ensures var decision := p.decisions[d.kind.decisionId];
            && d.at == decision.at && d.kind.committed == decision.committed
            && d.kind.commitmentId == decision.commitmentId
            && k.kind.CapitalCommitted? && k.kind.commitmentId == decision.commitmentId
            && k.at <= d.at <= o.at && d.kind.committed <= k.kind.amount
  {
    hide OneDecisionEach, FillIn, FeeIn;
    var order' := p.orders[order];
    assert OrderOk(c, p, order');
    var decision := p.decisions[order'.decisionId];
    assert DecisionOk(c, decision);
    var commitment := c.commitments[decision.commitmentId];
    assert OrderIn(events, order, order') && DecisionIn(events, order'.decisionId, decision)
        && CommitmentIn(events, decision.commitmentId, commitment);
    o :| o in events && o.at == order'.at && o.kind == OrderRecorded(order, order'.decisionId);
    d :| d in events && d.at == decision.at && d.kind.DailyDecision? && d.kind.decisionId == order'.decisionId
      && d.kind.commitmentId == decision.commitmentId && d.kind.planned == decision.planned
      && d.kind.committed == decision.committed;
    k :| k in events && k.at == commitment.at
      && k.kind == CapitalCommitted(decision.commitmentId, commitment.committed);
  }

  lemma SettlementsComeLast(events: seq<Event>, c: Capital, p: Purchases, d: Event, cost: Event, order: Id)
    requires ChainOk(c, p) && forall e :: e in events ==> Recorded(e, c, p)
    requires cost in events && IsCost(cost, order)
    requires d.kind.DailyDecision? && order in p.orders && p.orders[order].decisionId == d.kind.decisionId
    requires d.kind.decisionId in p.decisions
    requires p.decisions[d.kind.decisionId].commitmentId == d.kind.commitmentId
    requires p.decisions[d.kind.decisionId].committed == d.kind.committed
    ensures SettledAfter(events, d, cost)
  {
    hide Sourced, OneDecisionEach;
    assert Recorded(cost, c, p);
    forall e | e in events && e.kind.CapitalSettled? && e.kind.commitmentId == d.kind.commitmentId
      ensures cost.at <= e.at && e.kind.debited <= d.kind.committed
    {
      assert Recorded(e, c, p);
      assert Links(p, d.kind.decisionId, e.kind.commitmentId);
      assert DecisionOk(c, p.decisions[d.kind.decisionId]);
    }
  }

  ghost predicate HasPurchaseBehind(events: seq<Event>, cost: Event) {
    exists k, d, o :: k in events && d in events && o in events
      && RunsForward(k, d, o, cost) && SettledAfter(events, d, cost)
  }

  lemma BehindCost(events: seq<Event>, s: State, cost: Event)
    requires Agrees(events, s)
    requires cost in events && (cost.kind.FillRecorded? || cost.kind.FeeRecorded?)
    ensures HasPurchaseBehind(events, cost)
  {
    hide ChainOk, Sourced, SettledAfter;
    var c, p := s.capital, s.purchases;
    assert Recorded(cost, c, p);
    var k, d, o := EventsBehindOrder(events, c, p, cost.kind.orderId);
    hide Recorded;
    SettlementsComeLast(events, c, p, d, cost, cost.kind.orderId);
    assert RunsForward(k, d, o, cost);
  }

  /**
   * Behind every fill and every fee stand an order, a decision and a commitment
   * of the same journal, each no later than the next, and any settlement of that
   * commitment is no earlier than the fill or fee.
   */
  lemma PurchaseRunsForward(events: seq<Event>, cost: Event)
    requires Replay(events).Ok?
    requires cost in events && (cost.kind.FillRecorded? || cost.kind.FeeRecorded?)
    ensures exists k, d, o :: k in events && d in events && o in events
                           && RunsForward(k, d, o, cost) && SettledAfter(events, d, cost)
  {
    hide Fold, Agrees, RunsForward, SettledAfter;
    AlwaysAgrees(events);
    BehindCost(events, Replay(events).value, cost);
  }
}
