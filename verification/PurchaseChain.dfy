/**
 * The purchase chain: commitment, decision, orders, fills, fees, settlement.
 * What every reachable state keeps, and what a journal's own events say about it.
 */
module PurchaseChain {
  import opened Prelude
  import opened LedgerEvents
  import opened LedgerReplay

  ghost predicate CommitmentOk(k: Commitment) {
    0 < k.committed && k.debited <= k.committed && (!k.settled ==> k.debited == 0)
  }

  /** A commitment covers its decision and, once settled, what was spent under it. */
  ghost predicate Backs(k: Commitment, d: Decision) {
    && d.committed <= k.committed
    && k.at <= d.at
    && (k.settled ==> d.filled + d.fee <= k.debited <= d.committed)
  }

  ghost predicate DecisionOk(c: Capital, d: Decision) {
    && d.filled <= d.planned <= d.committed
    && d.filled + d.fee <= d.committed
    && (d.latestCostAt.Some? ==> d.at <= d.latestCostAt.value)
    && (if d.commitmentId in c.commitments then Backs(c.commitments[d.commitmentId], d)
        else d.filled == 0 && d.fee == 0 && d.latestCostAt.None?)
  }

  ghost predicate OrderOk(c: Capital, p: Purchases, o: Order) {
    && o.decisionId in p.decisions
    && p.decisions[o.decisionId].at <= o.at
    && p.decisions[o.decisionId].commitmentId in c.commitments
  }

  /** A commitment is named by at most one decision, and the index of named commitments is exact. */
  ghost predicate OneDecisionEach(p: Purchases) {
    && p.decisions.Keys <= p.decisionIds
    && (forall d, e | d in p.decisions && e in p.decisions ::
          p.decisions[d].commitmentId == p.decisions[e].commitmentId ==> d == e)
    && p.decisionCommitmentIds == set d | d in p.decisions :: p.decisions[d].commitmentId
  }

  ghost predicate ChainOk(c: Capital, p: Purchases) {
    && (forall k :: k in c.commitments ==> CommitmentOk(c.commitments[k]))
    && (forall d :: d in p.decisions ==> DecisionOk(c, p.decisions[d]))
    && (forall o :: o in p.orders ==> OrderOk(c, p, p.orders[o]))
    && (forall f :: f in p.fills ==> p.fills[f] in p.orders)
    && (forall f :: f in p.fees ==> p.fees[f] in p.orders)
    && OneDecisionEach(p)
  }

  /** The one decision that names a commitment is the linked one. */
  lemma LinkIsUnique(p: Purchases, d: Id, commitment: Id)
    requires OneDecisionEach(p) && Links(p, d, commitment)
    ensures LinkedDecision(p, commitment) == Some(d)
  {
    assert LinkedDecision(p, commitment).Some?;
  }

  /** Decisions are indexed by the commitments they name. */
  lemma NamedIffLinked(p: Purchases, commitment: Id)
    requires OneDecisionEach(p)
    ensures commitment in p.decisionCommitmentIds <==> LinkedDecision(p, commitment).Some?
  {
    if commitment in p.decisionCommitmentIds {
      var d :| d in p.decisions && p.decisions[d].commitmentId == commitment;
      assert Links(p, d, commitment);
    }
  }

  lemma CommitmentKeepsChain(c: Capital, p: Purchases, at: Time, commitment: Id, amount: u64)
    requires ChainOk(c, p) && 0 < amount
    requires RecordCommitment(c, p, at, commitment, amount).Ok?
    ensures ChainOk(RecordCommitment(c, p, at, commitment, amount).value, p)
  {
    hide RecordTimelineEntry, LinkedDecision;
    var next := RecordCommitment(c, p, at, commitment, amount).value;
    forall d | d in p.decisions
      ensures DecisionOk(next, p.decisions[d])
    {
      if p.decisions[d].commitmentId == commitment {
        LinkIsUnique(p, d, commitment);
      }
    }
  }

  lemma SettlementKeepsChain(c: Capital, p: Purchases, at: Time, commitment: Id, debited: u64)
    requires ChainOk(c, p)
    requires RecordSettlement(c, p, at, commitment, debited).Ok?
    ensures ChainOk(RecordSettlement(c, p, at, commitment, debited).value, p)
  {
    hide RecordTimelineEntry, LinkedDecision, NoLaterActivity;
    var next := RecordSettlement(c, p, at, commitment, debited).value;
    forall d | d in p.decisions
      ensures DecisionOk(next, p.decisions[d])
    {
      if p.decisions[d].commitmentId == commitment {
        LinkIsUnique(p, d, commitment);
      }
    }
  }

  lemma CapitalKeepsChain(c: Capital, p: Purchases, event: Event)
    requires ChainOk(c, p)
    requires ValidateEvent(event).Pass?
    requires ApplyCapital(c, p, event).Ok?
    ensures ChainOk(ApplyCapital(c, p, event).value, p)
  {
    hide RecordCommitment, RecordSettlement, RecordTimelineEntry, ReturnUnadmitted, ChainOk;
    match event.kind
    case CapitalCommitted(commitment, amount) => CommitmentKeepsChain(c, p, event.at, commitment, amount);
    case CapitalSettled(commitment, debited) => SettlementKeepsChain(c, p, event.at, commitment, debited);
    case _ => SameCommitments(c, ApplyCapital(c, p, event).value, p);
  }

  lemma SameCommitments(c: Capital, next: Capital, p: Purchases)
    requires ChainOk(c, p) && next.commitments == c.commitments
    ensures ChainOk(next, p)
  {
  }

  lemma DecisionKeepsIndex(p: Purchases, q: Purchases, decision: Id, d: Decision)
    requires OneDecisionEach(p)
    requires decision !in p.decisionIds && d.commitmentId !in p.decisionCommitmentIds
    requires q.decisions == p.decisions[decision := d]
    requires q.decisionIds == p.decisionIds + {decision}
    requires q.decisionCommitmentIds == p.decisionCommitmentIds + {d.commitmentId}
    ensures OneDecisionEach(q)
  {
    assert forall e :: e in p.decisions ==> p.decisions[e].commitmentId in p.decisionCommitmentIds;
    assert q.decisions[decision].commitmentId == d.commitmentId;
    assert forall e :: e in p.decisions ==> q.decisions[e] == p.decisions[e];
  }

  lemma DecisionKeepsChain(
    c: Capital, p: Purchases, at: Time, date: Date, decision: Id, commitment: Id, planned: u64, committed: u64)
    requires ChainOk(c, p) && planned <= committed
    requires RecordDecision(c, p, at, date, decision, commitment, planned, committed).Ok?
    ensures ChainOk(c, RecordDecision(c, p, at, date, decision, commitment, planned, committed).value)
  {
    hide OneDecisionEach;
    var q := RecordDecision(c, p, at, date, decision, commitment, planned, committed).value;
    DecisionKeepsIndex(p, q, decision, q.decisions[decision]);
    assert decision !in p.decisions by {
      DecisionsHaveIds(p);
    }
  }

  lemma DecisionsHaveIds(p: Purchases)
    requires OneDecisionEach(p)
    ensures forall d :: d in p.decisions ==> d in p.decisionIds
  {
  }

  lemma OutcomeKeepsChain(c: Capital, p: Purchases, at: Time, date: Date, decision: Id)
    requires ChainOk(c, p)
    requires RecordDailyOutcome(p, at, date, decision).Ok?
    ensures ChainOk(c, RecordDailyOutcome(p, at, date, decision).value)
  {
  }

  lemma OrderKeepsChain(c: Capital, p: Purchases, at: Time, order: Id, decision: Id)
    requires ChainOk(c, p)
    requires RecordOrder(c, p, at, order, decision).Ok?
    ensures ChainOk(c, RecordOrder(c, p, at, order, decision).value)
  {
    hide OneDecisionEach, CommitmentOk, Backs;
    assert OneDecisionEach(RecordOrder(c, p, at, order, decision).value) by {
      SameDecisionsEach(p, RecordOrder(c, p, at, order, decision).value);
    }
  }

  lemma SameDecisionsEach(p: Purchases, q: Purchases)
    requires OneDecisionEach(p) && q.decisions == p.decisions
    requires q.decisionIds == p.decisionIds && q.decisionCommitmentIds == p.decisionCommitmentIds
    ensures OneDecisionEach(q)
  {
  }

  /** A fill or fee changes one decision's costs and nothing that identifies it. */
  lemma CostKeepsChain(c: Capital, p: Purchases, q: Purchases, decision: Id)
    requires ChainOk(c, p)
    requires decision in p.decisions && decision in q.decisions
    requires q.decisions == p.decisions[decision := q.decisions[decision]]
    requires q.decisions[decision].commitmentId == p.decisions[decision].commitmentId
    requires q.decisions[decision].at == p.decisions[decision].at
    requires DecisionOk(c, q.decisions[decision])
    requires q.decisionIds == p.decisionIds && q.decisionCommitmentIds == p.decisionCommitmentIds
    requires q.orders == p.orders
    requires forall f :: f in q.fills ==> q.fills[f] in q.orders
    requires forall f :: f in q.fees ==> q.fees[f] in q.orders
    ensures ChainOk(c, q)
  {
    hide DecisionOk, CommitmentOk;
    CostKeepsNames(p, q, decision);
    hide OneDecisionEach;
  }

  lemma CostKeepsNames(p: Purchases, q: Purchases, decision: Id)
    requires OneDecisionEach(p)
    requires decision in p.decisions && decision in q.decisions
    requires q.decisions == p.decisions[decision := q.decisions[decision]]
    requires q.decisions[decision].commitmentId == p.decisions[decision].commitmentId
    requires q.decisionIds == p.decisionIds && q.decisionCommitmentIds == p.decisionCommitmentIds
    ensures OneDecisionEach(q)
  {
    assert forall d :: d in q.decisions ==>
                         d in p.decisions && q.decisions[d].commitmentId == p.decisions[d].commitmentId;
  }

  lemma FillKeepsChain(c: Capital, p: Purchases, at: Time, fill: Id, order: Id, filled: u64)
    requires ChainOk(c, p)
    requires RecordFill(c, p, at, fill, order, filled).Ok?
    ensures ChainOk(c, RecordFill(c, p, at, fill, order, filled).value)
  {
    hide OneDecisionEach, CommitmentOk;
    CostKeepsChain(c, p, RecordFill(c, p, at, fill, order, filled).value, p.orders[order].decisionId);
  }

  lemma FeeKeepsChain(c: Capital, p: Purchases, at: Time, fee: Id, order: Id, amount: u64)
    requires ChainOk(c, p)
    requires RecordFee(c, p, at, fee, order, amount).Ok?
    ensures ChainOk(c, RecordFee(c, p, at, fee, order, amount).value)
  {
    hide OneDecisionEach, CommitmentOk;
    CostKeepsChain(c, p, RecordFee(c, p, at, fee, order, amount).value, p.orders[order].decisionId);
  }

  lemma PurchaseKeepsChain(c: Capital, p: Purchases, event: Event)
    requires ChainOk(c, p)
    requires ValidateEvent(event).Pass?
    requires ApplyPurchase(c, p, event).Ok?
    ensures ChainOk(c, ApplyPurchase(c, p, event).value)
  {
    hide RecordDecision, RecordDailyOutcome, RecordOrder, RecordFill, RecordFee, ChainOk;
    match event.kind
    case DailyDecision(decision, date, commitment, planned, committed) =>
      DecisionKeepsChain(c, p, event.at, date, decision, commitment, planned, committed);
    case DailySkip(decision, date, _) => OutcomeKeepsChain(c, p, event.at, date, decision);
    case OrderRecorded(order, decision) => OrderKeepsChain(c, p, event.at, order, decision);
    case FillRecorded(fill, order, filled, _) => FillKeepsChain(c, p, event.at, fill, order, filled);
    case FeeRecorded(fee, order, amount) => FeeKeepsChain(c, p, event.at, fee, order, amount);
    case _ =>
  }

  /** An event on one side leaves the other side as it was. */
  lemma OneSide(c: Capital, p: Purchases, event: Event)
    ensures ApplyCapital(c, p, event) == Ok(c) || ApplyPurchase(c, p, event) == Ok(p)
  {
    hide RecordDecision, RecordFill, RecordFee, RecordOrder, RecordDailyOutcome;
    hide RecordFunding, RecordTransferWithdrawal, RecordAdmission, RecordDebit, RecordCommitment, RecordSettlement;
  }

  lemma StepKeepsChain(r: Replayed, event: Event)
    requires ChainOk(r.state.capital, r.state.purchases)
    requires Step(r, event).Ok?
    ensures var t := Step(r, event).value.state; ChainOk(t.capital, t.purchases)
  {
    hide ChainOk, ApplyCapital, ApplyPurchase, ApplyRuntime, ValidateEvent;
    var c, p := r.state.capital, r.state.purchases;
    CapitalKeepsChain(c, p, event);
    PurchaseKeepsChain(c, p, event);
    OneSide(c, p, event);
  }

  /** The purchase chain holds in every state a journal reaches. */
  lemma {:induction false} AlwaysChained(events: seq<Event>)
    requires Fold(events).Ok?
    ensures var s := Fold(events).value.state; ChainOk(s.capital, s.purchases)
  {
    hide Step;
    if events != [] {
      hide ChainOk;
      AlwaysChained(events[..|events| - 1]);
      StepKeepsChain(Fold(events[..|events| - 1]).value, events[|events| - 1]);
    }
  }

  /** Once a commitment is settled, its decision takes no further order, fill or fee, and no new one may name it. */
  lemma SettledIsFinal(c: Capital, p: Purchases, commitment: Id, event: Event)
    requires ChainOk(c, p)
    requires commitment in c.commitments && c.commitments[commitment].settled
    requires match event.kind
             case DailyDecision(_, _, k, _, _) => k == commitment
             case OrderRecorded(_, d) => Links(p, d, commitment)
             case FillRecorded(_, o, _, _) => o in p.orders && Links(p, p.orders[o].decisionId, commitment)
             case FeeRecorded(_, o, _) => o in p.orders && Links(p, p.orders[o].decisionId, commitment)
             case CapitalCommitted(k, _) => k == commitment
             case CapitalSettled(k, _) => k == commitment
             case _ => false
    ensures ApplyCapital(c, p, event).Err? || ApplyPurchase(c, p, event).Err?
  {
    hide RecordTimelineEntry, NoLaterActivity, LinkedDecision, ReturnUnadmitted, RecordDailyOutcome, CommitmentOk,
         Backs, OneDecisionEach;
  }
}
