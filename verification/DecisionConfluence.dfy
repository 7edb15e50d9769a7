/** A commitment and the decision that names it may reach the journal in either order. */
module DecisionConfluence {
  import opened Prelude
  import opened LedgerEvents
  import opened LedgerReplay
  import opened PurchaseChain

  /** The two events, commitment first. */
  ghost function CommitThenDecide(
    c: Capital, p: Purchases, at: Time, commitment: Id, amount: u64, d: Event)
    : Result<(Capital, Purchases), LedgerError>
    requires d.kind.DailyDecision?
  {
    var c1 :- RecordCommitment(c, p, at, commitment, amount);
    var p1 :- ApplyPurchase(c1, p, d);
    Ok((c1, p1))
  }

  /** The two events, decision first. */
  ghost function DecideThenCommit(
    c: Capital, p: Purchases, at: Time, commitment: Id, amount: u64, d: Event)
    : Result<(Capital, Purchases), LedgerError>
    requires d.kind.DailyDecision?
  {
    var p1 :- ApplyPurchase(c, p, d);
    var c1 :- RecordCommitment(c, p1, at, commitment, amount);
    Ok((c1, p1))
  }

  /** After a decision is recorded it is the one linked to its commitment. */
  lemma NewLink(c: Capital, p: Purchases, d: Event)
    requires OneDecisionEach(p) && d.kind.DailyDecision?
    requires ApplyPurchase(c, p, d).Ok?
    ensures var q := ApplyPurchase(c, p, d).value;
            && LinkedDecision(q, d.kind.commitmentId) == Some(d.kind.decisionId)
            && q.decisions[d.kind.decisionId].committed == d.kind.committed
            && q.decisions[d.kind.decisionId].at == d.at
  {
    var q := ApplyPurchase(c, p, d).value;
    DecisionKeepsIndex(p, q, d.kind.decisionId, q.decisions[d.kind.decisionId]);
    assert Links(q, d.kind.decisionId, d.kind.commitmentId);
    hide OneDecisionEach;
    LinkIsUnique(q, d.kind.decisionId, d.kind.commitmentId);
  }

  lemma EitherOrder(c: Capital, p: Purchases, at: Time, commitment: Id, amount: u64, d: Event)
    requires OneDecisionEach(p)
    requires d.kind.DailyDecision? && d.kind.commitmentId == commitment
    ensures var x := CommitThenDecide(c, p, at, commitment, amount, d);
            var y := DecideThenCommit(c, p, at, commitment, amount, d);
            (x.Ok? <==> y.Ok?) && (x.Ok? ==> x == y)
  {
    hide OneDecisionEach, LinkedDecision, RecordTimelineEntry;
    NamedIffLinked(p, commitment);
    if ApplyPurchase(c, p, d).Ok? {
      NewLink(c, p, d);
    }
  }

  /** Folding two more events is two steps. */
  lemma FoldTwo(events: seq<Event>, a: Event, b: Event)
    requires Fold(events).Ok?
    ensures Fold(events + [a, b])
         == if Step(Fold(events).value, a).Ok? then Step(Step(Fold(events).value, a).value, b)
            else Err(Step(Fold(events).value, a).error)
  {
    hide Step;
    FoldSnoc(events, a);
    FoldSnoc(events + [a], b);
    assert events + [a] + [b] == events + [a, b];
  }

  ghost function StepTwo(r: Replayed, a: Event, b: Event): Result<Replayed, LedgerError> {
    var next :- Step(r, a);
    Step(next, b)
  }

  /** Commitment first, as two steps of the replay. */
  lemma CommitFirst(r: Replayed, k: Event, d: Event)
    requires k.kind.CapitalCommitted? && d.kind.DailyDecision?
    ensures StepTwo(r, k, d).Ok? <==>
            && ValidateEvent(k).Pass? && ValidateEvent(d).Pass?
            && k.id !in r.seen.events && d.id !in r.seen.events && k.id != d.id
            && CommitThenDecide(r.state.capital, r.state.purchases, k.at, k.kind.commitmentId, k.kind.amount, d).Ok?
    ensures StepTwo(r, k, d).Ok? ==>
            var pair := CommitThenDecide(
                          r.state.capital, r.state.purchases, k.at, k.kind.commitmentId, k.kind.amount, d).value;
            StepTwo(r, k, d).value.state
            == State(pair.0, pair.1, r.state.runtime, Some(MaxOption(Some(MaxOption(r.state.lastEventAt, k.at)), d.at)))
  {
    hide RecordCommitment, RecordDecision, ValidateEvent;
  }

  /** Decision first, as two steps of the replay. */
  lemma DecideFirst(r: Replayed, k: Event, d: Event)
    requires k.kind.CapitalCommitted? && d.kind.DailyDecision?
    ensures StepTwo(r, d, k).Ok? <==>
            && ValidateEvent(k).Pass? && ValidateEvent(d).Pass?
            && k.id !in r.seen.events && d.id !in r.seen.events && k.id != d.id
            && DecideThenCommit(r.state.capital, r.state.purchases, k.at, k.kind.commitmentId, k.kind.amount, d).Ok?
    ensures StepTwo(r, d, k).Ok? ==>
            var pair := DecideThenCommit(
                          r.state.capital, r.state.purchases, k.at, k.kind.commitmentId, k.kind.amount, d).value;
            StepTwo(r, d, k).value.state
            == State(pair.0, pair.1, r.state.runtime, Some(MaxOption(Some(MaxOption(r.state.lastEventAt, d.at)), k.at)))
  {
    hide RecordCommitment, RecordDecision, ValidateEvent;
  }

  /**
   * For a commitment event and a decision event that names it, both arrival
   * orders are accepted under the same conditions and reach the same state.
   */
  lemma ArrivalOrderIsIrrelevant(events: seq<Event>, k: Event, d: Event)
    requires Replay(events).Ok?
    requires k.kind.CapitalCommitted? && d.kind.DailyDecision?
    requires d.kind.commitmentId == k.kind.commitmentId
    ensures Replay(events + [k, d]).Ok? <==> Replay(events + [d, k]).Ok?
    ensures Replay(events + [k, d]).Ok? ==> Replay(events + [k, d]).value == Replay(events + [d, k]).value
  {
    var r := Fold(events).value;
    AlwaysChained(events);
    assert OneDecisionEach(r.state.purchases);
    FoldTwo(events, k, d);
    FoldTwo(events, d, k);
    hide Fold, ChainOk, OneDecisionEach;
    CommitFirst(r, k, d);
    DecideFirst(r, k, d);
    hide Step, CommitThenDecide, DecideThenCommit;
    EitherOrder(r.state.capital, r.state.purchases, k.at, k.kind.commitmentId, k.kind.amount, d);
  }
}
