/**
 * What a journal may say only once, and what the state keeps of it: one outcome a
 * date, one use of every identifier, every runtime cycle prepared once and then
 * committed once, and the freshest observed balance.
 */
module JournalKeys {
  import opened Prelude
  import opened LedgerEvents
  import opened LedgerReplay

  /** The things an event claims for itself alone. */
  datatype Key =
    | Day(date: Date)
    | DecisionNamed(id: Id)
    | DecisionOn(commitment: Id)
    | CommitmentNamed(id: Id)
    | SettlementOf(commitment: Id)
    | OrderNamed(id: Id)
    | FillNamed(id: Id)
    | FeeNamed(id: Id)
    | ActionNamed(id: Id)
    | RewardNamed(id: Id)
    | CorrectionNamed(id: Id)
    | Preparation(cycle: string)
    | Completion(cycle: string)

  function KeysOf(kind: EventKind): set<Key> {
    match kind
    case DailyDecision(decision, date, commitment, _, _) => {Day(date), DecisionNamed(decision), DecisionOn(commitment)}
    case DailySkip(decision, date, _) => {Day(date), DecisionNamed(decision)}
    case CapitalCommitted(commitment, _) => {CommitmentNamed(commitment)}
    case CapitalSettled(commitment, _) => {SettlementOf(commitment)}
    case OrderRecorded(order, _) => {OrderNamed(order)}
    case FillRecorded(fill, _, _, _) => {FillNamed(fill)}
    case FeeRecorded(fee, _, _) => {FeeNamed(fee)}
    case StakingDepositRecorded(action, _) => {ActionNamed(action)}
    case DelegationRecorded(action, _, _) => {ActionNamed(action)}
    case RewardRecorded(reward, _) => {RewardNamed(reward)}
    case ReconciliationCorrection(correction, _, _, _) => {CorrectionNamed(correction)}
    case RuntimeCyclePrepared(cycle) => {Preparation(cycle)}
    case RuntimeCycleCommitted(cycle) => {Completion(cycle)}
    case _ => {}
  }

  ghost predicate UsedInCapital(c: Capital, key: Key) {
    match key
    case CommitmentNamed(id) => id in c.commitments
    case SettlementOf(id) => id in c.commitments && c.commitments[id].settled
    case _ => false
  }

  ghost predicate UsedInPurchases(p: Purchases, key: Key) {
    match key
    case Day(date) => date in p.outcomes
    case DecisionNamed(id) => id in p.decisionIds
    case DecisionOn(commitment) => commitment in p.decisionCommitmentIds
    case OrderNamed(id) => id in p.orders
    case FillNamed(id) => id in p.fills
    case FeeNamed(id) => id in p.fees
    case _ => false
  }

  ghost predicate UsedInRuntime(r: Runtime, key: Key) {
    match key
    case Preparation(cycle) => cycle in r.cycles
    case Completion(cycle) => cycle in r.cycles && r.cycles[cycle]
    case _ => false
  }

  ghost predicate UsedBySeen(seen: Seen, key: Key) {
    match key
    case ActionNamed(id) => id in seen.actions
    case RewardNamed(id) => id in seen.rewards
    case CorrectionNamed(id) => id in seen.corrections
    case _ => false
  }

  /** The replayed state shows that a key is taken. */
  ghost predicate Used(r: Replayed, key: Key) {
    || UsedInCapital(r.state.capital, key) || UsedInPurchases(r.state.purchases, key)
    || UsedInRuntime(r.state.runtime, key) || UsedBySeen(r.seen, key)
  }

  predicate OfCapital(key: Key) {
    key.CommitmentNamed? || key.SettlementOf?
  }

  predicate OfPurchases(key: Key) {
    key.Day? || key.DecisionNamed? || key.DecisionOn? || key.OrderNamed? || key.FillNamed? || key.FeeNamed?
  }

  predicate OfRuntime(key: Key) {
    key.Preparation? || key.Completion?
  }

  lemma CapitalClaims(c: Capital, p: Purchases, event: Event, key: Key)
    requires OfCapital(key) && ApplyCapital(c, p, event).Ok?
    ensures key in KeysOf(event.kind) ==> !UsedInCapital(c, key)
    ensures UsedInCapital(ApplyCapital(c, p, event).value, key)
       <==> UsedInCapital(c, key) || key in KeysOf(event.kind)
  {
    hide RecordTimelineEntry, ReturnUnadmitted, LinkedDecision, RecordedCosts, NoLaterActivity;
  }

  predicate IsOutcome(kind: EventKind) {
    kind.DailyDecision? || kind.DailySkip?
  }

  /** What an accepted purchase event adds to the tables that its keys are looked up in. */
  ghost predicate PurchaseMoves(p: Purchases, q: Purchases, event: Event) {
    && (if IsOutcome(event.kind) then
          var date, id := event.kind.decisionDate, event.kind.decisionId;
          && date == DateOf(event.at) && date !in p.outcomes && id !in p.decisionIds
          && q.outcomes == p.outcomes[date := id] && q.decisionIds == p.decisionIds + {id}
          && q.lastDecisionAt == Some(MaxOption(p.lastDecisionAt, event.at))
        else
          q.outcomes == p.outcomes && q.decisionIds == p.decisionIds && q.lastDecisionAt == p.lastDecisionAt)
    && (if event.kind.DailyDecision? then
          && event.kind.commitmentId !in p.decisionCommitmentIds
          && q.decisionCommitmentIds == p.decisionCommitmentIds + {event.kind.commitmentId}
        else q.decisionCommitmentIds == p.decisionCommitmentIds)
    && (if event.kind.OrderRecorded? then
          event.kind.orderId !in p.orders && q.orders.Keys == p.orders.Keys + {event.kind.orderId}
        else q.orders == p.orders)
    && (if event.kind.FillRecorded? then
          event.kind.fillId !in p.fills && q.fills.Keys == p.fills.Keys + {event.kind.fillId}
        else q.fills == p.fills)
    && (if event.kind.FeeRecorded? then
          event.kind.feeId !in p.fees && q.fees.Keys == p.fees.Keys + {event.kind.feeId}
        else q.fees == p.fees)
  }

  lemma OutcomeMoves(c: Capital, p: Purchases, event: Event)
    requires IsOutcome(event.kind) && ApplyPurchase(c, p, event).Ok?
    ensures PurchaseMoves(p, ApplyPurchase(c, p, event).value, event)
  {
    hide DateOf, RecordOrder, RecordFill, RecordFee;
  }

  lemma OrderMoves(c: Capital, p: Purchases, event: Event)
    requires event.kind.OrderRecorded? && ApplyPurchase(c, p, event).Ok?
    ensures PurchaseMoves(p, ApplyPurchase(c, p, event).value, event)
  {
    hide DateOf, RecordDecision, RecordFill, RecordFee, RecordDailyOutcome, HasUnsettledBacking;
  }

  lemma FillMoves(c: Capital, p: Purchases, event: Event)
    requires event.kind.FillRecorded? && ApplyPurchase(c, p, event).Ok?
    ensures PurchaseMoves(p, ApplyPurchase(c, p, event).value, event)
  {
    hide DateOf, RecordDecision, RecordOrder, RecordFee, RecordDailyOutcome, HasUnsettledBacking;
  }

  lemma FeeMoves(c: Capital, p: Purchases, event: Event)
    requires event.kind.FeeRecorded? && ApplyPurchase(c, p, event).Ok?
    ensures PurchaseMoves(p, ApplyPurchase(c, p, event).value, event)
  {
    hide DateOf, RecordDecision, RecordOrder, RecordFill, RecordDailyOutcome, HasUnsettledBacking;
  }

  lemma PurchaseEventMoves(c: Capital, p: Purchases, event: Event)
    requires ApplyPurchase(c, p, event).Ok?
    ensures PurchaseMoves(p, ApplyPurchase(c, p, event).value, event)
  {
    hide RecordDecision, RecordOrder, RecordFill, RecordFee, RecordDailyOutcome, DateOf;
    if IsOutcome(event.kind) {
      OutcomeMoves(c, p, event);
    } else if event.kind.OrderRecorded? {
      OrderMoves(c, p, event);
    } else if event.kind.FillRecorded? {
      FillMoves(c, p, event);
    } else if event.kind.FeeRecorded? {
      FeeMoves(c, p, event);
    }
  }

  lemma PurchaseClaims(p: Purchases, q: Purchases, event: Event, key: Key)
    requires OfPurchases(key) && PurchaseMoves(p, q, event)
    ensures key in KeysOf(event.kind) ==> !UsedInPurchases(p, key)
    ensures UsedInPurchases(q, key) <==> UsedInPurchases(p, key) || key in KeysOf(event.kind)
  {
    hide DateOf;
  }

  lemma RuntimeClaims(r: Runtime, event: Event, key: Key)
    requires OfRuntime(key) && ApplyRuntime(r, event).Ok?
    ensures key in KeysOf(event.kind) ==> !UsedInRuntime(r, key)
    ensures UsedInRuntime(ApplyRuntime(r, event).value, key) <==> UsedInRuntime(r, key) || key in KeysOf(event.kind)
  {
  }

  lemma SeenClaims(seen: Seen, event: Event, key: Key)
    requires !OfCapital(key) && !OfPurchases(key) && !OfRuntime(key) && See(seen, event).Ok?
    ensures key in KeysOf(event.kind) ==> !UsedBySeen(seen, key)
    ensures UsedBySeen(See(seen, event).value, key) <==> UsedBySeen(seen, key) || key in KeysOf(event.kind)
  {
  }

  lemma UsedSomewhere(r: Replayed, key: Key)
    ensures Used(r, key)
         == (if OfCapital(key) then UsedInCapital(r.state.capital, key)
             else if OfPurchases(key) then UsedInPurchases(r.state.purchases, key)
             else if OfRuntime(key) then UsedInRuntime(r.state.runtime, key)
             else UsedBySeen(r.seen, key))
  {
  }

  lemma StepApplies(r: Replayed, event: Event)
    requires Step(r, event).Ok?
    ensures var s, next := r.state, Step(r, event).value;
            && ApplyCapital(s.capital, s.purchases, event) == Ok(next.state.capital)
            && ApplyPurchase(s.capital, s.purchases, event) == Ok(next.state.purchases)
            && ApplyRuntime(s.runtime, event) == Ok(next.state.runtime)
            && See(r.seen, event) == Ok(next.seen)
  {
    hide ApplyCapital, ApplyPurchase, ApplyRuntime, ValidateEvent, See;
  }

  /** An accepted event finds its keys free and takes them, and no others. */
  lemma StepClaims(r: Replayed, event: Event, key: Key)
    requires Step(r, event).Ok?
    ensures key in KeysOf(event.kind) ==> !Used(r, key)
    ensures Used(Step(r, event).value, key) <==> Used(r, key) || key in KeysOf(event.kind)
  {
    hide *;
    StepApplies(r, event);
    UsedSomewhere(r, key);
    UsedSomewhere(Step(r, event).value, key);
    if OfCapital(key) {
      CapitalClaims(r.state.capital, r.state.purchases, event, key);
    } else if OfPurchases(key) {
      PurchaseEventMoves(r.state.capital, r.state.purchases, event);
      PurchaseClaims(r.state.purchases, Step(r, event).value.state.purchases, event, key);
    } else if OfRuntime(key) {
      RuntimeClaims(r.state.runtime, event, key);
    } else {
      SeenClaims(r.seen, event, key);
    }
  }

  ghost predicate Claimed(events: seq<Event>, key: Key) {
    exists e :: e in events && key in KeysOf(e.kind)
  }

  lemma ClaimedSnoc(events: seq<Event>, event: Event, key: Key)
    ensures Claimed(events + [event], key) <==> Claimed(events, key) || key in KeysOf(event.kind)
  {
    hide KeysOf;
    assert forall e :: e in events + [event] <==> e in events || e == event;
  }

  lemma NothingUsed(key: Key)
    ensures !Used(NOTHING, key)
  {
  }

  /**
   * In every journal that replays each key is claimed by at most one event, and the
   * state knows exactly the claimed ones: one outcome a date, one decision for an
   * identifier and for a commitment, one settlement of a commitment, one use of
   * every order, fill, fee, action, reward and correction identifier, and one
   * preparation and one completion of a cycle.
   */
  lemma {:induction false} KeysAreClaimedOnce(events: seq<Event>, key: Key)
    requires Fold(events).Ok?
    ensures Used(Fold(events).value, key) <==> Claimed(events, key)
    ensures forall i, j | 0 <= i < j < |events| ::
              !(key in KeysOf(events[i].kind) && key in KeysOf(events[j].kind))
  {
    hide Step, Used, KeysOf, Claimed;
    if events == [] {
      NothingUsed(key);
      NothingClaimed(key);
    } else {
      var front, last := events[..|events| - 1], events[|events| - 1];
      KeysAreClaimedOnce(front, key);
      StepClaims(Fold(front).value, last, key);
      ClaimedSnoc(front, last, key);
      assert events == front + [last];
      forall i | 0 <= i < |front| && key in KeysOf(front[i].kind)
        ensures Claimed(front, key)
      {
        ClaimedAt(front, i, key);
      }
    }
  }

  lemma NothingClaimed(key: Key)
    ensures !Claimed([], key)
  {
  }

  lemma ClaimedAt(events: seq<Event>, i: nat, key: Key)
    requires i < |events| && key in KeysOf(events[i].kind)
    ensures Claimed(events, key)
  {
    assert events[i] in events;
  }

  /** The outcome an event records is dated by the event, and the state holds it under that date. */
  ghost predicate OutcomeTold(p: Purchases, e: Event) {
    IsOutcome(e.kind) ==>
      && e.kind.decisionDate == DateOf(e.at)
      && e.kind.decisionDate in p.outcomes && p.outcomes[e.kind.decisionDate] == e.kind.decisionId
      && p.lastDecisionAt.Some? && e.at <= p.lastDecisionAt.value
  }

  lemma OutcomeStays(p: Purchases, q: Purchases, event: Event, e: Event)
    requires PurchaseMoves(p, q, event)
    ensures OutcomeTold(p, e) ==> OutcomeTold(q, e)
    ensures OutcomeTold(q, event)
  {
    hide DateOf;
  }

  /** The latest decision time is that of an outcome, or there is none. */
  ghost predicate LatestIsSourced(events: seq<Event>, p: Purchases) {
    p.lastDecisionAt.Some? ==> exists e :: e in events && IsOutcome(e.kind) && e.at == p.lastDecisionAt.value
  }

  ghost predicate OutcomesTold(events: seq<Event>, p: Purchases) {
    (forall e :: e in events ==> OutcomeTold(p, e)) && LatestIsSourced(events, p)
  }

  lemma OutcomesStep(events: seq<Event>, p: Purchases, q: Purchases, event: Event)
    requires PurchaseMoves(p, q, event) && OutcomesTold(events, p)
    ensures OutcomesTold(events + [event], q)
  {
    hide OutcomeTold;
    forall e | e in events + [event]
      ensures OutcomeTold(q, e)
    {
      OutcomeStays(p, q, event, e);
    }
    LatestStep(events, p, q, event);
  }

  lemma LatestStep(events: seq<Event>, p: Purchases, q: Purchases, event: Event)
    requires PurchaseMoves(p, q, event) && LatestIsSourced(events, p)
    ensures LatestIsSourced(events + [event], q)
  {
    assert event in events + [event] && forall e :: e in events ==> e in events + [event];
  }

  lemma {:induction false} OutcomesAlwaysTold(events: seq<Event>)
    requires Fold(events).Ok?
    ensures OutcomesTold(events, Fold(events).value.state.purchases)
  {
    hide Step, ApplyPurchase, OutcomeTold, PurchaseMoves;
    if events != [] {
      var front, last := events[..|events| - 1], events[|events| - 1];
      OutcomesAlwaysTold(front);
      var s := Fold(front).value.state;
      StepApplies(Fold(front).value, last);
      PurchaseEventMoves(s.capital, s.purchases, last);
      OutcomesStep(front, s.purchases, Fold(events).value.state.purchases, last);
      assert events == front + [last];
    }
  }

  lemma OutcomesAreApart(events: seq<Event>, p: Purchases, i: nat, j: nat)
    requires Fold(events).Ok? && OutcomesTold(events, p)
    requires i < j < |events| && IsOutcome(events[i].kind) && IsOutcome(events[j].kind)
    ensures DateOf(events[i].at) != DateOf(events[j].at)
    ensures events[i].kind.decisionId != events[j].kind.decisionId
  {
    hide Fold, DateOf, LatestIsSourced;
    assert events[i] in events && events[j] in events;
    KeysAreClaimedOnce(events, Day(events[i].kind.decisionDate));
    KeysAreClaimedOnce(events, DecisionNamed(events[i].kind.decisionId));
  }

  lemma DateIsOutcome(events: seq<Event>, date: Date)
    requires Fold(events).Ok?
    ensures date in Fold(events).value.state.purchases.outcomes <==>
              exists e :: e in events && IsOutcome(e.kind) && e.kind.decisionDate == date
  {
    hide Fold;
    KeysAreClaimedOnce(events, Day(date));
    DayIsOutcome(events, date);
  }

  /**
   * The daily rule of the accumulator, over every journal that replays: every
   * decision and every skip is dated by the UTC day it happened on, no two of them
   * share a date or an identifier, and the state holds them by date.
   */
  lemma OneOutcomeADate(events: seq<Event>)
    requires Fold(events).Ok?
    ensures OutcomesTold(events, Fold(events).value.state.purchases)
    ensures forall date :: date in Fold(events).value.state.purchases.outcomes <==>
                             exists e :: e in events && IsOutcome(e.kind) && e.kind.decisionDate == date
    ensures forall i, j | 0 <= i < j < |events| && IsOutcome(events[i].kind) && IsOutcome(events[j].kind) ::
              DateOf(events[i].at) != DateOf(events[j].at) && events[i].kind.decisionId != events[j].kind.decisionId
  {
    hide Fold, DateOf, OutcomesTold, OutcomeTold, LatestIsSourced;
    OutcomesAlwaysTold(events);
    forall date
      ensures date in Fold(events).value.state.purchases.outcomes <==>
                exists e :: e in events && IsOutcome(e.kind) && e.kind.decisionDate == date
    {
      DateIsOutcome(events, date);
    }
    forall i, j | 0 <= i < j < |events| && IsOutcome(events[i].kind) && IsOutcome(events[j].kind)
      ensures DateOf(events[i].at) != DateOf(events[j].at)
      ensures events[i].kind.decisionId != events[j].kind.decisionId
    {
      OutcomesAreApart(events, Fold(events).value.state.purchases, i, j);
    }
  }

  lemma DayIsOutcome(events: seq<Event>, date: Date)
    ensures Claimed(events, Day(date)) <==>
              exists e :: e in events && IsOutcome(e.kind) && e.kind.decisionDate == date
  {
  }

  /** The last event time of a state is the latest of its journal. */
  ghost predicate TimeTold(events: seq<Event>, latest: Option<Time>) {
    if latest.None? then events == []
    else
      && (forall e :: e in events ==> e.at <= latest.value)
      && exists e :: e in events && e.at == latest.value
  }

  lemma TimeStep(events: seq<Event>, latest: Option<Time>, event: Event)
    requires TimeTold(events, latest)
    ensures TimeTold(events + [event], Some(MaxOption(latest, event.at)))
  {
    assert event in events + [event] && forall e :: e in events ==> e in events + [event];
  }

  lemma StepTakesTime(r: Replayed, event: Event)
    requires Step(r, event).Ok?
    ensures Step(r, event).value.state.lastEventAt == Some(MaxOption(r.state.lastEventAt, event.at))
  {
    hide ApplyCapital, ApplyPurchase, ApplyRuntime, ValidateEvent, See;
  }

  lemma {:induction false} LastEventIsLatest(events: seq<Event>)
    requires Fold(events).Ok?
    ensures TimeTold(events, Fold(events).value.state.lastEventAt)
  {
    hide Step, TimeTold;
    if events == [] {
      NoTime();
    } else {
      var front, last := events[..|events| - 1], events[|events| - 1];
      LastEventIsLatest(front);
      StepTakesTime(Fold(front).value, last);
      TimeStep(front, Fold(front).value.state.lastEventAt, last);
      assert events == front + [last];
    }
  }

  lemma NoTime()
    ensures TimeTold([], NOTHING.state.lastEventAt)
  {
  }

  predicate Observes(kind: EventKind) {
    kind.BalanceObserved? || kind.ReconciliationCorrection?
  }

  /** The observation with the latest time, and among those the last one of the journal. */
  ghost predicate Freshest(events: seq<Event>, i: nat) {
    && i < |events| && Observes(events[i].kind)
    && forall j | 0 <= j < |events| && Observes(events[j].kind) ::
         events[j].at <= events[i].at && (j > i ==> events[j].at < events[i].at)
  }

  /** The observed pair is that of the freshest observation. */
  ghost predicate BalanceTold(events: seq<Event>, r: Runtime) {
    if r.lastObservationAt.None? then
      r.observedUsdc == 0 && r.observedHypeAtoms == 0 && forall e :: e in events ==> !Observes(e.kind)
    else
      exists i: nat :: ShownBy(events, i, r)
  }

  ghost predicate ShownBy(events: seq<Event>, i: nat, r: Runtime) {
    && Freshest(events, i) && r.lastObservationAt == Some(events[i].at)
    && r.observedUsdc == events[i].kind.observedUsdc && r.observedHypeAtoms == events[i].kind.observedHypeAtoms
  }

  lemma RuntimeBalance(r: Runtime, event: Event)
    requires ApplyRuntime(r, event).Ok?
    ensures var next := ApplyRuntime(r, event).value;
            if Observes(event.kind) && (r.lastObservationAt.None? || r.lastObservationAt.value <= event.at) then
              next.lastObservationAt == Some(event.at) && next.observedUsdc == event.kind.observedUsdc
              && next.observedHypeAtoms == event.kind.observedHypeAtoms
            else
              next.lastObservationAt == r.lastObservationAt && next.observedUsdc == r.observedUsdc
              && next.observedHypeAtoms == r.observedHypeAtoms
  {
  }

  lemma FreshestStays(events: seq<Event>, event: Event, i: nat)
    requires Freshest(events, i) && (Observes(event.kind) ==> event.at < events[i].at)
    ensures Freshest(events + [event], i)
  {
  }

  lemma FreshestIsNew(events: seq<Event>, event: Event)
    requires Observes(event.kind)
    requires forall e :: e in events && Observes(e.kind) ==> e.at <= event.at
    ensures Freshest(events + [event], |events|)
  {
    assert forall j | 0 <= j < |events| :: events[j] in events;
  }

  lemma BalanceStep(events: seq<Event>, r: Runtime, event: Event)
    requires ApplyRuntime(r, event).Ok? && BalanceTold(events, r)
    ensures BalanceTold(events + [event], ApplyRuntime(r, event).value)
  {
    hide ApplyRuntime, Freshest;
    var next, all := ApplyRuntime(r, event).value, events + [event];
    RuntimeBalance(r, event);
    if Observes(event.kind) && (r.lastObservationAt.None? || r.lastObservationAt.value <= event.at) {
      NoneFresher(events, r, event.at);
      FreshestIsNew(events, event);
      assert all[|events|] == event;
      assert ShownBy(all, |events|, next);
    } else if r.lastObservationAt.Some? {
      var i: nat :| ShownBy(events, i, r);
      InRange(events, i);
      FreshestStays(events, event, i);
      assert all[i] == events[i];
      assert ShownBy(all, i, next);
    }
  }

  lemma InRange(events: seq<Event>, i: nat)
    requires Freshest(events, i)
    ensures i < |events| && Observes(events[i].kind)
  {
  }

  lemma NoneFresher(events: seq<Event>, r: Runtime, at: Time)
    requires BalanceTold(events, r) && (r.lastObservationAt.Some? ==> r.lastObservationAt.value <= at)
    ensures forall e :: e in events && Observes(e.kind) ==> e.at <= at
  {
  }

  /** A cycle is completed behind its preparation, and the last cycle is the one completed last. */
  ghost predicate CyclesTold(events: seq<Event>, r: Runtime) {
    && (forall j | 0 <= j < |events| && events[j].kind.RuntimeCycleCommitted? ::
          exists i :: 0 <= i < j && events[i].kind == RuntimeCyclePrepared(events[j].kind.cycleHash))
    && (if r.lastCycle.None? then forall e :: e in events ==> !e.kind.RuntimeCycleCommitted?
        else
          exists i: nat :: LastCompletion(events, i, r.lastCycle.value))
  }

  ghost predicate LastCompletion(events: seq<Event>, i: nat, cycle: string) {
    && i < |events| && events[i].kind == RuntimeCycleCommitted(cycle)
    && forall j | i < j < |events| :: !events[j].kind.RuntimeCycleCommitted?
  }

  lemma RuntimeCycles(r: Runtime, event: Event)
    requires ApplyRuntime(r, event).Ok?
    ensures var next := ApplyRuntime(r, event).value;
            if event.kind.RuntimeCycleCommitted? then
              event.kind.cycleHash in r.cycles && next.lastCycle == Some(event.kind.cycleHash)
            else next.lastCycle == r.lastCycle
  {
  }

  lemma CompletionsFollow(events: seq<Event>, event: Event)
    requires forall j | 0 <= j < |events| && events[j].kind.RuntimeCycleCommitted? ::
               exists i :: 0 <= i < j && events[i].kind == RuntimeCyclePrepared(events[j].kind.cycleHash)
    requires event.kind.RuntimeCycleCommitted? ==> Claimed(events, Preparation(event.kind.cycleHash))
    ensures var all := events + [event];
            forall j | 0 <= j < |all| && all[j].kind.RuntimeCycleCommitted? ::
              exists i :: 0 <= i < j && all[i].kind == RuntimeCyclePrepared(all[j].kind.cycleHash)
  {
    var all := events + [event];
    forall j | 0 <= j < |all| && all[j].kind.RuntimeCycleCommitted?
      ensures exists i :: 0 <= i < j && all[i].kind == RuntimeCyclePrepared(all[j].kind.cycleHash)
    {
      if j < |events| {
        var i :| 0 <= i < j && events[i].kind == RuntimeCyclePrepared(events[j].kind.cycleHash);
        assert all[i] == events[i];
      } else {
        var e :| e in events && Preparation(event.kind.cycleHash) in KeysOf(e.kind);
        var i :| 0 <= i < |events| && events[i] == e;
        assert all[i] == e;
      }
    }
  }

  lemma CyclesStep(events: seq<Event>, r: Runtime, event: Event)
    requires ApplyRuntime(r, event).Ok? && CyclesTold(events, r)
    requires event.kind.RuntimeCycleCommitted? ==> Claimed(events, Preparation(event.kind.cycleHash))
    ensures CyclesTold(events + [event], ApplyRuntime(r, event).value)
  {
    hide ApplyRuntime, Claimed;
    var all := events + [event];
    RuntimeCycles(r, event);
    CompletionsFollow(events, event);
    if event.kind.RuntimeCycleCommitted? {
      assert LastCompletion(all, |events|, event.kind.cycleHash);
    } else if r.lastCycle.Some? {
      var i: nat :| LastCompletion(events, i, r.lastCycle.value);
      assert LastCompletion(all, i, r.lastCycle.value);
    }
  }

  /**
   * Over every journal that replays, the observed balance is that of the freshest
   * observation, the last one on ties; every completed cycle was prepared before,
   * and the last cycle is the one completed last.
   */
  lemma {:induction false} RuntimeIsTold(events: seq<Event>)
    requires Fold(events).Ok?
    ensures BalanceTold(events, Fold(events).value.state.runtime)
    ensures CyclesTold(events, Fold(events).value.state.runtime)
  {
    hide Step, ApplyRuntime, BalanceTold, CyclesTold, Claimed;
    if events == [] {
      NothingTold();
    } else {
      var front, last := events[..|events| - 1], events[|events| - 1];
      RuntimeIsTold(front);
      var before := Fold(front).value;
      StepApplies(before, last);
      if last.kind.RuntimeCycleCommitted? {
        KeysAreClaimedOnce(front, Preparation(last.kind.cycleHash));
        RuntimeCycles(before.state.runtime, last);
      }
      BalanceStep(front, before.state.runtime, last);
      CyclesStep(front, before.state.runtime, last);
      assert events == front + [last];
    }
  }

  lemma NothingTold()
    ensures BalanceTold([], EMPTY.runtime) && CyclesTold([], EMPTY.runtime)
  {
  }
}
