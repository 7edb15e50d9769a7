/** The replay as the ledger runs it: one mutable state, updated event by event. */
module ReplayMachine {
  import opened Prelude
  import opened LedgerEvents
  import opened CapitalTimeline
  import opened LedgerReplay
  import opened CapitalConservation
  import opened PurchaseChain

  type Done = Result<(), LedgerError>

  /** The outcome and the new money side are what the specification says; a failure names the same error. */
  ghost predicate CapitalBecame(done: Done, spec: Result<Capital, LedgerError>, now: Capital) {
    if spec.Ok? then done.Ok? && now == spec.value else done == Err(spec.error)
  }

  ghost predicate PurchasesBecame(done: Done, spec: Result<Purchases, LedgerError>, now: Purchases) {
    if spec.Ok? then done.Ok? && now == spec.value else done == Err(spec.error)
  }

  ghost predicate RuntimeBecame(done: Done, spec: Result<Runtime, LedgerError>, now: Runtime) {
    if spec.Ok? then done.Ok? && now == spec.value else done == Err(spec.error)
  }

  class ReplayState {
    var capital: Capital
    var purchases: Purchases
    var runtime: Runtime
    var lastEventAt: Option<Time>

    constructor ()
      ensures View() == EMPTY
    {
      capital := EMPTY.capital;
      purchases := EMPTY.purchases;
      runtime := EMPTY.runtime;
      lastEventAt := EMPTY.lastEventAt;
    }

    ghost function View(): State
      reads this
    {
      State(capital, purchases, runtime, lastEventAt)
    }

    method RecordCapitalTimelineEntry(at: Time, credit: u64, debit: u64) returns (done: Done)
      requires Sorted(capital.timeline)
      modifies this`capital
      ensures var spec := RecordTimelineEntry(old(capital.timeline), at, credit, debit);
              if spec.Ok? then done.Ok? && capital == old(capital).(timeline := spec.value)
              else done == Err(spec.error) && capital == old(capital)
    {
      var e := Entry(at, credit, debit);
      PushThenSort(capital.timeline, e);
      var timeline := StableSort(capital.timeline + [e]);
      hide StableSort, InsertByTime;
      var deployable: u64 := 0;
      var i := 0;
      while i < |timeline|
        invariant 0 <= i <= |timeline|
        invariant RunTimeline(timeline, 0) == RunTimeline(timeline[i..], deployable)
      {
        assert timeline[i..][1..] == timeline[i + 1..];
        var raised :- CheckedAdd(deployable, timeline[i].credit);
        if timeline[i].debit > raised {
          return Err(InsufficientDeployableCapital);
        }
        deployable := raised - timeline[i].debit;
        i := i + 1;
      }
      capital := capital.(timeline := timeline);
      return Ok(());
    }

    method RecordDepositAdmission(at: Time, deposit: Id, amount: u64) returns (done: Done)
      requires Sorted(capital.timeline)
      modifies this`capital
      ensures CapitalBecame(done, RecordAdmission(old(capital), at, deposit, amount), capital)
    {
      hide Sorted, InsertByTime, RunTimeline;
      if deposit !in capital.deposits {
        return Err(UnknownDeposit);
      }
      var d := capital.deposits[deposit];
      if at < d.at {
        return Err(InvalidEvent);
      }
      var admitted :- CheckedAdd(d.admitted, amount);
      var covered :- CheckedAdd(admitted, d.returned);
      if covered > d.authoritative {
        return Err(AdmissionExceedsDeposit);
      }
      var _ :- RecordCapitalTimelineEntry(at, amount, 0);
      capital := capital.(deposits := capital.deposits[deposit := d.(admitted := admitted)]);
      var total :- CheckedAdd(capital.admitted, amount);
      capital := capital.(admitted := total);
      return Ok(());
    }

    method ReturnAllocations(at: Time, allocations: seq<CapitalAllocation>)
      returns (total: Result<u64, LedgerError>)
      modifies this`capital
      ensures var spec := ReturnUnadmitted(old(capital.deposits), at, allocations, 0);
              if spec.Ok? then total == Ok(spec.value.1) && capital == old(capital).(deposits := spec.value.0)
              else total == Err(spec.error)
    {
      var returned: u64 := 0;
      var i := 0;
      while i < |allocations|
        invariant 0 <= i <= |allocations|
        invariant ReturnUnadmitted(old(capital.deposits), at, allocations, 0)
               == ReturnUnadmitted(capital.deposits, at, allocations[i..], returned)
        invariant capital == old(capital).(deposits := capital.deposits)
      {
        var a := allocations[i];
        assert allocations[i..][0] == a && allocations[i..][1..] == allocations[i + 1..];
        if a.trancheId !in capital.deposits {
          return Err(UnknownDeposit);
        }
        var d := capital.deposits[a.trancheId];
        var next :- CheckedAdd(d.returned, a.amount);
        if at < d.at {
          return Err(CorruptLedger);
        }
        var covered :- CheckedAdd(next, d.admitted);
        if covered > d.authoritative {
          return Err(CorruptLedger);
        }
        capital := capital.(deposits := capital.deposits[a.trancheId := d.(returned := next)]);
        returned :- CheckedAdd(returned, a.amount);
        i := i + 1;
      }
      return Ok(returned);
    }

    method RecordWithdrawal(at: Time, amount: u64) returns (done: Done)
      requires Sorted(capital.timeline)
      modifies this`capital
      ensures CapitalBecame(done, RecordDebit(old(capital), at, amount), capital)
    {
      hide Sorted, InsertByTime, RunTimeline;
      var _ :- RecordCapitalTimelineEntry(at, 0, amount);
      var withdrawn :- CheckedAdd(capital.withdrawn, amount);
      capital := capital.(withdrawn := withdrawn);
      return Ok(());
    }

    method RecordTransfer(at: Time, allocations: seq<CapitalAllocation>, amount: u64) returns (done: Done)
      requires Sorted(capital.timeline)
      modifies this`capital
      ensures CapitalBecame(done, RecordTransferWithdrawal(old(capital), at, allocations, amount), capital)
    {
      hide ReturnUnadmitted, RecordTimelineEntry, Sorted;
      var returned :- ReturnAllocations(at, allocations);
      var admittedPart :- CheckedSub(amount, returned);
      var _ :- RecordWithdrawal(at, admittedPart);
      capital := capital.(lastTransferWithdrawalAt := Some(MaxOption(capital.lastTransferWithdrawalAt, at)));
      return Ok(());
    }

    method FindLinked(commitment: Id) returns (linked: Option<Id>)
      requires OneDecisionEach(purchases)
      ensures linked == LinkedDecision(purchases, commitment)
    {
      var todo := purchases.decisions.Keys;
      while todo != {}
        invariant todo <= purchases.decisions.Keys
        invariant forall d :: Links(purchases, d, commitment) ==> d in todo
        decreases todo
      {
        var d :| d in todo;
        if purchases.decisions[d].commitmentId == commitment {
          LinkIsUnique(purchases, d, commitment);
          return Some(d);
        }
        todo := todo - {d};
      }
      return None;
    }

    method RecordCapitalCommitment(at: Time, commitment: Id, amount: u64) returns (done: Done)
      requires Sorted(capital.timeline) && OneDecisionEach(purchases)
      modifies this`capital
      ensures CapitalBecame(done, RecordCommitment(old(capital), purchases, at, commitment, amount), capital)
    {
      hide Sorted, OneDecisionEach, InsertByTime, RunTimeline;
      if commitment in capital.commitments {
        return Err(CommitmentCollision);
      }
      var linked := FindLinked(commitment);
      hide LinkedDecision;
      if linked.Some? {
        var decision := purchases.decisions[linked.value];
        if amount < decision.committed {
          return Err(InsufficientDecisionBacking);
        }
        if at > decision.at {
          return Err(InvalidEvent);
        }
      }
      var _ :- RecordCapitalTimelineEntry(at, 0, amount);
      var total :- CheckedAdd(capital.committed, amount);
      capital := capital.(committed := total);
      capital := capital.(commitments := capital.commitments[commitment := Commitment(at, amount, 0, false)]);
      return Ok(());
    }

    method LatestOrderAt(decision: Id) returns (latest: Option<Time>)
      ensures latest.Some? ==>
                exists o :: o in purchases.orders && purchases.orders[o].decisionId == decision
                            && purchases.orders[o].at == latest.value
      ensures forall o :: o in purchases.orders && purchases.orders[o].decisionId == decision ==>
                latest.Some? && purchases.orders[o].at <= latest.value
    {
      latest := None;
      var todo := purchases.orders.Keys;
      while todo != {}
        invariant todo <= purchases.orders.Keys
        invariant latest.Some? ==>
                    exists o :: o in purchases.orders && purchases.orders[o].decisionId == decision
                                && purchases.orders[o].at == latest.value
        invariant forall o :: o in purchases.orders && o !in todo && purchases.orders[o].decisionId == decision ==>
                    latest.Some? && purchases.orders[o].at <= latest.value
        decreases todo
      {
        var o :| o in todo;
        if purchases.orders[o].decisionId == decision {
          latest := Some(MaxOption(latest, purchases.orders[o].at));
        }
        todo := todo - {o};
      }
    }

    /** Whether anything recorded under the decision is later than `at`. */
    method HasLaterActivity(decision: Id, at: Time) returns (later: bool)
      requires decision in purchases.decisions
      ensures later <==> !NoLaterActivity(purchases, decision, at)
    {
      var d := purchases.decisions[decision];
      var latest := LatestOrderAt(decision);
      if d.latestCostAt.Some? {
        latest := Some(MaxOption(latest, d.latestCostAt.value));
      }
      later := at < MaxOption(latest, d.at);
    }

    method RecordCapitalSettlement(at: Time, commitment: Id, debited: u64) returns (done: Done)
      requires Sorted(capital.timeline) && OneDecisionEach(purchases)
      modifies this`capital
      ensures CapitalBecame(done, RecordSettlement(old(capital), purchases, at, commitment, debited), capital)
    {
      hide Sorted, OneDecisionEach, InsertByTime, RunTimeline;
      var linked := FindLinked(commitment);
      hide LinkedDecision, NoLaterActivity;
      var costs: u64 := 0;
      var later := false;
      if linked.Some? {
        var decision := purchases.decisions[linked.value];
        costs :- CheckedAdd(decision.filled, decision.fee);
        later := HasLaterActivity(linked.value, at);
      }
      if commitment !in capital.commitments {
        return Err(UnknownCommitment);
      }
      var k := capital.commitments[commitment];
      if k.settled {
        return Err(CommitmentAlreadySettled);
      }
      if at < k.at || later {
        return Err(InvalidEvent);
      }
      if debited > k.committed || (linked.Some? && debited > purchases.decisions[linked.value].committed) {
        return Err(DebitExceedsCommitment);
      }
      if debited < costs {
        return Err(DebitBelowRecordedCosts);
      }
      var _ :- RecordCapitalTimelineEntry(at, k.committed, debited);
      var committed :- CheckedSub(capital.committed, k.committed);
      capital := capital.(committed := committed);
      var spent :- CheckedAdd(capital.spent, debited);
      capital := capital.(spent := spent);
      capital := capital.(commitments :=
          capital.commitments[commitment := k.(debited := debited, settled := true)]);
      return Ok(());
    }

    method RecordObservedBalance(at: Time, usdc: u64, atoms: u64)
      modifies this`runtime
      ensures runtime == RecordBalance(old(runtime), at, usdc, atoms)
    {
      var isFreshest := runtime.lastObservationAt.None? || runtime.lastObservationAt.value <= at;
      if isFreshest {
        runtime := runtime.(observedUsdc := usdc);
        runtime := runtime.(observedHypeAtoms := atoms);
        runtime := runtime.(lastObservationAt := Some(at));
      }
    }

    method RecordOutcome(at: Time, date: Date, decision: Id) returns (done: Done)
      modifies this`purchases
      ensures PurchasesBecame(done, RecordDailyOutcome(old(purchases), at, date, decision), purchases)
    {
      if date != DateOf(at) {
        return Err(DecisionDateMismatch);
      }
      if date in purchases.outcomes {
        return Err(DecisionDateCollision);
      }
      if decision in purchases.decisionIds {
        return Err(DecisionIdCollision);
      }
      purchases := purchases.(outcomes := purchases.outcomes[date := decision]);
      purchases := purchases.(decisionIds := purchases.decisionIds + {decision});
      purchases := purchases.(lastDecisionAt := Some(MaxOption(purchases.lastDecisionAt, at)));
      return Ok(());
    }

    method RecordPurchaseDecision(
      at: Time, date: Date, decision: Id, commitment: Id, planned: u64, committed: u64) returns (done: Done)
      modifies this`purchases
      ensures PurchasesBecame(
                done, RecordDecision(capital, old(purchases), at, date, decision, commitment, planned, committed),
                purchases)
    {
      if commitment in capital.commitments {
        var k := capital.commitments[commitment];
        if k.settled || k.committed < committed {
          return Err(InsufficientDecisionBacking);
        }
        if at < k.at {
          return Err(InvalidEvent);
        }
      }
      var _ :- RecordOutcome(at, date, decision);
      if commitment in purchases.decisionCommitmentIds {
        return Err(DecisionCommitmentCollision);
      }
      purchases := purchases.(decisionCommitmentIds := purchases.decisionCommitmentIds + {commitment});
      purchases := purchases.(decisions :=
          purchases.decisions[decision := Decision(at, commitment, planned, committed, 0, 0, None)]);
      return Ok(());
    }

    method RecordPurchaseOrder(at: Time, order: Id, decision: Id) returns (done: Done)
      modifies this`purchases
      ensures PurchasesBecame(done, RecordOrder(capital, old(purchases), at, order, decision), purchases)
    {
      if decision !in purchases.decisions {
        return Err(UnknownDecision);
      }
      var d := purchases.decisions[decision];
      if at < d.at {
        return Err(InvalidEvent);
      }
      if d.commitmentId !in capital.commitments
         || capital.commitments[d.commitmentId].settled
         || capital.commitments[d.commitmentId].committed < d.committed {
        return Err(InsufficientDecisionBacking);
      }
      if at < capital.commitments[d.commitmentId].at {
        return Err(InvalidEvent);
      }
      if order in purchases.orders {
        return Err(OrderIdCollision);
      }
      purchases := purchases.(orders := purchases.orders[order := Order(at, decision)]);
      return Ok(());
    }

    method RecordPurchaseFill(at: Time, fill: Id, order: Id, filled: u64) returns (done: Done)
      modifies this`purchases
      ensures PurchasesBecame(done, RecordFill(capital, old(purchases), at, fill, order, filled), purchases)
    {
      if order !in purchases.orders {
        return Err(UnknownOrder);
      }
      var decision := purchases.orders[order].decisionId;
      if decision !in purchases.decisions {
        return Err(UnknownDecision);
      }
      var d := purchases.decisions[decision];
      if at < purchases.orders[order].at || at < d.at {
        return Err(InvalidEvent);
      }
      if fill in purchases.fills {
        return Err(FillIdCollision);
      }
      if !HasUnsettledBacking(capital, d) {
        return Err(InsufficientDecisionBacking);
      }
      var next :- CheckedAdd(d.filled, filled);
      if next > d.planned {
        return Err(FillExceedsDecisionPlan);
      }
      var costs :- CheckedAdd(next, d.fee);
      if costs > d.committed {
        return Err(DecisionCostsExceedCommitment);
      }
      d := d.(filled := next);
      d := d.(latestCostAt := Some(MaxOption(d.latestCostAt, at)));
      purchases := purchases.(decisions := purchases.decisions[decision := d]);
      purchases := purchases.(fills := purchases.fills[fill := order]);
      return Ok(());
    }

    method RecordPurchaseFee(at: Time, fee: Id, order: Id, amount: u64) returns (done: Done)
      modifies this`purchases
      ensures PurchasesBecame(done, RecordFee(capital, old(purchases), at, fee, order, amount), purchases)
    {
      if order !in purchases.orders {
        return Err(UnknownOrder);
      }
      var decision := purchases.orders[order].decisionId;
      if decision !in purchases.decisions {
        return Err(UnknownDecision);
      }
      var d := purchases.decisions[decision];
      if at < purchases.orders[order].at || at < d.at {
        return Err(InvalidEvent);
      }
      if fee in purchases.fees {
        return Err(FeeIdCollision);
      }
      if !HasUnsettledBacking(capital, d) {
        return Err(InsufficientDecisionBacking);
      }
      var next :- CheckedAdd(d.fee, amount);
      var costs :- CheckedAdd(d.filled, next);
      if costs > d.committed {
        return Err(DecisionCostsExceedCommitment);
      }
      d := d.(fee := next);
      d := d.(latestCostAt := Some(MaxOption(d.latestCostAt, at)));
      purchases := purchases.(decisions := purchases.decisions[decision := d]);
      purchases := purchases.(fees := purchases.fees[fee := order]);
      return Ok(());
    }

    method RecordRuntime(event: Event) returns (done: Done)
      modifies this`runtime
      ensures RuntimeBecame(done, ApplyRuntime(old(runtime), event), runtime)
    {
      done := Ok(());
      match event.kind
      case BalanceObserved(usdc, atoms) => RecordObservedBalance(event.at, usdc, atoms);
      case ReconciliationCorrection(_, usdc, atoms, _) => RecordObservedBalance(event.at, usdc, atoms);
      case RuntimeCyclePrepared(cycle) =>
        if cycle in runtime.cycles {
          return Err(RuntimeCycleCollision);
        }
        runtime := runtime.(cycles := runtime.cycles[cycle := false]);
      case RuntimeCycleCommitted(cycle) =>
        if cycle !in runtime.cycles {
          return Err(UnknownRuntimeCycle);
        }
        if runtime.cycles[cycle] {
          return Err(RuntimeCycleCollision);
        }
        runtime := runtime.(cycles := runtime.cycles[cycle := true]);
        runtime := runtime.(lastCycle := Some(cycle));
      case _ =>
    }

    method RecordCapital(event: Event) returns (done: Done)
      requires Sorted(capital.timeline) && OneDecisionEach(purchases)
      modifies this`capital
      ensures CapitalBecame(done, ApplyCapital(old(capital), purchases, event), capital)
    {
      hide Sorted, OneDecisionEach, RecordCommitment, RecordSettlement, RecordAdmission, RecordDebit,
           RecordTransferWithdrawal;
      done := Ok(());
      match event.kind
      case AuthoritativeDeposit(amount) =>
        capital := capital.(deposits := capital.deposits[event.id := Deposit(event.at, amount, 0, 0)]);
      case AuthoritativeParentFunding(amount, _, _) =>
        capital := capital.(deposits := capital.deposits[event.id := Deposit(event.at, amount, 0, 0)]);
      case AuthoritativeTransferWithdrawal(unadmitted, amount, _, _) =>
        done := RecordTransfer(event.at, unadmitted, amount);
      case DepositAdmission(deposit, amount) => done := RecordDepositAdmission(event.at, deposit, amount);
      case AuthoritativeWithdrawal(amount) => done := RecordWithdrawal(event.at, amount);
      case CapitalCommitted(commitment, amount) =>
        done := RecordCapitalCommitment(event.at, commitment, amount);
      case CapitalSettled(commitment, debited) =>
        done := RecordCapitalSettlement(event.at, commitment, debited);
      case _ =>
    }

    method RecordPurchase(event: Event) returns (done: Done)
      modifies this`purchases
      ensures PurchasesBecame(done, ApplyPurchase(capital, old(purchases), event), purchases)
    {
      hide RecordDecision, RecordDailyOutcome, RecordOrder, RecordFill, RecordFee;
      done := Ok(());
      match event.kind
      case DailyDecision(decision, date, commitment, planned, committed) =>
        done := RecordPurchaseDecision(event.at, date, decision, commitment, planned, committed);
      case DailySkip(decision, date, _) => done := RecordOutcome(event.at, date, decision);
      case OrderRecorded(order, decision) => done := RecordPurchaseOrder(event.at, order, decision);
      case FillRecorded(fill, order, filled, _) => done := RecordPurchaseFill(event.at, fill, order, filled);
      case FeeRecorded(fee, order, amount) => done := RecordPurchaseFee(event.at, fee, order, amount);
      case _ =>
    }

    /** Applies one event to whichever side of the state it concerns. */
    method Apply(event: Event) returns (done: Done)
      requires Sorted(capital.timeline) && OneDecisionEach(purchases)
      modifies this
      ensures var spec := ApplyEvent(old(View()), event);
              if spec.Ok? then done.Ok? && View() == spec.value else done == Err(spec.error)
    {
      SidesByKind(capital, purchases, runtime, event);
      hide ApplyCapital, ApplyPurchase, ApplyRuntime, Sorted, OneDecisionEach;
      if MovesCapital(event.kind) {
        var _ :- RecordCapital(event);
      } else {
        var _ :- RecordPurchase(event);
        var _ :- RecordRuntime(event);
      }
      return Ok(());
    }
  }

  /** An event is either about capital or leaves capital alone. */
  lemma SidesByKind(c: Capital, p: Purchases, r: Runtime, event: Event)
    ensures MovesCapital(event.kind) ==> ApplyPurchase(c, p, event) == Ok(p) && ApplyRuntime(r, event) == Ok(r)
    ensures !MovesCapital(event.kind) ==> ApplyCapital(c, p, event) == Ok(c)
    ensures ApplyPurchase(c, p, event) == Ok(p) || ApplyRuntime(r, event) == Ok(r)
  {
    hide RecordDecision, RecordDailyOutcome, RecordOrder, RecordFill, RecordFee, PrepareCycle, CommitCycle,
         RecordBalance;
    hide RecordCommitment, RecordSettlement, RecordAdmission, RecordDebit, RecordTransferWithdrawal, RecordFunding;
  }

  lemma ReachedStateIsSound(events: seq<Event>)
    requires Fold(events).Ok?
    ensures Sorted(Fold(events).value.state.capital.timeline)
    ensures OneDecisionEach(Fold(events).value.state.purchases)
  {
    AlwaysBalanced(events);
    AlwaysChained(events);
    hide Fold;
  }

  /** One more event, or the error the whole journal fails with. */
  lemma NextEvent(events: seq<Event>, i: nat)
    requires i < |events| && Fold(events[..i]).Ok?
    ensures var step := Step(Fold(events[..i]).value, events[i]);
            && Fold(events[..i + 1]) == step
            && (step.Err? ==> Replay(events) == Err(step.error))
    ensures Sorted(Fold(events[..i]).value.state.capital.timeline)
    ensures OneDecisionEach(Fold(events[..i]).value.state.purchases)
  {
    FoldSnoc(events[..i], events[i]);
    assert events[..i] + [events[i]] == events[..i + 1];
    ReachedStateIsSound(events[..i]);
    hide Step, Sorted, OneDecisionEach;
    if Fold(events[..i + 1]).Err? {
      FirstErrorStands(events, i + 1);
    }
  }

  /** Replays a whole journal, checking identifiers as it goes. */
  method ReplayJournal(events: seq<Event>) returns (r: Result<State, LedgerError>)
    ensures r == Replay(events)
  {
    var state := new ReplayState();
    var eventIds: set<Id> := {};
    var actionIds: set<Id> := {};
    var rewardIds: set<Id> := {};
    var correctionIds: set<Id> := {};
    var i := 0;
    assert events[..0] == [];
    while i < |events|
      invariant 0 <= i <= |events|
      invariant Fold(events[..i]) == Ok(Replayed(state.View(), Seen(eventIds, actionIds, rewardIds, correctionIds)))
      invariant fresh(state)
    {
      var event := events[i];
      NextEvent(events, i);
      hide Fold, Replay, ApplyEvent, See, ValidateEvent, Sorted, OneDecisionEach;
      if ValidateEvent(event).Fail? {
        return Err(ValidateEvent(event).error);
      }
      var seen :- See(Seen(eventIds, actionIds, rewardIds, correctionIds), event);
      eventIds, actionIds, rewardIds, correctionIds := seen.events, seen.actions, seen.rewards, seen.corrections;
      var _ :- state.Apply(event);
      state.lastEventAt := Some(MaxOption(state.lastEventAt, event.at));
      i := i + 1;
    }
    assert events[..i] == events;
    return Ok(State(state.capital, state.purchases, state.runtime, state.lastEventAt));
  }
}
