/**
 * Conservation of capital over every journal that replays: the four totals
 * against the timeline, the open commitments, and the deposits they came from.
 */
module CapitalConservation {
  import opened Prelude
  import opened LedgerEvents
  import opened CapitalTimeline
  import opened LedgerReplay

  ghost function OpenAmounts(commitments: map<Id, Commitment>): map<Id, int> {
    map c | c in commitments && !commitments[c].settled :: commitments[c].committed
  }

  ghost function Admissions(deposits: map<Id, Deposit>): map<Id, int> {
    map d | d in deposits :: deposits[d].admitted
  }

  /** What is left of each deposit once returns of capital that was never admitted are taken out. */
  ghost function NetFunding(deposits: map<Id, Deposit>): map<Id, int> {
    map d | d in deposits :: deposits[d].authoritative - deposits[d].returned
  }

  ghost predicate DepositCovered(d: Deposit) {
    d.admitted + d.returned <= d.authoritative
  }

  /** The timeline is sorted, never overdrawn, and closes at what the four totals leave. */
  ghost predicate TimelineBalances(c: Capital) {
    && Sorted(c.timeline)
    && RunTimeline(c.timeline, 0).Ok?
    && Net(c.timeline) == c.admitted - c.withdrawn - c.committed - c.spent
  }

  ghost predicate OpenBalances(c: Capital) {
    c.committed == SumOf(OpenAmounts(c.commitments))
  }

  ghost predicate DepositsBalance(c: Capital) {
    && (forall d :: d in c.deposits ==> DepositCovered(c.deposits[d]))
    && SumOf(Admissions(c.deposits)) == c.admitted
  }

  ghost predicate Balanced(c: Capital) {
    TimelineBalances(c) && OpenBalances(c) && DepositsBalance(c)
  }

  lemma EntryKeepsTimeline(timeline: seq<Entry>, at: Time, credit: u64, debit: u64)
    requires Sorted(timeline)
    requires RecordTimelineEntry(timeline, at, credit, debit).Ok?
    ensures var t := RecordTimelineEntry(timeline, at, credit, debit).value;
            Sorted(t) && RunTimeline(t, 0).Ok? && Net(t) == Net(timeline) + credit - debit
  {
    InsertKeepsSorted(timeline, Entry(at, credit, debit));
    NetOfInsert(timeline, Entry(at, credit, debit));
  }

  lemma FundingBalanced(c: Capital, id: Id, at: Time, amount: u64)
    requires Balanced(c) && id !in c.deposits
    ensures Balanced(RecordFunding(c, id, at, amount))
  {
    hide RecordTimelineEntry, RunTimeline, Net, Sorted, SumOf;
    assert Admissions(RecordFunding(c, id, at, amount).deposits) == Admissions(c.deposits)[id := 0];
    SumPut(Admissions(c.deposits), id, 0);
  }

  lemma AdmissionBalanced(c: Capital, at: Time, deposit: Id, amount: u64)
    requires Balanced(c)
    requires RecordAdmission(c, at, deposit, amount).Ok?
    ensures Balanced(RecordAdmission(c, at, deposit, amount).value)
  {
    hide RecordTimelineEntry, RunTimeline, Net, Sorted, SumOf;
    EntryKeepsTimeline(c.timeline, at, amount, 0);
    var admitted := c.deposits[deposit].admitted + amount;
    assert Admissions(RecordAdmission(c, at, deposit, amount).value.deposits)
        == Admissions(c.deposits)[deposit := admitted];
    SumPut(Admissions(c.deposits), deposit, admitted);
  }

  /** Returning unadmitted funding leaves every admission alone and every deposit covered. */
  lemma {:induction false} ReturnsStayCovered(
    deposits: map<Id, Deposit>, at: Time, allocations: seq<CapitalAllocation>, returned: u64)
    requires forall d :: d in deposits ==> DepositCovered(deposits[d])
    requires ReturnUnadmitted(deposits, at, allocations, returned).Ok?
    ensures var after := ReturnUnadmitted(deposits, at, allocations, returned).value.0;
            && after.Keys == deposits.Keys
            && Admissions(after) == Admissions(deposits)
            && forall d :: d in after ==> DepositCovered(after[d]) && after[d].at == deposits[d].at
  {
    if allocations != [] {
      var a := allocations[0];
      var d := deposits[a.trancheId];
      var next := deposits[a.trancheId := d.(returned := d.returned + a.amount)];
      ReturnsStayCovered(next, at, allocations[1..], returned + a.amount);
      assert Admissions(next) == Admissions(deposits);
    }
  }

  lemma DebitBalanced(c: Capital, at: Time, amount: u64)
    requires Balanced(c)
    requires RecordDebit(c, at, amount).Ok?
    ensures Balanced(RecordDebit(c, at, amount).value)
  {
    hide RecordTimelineEntry, RunTimeline, Net, Sorted, SumOf;
    EntryKeepsTimeline(c.timeline, at, 0, amount);
  }

  lemma TransferBalanced(c: Capital, at: Time, allocations: seq<CapitalAllocation>, amount: u64)
    requires Balanced(c)
    requires RecordTransferWithdrawal(c, at, allocations, amount).Ok?
    ensures Balanced(RecordTransferWithdrawal(c, at, allocations, amount).value)
  {
    hide RecordDebit, SumOf, RunTimeline, Net, Sorted;
    ReturnsStayCovered(c.deposits, at, allocations, 0);
    var (deposits, back) := ReturnUnadmitted(c.deposits, at, allocations, 0).value;
    DebitBalanced(c.(deposits := deposits), at, amount - back);
  }

  lemma CommitmentBalanced(c: Capital, p: Purchases, at: Time, commitment: Id, amount: u64)
    requires Balanced(c)
    requires RecordCommitment(c, p, at, commitment, amount).Ok?
    ensures Balanced(RecordCommitment(c, p, at, commitment, amount).value)
  {
    hide RecordTimelineEntry, RunTimeline, Net, Sorted, SumOf, LinkedDecision;
    EntryKeepsTimeline(c.timeline, at, 0, amount);
    assert OpenAmounts(RecordCommitment(c, p, at, commitment, amount).value.commitments)
        == OpenAmounts(c.commitments)[commitment := amount];
    SumPut(OpenAmounts(c.commitments), commitment, amount);
  }

  lemma SettlementBalanced(c: Capital, p: Purchases, at: Time, commitment: Id, debited: u64)
    requires Balanced(c)
    requires RecordSettlement(c, p, at, commitment, debited).Ok?
    ensures Balanced(RecordSettlement(c, p, at, commitment, debited).value)
  {
    hide RecordTimelineEntry, RunTimeline, Net, Sorted, SumOf, LinkedDecision, RecordedCosts, NoLaterActivity;
    EntryKeepsTimeline(c.timeline, at, c.commitments[commitment].committed, debited);
    assert OpenAmounts(RecordSettlement(c, p, at, commitment, debited).value.commitments)
        == OpenAmounts(c.commitments) - {commitment};
    SumTake(OpenAmounts(c.commitments), commitment);
  }

  /** Every event keeps the money side balanced; a new deposit needs an identifier of its own. */
  lemma EventKeepsBalanced(c: Capital, p: Purchases, event: Event)
    requires Balanced(c)
    requires event.id !in c.deposits
    requires ApplyCapital(c, p, event).Ok?
    ensures Balanced(ApplyCapital(c, p, event).value)
  {
    hide Balanced, RecordFunding, RecordTransferWithdrawal, RecordAdmission, RecordDebit, RecordCommitment,
         RecordSettlement;
    match event.kind
    case AuthoritativeDeposit(amount) => FundingBalanced(c, event.id, event.at, amount);
    case AuthoritativeParentFunding(amount, _, _) => FundingBalanced(c, event.id, event.at, amount);
    case AuthoritativeTransferWithdrawal(unadmitted, amount, _, _) =>
      TransferBalanced(c, event.at, unadmitted, amount);
    case DepositAdmission(deposit, amount) => AdmissionBalanced(c, event.at, deposit, amount);
    case AuthoritativeWithdrawal(amount) => DebitBalanced(c, event.at, amount);
    case CapitalCommitted(commitment, amount) => CommitmentBalanced(c, p, event.at, commitment, amount);
    case CapitalSettled(commitment, debited) => SettlementBalanced(c, p, event.at, commitment, debited);
    case _ =>
  }

  /** Only deposits add to the deposit table, each under its own event identifier. */
  lemma DepositsAreEvents(c: Capital, p: Purchases, event: Event)
    requires ApplyCapital(c, p, event).Ok?
    ensures ApplyCapital(c, p, event).value.deposits.Keys <= c.deposits.Keys + {event.id}
  {
    hide RecordTimelineEntry, LinkedDecision, RecordedCosts, NoLaterActivity, ReturnUnadmitted;
    if event.kind.AuthoritativeTransferWithdrawal? {
      ReturnsKeepKeys(c.deposits, event.at, event.kind.unadmitted, 0);
    }
  }

  lemma {:induction false} ReturnsKeepKeys(
    deposits: map<Id, Deposit>, at: Time, allocations: seq<CapitalAllocation>, returned: u64)
    requires ReturnUnadmitted(deposits, at, allocations, returned).Ok?
    ensures ReturnUnadmitted(deposits, at, allocations, returned).value.0.Keys == deposits.Keys
  {
    if allocations != [] {
      var a := allocations[0];
      var d := deposits[a.trancheId];
      ReturnsKeepKeys(deposits[a.trancheId := d.(returned := d.returned + a.amount)], at, allocations[1..],
                      returned + a.amount);
    }
  }

  ghost predicate Sound(r: Replayed) {
    Balanced(r.state.capital) && r.state.capital.deposits.Keys <= r.seen.events
  }

  lemma NothingIsSound()
    ensures Sound(NOTHING)
  {
    assert OpenAmounts(EMPTY.capital.commitments) == map[];
    assert Admissions(EMPTY.capital.deposits) == map[];
  }

  lemma StepKeepsSound(r: Replayed, event: Event)
    requires Sound(r)
    requires Step(r, event).Ok?
    ensures Sound(Step(r, event).value)
  {
    hide Balanced, ApplyCapital, ApplyPurchase, ApplyRuntime, ValidateEvent;
    EventKeepsBalanced(r.state.capital, r.state.purchases, event);
    DepositsAreEvents(r.state.capital, r.state.purchases, event);
  }

  /** Every state a journal reaches is balanced. */
  lemma {:induction false} AlwaysBalanced(events: seq<Event>)
    requires Fold(events).Ok?
    ensures Sound(Fold(events).value)
  {
    hide Sound, Step;
    if events == [] {
      NothingIsSound();
    } else {
      AlwaysBalanced(events[..|events| - 1]);
      StepKeepsSound(Fold(events[..|events| - 1]).value, events[|events| - 1]);
    }
  }

  /**
   * In every reachable state the uses of capital fit inside what was admitted,
   * so the saturating `Deployable` is the exact closing balance of the timeline,
   * and no prefix of that timeline is ever negative.
   */
  lemma DeployableIsExact(events: seq<Event>, n: nat)
    requires Replay(events).Ok?
    requires n <= |Replay(events).value.capital.timeline|
    ensures var c := Replay(events).value.capital;
            && c.withdrawn + c.committed + c.spent <= c.admitted
            && Deployable(c) == c.admitted - c.withdrawn - c.committed - c.spent
            && RunTimeline(c.timeline, 0) == Ok(Deployable(c))
            && Sorted(c.timeline)
            && Net(c.timeline[..n]) >= 0
  {
    hide Fold, SumOf;
    AlwaysBalanced(events);
    var c := Replay(events).value.capital;
    RunIsNet(c.timeline, 0);
    CoveredPrefixes(c.timeline, 0, n);
  }

  /** The net authoritative funding, unless it does not fit 64 bits. */
  ghost function AuthoritativeFunding(c: Capital): Option<u64> {
    var total := SumOf(NetFunding(c.deposits));
    if 0 <= total <= U64_MAX then Some(total) else None
  }

  /**
   * No deposit is admitted and returned beyond what arrived, the admissions add
   * up to the admitted total, and so the net funding is at least that total.
   */
  lemma DepositConservation(events: seq<Event>)
    requires Replay(events).Ok?
    ensures var c := Replay(events).value.capital;
            && (forall d :: d in c.deposits ==>
                  c.deposits[d].admitted + c.deposits[d].returned <= c.deposits[d].authoritative)
            && SumOf(Admissions(c.deposits)) == c.admitted
            && c.admitted <= SumOf(NetFunding(c.deposits))
  {
    hide Fold, RunTimeline;
    AlwaysBalanced(events);
    var c := Replay(events).value.capital;
    assert forall d :: d in c.deposits ==> DepositCovered(c.deposits[d]);
    SumBounds(Admissions(c.deposits), NetFunding(c.deposits));
  }
}
