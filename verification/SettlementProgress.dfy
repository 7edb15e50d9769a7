/** No commitment is ever stuck: exactly which settlements a reachable state accepts. */
module SettlementProgress {
  import opened Prelude
  import opened LedgerEvents
  import opened CapitalTimeline
  import opened LedgerReplay
  import opened CapitalConservation
  import opened PurchaseChain
  import opened JournalTotals
  import opened TaggedTimeline

  /** A tagged timeline that tells where every entry of the state's timeline came from. */
  ghost predicate TagsFit(tagged: seq<Tagged>, c: Capital) {
    && Untag(tagged) == c.timeline
    && WellMatched(tagged, map[])
    && AdmitSum(tagged) == c.admitted
    && (forall k :: k !in c.commitments ==> Unmentioned(tagged, k))
    && (forall k :: k in c.commitments && !c.commitments[k].settled ==>
          Awaits(tagged, k, c.commitments[k].committed, c.commitments[k].at))
  }

  /** The tagged timeline after one more event. */
  function NextTags(tagged: seq<Tagged>, c: Capital, event: Event): seq<Tagged> {
    match event.kind
    case DepositAdmission(_, amount) => Insert(tagged, Tagged(Entry(event.at, amount, 0), Admit))
    case AuthoritativeWithdrawal(amount) => Insert(tagged, Tagged(Entry(event.at, 0, amount), Withdraw))
    case AuthoritativeTransferWithdrawal(unadmitted, amount, _, _) =>
      var back := ReturnUnadmitted(c.deposits, event.at, unadmitted, 0);
      if back.Ok? && back.value.1 <= amount then
        Insert(tagged, Tagged(Entry(event.at, 0, amount - back.value.1), Withdraw))
      else tagged
    case CapitalCommitted(k, amount) => Insert(tagged, Tagged(Entry(event.at, 0, amount), Commit(k)))
    case CapitalSettled(k, debited) =>
      if k in c.commitments then
        Insert(tagged, Tagged(Entry(event.at, c.commitments[k].committed, debited), Settle(k)))
      else tagged
    case _ => tagged
  }

  lemma InsertedTags(tagged: seq<Tagged>, x: Tagged)
    ensures Untag(Insert(tagged, x)) == InsertByTime(Untag(tagged), x.entry)
    ensures AdmitSum(Insert(tagged, x)) == AdmitSum(tagged) + if x.tag.Admit? then x.entry.credit else 0
    ensures forall k :: Unmentioned(tagged, k) && !Mentions(x, k) ==> Unmentioned(Insert(tagged, x), k)
    ensures forall k, amount, at ::
      Awaits(tagged, k, amount, at) && !Mentions(x, k) ==> Awaits(Insert(tagged, x), k, amount, at)
  {
    UntagInsert(tagged, x);
    AdmitSumInsert(tagged, x);
    forall k | Unmentioned(tagged, k) && !Mentions(x, k)
      ensures Unmentioned(Insert(tagged, x), k)
    {
      InsertKeepsUnmentioned(tagged, x, k);
    }
    forall k, amount, at | Awaits(tagged, k, amount, at) && !Mentions(x, k)
      ensures Awaits(Insert(tagged, x), k, amount, at)
    {
      InsertKeepsAwaits(tagged, x, k, amount, at);
    }
  }

  /** A movement that is no commitment and no settlement. */
  lemma PlainFits(tagged: seq<Tagged>, x: Tagged, c: Capital, next: Capital)
    requires TagsFit(tagged, c)
    requires x.tag.Admit? || x.tag.Withdraw?
    requires Fits(map[], x)
    requires next.timeline == InsertByTime(c.timeline, x.entry) && next.commitments == c.commitments
    requires next.admitted == c.admitted + if x.tag.Admit? then x.entry.credit else 0
    ensures TagsFit(Insert(tagged, x), next)
  {
    hide Insert, Untag, AdmitSum, Awaits, Unmentioned, WellMatched, InsertByTime;
    InsertedTags(tagged, x);
    InsertPlain(tagged, x, map[]);
  }

  lemma CommitFits(tagged: seq<Tagged>, c: Capital, p: Purchases, at: Time, k: Id, amount: u64)
    requires TagsFit(tagged, c)
    requires RecordCommitment(c, p, at, k, amount).Ok?
    ensures TagsFit(Insert(tagged, Tagged(Entry(at, 0, amount), Commit(k))),
                    RecordCommitment(c, p, at, k, amount).value)
  {
    hide Insert, Untag, AdmitSum, Awaits, Unmentioned, WellMatched, InsertByTime, RunTimeline, LinkedDecision;
    var x := Tagged(Entry(at, 0, amount), Commit(k));
    InsertedTags(tagged, x);
    InsertCommit(tagged, x, map[], k);
    InsertedCommitAwaits(tagged, x, k);
  }

  lemma SettleFits(tagged: seq<Tagged>, c: Capital, p: Purchases, at: Time, k: Id, debited: u64)
    requires TagsFit(tagged, c) && Sorted(c.timeline)
    requires RecordSettlement(c, p, at, k, debited).Ok?
    ensures TagsFit(Insert(tagged, Tagged(Entry(at, c.commitments[k].committed, debited), Settle(k))),
                    RecordSettlement(c, p, at, k, debited).value)
  {
    hide Insert, Untag, AdmitSum, Awaits, Unmentioned, WellMatched, InsertByTime, RunTimeline, LinkedDecision;
    hide RecordedCosts, NoLaterActivity, Sorted, Ordered;
    var x := Tagged(Entry(at, c.commitments[k].committed, debited), Settle(k));
    InsertedTags(tagged, x);
    OrderedIsSorted(tagged);
    InsertSettle(tagged, x, map[], k, c.commitments[k].at);
  }

  lemma TransferFits(tagged: seq<Tagged>, c: Capital, p: Purchases, event: Event)
    requires TagsFit(tagged, c) && event.kind.AuthoritativeTransferWithdrawal?
    requires ApplyCapital(c, p, event).Ok?
    ensures TagsFit(NextTags(tagged, c, event), ApplyCapital(c, p, event).value)
  {
    hide TagsFit, Insert, ReturnUnadmitted, InsertByTime, RunTimeline;
    var back := ReturnUnadmitted(c.deposits, event.at, event.kind.unadmitted, 0).value.1;
    var x := Tagged(Entry(event.at, 0, event.kind.amount - back), Withdraw);
    PlainFits(tagged, x, c, ApplyCapital(c, p, event).value);
  }

  lemma EventFits(tagged: seq<Tagged>, c: Capital, p: Purchases, event: Event)
    requires TagsFit(tagged, c) && Sorted(c.timeline)
    requires ApplyCapital(c, p, event).Ok?
    ensures TagsFit(NextTags(tagged, c, event), ApplyCapital(c, p, event).value)
  {
    hide Insert, Untag, AdmitSum, Awaits, Unmentioned, WellMatched, InsertByTime, RunTimeline, ReturnUnadmitted;
    hide RecordCommitment, RecordSettlement, RecordTransferWithdrawal;
    var next := ApplyCapital(c, p, event).value;
    match event.kind
    case DepositAdmission(_, amount) =>
      hide TagsFit;
      PlainFits(tagged, Tagged(Entry(event.at, amount, 0), Admit), c, next);
    case AuthoritativeWithdrawal(amount) =>
      hide TagsFit;
      PlainFits(tagged, Tagged(Entry(event.at, 0, amount), Withdraw), c, next);
    case AuthoritativeTransferWithdrawal(_, _, _, _) =>
      hide TagsFit;
      TransferFits(tagged, c, p, event);
    case CapitalCommitted(k, amount) =>
      hide TagsFit;
      CommitFits(tagged, c, p, event.at, k, amount);
    case CapitalSettled(k, debited) =>
      hide TagsFit;
      SettleNamesCommitment(c, p, event.at, k, debited);
      SettleFits(tagged, c, p, event.at, k, debited);
    case _ =>
  }

  lemma SettleNamesCommitment(c: Capital, p: Purchases, at: Time, k: Id, debited: u64)
    requires RecordSettlement(c, p, at, k, debited).Ok?
    ensures k in c.commitments
  {
    hide RecordTimelineEntry, LinkedDecision, RecordedCosts, NoLaterActivity;
  }

  /** Every journal that replays has a tagged timeline that fits the state it reaches. */
  lemma {:induction false} AlwaysTagged(events: seq<Event>) returns (tagged: seq<Tagged>)
    requires Fold(events).Ok?
    ensures TagsFit(tagged, Fold(events).value.state.capital)
  {
    if events == [] {
      tagged := [];
    } else {
      hide TagsFit, Sound, Step;
      var front, last := events[..|events| - 1], events[|events| - 1];
      var before := AlwaysTagged(front);
      AlwaysBalanced(front);
      var r := Fold(front).value;
      tagged := NextTags(before, r.state.capital, last);
      StepFits(before, r, last);
    }
  }

  lemma StepFits(tagged: seq<Tagged>, r: Replayed, event: Event)
    requires TagsFit(tagged, r.state.capital) && Sound(r)
    requires Step(r, event).Ok?
    ensures TagsFit(NextTags(tagged, r.state.capital, event), Step(r, event).value.state.capital)
  {
    hide TagsFit, NextTags, ApplyCapital, ApplyPurchase, ApplyRuntime, ValidateEvent, RunTimeline, Sorted, SumOf, Net;
    EventFits(tagged, r.state.capital, r.state.purchases, event);
  }

  /** The least debit a settlement may carry: what the journal's fills and fees for the commitment add up to. */
  ghost function DebitFloor(events: seq<Event>, k: Id): int {
    Tally(events, CostsOf(k))
  }

  /** The greatest debit a settlement may carry: the smaller of commitment and decision. */
  ghost function DebitCeiling(c: Capital, p: Purchases, k: Id): int
    requires k in c.commitments
  {
    var linked := LinkedDecision(p, k);
    if linked.Some? && p.decisions[linked.value].committed < c.commitments[k].committed then
      p.decisions[linked.value].committed
    else
      c.commitments[k].committed
  }

  /** Dated no earlier than the commitment and everything recorded under its decision. */
  ghost predicate DatedLast(c: Capital, p: Purchases, k: Id, at: Time)
    requires k in c.commitments
  {
    && c.commitments[k].at <= at
    && (LinkedDecision(p, k).Some? ==> NoLaterActivity(p, LinkedDecision(p, k).value, at))
  }

  lemma RangeIsNotEmpty(c: Capital, p: Purchases, k: Id)
    requires ChainOk(c, p) && k in c.commitments
    ensures 0 <= BookedCosts(p, k) <= DebitCeiling(c, p, k) <= c.commitments[k].committed
  {
    hide OneDecisionEach, LinkedDecision;
    var linked := LinkedDecision(p, k);
    if linked.Some? {
      assert Links(p, linked.value, k);
      assert DecisionOk(c, p.decisions[linked.value]);
    }
  }

  /** The refund of a settlement passes the timeline check wherever it lands. */
  lemma RefundFitsTimeline(tagged: seq<Tagged>, c: Capital, at: Time, k: Id, debited: u64)
    requires TagsFit(tagged, c) && TimelineBalances(c)
    requires k in c.commitments && !c.commitments[k].settled && c.commitments[k].at <= at
    requires debited <= c.commitments[k].committed
    ensures RecordTimelineEntry(c.timeline, at, c.commitments[k].committed, debited).Ok?
  {
    var x := Tagged(Entry(at, c.commitments[k].committed, debited), Settle(k));
    RunIsNet(c.timeline, 0);
    RefundKeepsCovered(c.timeline, x.entry, 0);
    OrderedIsSorted(tagged);
    InsertSettle(tagged, x, map[], k, c.commitments[k].at);
    hide Insert, Untag, AdmitSum, Awaits, Unmentioned, WellMatched, InsertByTime, RunTimeline, Covered, Sorted,
         Ordered;
    UntagInsert(tagged, x);
    AdmitSumInsert(tagged, x);
    NeverOverflows(Insert(tagged, x), map[], 0);
  }

  /** Taking the commitment out of the open total and adding the debit to the spent total both fit. */
  lemma TimelineOfBalanced(c: Capital)
    requires Balanced(c)
    ensures TimelineBalances(c)
  {
    hide TimelineBalances;
  }

  lemma TotalsFit(c: Capital, k: Id, debited: u64)
    requires Balanced(c)
    requires k in c.commitments && !c.commitments[k].settled
    requires debited <= c.commitments[k].committed
    ensures c.commitments[k].committed <= c.committed
    ensures c.spent + debited <= c.admitted
  {
    assert k in OpenAmounts(c.commitments);
    SumNonNegative(OpenAmounts(c.commitments));
    RunIsNet(c.timeline, 0);
  }

  /** In a sound state a settlement is accepted exactly when it is in range and dated last. */
  lemma SettlementAcceptedIff(tagged: seq<Tagged>, c: Capital, p: Purchases, at: Time, k: Id, debited: u64)
    requires TagsFit(tagged, c) && Balanced(c) && ChainOk(c, p)
    requires k in c.commitments && !c.commitments[k].settled
    ensures RecordSettlement(c, p, at, k, debited).Ok?
       <==> BookedCosts(p, k) <= debited <= DebitCeiling(c, p, k) && DatedLast(c, p, k, at)
  {
    TimelineOfBalanced(c);
    hide TagsFit, Balanced, TimelineBalances, ChainOk, RecordTimelineEntry, NoLaterActivity, LinkedDecision;
    RangeIsNotEmpty(c, p, k);
    if debited <= c.commitments[k].committed && c.commitments[k].at <= at {
      RefundFitsTimeline(tagged, c, at, k, debited);
      TotalsFit(c, k, debited);
    }
  }

  /**
   * Whatever the journal, every unsettled commitment has a non-empty range of
   * debits, and a settlement under a fresh event identifier is accepted exactly
   * when its debit is in that range and its date is no earlier than the activity
   * linked to it. Nothing else, and in particular no timeline or overflow check,
   * can refuse it.
   */
  lemma NoCommitmentIsStuck(events: seq<Event>, settle: Event)
    requires Replay(events).Ok?
    requires settle.kind.CapitalSettled? && ValidateEvent(settle).Pass?
    requires settle.id !in EventIds(events)
    requires var c := Replay(events).value.capital;
             settle.kind.commitmentId in c.commitments && !c.commitments[settle.kind.commitmentId].settled
    ensures var s, k := Replay(events).value, settle.kind.commitmentId;
            && 0 <= DebitFloor(events, k) <= DebitCeiling(s.capital, s.purchases, k)
            && (Replay(events + [settle]).Ok?
                <==> DebitFloor(events, k) <= settle.kind.debited <= DebitCeiling(s.capital, s.purchases, k)
                     && DatedLast(s.capital, s.purchases, k, settle.at))
  {
    AlwaysBalanced(events);
    AlwaysChained(events);
    SeenIsEventIds(events);
    FoldSnoc(events, settle);
    CountersAreJournalSums(events);
    var tagged := AlwaysTagged(events);
    var s, k := Replay(events).value, settle.kind.commitmentId;
    SettleStep(Fold(events).value, settle);
    assert BookedCosts(s.purchases, k) == DebitFloor(events, k);
    hide Fold, Step, ChainOk, TagsFit, Balanced, RecordSettlement, DatedLast, DebitFloor, Tallied, BookedCosts;
    RangeIsNotEmpty(s.capital, s.purchases, k);
    SettlementAcceptedIff(tagged, s.capital, s.purchases, settle.at, k, settle.kind.debited);
  }

  lemma SettleStep(r: Replayed, settle: Event)
    requires settle.kind.CapitalSettled? && ValidateEvent(settle).Pass? && settle.id !in r.seen.events
    ensures Step(r, settle).Ok?
       <==> RecordSettlement(r.state.capital, r.state.purchases, settle.at, settle.kind.commitmentId,
                             settle.kind.debited).Ok?
  {
    hide ValidateEvent, RecordSettlement;
  }
}
