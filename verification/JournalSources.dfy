/**
 * Where the rest of the replayed state comes from: deposits from their funding
 * events, the timeline from the journal's movements of capital, and the latest cost
 * of a decision from a fill or fee.
 */
module JournalSources {
  import opened Prelude
  import opened LedgerEvents
  import opened CapitalTimeline
  import opened LedgerReplay
  import opened CapitalConservation
  import opened PurchaseChain
  import opened PurchaseHistory
  import opened JournalTotals
  import opened JournalKeys

  predicate Funds(f: Event, deposit: Id) {
    f.id == deposit && (f.kind.AuthoritativeDeposit? || f.kind.AuthoritativeParentFunding?)
  }

  /** Deposits are exactly the funding events, each at its time and amount. */
  ghost predicate DepositsTold(events: seq<Event>, c: Capital) {
    && (forall f :: f in events && Funds(f, f.id) ==>
          f.id in c.deposits && c.deposits[f.id].at == f.at && c.deposits[f.id].authoritative == f.kind.amount)
    && (forall d :: d in c.deposits ==> exists f :: f in events && Funds(f, d))
  }

  /** No event but a funding one adds a deposit, and none changes when or with what a deposit came. */
  ghost predicate DepositsMove(c: Capital, next: Capital, event: Event) {
    if Funds(event, event.id) then
      next.deposits == c.deposits[event.id := Deposit(event.at, event.kind.amount, 0, 0)]
    else
      && next.deposits.Keys == c.deposits.Keys
      && forall d :: d in c.deposits ==>
           next.deposits[d].at == c.deposits[d].at && next.deposits[d].authoritative == c.deposits[d].authoritative
  }

  lemma ReturnsKeepDeposits(c: Capital, p: Purchases, event: Event)
    requires event.kind.AuthoritativeTransferWithdrawal? && ApplyCapital(c, p, event).Ok?
    ensures DepositsMove(c, ApplyCapital(c, p, event).value, event)
  {
    hide ReturnUnadmitted, ApplyCapital, Allocated, AllocatedTo;
    TransferShape(c, p, event);
    ReturnsAreBooked(c.deposits, event.at, event.kind.unadmitted, 0);
  }

  lemma EventMovesDeposits(c: Capital, p: Purchases, event: Event)
    requires ApplyCapital(c, p, event).Ok?
    ensures DepositsMove(c, ApplyCapital(c, p, event).value, event)
  {
    hide RecordTimelineEntry, ReturnUnadmitted, LinkedDecision, RecordedCosts, NoLaterActivity;
    if event.kind.AuthoritativeTransferWithdrawal? {
      ReturnsKeepDeposits(c, p, event);
    }
  }

  lemma DepositsStep(events: seq<Event>, c: Capital, next: Capital, event: Event)
    requires DepositsTold(events, c) && DepositsMove(c, next, event) && event.id !in c.deposits
    ensures DepositsTold(events + [event], next)
  {
    assert event in events + [event] && forall e :: e in events ==> e in events + [event];
    forall f | f in events + [event] && Funds(f, f.id)
      ensures f.id in next.deposits && next.deposits[f.id].at == f.at
      ensures next.deposits[f.id].authoritative == f.kind.amount
    {
    }
  }

  /** The amount the journal commits under an identifier. */
  ghost function CommittedFor(events: seq<Event>, k: Id): u64 {
    if events == [] then 0
    else
      var last := events[|events| - 1];
      if last.kind.CapitalCommitted? && last.kind.commitmentId == k then last.kind.amount
      else CommittedFor(events[..|events| - 1], k)
  }

  lemma {:induction false} CommittedIsEvent(events: seq<Event>, k: Id, amount: u64)
    requires exists e :: e in events && e.kind.CapitalCommitted? && e.kind.commitmentId == k
    requires forall e :: e in events && e.kind.CapitalCommitted? && e.kind.commitmentId == k ==> e.kind.amount == amount
    ensures CommittedFor(events, k) == amount
  {
    var front, last := events[..|events| - 1], events[|events| - 1];
    assert last in events && forall e :: e in front ==> e in events;
    if !(last.kind.CapitalCommitted? && last.kind.commitmentId == k) {
      var e :| e in events && e.kind.CapitalCommitted? && e.kind.commitmentId == k;
      assert events == front + [last] && e in front;
      CommittedIsEvent(front, k, amount);
    }
  }

  /** The movement of capital an event makes, given the journal before it. */
  ghost function Movement(before: seq<Event>, e: Event): seq<Entry> {
    match e.kind
    case DepositAdmission(_, amount) => [Entry(e.at, amount, 0)]
    case AuthoritativeWithdrawal(amount) => [Entry(e.at, 0, amount)]
    case AuthoritativeTransferWithdrawal(unadmitted, amount, _, _) =>
      if 0 <= Allocated(unadmitted) <= amount then [Entry(e.at, 0, amount - Allocated(unadmitted))] else []
    case CapitalCommitted(_, amount) => [Entry(e.at, 0, amount)]
    case CapitalSettled(k, debited) => [Entry(e.at, CommittedFor(before, k), debited)]
    case _ => []
  }

  /** The journal's movements of capital, in the order they were recorded. */
  ghost function Movements(events: seq<Event>): seq<Entry> {
    if events == [] then []
    else Movements(events[..|events| - 1]) + Movement(events[..|events| - 1], events[|events| - 1])
  }

  ghost predicate TimelineMoves(events: seq<Event>, c: Capital, next: Capital, event: Event) {
    var move := Movement(events, event);
    next.timeline == if move == [] then c.timeline else InsertByTime(c.timeline, move[0])
  }

  lemma TransferMovesTimeline(events: seq<Event>, c: Capital, p: Purchases, event: Event)
    requires event.kind.AuthoritativeTransferWithdrawal? && ApplyCapital(c, p, event).Ok?
    ensures TimelineMoves(events, c, ApplyCapital(c, p, event).value, event)
  {
    hide ReturnUnadmitted, ApplyCapital, InsertByTime, Allocated, AllocatedTo;
    TransferShape(c, p, event);
    TransferEntry(c, p, event);
    ReturnsAreBooked(c.deposits, event.at, event.kind.unadmitted, 0);
  }

  lemma TransferEntry(c: Capital, p: Purchases, event: Event)
    requires event.kind.AuthoritativeTransferWithdrawal? && ApplyCapital(c, p, event).Ok?
    requires ReturnUnadmitted(c.deposits, event.at, event.kind.unadmitted, 0).Ok?
    ensures var back := ReturnUnadmitted(c.deposits, event.at, event.kind.unadmitted, 0).value.1;
            && back <= event.kind.amount
            && ApplyCapital(c, p, event).value.timeline
               == InsertByTime(c.timeline, Entry(event.at, 0, event.kind.amount - back))
  {
    hide ReturnUnadmitted, InsertByTime, RunTimeline;
  }

  lemma EventMovesTimeline(events: seq<Event>, c: Capital, p: Purchases, event: Event)
    requires ApplyCapital(c, p, event).Ok?
    requires forall k :: k in c.commitments ==> CommittedFor(events, k) == c.commitments[k].committed
    ensures TimelineMoves(events, c, ApplyCapital(c, p, event).value, event)
  {
    hide ReturnUnadmitted, RunTimeline, InsertByTime, LinkedDecision, RecordedCosts, NoLaterActivity, CommittedFor,
         Allocated;
    if event.kind.AuthoritativeTransferWithdrawal? {
      TransferMovesTimeline(events, c, p, event);
    }
  }

  lemma CommitmentsAgree(events: seq<Event>, s: State)
    requires Agrees(events, s)
    ensures forall k :: k in s.capital.commitments ==>
                          CommittedFor(events, k) == s.capital.commitments[k].committed
  {
    hide Agrees, CommittedFor;
    forall k | k in s.capital.commitments
      ensures CommittedFor(events, k) == s.capital.commitments[k].committed
    {
      CommitmentAgrees(events, s, k);
    }
  }

  lemma CommitmentAgrees(events: seq<Event>, s: State, k: Id)
    requires Agrees(events, s) && k in s.capital.commitments
    ensures CommittedFor(events, k) == s.capital.commitments[k].committed
  {
    hide ChainOk, DecisionIn, OrderIn, FillIn, FeeIn, CommittedFor, NoLaterActivity, CostRecorded;
    var c := s.capital;
    assert CommitmentIn(events, k, c.commitments[k]);
    forall e | e in events && e.kind.CapitalCommitted? && e.kind.commitmentId == k
      ensures e.kind.amount == c.commitments[k].committed
    {
      assert Recorded(e, c, s.purchases);
    }
    CommittedIsEvent(events, k, c.commitments[k].committed);
  }

  /** The time of a decision's latest cost is that of a fill or fee of one of its orders. */
  ghost predicate CostAt(events: seq<Event>, p: Purchases, d: Id, at: Time) {
    exists e ::
      && e in events && (e.kind.FillRecorded? || e.kind.FeeRecorded?) && e.at == at
      && e.kind.orderId in p.orders && p.orders[e.kind.orderId].decisionId == d
  }

  ghost predicate LatestCostsTold(events: seq<Event>, p: Purchases) {
    forall d :: d in p.decisions && p.decisions[d].latestCostAt.Some? ==>
                  CostAt(events, p, d, p.decisions[d].latestCostAt.value)
  }

  /** A decision keeps its latest cost, or takes that of the event, or is new and has none. */
  ghost predicate CostsMove(p: Purchases, q: Purchases, event: Event) {
    && (forall o :: o in p.orders ==> o in q.orders && q.orders[o] == p.orders[o])
    && forall d :: d in q.decisions ==>
         || q.decisions[d].latestCostAt.None?
         || (d in p.decisions && q.decisions[d].latestCostAt == p.decisions[d].latestCostAt)
         || ((event.kind.FillRecorded? || event.kind.FeeRecorded?) && q.decisions[d].latestCostAt == Some(event.at)
             && event.kind.orderId in q.orders && q.orders[event.kind.orderId].decisionId == d)
  }

  lemma CostEventMoves(c: Capital, p: Purchases, event: Event)
    requires event.kind.FillRecorded? || event.kind.FeeRecorded?
    requires ApplyPurchase(c, p, event).Ok?
    ensures CostsMove(p, ApplyPurchase(c, p, event).value, event)
  {
    hide HasUnsettledBacking;
  }

  lemma DecisionEventMoves(c: Capital, p: Purchases, event: Event)
    requires event.kind.DailyDecision? && ApplyPurchase(c, p, event).Ok?
    ensures CostsMove(p, ApplyPurchase(c, p, event).value, event)
  {
    hide DateOf;
  }

  lemma OrderEventMoves(c: Capital, p: Purchases, event: Event)
    requires event.kind.OrderRecorded? && ApplyPurchase(c, p, event).Ok?
    ensures CostsMove(p, ApplyPurchase(c, p, event).value, event)
  {
    hide HasUnsettledBacking;
  }

  lemma PurchaseEventMovesCosts(c: Capital, p: Purchases, event: Event)
    requires ApplyPurchase(c, p, event).Ok?
    ensures CostsMove(p, ApplyPurchase(c, p, event).value, event)
  {
    hide RecordDecision, RecordOrder, RecordFill, RecordFee;
    if event.kind.FillRecorded? || event.kind.FeeRecorded? {
      CostEventMoves(c, p, event);
    } else if event.kind.DailyDecision? {
      DecisionEventMoves(c, p, event);
    } else if event.kind.OrderRecorded? {
      OrderEventMoves(c, p, event);
    }
  }

  lemma CostsStep(events: seq<Event>, p: Purchases, q: Purchases, event: Event)
    requires LatestCostsTold(events, p) && CostsMove(p, q, event)
    ensures LatestCostsTold(events + [event], q)
  {
    assert event in events + [event] && forall e :: e in events ==> e in events + [event];
    forall d | d in q.decisions && q.decisions[d].latestCostAt.Some?
      ensures CostAt(events + [event], q, d, q.decisions[d].latestCostAt.value)
    {
      if d in p.decisions && q.decisions[d].latestCostAt == p.decisions[d].latestCostAt {
        assert CostAt(events, p, d, p.decisions[d].latestCostAt.value);
      }
    }
  }

  ghost predicate SourcesTold(events: seq<Event>, s: State) {
    && DepositsTold(events, s.capital)
    && s.capital.timeline == StableSort(Movements(events))
    && LatestCostsTold(events, s.purchases)
  }

  lemma MovementsSnoc(events: seq<Event>, event: Event)
    ensures Movements(events + [event]) == Movements(events) + Movement(events, event)
  {
    assert (events + [event])[..|events|] == events;
  }

  lemma TimelineStep(events: seq<Event>, c: Capital, next: Capital, event: Event)
    requires c.timeline == StableSort(Movements(events)) && TimelineMoves(events, c, next, event)
    ensures next.timeline == StableSort(Movements(events + [event]))
  {
    hide InsertByTime, Movements, Allocated, CommittedFor;
    MovementsSnoc(events, event);
    var moves, move := Movements(events), Movement(events, event);
    if move == [] {
      assert moves + move == moves;
    } else {
      assert move == [move[0]];
      assert (moves + move)[..|moves|] == moves;
    }
  }

  lemma SourcesStep(events: seq<Event>, r: Replayed, event: Event)
    requires SourcesTold(events, r.state) && Agrees(events, r.state) && Sound(r) && Step(r, event).Ok?
    ensures SourcesTold(events + [event], Step(r, event).value.state)
  {
    hide *;
    var s, next := r.state, Step(r, event).value.state;
    SourcesAre(events, s);
    StepParts(r, event);
    CommitmentsAgree(events, s);
    EventMovesDeposits(s.capital, s.purchases, event);
    DepositsStep(events, s.capital, next.capital, event);
    EventMovesTimeline(events, s.capital, s.purchases, event);
    TimelineStep(events, s.capital, next.capital, event);
    PurchaseEventMovesCosts(s.capital, s.purchases, event);
    CostsStep(events, s.purchases, next.purchases, event);
    SourcesAre(events + [event], next);
  }

  lemma SourcesAre(events: seq<Event>, s: State)
    ensures SourcesTold(events, s)
       <==> DepositsTold(events, s.capital) && s.capital.timeline == StableSort(Movements(events))
            && LatestCostsTold(events, s.purchases)
  {
    hide DepositsTold, StableSort, Movements, LatestCostsTold;
  }

  /** Every journal that replays tells its deposits, its timeline and its latest costs. */
  lemma {:induction false} SourcesAlwaysTold(events: seq<Event>)
    requires Fold(events).Ok?
    ensures SourcesTold(events, Fold(events).value.state)
  {
    hide Step, SourcesTold, Agrees, Sound;
    if events == [] {
      NoSources();
    } else {
      var front, last := events[..|events| - 1], events[|events| - 1];
      SourcesAlwaysTold(front);
      AlwaysAgrees(front);
      AlwaysBalanced(front);
      SourcesStep(front, Fold(front).value, last);
      assert events == front + [last];
    }
  }

  lemma NoSources()
    ensures SourcesTold([], EMPTY)
  {
  }
}
