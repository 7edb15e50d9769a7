/** The venue identifiers of a journal: what the append-time scans see is what the replay tables hold. */
module VenueIds {
  import opened LedgerEvents
  import opened LedgerReplay
  import opened PurchaseChain
  import opened PurchaseHistory
  import opened DurableStore

  /** The replay tables already hold the venue identifier an event carries. */
  ghost predicate Tabled(p: Purchases, kind: EventKind) {
    || (kind.OrderRecorded? && kind.orderId in p.orders)
    || (kind.FillRecorded? && kind.fillId in p.fills)
    || (kind.FeeRecorded? && kind.feeId in p.fees)
  }

  lemma TabledIsRefused(c: Capital, p: Purchases, event: Event)
    requires Tabled(p, event.kind)
    ensures ApplyPurchase(c, p, event).Err?
  {
  }

  lemma ScanMeansTabled(events: seq<Event>, s: State, kind: EventKind)
    requires Agrees(events, s)
    ensures (exists e :: e in events && SameVenueId(e.kind, kind)) <==> Tabled(s.purchases, kind)
  {
    hide ChainOk, CommitmentIn, DecisionIn;
    var p := s.purchases;
    if e :| e in events && SameVenueId(e.kind, kind) {
      assert Recorded(e, s.capital, p);
    }
    if Tabled(p, kind) {
      if kind.OrderRecorded? {
        assert OrderIn(events, kind.orderId, p.orders[kind.orderId]);
      } else if kind.FillRecorded? {
        assert FillIn(events, kind.fillId, p.fills[kind.fillId]);
      } else {
        assert FeeIn(events, kind.feeId, p.fees[kind.feeId]);
      }
    }
  }

  /**
   * Scanning the journal for an order, fill or fee identifier finds one exactly
   * when the replayed tables hold it, so the scan and the replay never disagree.
   */
  lemma ScanAgreesWithTables(events: seq<Event>, kind: EventKind)
    requires Replay(events).Ok?
    ensures (exists e :: e in events && SameVenueId(e.kind, kind)) <==> Tabled(Replay(events).value.purchases, kind)
  {
    AlwaysAgrees(events);
    hide Agrees, Fold, Tabled, SameVenueId;
    ScanMeansTabled(events, Replay(events).value, kind);
  }

  /** An event whose venue identifier is already in the journal does not replay behind it. */
  lemma RepeatDoesNotReplay(events: seq<Event>, event: Event)
    requires Replay(events).Ok? && Replay(events + [event]).Ok?
    ensures !exists e :: e in events && SameVenueId(e.kind, event.kind)
  {
    ScanAgreesWithTables(events, event.kind);
    FoldSnoc(events, event);
    var s := Fold(events).value.state;
    if Tabled(s.purchases, event.kind) {
      TabledIsRefused(s.capital, s.purchases, event);
      hide Fold, ValidateEvent, ApplyCapital, ApplyPurchase, ApplyRuntime, SameVenueId, Tabled;
      assert false;
    }
    hide Fold, Step, SameVenueId, Tabled;
  }

  /** Every venue identifier belongs to one event of the journal. */
  lemma {:induction false} VenueIdsAreUnique(events: seq<Event>, a: Event, b: Event)
    requires Replay(events).Ok?
    requires a in events && b in events && SameVenueId(a.kind, b.kind)
    ensures a == b
  {
    hide Step;
    var front, last := events[..|events| - 1], events[|events| - 1];
    assert events == front + [last];
    assert Replay(front).Ok?;
    RepeatDoesNotReplay(front, last);
    hide Replay, Fold;
    if a in front && b in front {
      VenueIdsAreUnique(front, a, b);
    }
  }
}
