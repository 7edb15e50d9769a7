/** A batch that validates in one go can be appended event by event without a refusal. */
module BatchValidation {
  import opened Prelude
  import opened LedgerEvents
  import opened LedgerReplay
  import opened HashChain
  import opened DurableStore
  import opened CrashProtocol
  import opened AppendRuns
  import opened VenueIds

  /** The journal a batch would lead to: known events are skipped, contradictions refused. */
  ghost function PlanBatch(journal: seq<Event>, batch: seq<Event>): Result<seq<Event>, LedgerError>
    decreases |batch|
  {
    if batch == [] then Ok(journal)
    else
      var event := batch[0];
      :- ValidateEvent(event);
      if exists e :: e in journal && e.id == event.id then
        :- Need(event in journal, EventCollision);
        PlanBatch(journal, batch[1..])
      else PlanBatch(journal + [event], batch[1..])
  }

  /** Batch validation: the state the planned journal replays to. */
  ghost function ValidateBatch(journal: seq<Event>, batch: seq<Event>): Result<State, LedgerError> {
    var planned :- PlanBatch(journal, batch);
    Replay(planned)
  }

  lemma {:induction false} PlanExtends(journal: seq<Event>, batch: seq<Event>)
    requires PlanBatch(journal, batch).Ok?
    ensures journal <= PlanBatch(journal, batch).value
    decreases |batch|
  {
    hide ValidateEvent;
    if batch != [] {
      var event := batch[0];
      if exists e :: e in journal && e.id == event.id {
        PlanExtends(journal, batch[1..]);
      } else {
        PlanExtends(journal + [event], batch[1..]);
      }
    }
  }

  lemma PrefixOfReplayed(a: seq<Event>, b: seq<Event>)
    requires a <= b && Replay(b).Ok?
    ensures Replay(a).Ok?
  {
    PrefixReplays(b, |a|);
    assert b[..|a|] == a;
    hide Fold;
  }

  /** One complete append. */
  ghost function AppendOne(codec: Codec, w: World, event: Event): Result<World, LedgerError> {
    var plan := AppendPlan(codec, w, event);
    if plan.outcome.Err? then Err(plan.outcome.error) else Ok(PerformAll(w, plan.writes))
  }

  /** Complete appends, one after the other. */
  ghost function AppendAll(codec: Codec, w: World, batch: seq<Event>): Result<World, LedgerError>
    decreases |batch|
  {
    if batch == [] then Ok(w)
    else
      var next :- AppendOne(codec, w, batch[0]);
      AppendAll(codec, next, batch[1..])
  }

  /** An event the journal already holds appends as a duplicate and changes nothing that counts. */
  lemma RepeatIsDuplicate(codec: Codec, w: World, event: Event)
    requires Faithful(codec) && Consistent(codec, w)
    requires ValidateEvent(event).Pass? && event in EventsOf(Committed(codec, w))
    ensures AppendPlan(codec, w, event).outcome == Ok(Duplicate)
    ensures AppendOne(codec, w, event).Ok?
    ensures Stage(codec, AppendOne(codec, w, event).value, Committed(codec, w))
    ensures AppendOne(codec, w, event).value.anchor == w.anchor
  {
    hide OpenPlan, OpenUnlocked, Consistent, Committed, AtRest, ValidateEvent, Interrupted, PerformAll,
         CommitWrites, IntentOf, Replay;
    var open := OpenPlan(codec, w);
    OpenSafe(codec, w, |open.writes|, 0);
    InterruptedAtEnd(w, open.writes, |open.writes|, 0);
  }

  /** An event that replays behind the journal appends as one more record. */
  lemma FreshIsAppended(codec: Codec, w: World, event: Event)
    requires Faithful(codec) && Consistent(codec, w)
    requires var events := EventsOf(Committed(codec, w));
             && ValidateEvent(event).Pass?
             && Replay(events).Ok? && Replay(events + [event]).Ok?
             && !exists e :: e in events && e.id == event.id
    ensures AppendPlan(codec, w, event).outcome == Ok(Appended)
    ensures AppendOne(codec, w, event).Ok?
    ensures Stage(codec, AppendOne(codec, w, event).value,
                  Committed(codec, w) + [NextRecord(Committed(codec, w), event)])
  {
    hide OpenPlan, Consistent, Committed, AtRest, ValidateEvent, CommitWrites, IntentOf, Replay, SameVenueId,
         OpenUnlocked, PerformAll, Interrupted;
    var open, records := OpenPlan(codec, w), Committed(codec, w);
    OpenSafe(codec, w, |open.writes|, 0);
    RepeatDoesNotReplay(EventsOf(records), event);
    assert FindRepeat(EventsOf(records), event) == Ok(false);
    var p := IntentOf(open.outcome.value, event, Replay(EventsOf(records) + [event]).value);
    assert AppendPlan(codec, w, event) == Plan(open.writes + CommitWrites(codec, p), Ok(Appended));
    var w1 := PerformAll(w, open.writes);
    CommitOnOpened(codec, w1, records, event, |CommitWrites(codec, p)|, 0);
    FiveWrites(codec, p);
    InterruptedAtEnd(w1, CommitWrites(codec, p), |CommitWrites(codec, p)|, 0);
    PerformConcat(w, open.writes, CommitWrites(codec, p));
  }

  lemma FiveWrites(codec: Codec, p: Pending)
    ensures |CommitWrites(codec, p)| == 5
  {
  }

  /**
   * If a batch validates, appending its events one by one never meets a refusal,
   * whether an event is new, repeated in the batch or already durable, and the
   * journal it ends with replays to exactly the state validation returned.
   */
  lemma {:induction false} ValidatedBatchAppends(codec: Codec, w: World, batch: seq<Event>)
    requires Faithful(codec) && Consistent(codec, w)
    requires ValidateBatch(EventsOf(Committed(codec, w)), batch).Ok?
    ensures AppendAll(codec, w, batch).Ok?
    ensures var after := AppendAll(codec, w, batch).value;
            Consistent(codec, after)
            && Replay(EventsOf(Committed(codec, after))) == ValidateBatch(EventsOf(Committed(codec, w)), batch)
    decreases |batch|
  {
    hide Consistent, Committed, AppendOne, AppendPlan, ValidateEvent, Replay;
    if batch != [] {
      var records, event, rest := Committed(codec, w), batch[0], batch[1..];
      var journal := EventsOf(records);
      PlanExtends(journal, batch);
      PrefixOfReplayed(journal, PlanBatch(journal, batch).value);
      if exists e :: e in journal && e.id == event.id {
        RepeatIsDuplicate(codec, w, event);
      } else {
        PlanExtends(journal + [event], rest);
        PrefixOfReplayed(journal + [event], PlanBatch(journal, batch).value);
        FreshIsAppended(codec, w, event);
        EventsOfSnoc(records, NextRecord(records, event));
      }
      hide EventsOf;
      ValidatedBatchAppends(codec, AppendOne(codec, w, event).value, rest);
    }
  }

  /** No event of the batch carries a venue identifier that another event, durable or of the batch, carries. */
  ghost predicate NoVenueRepeats(journal: seq<Event>, batch: seq<Event>) {
    forall x, e :: x in journal + batch && e in batch && SameVenueId(x.kind, e.kind) ==> x.id == e.id
  }

  /** Planning keeps every event of the journal and of the batch. */
  lemma {:induction false} PlanHoldsAll(journal: seq<Event>, batch: seq<Event>)
    requires PlanBatch(journal, batch).Ok?
    ensures forall x :: x in journal + batch ==> x in PlanBatch(journal, batch).value
    decreases |batch|
  {
    hide ValidateEvent;
    if batch != [] {
      var event, rest := batch[0], batch[1..];
      assert batch == [event] + rest;
      var next := if exists e :: e in journal && e.id == event.id then journal else journal + [event];
      PlanHoldsAll(next, rest);
    }
  }

  lemma ValidatedHasNoRepeats(journal: seq<Event>, batch: seq<Event>)
    requires ValidateBatch(journal, batch).Ok?
    ensures NoVenueRepeats(journal, batch)
  {
    hide Replay, SameVenueId;
    PlanHoldsAll(journal, batch);
    var planned := PlanBatch(journal, batch).value;
    forall x, e | x in journal + batch && e in batch && SameVenueId(x.kind, e.kind)
      ensures x.id == e.id
    {
      VenueIdsAreUnique(planned, x, e);
    }
  }

  lemma RestHasNoRepeats(journal: seq<Event>, batch: seq<Event>, next: seq<Event>)
    requires batch != [] && NoVenueRepeats(journal, batch)
    requires next == journal || next == journal + [batch[0]]
    ensures NoVenueRepeats(next, batch[1..])
  {
    hide SameVenueId;
    assert batch == [batch[0]] + batch[1..];
    assert forall x :: x in next + batch[1..] ==> x in journal + batch;
  }

  /** An accepted append of an event that shares no venue identifier: it is known, or new and replays. */
  lemma AcceptedAppend(codec: Codec, w: World, event: Event)
    requires Faithful(codec) && Consistent(codec, w) && AppendOne(codec, w, event).Ok?
    requires forall x :: x in EventsOf(Committed(codec, w)) && SameVenueId(x.kind, event.kind) ==> x.id == event.id
    ensures ValidateEvent(event).Pass?
    ensures var journal := EventsOf(Committed(codec, w));
            if exists e :: e in journal && e.id == event.id then event in journal
            else Replay(journal).Ok? && Replay(journal + [event]).Ok?
  {
    hide OpenPlan, OpenUnlocked, Consistent, Committed, AtRest, ValidateEvent, Interrupted, PerformAll,
         CommitWrites, IntentOf, Replay, SameVenueId;
    OpenSafe(codec, w, 0, 0);
    ConsistentReplays(codec, w);
  }

  lemma ConsistentReplays(codec: Codec, w: World)
    requires Faithful(codec) && Consistent(codec, w)
    ensures Replay(EventsOf(Committed(codec, w))).Ok?
  {
    hide OpenPlan, OpenUnlocked, Consistent, Committed, Replay, Load, PerformAll, Interrupted;
    OpenSafe(codec, w, 0, 0);
  }

  /**
   * Validation accepts a batch exactly when its events can be appended one by one
   * and none of them repeats the order, fill or fee identifier of another event. A
   * repeat under a new event identifier is the one thing append takes, as a
   * duplicate, and validation refuses.
   */
  lemma {:induction false} BatchValidatesIff(codec: Codec, w: World, batch: seq<Event>)
    requires Faithful(codec) && Consistent(codec, w)
    ensures var journal := EventsOf(Committed(codec, w));
            ValidateBatch(journal, batch).Ok? <==> AppendAll(codec, w, batch).Ok? && NoVenueRepeats(journal, batch)
    decreases |batch|
  {
    hide Consistent, Committed, AppendOne, AppendPlan, ValidateEvent, Replay, NoVenueRepeats, EventsOf;
    var journal := EventsOf(Committed(codec, w));
    if ValidateBatch(journal, batch).Ok? {
      ValidatedBatchAppends(codec, w, batch);
      ValidatedHasNoRepeats(journal, batch);
    } else if AppendAll(codec, w, batch).Ok? && NoVenueRepeats(journal, batch) {
      AppendedBatchValidates(codec, w, batch);
      assert false;
    }
  }

  lemma {:induction false} AppendedBatchValidates(codec: Codec, w: World, batch: seq<Event>)
    requires Faithful(codec) && Consistent(codec, w)
    requires AppendAll(codec, w, batch).Ok? && NoVenueRepeats(EventsOf(Committed(codec, w)), batch)
    ensures ValidateBatch(EventsOf(Committed(codec, w)), batch).Ok?
    decreases |batch|
  {
    hide Consistent, Committed, AppendOne, AppendPlan, ValidateEvent, Replay, NoVenueRepeats, EventsOf;
    var records := Committed(codec, w);
    var journal := EventsOf(records);
    if batch == [] {
      ConsistentReplays(codec, w);
    } else {
      var event, rest := batch[0], batch[1..];
      FirstHasNoRepeats(journal, batch);
      AcceptedAppend(codec, w, event);
      if exists e :: e in journal && e.id == event.id {
        RepeatIsDuplicate(codec, w, event);
        RestHasNoRepeats(journal, batch, journal);
      } else {
        FreshIsAppended(codec, w, event);
        EventsOfSnoc(records, NextRecord(records, event));
        RestHasNoRepeats(journal, batch, journal + [event]);
      }
      AppendedBatchValidates(codec, AppendOne(codec, w, event).value, rest);
    }
  }

  lemma FirstHasNoRepeats(journal: seq<Event>, batch: seq<Event>)
    requires batch != [] && NoVenueRepeats(journal, batch)
    ensures forall x :: x in journal && SameVenueId(x.kind, batch[0].kind) ==> x.id == batch[0].id
  {
    hide SameVenueId;
    assert forall x :: x in journal ==> x in journal + batch;
  }

  /** One fill of one order, recorded under two event identifiers. */
  lemma VenueRepeatIsRefused(codec: Codec, w: World, event: Event, again: Event)
    requires Faithful(codec) && Consistent(codec, w)
    requires event in EventsOf(Committed(codec, w)) && ValidateEvent(again).Pass?
    requires again.at == event.at && again.kind == event.kind && SameVenueId(event.kind, again.kind)
    requires forall e :: e in EventsOf(Committed(codec, w)) ==> e.id != again.id
    ensures AppendPlan(codec, w, again).outcome == Ok(Duplicate)
    ensures ValidateBatch(EventsOf(Committed(codec, w)), [again]).Err?
  {
    hide OpenPlan, OpenUnlocked, Consistent, Committed, AtRest, ValidateEvent, Interrupted, PerformAll, CommitWrites,
         IntentOf, Replay, SameVenueId;
    OpenSafe(codec, w, 0, 0);
    var journal := EventsOf(Committed(codec, w));
    assert event in journal + [again] && again in [again];
    if ValidateBatch(journal, [again]).Ok? {
      ValidatedHasNoRepeats(journal, [again]);
    }
  }
}
