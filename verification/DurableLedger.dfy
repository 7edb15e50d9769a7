/** The ledger handle: its in-memory records, index, state and anchor, and the methods that keep them in step. */
module DurableLedgers {
  import opened Prelude
  import opened LedgerEvents
  import opened LedgerReplay
  import opened HashChain
  import opened DurableStore
  import opened DurableMedium
  import opened CrashProtocol
  import opened AppendRuns
  import opened BatchValidation
  import opened VenueIds
  import opened ReplayMachine

  /** The index holds every event of the journal under its identifier, and nothing else. */
  ghost predicate Indexes(index: map<Id, Event>, events: seq<Event>) {
    && (forall e :: e in events ==> e.id in index && index[e.id] == e)
    && (forall id :: id in index ==> index[id] in events && index[id].id == id)
  }

  lemma IndexSnoc(index: map<Id, Event>, events: seq<Event>, event: Event)
    requires Indexes(index, events) && event.id !in index
    ensures Indexes(index[event.id := event], events + [event])
  {
    assert forall e :: e in events + [event] <==> e in events || e == event;
  }

  /** Creating a missing journal file and opening. */
  ghost function OpenUnlockedPlan(codec: Codec, w: World): Plan<Opened> {
    var create := if w.disk.journal.None? then [SetJournal([])] else [];
    Plan(create, OpenUnlocked(codec, PerformAll(w, create)))
  }

  /** What follows the anchor move of an append. */
  ghost function PublishPlan(codec: Codec, record: Record, snapshot: Snapshot): Plan<AppendOutcome> {
    Plan([AppendJournal(Line(codec, record)), SetSnapshot(snapshot), ClearPending], Ok(Appended))
  }

  /** What follows the opening of an append. */
  ghost function RecordPlan(codec: Codec, o: Opened, event: Event): Plan<AppendOutcome> {
    var events := EventsOf(o.records);
    var repeat := FindRepeat(events, event);
    if repeat.Err? then Plan([], Err(repeat.error))
    else if repeat.value then Plan([], Ok(Duplicate))
    else
      var next := Replay(events + [event]);
      if next.Err? then Plan([], Err(next.error))
      else Plan(CommitWrites(codec, IntentOf(o, event, next.value)), Ok(Appended))
  }

  /** The check that what a handle shows is still what the directory and the anchor hold. */
  ghost function StillCurrent(codec: Codec, w: World, o: Opened): Outcome<LedgerError> {
    var loaded := Load(codec, Payload(w));
    if loaded.Err? then Fail(loaded.error)
    else if |Payload(w)| != o.fileLen || loaded.value != o.records || w.anchor != o.anchor then
      Fail(ConcurrentModification)
    else if ValidateAnchor(w.anchor, loaded.value).Fail? then Fail(ValidateAnchor(w.anchor, loaded.value).error)
    else ValidateCurrentSnapshot(w, loaded.value)
  }

  /** A handle is current right after opening. */
  lemma OpenedIsCurrent(codec: Codec, w: World, o: Opened)
    requires OpenUnlocked(codec, w) == Ok(o)
    ensures StillCurrent(codec, w, o).Pass?
  {
    hide Load, Replay;
  }

  method SnapshotIsCurrent(w: World, records: seq<Record>, state: State) returns (valid: Outcome<LedgerError>)
    requires Replay(EventsOf(records)) == Ok(state)
    ensures valid == ValidateCurrentSnapshot(w, records)
  {
    hide Replay;
    if w.disk.snapshot.None? {
      return Need(|records| == 0, MissingSnapshot);
    }
    var s := w.disk.snapshot.value;
    if s.version != LEDGER_SCHEMA_VERSION {
      return Fail(SnapshotMismatch);
    }
    if s.count > |records| {
      return Fail(TruncatedLedger);
    }
    if s.count < |records| {
      return Fail(StaleSnapshot);
    }
    return Need(s.head == Head(records) && s.state == state, SnapshotMismatch);
  }

  /** Recovery of a pending append. */
  method RecoverPending(codec: Codec, m: Medium) returns (r: Result<bool, Failure>)
    modifies m
    ensures Ran(RecoverPlan(codec, old(m.world)), old(m.world), old(m.fuse), m.torn, m.lostReply, m.world, m.fuse, r)
  {
    hide Load, Replay, WellFormedPending, Line, Indexes;
    var w := m.world;
    if w.disk.pending.None? {
      return Ok(false);
    }
    var p, payload := w.disk.pending.value, Payload(w);
    if !WellFormedPending(p) {
      return Err(Failed(CorruptPending));
    }
    if |payload| < p.priorLen {
      return Err(Failed(TruncatedLedger));
    }
    var base, tail := payload[..p.priorLen], payload[p.priorLen..];
    var loaded := LoadRecords(codec, base);
    if loaded.Err? {
      return Err(Failed(loaded.error));
    }
    var prior, line := loaded.value, Line(codec, p.record);
    if |prior| != p.priorCount || Head(prior) != p.priorHead || !(tail <= line) {
      return Err(Failed(CorruptPending));
    }
    var writes: seq<Write>;
    var replaced := true;
    if w.anchor == AnchorFor(prior) {
      replaced := tail != [];
      writes := if replaced then [SetJournal(base)] else [];
      if prior == [] {
        writes := writes + [DropSnapshot, ClearPending];
      } else {
        var state := ReplayJournal(EventsOf(prior));
        if state.Err? {
          var did := m.DoAll(writes);
          return Err(if did then Failed(state.error) else Stopped);
        }
        var s := Snapshot(LEDGER_SCHEMA_VERSION, |prior|, Head(prior), state.value);
        writes := writes + [SetSnapshot(s), ClearPending];
      }
    } else {
      if w.anchor != Some(AnchorOf(p.snapshot)) {
        return Err(Failed(ProtectedAnchorMismatch));
      }
      var records := prior + [p.record];
      var state := ReplayJournal(EventsOf(records));
      if p.snapshot.version != LEDGER_SCHEMA_VERSION {
        return Err(Failed(SnapshotMismatch));
      }
      if p.snapshot.count > |records| {
        return Err(Failed(TruncatedLedger));
      }
      if p.snapshot.count < |records| {
        return Err(Failed(StaleSnapshot));
      }
      if p.snapshot.head != Head(records) {
        return Err(Failed(SnapshotMismatch));
      }
      if state.Err? {
        return Err(Failed(state.error));
      }
      if state.value != p.snapshot.state {
        return Err(Failed(SnapshotMismatch));
      }
      var s := Snapshot(LEDGER_SCHEMA_VERSION, |records|, Head(records), state.value);
      writes := [SetJournal(base + line), SetSnapshot(s), ClearPending];
    }
    assert RecoverPlan(codec, old(m.world)) == Plan(writes, Ok(replaced));
    hide RecoverPlan;
    var did := m.DoAll(writes);
    if !did {
      return Err(Stopped);
    }
    return Ok(replaced);
  }

  class DurableLedger {
    const codec: Codec
    const medium: Medium
    var anchor: Option<Anchor>
    var records: seq<Record>
    var eventsById: map<Id, Event>
    var state: State
    var fileLen: nat

    /** The state is the replay of the records, and the index holds exactly their events. */
    ghost predicate Valid()
      reads this
    {
      && Replay(EventsOf(records)) == Ok(state)
      && Indexes(eventsById, EventsOf(records))
    }

    constructor Empty(codec: Codec, medium: Medium)
      ensures Valid() && this.codec == codec && this.medium == medium && records == []
    {
      this.codec := codec;
      this.medium := medium;
      anchor := None;
      records := [];
      eventsById := map[];
      state := EMPTY;
      fileLen := 0;
      new;
      assert EventsOf([]) == [];
    }

    /** Builds the index the handle keeps. */
    method BuildIndex(events: seq<Event>) returns (index: map<Id, Event>)
      requires Replay(events).Ok?
      ensures Indexes(index, events)
    {
      hide Fold;
      SeenIsEventIds(events);
      index := map[];
      var i := 0;
      while i < |events|
        invariant 0 <= i <= |events|
        invariant Indexes(index, events[..i])
      {
        assert events[i].id !in index;
        IndexSnoc(index, events[..i], events[i]);
        assert events[..i] + [events[i]] == events[..i + 1];
        index := index[events[i].id := events[i]];
        i := i + 1;
      }
      assert events[..i] == events;
    }

    /** Reads the directory afresh; on failure the handle keeps what it had. */
    method Reopen() returns (r: Result<(), Failure>)
      requires Valid()
      modifies this, medium
      ensures Valid()
      ensures Ran(OpenUnlockedPlan(codec, old(medium.world)), old(medium.world), old(medium.fuse), medium.torn,
                  medium.lostReply, medium.world, medium.fuse,
                  if r.Ok? then Ok(Opened(records, state, anchor, fileLen)) else Err(r.error))
      ensures r.Err? ==> unchanged(this)
    {
      hide Replay, Load, Indexes;
      if medium.world.disk.journal.None? {
        var did := medium.DoAll([SetJournal([])]);
        if !did {
          return Err(Stopped);
        }
      }
      var w := medium.world;
      var loaded := LoadRecords(codec, Payload(w));
      if loaded.Err? {
        return Err(Failed(loaded.error));
      }
      var valid := ValidateAnchor(w.anchor, loaded.value);
      if valid.Fail? {
        return Err(Failed(valid.error));
      }
      var replayed := ReplayJournal(EventsOf(loaded.value));
      if replayed.Err? {
        return Err(Failed(replayed.error));
      }
      var current := SnapshotIsCurrent(w, loaded.value, replayed.value);
      if current.Fail? {
        return Err(Failed(current.error));
      }
      var index := BuildIndex(EventsOf(loaded.value));
      anchor := w.anchor;
      records := loaded.value;
      eventsById := index;
      state := replayed.value;
      fileLen := |Payload(w)|;
      return Ok(());
    }

    /** Recovery, then a fresh read. */
    method RecoverAndReopen() returns (r: Result<(), Failure>)
      requires Valid()
      modifies this, medium
      ensures Valid()
      ensures Ran(OpenPlan(codec, old(medium.world)), old(medium.world), old(medium.fuse), medium.torn,
                  medium.lostReply, medium.world, medium.fuse,
                  if r.Ok? then Ok(Opened(records, state, anchor, fileLen)) else Err(r.error))
      ensures r.Err? ==> unchanged(this)
    {
      ghost var w, fuse := medium.world, medium.fuse;
      ghost var recovery := RecoverPlan(codec, w);
      ghost var rest := OpenUnlockedPlan(codec, PerformAll(w, recovery.writes));
      OpenIsRecoverThenRead(codec, w);
      hide OpenPlan, RecoverPlan, OpenUnlockedPlan, PerformAll, StoppedAt, Indexes, Replay, Then;
      var recovered := RecoverPending(codec, medium);
      ghost var mid, midFuse := medium.world, medium.fuse;
      if recovered.Err? {
        r := Err(recovered.error);
      } else {
        r := Reopen();
      }
      hide Ran;
      RanThen(recovery, rest, w, fuse, medium.torn, medium.lostReply, mid, midFuse, recovered, medium.world,
              medium.fuse, if r.Ok? then Ok(Opened(records, state, anchor, fileLen)) else Err(r.error));
    }

    /** Whether the event repeats a durable one, by its own or by its venue identifier. */
    method RepeatOf(event: Event) returns (r: Result<bool, LedgerError>)
      requires Valid()
      ensures r == FindRepeat(EventsOf(records), event)
    {
      hide Replay, SameVenueId;
      if event.id in eventsById {
        assert eventsById[event.id] in EventsOf(records);
        return if eventsById[event.id] == event then Ok(true) else Err(EventCollision);
      }
      var todo := eventsById.Keys;
      while todo != {}
        invariant todo <= eventsById.Keys
        invariant forall e :: e in EventsOf(records) && e.id !in todo ==> !SameVenueId(e.kind, event.kind)
        decreases todo
      {
        var id :| id in todo;
        var e := eventsById[id];
        if SameVenueId(e.kind, event.kind) {
          forall f | f in EventsOf(records) && SameVenueId(f.kind, event.kind)
            ensures f == e
          {
            SameVenueIdJoins(e.kind, f.kind, event.kind);
            VenueIdsAreUnique(EventsOf(records), e, f);
          }
          return if e.at == event.at && e.kind == event.kind then Ok(true) else Err(VenueCollision(event.kind));
        }
        todo := todo - {id};
      }
      return Ok(false);
    }

    /**
     * Appends one event. Whatever happens, the handle stays valid; once the anchor
     * move was confirmed the handle shows the new record, even if a later write fails.
     */
    method Append(event: Event) returns (r: Result<AppendOutcome, Failure>)
      requires Valid()
      modifies this, medium
      ensures Valid()
      ensures r == Ok(Appended) ==>
                records != [] && records[|records| - 1] == NextRecord(records[..|records| - 1], event)
                && anchor == AnchorFor(records)
      ensures r == Ok(Duplicate) ==> Repeated(EventsOf(records), event)
      ensures Ran(AppendPlan(codec, old(medium.world), event), old(medium.world), old(medium.fuse), medium.torn,
                  medium.lostReply, medium.world, medium.fuse, r)
    {
      var valid := ValidateEvent(event);
      if valid.Fail? {
        return Err(Failed(valid.error));
      }
      ghost var w, fuse := medium.world, medium.fuse;
      ghost var open := OpenPlan(codec, w);
      AppendIsOpenThenRecord(codec, w, event);
      hide OpenPlan, AppendPlan, ValidateEvent, RecordPlan, Replay, Indexes, Then, PerformAll, StoppedAt, Repeated,
           NextRecord, AnchorFor, EventsOf;
      var ready := RecoverAndReopen();
      ghost var mid, midFuse := medium.world, medium.fuse;
      ghost var shown := Opened(records, state, anchor, fileLen);
      if ready.Err? {
        r := Err(ready.error);
      } else {
        r := AppendOpened(event);
      }
      ghost var rest :=
        if open.outcome.Ok? then RecordPlan(codec, open.outcome.value, event) else Plan([], Ok(Duplicate));
      assert ready.Ok? ==> open.outcome == Ok(shown);
      hide Ran;
      RanThen(open, rest, w, fuse, medium.torn, medium.lostReply, mid, midFuse,
              if ready.Ok? then Ok(shown) else Err(ready.error), medium.world, medium.fuse, r);
    }

    /** The part of an append that follows opening. */
    method AppendOpened(event: Event) returns (r: Result<AppendOutcome, Failure>)
      requires Valid()
      modifies this, medium
      ensures Valid()
      ensures r == Ok(Appended) ==>
                records == old(records) + [NextRecord(old(records), event)] && anchor == AnchorFor(records)
      ensures r == Ok(Duplicate) ==> Repeated(EventsOf(records), event)
      ensures Ran(RecordPlan(codec, old(Opened(records, state, anchor, fileLen)), event), old(medium.world),
                  old(medium.fuse), medium.torn, medium.lostReply, medium.world, medium.fuse, r)
    {
      hide Replay, Indexes, FindRepeat, CommitWrites, IntentOf;
      var repeat := RepeatOf(event);
      if repeat.Err? {
        return Err(Failed(repeat.error));
      }
      if repeat.value {
        RepeatMeans(EventsOf(records), event);
        return Ok(Duplicate);
      }
      var next := ReplayJournal(EventsOf(records) + [event]);
      if next.Err? {
        return Err(Failed(next.error));
      }
      hide Repeated;
      r := Commit(event, next.value);
    }

    /** The durable steps of an append, with the handle updated between the anchor move and the journal write. */
    method Commit(event: Event, next: State) returns (r: Result<AppendOutcome, Failure>)
      requires Valid()
      requires Replay(EventsOf(records) + [event]) == Ok(next)
      modifies this, medium
      ensures Valid()
      ensures Ran(Plan(CommitWrites(codec, IntentOf(old(Opened(records, state, anchor, fileLen)), event, next)),
                       Ok(Appended)),
                  old(medium.world), old(medium.fuse), medium.torn, medium.lostReply, medium.world, medium.fuse, r)
      ensures old(medium.fuse) >= 2 ==>
                records == old(records) + [NextRecord(old(records), event)] && anchor == AnchorFor(records)
      ensures old(medium.fuse) < 2 ==> unchanged(this)
      ensures r != Ok(Duplicate) && (r == Ok(Appended) ==> old(medium.fuse) >= 2)
    {
      hide Replay, Indexes, EventsOf, PerformAll, StoppedAt, Then, CommitWrites, NextRecord, IntentOf, AnchorFor,
           AnchorOf;
      ghost var w, fuse := medium.world, medium.fuse;
      var pending := IntentOf(Opened(records, state, anchor, fileLen), event, next);
      ghost var first := Plan([SetPending(pending), MoveAnchor(AnchorOf(pending.snapshot))], Ok(()));
      CommitIsTwoParts(codec, pending);
      var anchored := medium.DoAll([SetPending(pending), MoveAnchor(AnchorOf(pending.snapshot))]);
      ghost var mid, midFuse := medium.world, medium.fuse;
      if !anchored {
        r := Err(Stopped);
      } else {
        Show(event, next, pending);
        r := Publish(pending.record, pending.snapshot);
      }
      hide Ran;
      RanThen(first, PublishPlan(codec, pending.record, pending.snapshot), w, fuse, medium.torn, medium.lostReply,
              mid, midFuse, if anchored then Ok(()) else Err(Stopped), medium.world, medium.fuse, r);
    }

    /** The in-memory half of an append, done once the anchor has moved. */
    method Show(event: Event, next: State, p: Pending)
      requires Valid()
      requires Replay(EventsOf(records) + [event]) == Ok(next)
      requires p == IntentOf(Opened(records, state, anchor, fileLen), event, next)
      modifies this`records, this`eventsById, this`state, this`anchor
      ensures Valid()
      ensures records == old(records) + [NextRecord(old(records), event)] && anchor == AnchorFor(records)
    {
      hide Replay, Indexes, EventsOf, AnchorFor;
      OneMoreRecord(records, eventsById, p.record);
      eventsById := eventsById[event.id := event];
      records := records + [p.record];
      state := next;
      anchor := Some(AnchorOf(p.snapshot));
    }

    /** The steps behind the anchor move: the journal line, the snapshot, and dropping the intent. */
    method Publish(record: Record, snapshot: Snapshot) returns (r: Result<AppendOutcome, Failure>)
      modifies this`fileLen, medium
      ensures Ran(PublishPlan(codec, record, snapshot), old(medium.world), old(medium.fuse), medium.torn,
                  medium.lostReply, medium.world, medium.fuse, r)
      ensures r != Ok(Duplicate)
    {
      ghost var w, fuse := medium.world, medium.fuse;
      var line := Line(codec, record);
      hide Line, PerformAll, StoppedAt;
      var written := medium.DoAll([AppendJournal(line)]);
      ghost var mid, midFuse := medium.world, medium.fuse;
      if !written {
        r := Err(Stopped);
      } else {
        fileLen := fileLen + |line|;
        var finished := medium.DoAll([SetSnapshot(snapshot), ClearPending]);
        r := if finished then Ok(Appended) else Err(Stopped);
      }
      assert [AppendJournal(line)] + [SetSnapshot(snapshot), ClearPending]
          == PublishPlan(codec, record, snapshot).writes;
      RanThen(Plan([AppendJournal(line)], Ok(())), Plan([SetSnapshot(snapshot), ClearPending], Ok(Appended)), w, fuse,
              medium.torn, medium.lostReply, mid, midFuse, if written then Ok(()) else Err(Stopped),
              medium.world, medium.fuse, r);
    }

    method EnsureCurrent() returns (current: Outcome<LedgerError>)
      requires Valid()
      ensures current == StillCurrent(codec, medium.world, Opened(records, state, anchor, fileLen))
    {
      hide Load, Replay, Indexes;
      var w := medium.world;
      var loaded := LoadRecords(codec, Payload(w));
      if loaded.Err? {
        return Fail(loaded.error);
      }
      if |Payload(w)| != fileLen || loaded.value != records || w.anchor != anchor {
        return Fail(ConcurrentModification);
      }
      var valid := ValidateAnchor(w.anchor, loaded.value);
      if valid.Fail? {
        return Fail(valid.error);
      }
      current := SnapshotIsCurrent(w, loaded.value, state);
    }

    /**
     * Validates a planned batch against the handle without writing anything. If it
     * passes, appending the events one by one is never refused and ends in the
     * returned state.
     */
    method ValidateAppendBatch(batch: seq<Event>) returns (r: Result<State, LedgerError>)
      requires Valid()
      ensures var current := StillCurrent(codec, medium.world, Opened(records, state, anchor, fileLen));
              r == if current.Fail? then Err(current.error) else ValidateBatch(EventsOf(records), batch)
      ensures r.Ok? && Faithful(codec) && Consistent(codec, medium.world) ==>
                var appended := AppendAll(codec, medium.world, batch);
                appended.Ok? && Replay(EventsOf(Committed(codec, appended.value))) == r
    {
      r := ValidateCurrentBatch(batch);
      hide *;
      if r.Ok? && Faithful(codec) && Consistent(codec, medium.world) {
        ValidatedByHandle(codec, medium.world, Opened(records, state, anchor, fileLen), batch);
      }
    }

    method ValidateCurrentBatch(batch: seq<Event>) returns (r: Result<State, LedgerError>)
      requires Valid()
      ensures var current := StillCurrent(codec, medium.world, Opened(records, state, anchor, fileLen));
              r == if current.Fail? then Err(current.error) else ValidateBatch(EventsOf(records), batch)
    {
      hide StillCurrent;
      var current := EnsureCurrent();
      if current.Fail? {
        return Err(current.error);
      }
      hide Replay, ValidateEvent;
      var known, planned := eventsById, EventsOf(records);
      var i := 0;
      while i < |batch|
        invariant 0 <= i <= |batch|
        invariant Indexes(known, planned)
        invariant PlanBatch(EventsOf(records), batch) == PlanBatch(planned, batch[i..])
      {
        var event := batch[i];
        assert batch[i..][0] == event && batch[i..][1..] == batch[i + 1..];
        var valid := ValidateEvent(event);
        if valid.Fail? {
          return Err(valid.error);
        }
        if event.id in known {
          if known[event.id] != event {
            return Err(EventCollision);
          }
        } else {
          IndexSnoc(known, planned, event);
          known := known[event.id := event];
          planned := planned + [event];
        }
        i := i + 1;
      }
      r := ReplayJournal(planned);
    }
  }

  /** The journal holds the event, or one with the same venue identifier, time and content. */
  ghost predicate Repeated(events: seq<Event>, event: Event) {
    || event in events
    || exists e :: e in events && e.at == event.at && e.kind == event.kind && SameVenueId(e.kind, event.kind)
  }

  lemma RepeatMeans(events: seq<Event>, event: Event)
    requires FindRepeat(events, event) == Ok(true)
    ensures Repeated(events, event)
  {
    hide SameVenueId;
  }

  /** A current handle shows a chain that the anchor vouches for, the one the journal holds. */
  lemma CurrentIsAnchored(codec: Codec, w: World, o: Opened)
    requires StillCurrent(codec, w, o).Pass?
    ensures Load(codec, Payload(w)) == Ok(o.records) && Chained(o.records) && w.anchor == AnchorFor(o.records)
  {
    LoadedIsChained(codec, Payload(w), []);
    hide LoadFrom, ValidateCurrentSnapshot, Chained;
  }

  /** What counts in a consistent directory is a chain that the anchor vouches for. */
  lemma CommittedIsAnchored(codec: Codec, w: World)
    requires Consistent(codec, w)
    ensures Chained(Committed(codec, w)) && w.anchor == AnchorFor(Committed(codec, w))
    ensures w.disk.pending.None? ==> Load(codec, Payload(w)) == Ok(Committed(codec, w))
  {
    var prior := RecordsAt(codec, BaseOf(w));
    hide LoadFrom, SnapshotFor, Line;
    if w.disk.pending.None? {
      LoadedIsChained(codec, Payload(w), []);
    } else {
      var p := w.disk.pending.value;
      assert IntentFor(codec, p, BaseOf(w), prior);
      LoadedIsChained(codec, BaseOf(w), []);
      ChainedSnoc(prior, p.record);
      hide Load, Chained, Continues, IntentFor, AnchorFor;
    }
  }

  /** What a current handle of a consistent directory shows is what counts. */
  lemma CurrentIsCommitted(codec: Codec, w: World, o: Opened)
    requires Consistent(codec, w) && StillCurrent(codec, w, o).Pass?
    ensures o.records == Committed(codec, w)
  {
    hide *;
    CurrentIsAnchored(codec, w, o);
    CommittedIsAnchored(codec, w);
    SameAnchor(o.records, Committed(codec, w));
  }

  lemma SameAnchor(a: seq<Record>, b: seq<Record>)
    requires Chained(a) && Chained(b) && AnchorFor(a) == AnchorFor(b)
    ensures a == b
  {
    hide Chained;
    HeadDeterminesChain(a, b);
  }

  /** So a batch validated by a current handle appends event by event and ends in the validated state. */
  lemma ValidatedByHandle(codec: Codec, w: World, o: Opened, batch: seq<Event>)
    requires Faithful(codec) && Consistent(codec, w) && StillCurrent(codec, w, o).Pass?
    requires ValidateBatch(EventsOf(o.records), batch).Ok?
    ensures AppendAll(codec, w, batch).Ok?
    ensures var after := AppendAll(codec, w, batch).value;
            Consistent(codec, after)
            && Replay(EventsOf(Committed(codec, after))) == ValidateBatch(EventsOf(o.records), batch)
  {
    hide *;
    CurrentIsCommitted(codec, w, o);
    ValidatedBatchAppends(codec, w, batch);
  }

  lemma OpenIsRecoverThenRead(codec: Codec, w: World)
    ensures var recovery := RecoverPlan(codec, w);
            var rest := OpenUnlockedPlan(codec, PerformAll(w, recovery.writes));
            OpenPlan(codec, w) == Then(recovery, rest)
  {
    hide RecoverPlan, OpenUnlocked, PerformAll;
  }

  lemma SameVenueIdJoins(a: EventKind, b: EventKind, c: EventKind)
    requires SameVenueId(a, c) && SameVenueId(b, c)
    ensures SameVenueId(a, b)
  {
  }

  /** An event that replays behind the journal is not in its index yet. */
  lemma FreshInIndex(index: map<Id, Event>, events: seq<Event>, event: Event)
    requires Indexes(index, events) && Replay(events + [event]).Ok?
    ensures event.id !in index
  {
    assert forall id :: id in index ==> id in EventIds(events);
    FoldSnoc(events, event);
    SeenIsEventIds(events);
    hide Fold, ApplyEvent, ValidateEvent;
  }

  lemma OneMoreRecord(records: seq<Record>, index: map<Id, Event>, record: Record)
    requires Indexes(index, EventsOf(records)) && Replay(EventsOf(records) + [record.event]).Ok?
    ensures EventsOf(records + [record]) == EventsOf(records) + [record.event]
    ensures Indexes(index[record.event.id := record.event], EventsOf(records + [record]))
    ensures AnchorFor(records + [record]) == Some(Anchor(ANCHOR_SCHEMA_VERSION, |records| + 1, record.hash))
  {
    EventsOfSnoc(records, record);
    hide EventsOf, Replay, Indexes;
    FreshInIndex(index, EventsOf(records), record.event);
    IndexSnoc(index, EventsOf(records), record.event);
  }

  /** The five steps split where the handle is updated. */
  lemma CommitIsTwoParts(codec: Codec, p: Pending)
    ensures Then(Plan([SetPending(p), MoveAnchor(AnchorOf(p.snapshot))], Ok(())),
                 PublishPlan(codec, p.record, p.snapshot))
         == Plan(CommitWrites(codec, p), Ok(Appended))
  {
    hide Line;
  }

  lemma AppendIsOpenThenRecord(codec: Codec, w: World, event: Event)
    requires ValidateEvent(event).Pass?
    ensures var open := OpenPlan(codec, w);
            AppendPlan(codec, w, event) ==
            if open.outcome.Err? then Plan(open.writes, Err(open.outcome.error))
            else Then(open, RecordPlan(codec, open.outcome.value, event))
  {
    hide OpenPlan, ValidateEvent, Replay, FindRepeat, CommitWrites, IntentOf;
    var open := OpenPlan(codec, w);
    assert open.writes + [] == open.writes;
  }

  /** So running the append method on a consistent directory is crash-atomic, wherever the medium gives out. */
  lemma RunningAppendIsAtomic(
    codec: Codec, w: World, event: Event, fuse: nat, torn: nat, lostReply: bool, after: World, left: nat,
    r: Result<AppendOutcome, Failure>)
    requires Faithful(codec) && Consistent(codec, w)
    requires Ran(AppendPlan(codec, w, event), w, fuse, torn, lostReply, after, left, r)
    ensures AtomicAppend(codec, w, after, event)
  {
    var writes := AppendPlan(codec, w, event).writes;
    hide AppendPlan, Consistent, AtomicAppend, PerformAll, StoppedAt, Interrupted;
    var done, rest := StopIsACut(w, writes, fuse, torn, lostReply);
    AppendIsCrashAtomic(codec, w, event, done, rest);
    AppendIsCrashAtomic(codec, w, event, |writes|, rest);
    InterruptedAtEnd(w, writes, |writes|, rest);
  }
}
