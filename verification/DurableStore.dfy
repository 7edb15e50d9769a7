/**
 * What survives a crash: the ledger directory and the separately protected head
 * anchor, the durable writes that change them, and what opening, recovery and
 * append read and write.
 */
module DurableStore {
  import opened Prelude
  import opened LedgerEvents
  import opened LedgerReplay
  import opened HashChain

  const PENDING_SCHEMA_VERSION: nat := 2

  datatype Snapshot = Snapshot(version: nat, count: nat, head: Hash, state: State)

  /** The write-ahead intent of one append. */
  datatype Pending = Pending(
    version: nat, priorLen: nat, priorCount: nat, priorHead: Hash, record: Record, snapshot: Snapshot)

  /** The intent of one restore; the payloads stand for their digests. */
  datatype Intent = Intent(ledger: seq<byte>, snapshot: Snapshot, count: nat, head: Hash)

  /** A ledger directory. `foreign` says whether it holds an entry the ledger does not know. */
  datatype Disk = Disk(
    journal: Option<seq<byte>>, pending: Option<Pending>, snapshot: Option<Snapshot>, intent: Option<Intent>,
    foreign: bool)

  datatype World = World(disk: Disk, anchor: Option<Anchor>)

  datatype Write =
    | SetPending(pending: Pending)
    | MoveAnchor(anchor: Anchor)
    | AppendJournal(bytes: seq<byte>)
    | SetJournal(bytes: seq<byte>)
    | SetSnapshot(snapshot: Snapshot)
    | DropSnapshot
    | ClearPending
    | SetIntent(intent: Intent)
    | ClearIntent

  function Payload(w: World): seq<byte> {
    if w.disk.journal.Some? then w.disk.journal.value else []
  }

  function Perform(w: World, x: Write): World {
    match x
    case SetPending(p) => w.(disk := w.disk.(pending := Some(p)))
    case MoveAnchor(a) => w.(anchor := Some(a))
    case AppendJournal(bytes) => w.(disk := w.disk.(journal := Some(Payload(w) + bytes)))
    case SetJournal(bytes) => w.(disk := w.disk.(journal := Some(bytes)))
    case SetSnapshot(s) => w.(disk := w.disk.(snapshot := Some(s)))
    case DropSnapshot => w.(disk := w.disk.(snapshot := None))
    case ClearPending => w.(disk := w.disk.(pending := None))
    case SetIntent(i) => w.(disk := w.disk.(intent := Some(i)))
    case ClearIntent => w.(disk := w.disk.(intent := None))
  }

  function PerformAll(w: World, writes: seq<Write>): World
    decreases |writes|
  {
    if writes == [] then w else PerformAll(Perform(w, writes[0]), writes[1..])
  }

  /**
   * The world after `done` durable writes when the process stops there: every
   * write is all or nothing, except that an append to the journal may have
   * reached the disk up to any byte.
   */
  function Interrupted(w: World, writes: seq<Write>, done: nat, torn: nat): World
    decreases |writes|
  {
    if writes == [] then w
    else if done > 0 then Interrupted(Perform(w, writes[0]), writes[1..], done - 1, torn)
    else if writes[0].AppendJournal? && torn <= |writes[0].bytes| then
      Perform(w, AppendJournal(writes[0].bytes[..torn]))
    else w
  }

  lemma {:induction false} PerformConcat(w: World, a: seq<Write>, b: seq<Write>)
    ensures PerformAll(w, a + b) == PerformAll(PerformAll(w, a), b)
    decreases |a|
  {
    if a == [] {
      assert a + b == b;
    } else {
      assert (a + b)[1..] == a[1..] + b;
      PerformConcat(Perform(w, a[0]), a[1..], b);
    }
  }

  /** A cut falls into the first part of a list of writes, or into the rest of it. */
  lemma {:induction false} InterruptedConcat(w: World, a: seq<Write>, b: seq<Write>, done: nat, torn: nat)
    ensures done < |a| ==> Interrupted(w, a + b, done, torn) == Interrupted(w, a, done, torn)
    ensures done >= |a| ==>
              Interrupted(w, a + b, done, torn) == Interrupted(PerformAll(w, a), b, done - |a|, torn)
    decreases |a|
  {
    if a == [] {
      assert a + b == b;
    } else if done > 0 {
      assert (a + b)[1..] == a[1..] + b;
      InterruptedConcat(Perform(w, a[0]), a[1..], b, done - 1, torn);
    }
  }

  lemma {:induction false} InterruptedAtEnd(w: World, writes: seq<Write>, done: nat, torn: nat)
    requires done >= |writes|
    ensures Interrupted(w, writes, done, torn) == PerformAll(w, writes)
    decreases |writes|
  {
    if writes != [] {
      InterruptedAtEnd(Perform(w, writes[0]), writes[1..], done - 1, torn);
    }
  }

  /** The durable writes an operation makes, in order, and what it then returns. */
  datatype Plan<+T> = Plan(writes: seq<Write>, outcome: Result<T, LedgerError>)

  ghost function SnapshotFor(records: seq<Record>): Result<Snapshot, LedgerError> {
    var state :- Replay(EventsOf(records));
    Ok(Snapshot(LEDGER_SCHEMA_VERSION, |records|, Head(records), state))
  }

  ghost function ValidateSnapshot(s: Snapshot, records: seq<Record>): Outcome<LedgerError> {
    if s.version != LEDGER_SCHEMA_VERSION then Fail(SnapshotMismatch)
    else if s.count > |records| then Fail(TruncatedLedger)
    else if s.count < |records| then Fail(StaleSnapshot)
    else if s.head != Head(records) then Fail(SnapshotMismatch)
    else
      var replayed := Replay(EventsOf(records));
      if replayed.Err? then Fail(replayed.error) else Need(replayed.value == s.state, SnapshotMismatch)
  }

  ghost function ValidateCurrentSnapshot(w: World, records: seq<Record>): Outcome<LedgerError> {
    if w.disk.snapshot.Some? then ValidateSnapshot(w.disk.snapshot.value, records)
    else Need(records == [], MissingSnapshot)
  }

  datatype Opened = Opened(records: seq<Record>, state: State, anchor: Option<Anchor>, fileLen: nat)

  /** Opening without recovery: journal, anchor, replay and snapshot must all agree. */
  ghost function OpenUnlocked(codec: Codec, w: World): Result<Opened, LedgerError> {
    var records :- Load(codec, Payload(w));
    :- ValidateAnchor(w.anchor, records);
    var state :- Replay(EventsOf(records));
    :- ValidateCurrentSnapshot(w, records);
    Ok(Opened(records, state, w.anchor, |Payload(w)|))
  }

  /** The integrity checks a pending intent passes when it is read back. */
  predicate WellFormedPending(p: Pending) {
    && p.version == PENDING_SCHEMA_VERSION
    && p.record.version == LEDGER_SCHEMA_VERSION
    && p.record.sequence == p.priorCount
    && p.record.previous == p.priorHead
    && p.record.hash == RecordHash(p.record.sequence, p.record.previous, p.record.event)
    && p.snapshot.version == LEDGER_SCHEMA_VERSION
    && p.snapshot.count == p.priorCount + 1
    && p.snapshot.head == p.record.hash
  }

  /** Undoing an append whose head was never anchored. */
  ghost function RollbackPlan(base: seq<byte>, prior: seq<Record>, replaceJournal: bool): Plan<bool> {
    var journal := if replaceJournal then [SetJournal(base)] else [];
    if prior == [] then Plan(journal + [DropSnapshot, ClearPending], Ok(replaceJournal))
    else
      var snapshot := SnapshotFor(prior);
      if snapshot.Err? then Plan(journal, Err(snapshot.error))
      else Plan(journal + [SetSnapshot(snapshot.value), ClearPending], Ok(replaceJournal))
  }

  /** Completing an append whose head was anchored. */
  ghost function ForwardPlan(base: seq<byte>, line: seq<byte>, prior: seq<Record>, p: Pending): Plan<bool> {
    var records := prior + [p.record];
    var valid := ValidateSnapshot(p.snapshot, records);
    if valid.Fail? then Plan([], Err(valid.error))
    else
      var snapshot := SnapshotFor(records);
      if snapshot.Err? then Plan([SetJournal(base + line)], Err(snapshot.error))
      else Plan([SetJournal(base + line), SetSnapshot(snapshot.value), ClearPending], Ok(true))
  }

  /** What recovery does about a pending append; the anchor decides. */
  ghost function RecoverPlan(codec: Codec, w: World): Plan<bool> {
    if w.disk.pending.None? then Plan([], Ok(false))
    else
      var p, payload := w.disk.pending.value, Payload(w);
      if !WellFormedPending(p) then Plan([], Err(CorruptPending))
      else if |payload| < p.priorLen then Plan([], Err(TruncatedLedger))
      else
        var base, tail := payload[..p.priorLen], payload[p.priorLen..];
        var loaded := Load(codec, base);
        if loaded.Err? then Plan([], Err(loaded.error))
        else
          var prior, line := loaded.value, Line(codec, p.record);
          if |prior| != p.priorCount || Head(prior) != p.priorHead || !(tail <= line) then
            Plan([], Err(CorruptPending))
          else if w.anchor == AnchorFor(prior) then RollbackPlan(base, prior, tail != [])
          else if w.anchor != Some(AnchorOf(p.snapshot)) then
            Plan([], Err(ProtectedAnchorMismatch))
          else ForwardPlan(base, line, prior, p)
  }

  /** Recovery, then creating a missing journal file, then opening. */
  ghost function OpenPlan(codec: Codec, w: World): Plan<Opened> {
    var recovery := RecoverPlan(codec, w);
    if recovery.outcome.Err? then Plan(recovery.writes, Err(recovery.outcome.error))
    else
      var recovered := PerformAll(w, recovery.writes);
      var create := if recovered.disk.journal.None? then [SetJournal([])] else [];
      Plan(recovery.writes + create, OpenUnlocked(codec, PerformAll(recovered, create)))
  }

  datatype AppendOutcome = Appended | Duplicate

  /** Two events that carry the same order, fill or fee identifier of the venue. */
  predicate SameVenueId(a: EventKind, b: EventKind) {
    || (a.OrderRecorded? && b.OrderRecorded? && a.orderId == b.orderId)
    || (a.FillRecorded? && b.FillRecorded? && a.fillId == b.fillId)
    || (a.FeeRecorded? && b.FeeRecorded? && a.feeId == b.feeId)
  }

  function VenueCollision(kind: EventKind): LedgerError {
    if kind.OrderRecorded? then OrderIdCollision
    else if kind.FillRecorded? then FillIdCollision
    else FeeIdCollision
  }

  /** Whether an event repeats one of the journal: by its own identifier, or by its venue identifier. */
  ghost function FindRepeat(events: seq<Event>, event: Event): Result<bool, LedgerError> {
    if exists e :: e in events && e.id == event.id then
      if event in events then Ok(true) else Err(EventCollision)
    else if exists e :: e in events && SameVenueId(e.kind, event.kind) then
      if exists e :: e in events && e.at == event.at && e.kind == event.kind && SameVenueId(e.kind, event.kind) then
        Ok(true)
      else Err(VenueCollision(event.kind))
    else Ok(false)
  }

  /** The intent an append behind an opened ledger records first. */
  function IntentOf(o: Opened, event: Event, next: State): Pending {
    var r := NextRecord(o.records, event);
    Pending(PENDING_SCHEMA_VERSION, o.fileLen, |o.records|, Head(o.records), r,
            Snapshot(LEDGER_SCHEMA_VERSION, |o.records| + 1, r.hash, next))
  }

  function AnchorOf(s: Snapshot): Anchor {
    Anchor(ANCHOR_SCHEMA_VERSION, s.count, s.head)
  }

  /** The five durable steps that commit an intent. */
  function CommitWrites(codec: Codec, p: Pending): seq<Write> {
    [ SetPending(p),
      MoveAnchor(AnchorOf(p.snapshot)),
      AppendJournal(Line(codec, p.record)),
      SetSnapshot(p.snapshot),
      ClearPending ]
  }

  ghost function AppendPlan(codec: Codec, w: World, event: Event): Plan<AppendOutcome> {
    var valid := ValidateEvent(event);
    if valid.Fail? then Plan([], Err(valid.error))
    else
      var open := OpenPlan(codec, w);
      if open.outcome.Err? then Plan(open.writes, Err(open.outcome.error))
      else
        var events := EventsOf(open.outcome.value.records);
        var repeat := FindRepeat(events, event);
        if repeat.Err? then Plan(open.writes, Err(repeat.error))
        else if repeat.value then Plan(open.writes, Ok(Duplicate))
        else
          var next := Replay(events + [event]);
          if next.Err? then Plan(open.writes, Err(next.error))
          else Plan(open.writes + CommitWrites(codec, IntentOf(open.outcome.value, event, next.value)), Ok(Appended))
  }
}
