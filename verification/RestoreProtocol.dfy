/**
 * Restoring a ledger into another directory with an anchor of its own. The
 * durable restore intent and the destination anchor together make it safe to
 * stop anywhere and to try again, also after the source has grown.
 */
module RestoreProtocol {
  import opened Prelude
  import opened LedgerReplay
  import opened HashChain
  import opened DurableStore
  import opened CrashProtocol
  import opened AppendRuns

  /** What a restore makes the destination hold. */
  datatype Target = Target(ledger: seq<byte>, snapshot: Snapshot, records: seq<Record>)

  function IntentTo(t: Target): Intent {
    Intent(t.ledger, t.snapshot, |t.records|, Head(t.records))
  }

  /** The whole source, as a target; the source must hold a snapshot that fits. */
  function SourceTarget(codec: Codec, source: World, o: Opened): Result<Target, LedgerError> {
    if source.disk.snapshot.None? then Err(MissingSnapshot)
    else
      var s := source.disk.snapshot.value;
      :- Need(s.count == |o.records| && s.head == Head(o.records) && s.state == o.state, StaleSnapshot);
      var records :- Load(codec, Payload(source));
      :- Need(records == o.records, ConcurrentModification);
      Ok(Target(Payload(source), s, records))
  }

  /** The prefix of the source's records that an earlier intent names. */
  ghost function PrefixTarget(codec: Codec, i: Intent, records: seq<Record>): Result<Target, LedgerError> {
    if i.count > |records| || Head(records[..i.count]) != i.head then Err(CorruptRestorePending)
    else
      var prefix := records[..i.count];
      var snapshot :- SnapshotFor(prefix);
      :- Need(Lines(codec, prefix) == i.ledger && snapshot == i.snapshot, CorruptRestorePending);
      Ok(Target(i.ledger, i.snapshot, prefix))
  }

  predicate NoStrangers(d: Disk) {
    d.pending.None? && !d.foreign
  }

  /** Nothing in the directory but the intent, and files already restored of an empty ledger. */
  predicate OnlyUnanchoredEntries(d: Disk, t: Target) {
    && NoStrangers(d)
    && (d.journal.None? || (AnchorFor(t.records).None? && d.journal == Some(t.ledger)))
    && (d.snapshot.None? || (AnchorFor(t.records).None? && d.snapshot == Some(t.snapshot)))
  }

  predicate NoEntries(d: Disk) {
    NoStrangers(d) && d.journal.None? && d.snapshot.None?
  }

  predicate OnlyEmptyJournal(d: Disk) {
    NoStrangers(d) && d.journal == Some([]) && d.snapshot.None?
  }

  /** Whether a restore may start here. */
  predicate MayStart(d: World, source: Option<Anchor>) {
    || (NoEntries(d.disk) && (d.anchor.None? || d.anchor == source))
    || (d.anchor.Some? && d.anchor == source && OnlyEmptyJournal(d.disk))
  }

  predicate HoldsFiles(d: Disk, t: Target) {
    && NoStrangers(d)
    && (if d.journal.Some? then d.journal.value else []) == t.ledger
    && d.snapshot == Some(t.snapshot)
  }

  /** Anchor, journal, snapshot, check, and only then dropping the intent. */
  ghost function FinishPlan(codec: Codec, d: World, t: Target): Plan<Opened> {
    var anchor := AnchorFor(t.records);
    if d.anchor != anchor && !(d.anchor.None? && anchor.Some?) then Plan([], Err(ProtectedAnchorMismatch))
    else
      var move := if d.anchor != anchor then [MoveAnchor(anchor.value)] else [];
      var writes := move + [SetJournal(t.ledger), SetSnapshot(t.snapshot)];
      var o := OpenUnlocked(codec, PerformAll(d, writes));
      if o.Err? then Plan(writes, o)
      else if o.value.records != t.records || o.value.state != t.snapshot.state
              || Head(o.value.records) != Head(t.records)
        then Plan(writes, Err(SnapshotMismatch))
      else Plan(writes + [ClearIntent], o)
  }

  /** Going on with an intent found in the destination. */
  ghost function ResumePlan(codec: Codec, d: World, i: Intent, source: Target): Plan<Opened> {
    if i.count == 0 && i.head != Genesis then Plan([], Err(CorruptRestorePending))
    else
      var found := if i == IntentTo(source) then Ok(source) else PrefixTarget(codec, i, source.records);
      if found.Err? then Plan([], Err(found.error))
      else
        var t := found.value;
        var anchor := AnchorFor(t.records);
        if d.anchor.None? && !OnlyUnanchoredEntries(d.disk, t) then Plan([], Err(RestoreDestinationNotEmpty))
        else if !NoStrangers(d.disk) then Plan([], Err(CorruptRestorePending))
        else if anchor != AnchorFor(source.records) && (anchor.None? || d.anchor != anchor) then
          Plan([], Err(ProtectedAnchorMismatch))
        else FinishPlan(codec, d, t)
  }

  /** A destination without an intent: start, or find the restore already complete. */
  ghost function StartPlan(codec: Codec, d: World, source: Target): Plan<Opened> {
    if MayStart(d, AnchorFor(source.records)) then
      var begin := SetIntent(IntentTo(source));
      var finish := FinishPlan(codec, Perform(d, begin), source);
      Plan([begin] + finish.writes, finish.outcome)
    else if !HoldsFiles(d.disk, source) then Plan([], Err(RestoreDestinationNotEmpty))
    else
      var create := if d.disk.journal.None? then [SetJournal([])] else [];
      var o := OpenUnlocked(codec, PerformAll(d, create));
      if o.Ok? && o.value.records == source.records && o.value.state == source.snapshot.state then Plan(create, o)
      else Plan(create, Err(RestoreDestinationNotEmpty))
  }

  /** The whole source after recovering and opening it, or why it cannot be restored from. */
  ghost function SourceOf(codec: Codec, source: World): Result<Target, LedgerError> {
    var open := OpenPlan(codec, source);
    var o :- open.outcome;
    SourceTarget(codec, PerformAll(source, open.writes), o)
  }

  /** What a restore does to the destination. */
  ghost function RestorePlan(codec: Codec, source: World, d: World): Plan<Opened> {
    var whole := SourceOf(codec, source);
    if whole.Err? then Plan([], Err(whole.error))
    else if d.disk.intent.Some? then ResumePlan(codec, d, d.disk.intent.value, whole.value)
    else StartPlan(codec, d, whole.value)
  }

  /** The anchor is absent, or vouches for a prefix of the records. */
  ghost predicate Vouches(a: Option<Anchor>, records: seq<Record>) {
    a.Some? ==> a.value.count <= |records| && a == AnchorFor(records[..a.value.count])
  }

  ghost predicate FitsTarget(codec: Codec, t: Target) {
    Load(codec, t.ledger) == Ok(t.records) && SnapshotFor(t.records) == Ok(t.snapshot)
  }

  /** The target an intent stands for, among the records of the source. */
  function TargetOf(i: Intent, records: seq<Record>): Target
    requires i.count <= |records|
  {
    Target(i.ledger, i.snapshot, records[..i.count])
  }

  /** A destination nothing was restored into yet. */
  ghost predicate Bare(d: World, records: seq<Record>) {
    && d.disk.intent.None? && d.disk.snapshot.None? && NoStrangers(d.disk)
    && (d.disk.journal.None? || (d.anchor.Some? && d.disk.journal == Some([])))
    && Vouches(d.anchor, records)
  }

  /** A destination with an intent, and as much of its target as the writes so far have produced. */
  ghost predicate Holding(d: World, t: Target) {
    && d.disk.intent == Some(IntentTo(t)) && NoStrangers(d.disk)
    && (if d.anchor != AnchorFor(t.records) then
          d.anchor.None? && d.disk.journal.None? && d.disk.snapshot.None?
        else
          && (|| d.disk.journal.None? || d.disk.journal == Some(t.ledger)
              || (t.records != [] && d.disk.journal == Some([])))
          && (d.disk.snapshot.None? || d.disk.snapshot == Some(t.snapshot)))
  }

  ghost predicate Underway(codec: Codec, d: World, records: seq<Record>) {
    && d.disk.intent.Some? && d.disk.intent.value.count <= |records|
    && FitsTarget(codec, TargetOf(d.disk.intent.value, records))
    && Holding(d, TargetOf(d.disk.intent.value, records))
  }

  /** A destination at rest with exactly these records. */
  ghost predicate Restored(codec: Codec, d: World, records: seq<Record>) {
    && AtRest(codec, d, records)
    && d.disk.intent.None? && !d.disk.foreign && d.disk.journal.Some? && d.disk.snapshot.Some?
  }

  /** Every state a destination can be in, for a source with these records. */
  ghost predicate DestinationOk(codec: Codec, d: World, records: seq<Record>) {
    || Bare(d, records)
    || Underway(codec, d, records)
    || (RecordsAt(codec, Payload(d)) <= records && Restored(codec, d, RecordsAt(codec, Payload(d))))
  }

  /** A destination on its way to this very target, or not begun, or already there. */
  ghost predicate Towards(codec: Codec, d: World, t: Target) {
    || (Bare(d, t.records) && MayStart(d, AnchorFor(t.records)))
    || Holding(d, t)
    || (Restored(codec, d, t.records) && d.disk.journal == Some(t.ledger))
  }

  /** A plan that reaches the target, and stopped anywhere stays on the way to it. */
  ghost predicate SafeTowards(codec: Codec, d: World, t: Target, plan: Plan<Opened>, done: nat, torn: nat) {
    && plan.outcome.Ok? && plan.outcome.value.records == t.records
    && Restored(codec, PerformAll(d, plan.writes), t.records)
    && var cut := Interrupted(d, plan.writes, done, torn);
       Towards(codec, cut, t) && (cut.anchor == d.anchor || (d.anchor.None? && cut.anchor == AnchorFor(t.records)))
  }

  /** The anchor stayed, or moved from none to a prefix of the records. */
  ghost predicate MovedAtMostOnce(before: Option<Anchor>, after: Option<Anchor>, records: seq<Record>) {
    after == before || (before.None? && after.Some? && Vouches(after, records))
  }

  /** The source recovers, and as a target it is all of its committed records. */
  lemma SourceIsWhole(codec: Codec, source: World)
    requires Faithful(codec) && Consistent(codec, source)
    ensures SourceOf(codec, source).Ok? ==>
              var t := SourceOf(codec, source).value;
              t.records == Committed(codec, source) && FitsTarget(codec, t)
    ensures Committed(codec, source) != [] ==> SourceOf(codec, source).Ok?
  {
    hide OpenPlan, OpenUnlocked, Consistent, Committed, PerformAll, Load, Replay;
    var open := OpenPlan(codec, source);
    OpenSafe(codec, source, 0, 0);
    var w := PerformAll(source, open.writes);
    AtRestOpens(codec, w, Committed(codec, source));
  }

  lemma AnchorVouches(a: seq<Record>, b: seq<Record>)
    requires a <= b
    ensures Vouches(AnchorFor(a), b)
    ensures b[..|a|] == a
  {
  }

  /** Growing the source keeps every state of the destination proper. */
  lemma SourceMayGrow(codec: Codec, d: World, a: seq<Record>, b: seq<Record>)
    requires DestinationOk(codec, d, a) && a <= b
    ensures DestinationOk(codec, d, b)
  {
    hide AtRest, Holding, FitsTarget, NoStrangers;
    if Bare(d, a) {
      if d.anchor.Some? {
        assert b[..d.anchor.value.count] == a[..d.anchor.value.count];
      }
    } else if Underway(codec, d, a) {
      assert b[..d.disk.intent.value.count] == a[..d.disk.intent.value.count];
    }
  }

  lemma HoldingIsUnderway(codec: Codec, d: World, t: Target, records: seq<Record>)
    requires Holding(d, t) && FitsTarget(codec, t) && t.records <= records
    ensures Underway(codec, d, records)
  {
    assert records[..|t.records|] == t.records;
    hide FitsTarget;
    assert TargetOf(IntentTo(t), records) == t;
  }

  /** The writes that finish a restore; each one but the last leaves it under way. */
  lemma FinishWrites(codec: Codec, d: World, t: Target)
    requires Holding(d, t) && FitsTarget(codec, t)
    ensures var plan := FinishPlan(codec, d, t);
            var move := if d.anchor != AnchorFor(t.records) then [MoveAnchor(AnchorFor(t.records).value)] else [];
            && (d.anchor != AnchorFor(t.records) ==> AnchorFor(t.records).Some?)
            && plan.writes == move + [SetJournal(t.ledger), SetSnapshot(t.snapshot), ClearIntent]
            && plan.outcome.Ok? && plan.outcome.value.records == t.records
  {
    var anchor := AnchorFor(t.records);
    var move := if d.anchor != anchor then [MoveAnchor(anchor.value)] else [];
    var moved := if d.anchor != anchor then Perform(d, move[0]) else d;
    var writes := [SetJournal(t.ledger), SetSnapshot(t.snapshot)];
    assert move != [] ==> move[1..] == [];
    PerformConcat(d, move, writes);
    CutTwo(moved, writes[0], writes[1], 2, 0);
    var filled := Perform(Perform(moved, writes[0]), writes[1]);
    hide Load, Replay, OpenUnlocked, PerformAll, Interrupted;
    assert AtRest(codec, filled, t.records);
    AtRestOpens(codec, filled, t.records);
    hide SnapshotFor, AnchorFor, AtRest;
    assert move + [SetJournal(t.ledger), SetSnapshot(t.snapshot)] + [ClearIntent]
        == move + [SetJournal(t.ledger), SetSnapshot(t.snapshot), ClearIntent];
  }

  /** Replacing the files, once the anchor stands: under way until the intent is dropped, then at rest. */
  lemma FillSafe(codec: Codec, d: World, t: Target, done: nat, torn: nat)
    requires Holding(d, t) && FitsTarget(codec, t)
    requires d.anchor == AnchorFor(t.records)
    ensures var writes := [SetJournal(t.ledger), SetSnapshot(t.snapshot), ClearIntent];
            && Restored(codec, PerformAll(d, writes), t.records)
            && var cut := Interrupted(d, writes, done, torn);
               cut.anchor == d.anchor && Towards(codec, cut, t)
  {
    hide Load, SnapshotFor, Interrupted, PerformAll;
    var d1 := Perform(d, SetJournal(t.ledger));
    var d2 := Perform(d1, SetSnapshot(t.snapshot));
    var d3 := Perform(d2, ClearIntent);
    CutThree(d, SetJournal(t.ledger), SetSnapshot(t.snapshot), ClearIntent, done, torn);
    assert Holding(d1, t) && Holding(d2, t) && Restored(codec, d3, t.records);
    hide Holding, FitsTarget, AnchorFor, AtRest, NoStrangers, Bare;
  }

  /** Finishing: the anchor moves at most once, and wherever it stops the destination is on its way. */
  lemma FinishSafe(codec: Codec, d: World, t: Target, done: nat, torn: nat)
    requires Holding(d, t) && FitsTarget(codec, t)
    ensures SafeTowards(codec, d, t, FinishPlan(codec, d, t), done, torn)
  {
    FinishWrites(codec, d, t);
    var anchor := AnchorFor(t.records);
    var rest := [SetJournal(t.ledger), SetSnapshot(t.snapshot), ClearIntent];
    if d.anchor == anchor {
      assert [] + rest == rest;
      FillSafe(codec, d, t, done, torn);
    } else {
      var move := MoveAnchor(anchor.value);
      var moved := Perform(d, move);
      assert Holding(moved, t);
      FillSafe(codec, moved, t, if done == 0 then 0 else done - 1, torn);
      hide Holding, FitsTarget, Restored, AnchorFor, FinishPlan, PerformAll, Interrupted;
      CutFirst(d, move, rest, done, torn);
    }
  }

  lemma StartShape(codec: Codec, d: World, t: Target)
    requires Bare(d, t.records) && MayStart(d, AnchorFor(t.records))
    ensures var begin := SetIntent(IntentTo(t));
            var finish := FinishPlan(codec, Perform(d, begin), t);
            && StartPlan(codec, d, t) == Plan([begin] + finish.writes, finish.outcome)
            && Holding(Perform(d, begin), t)
            && Towards(codec, d, t)
  {
    hide FinishPlan, Restored;
  }

  /** Writing the intent first, and then finishing. */
  lemma StartSafe(codec: Codec, d: World, t: Target, done: nat, torn: nat)
    requires Bare(d, t.records) && FitsTarget(codec, t)
    requires MayStart(d, AnchorFor(t.records))
    ensures SafeTowards(codec, d, t, StartPlan(codec, d, t), done, torn)
  {
    var begin := SetIntent(IntentTo(t));
    var begun := Perform(d, begin);
    var finish := FinishPlan(codec, begun, t);
    StartShape(codec, d, t);
    assert begun.anchor == d.anchor;
    hide Holding, FitsTarget, Restored, Towards, AnchorFor, FinishPlan, StartPlan, Bare, MayStart, IntentTo,
         PerformAll, Interrupted, Perform;
    FinishSafe(codec, begun, t, if done == 0 then 0 else done - 1, torn);
    CutFirst(d, begin, finish.writes, done, torn);
  }

  /** A destination at rest is never changed by a restore, whether or not it is complete. */
  lemma CompleteSafe(codec: Codec, d: World, t: Target, done: nat, torn: nat)
    requires Restored(codec, d, RecordsAt(codec, Payload(d)))
    ensures var plan := StartPlan(codec, d, t);
            && plan.writes == []
            && (plan.outcome.Ok? ==> plan.outcome.value.records == t.records == RecordsAt(codec, Payload(d)))
  {
    AtRestOpens(codec, d, RecordsAt(codec, Payload(d)));
    hide Load, Replay, OpenUnlocked, AnchorFor, SnapshotFor;
  }

  /** An intent is resumed towards the target it stands for, or refused without a write. */
  lemma ResumeShape(codec: Codec, d: World, source: Target)
    requires Underway(codec, d, source.records) && FitsTarget(codec, source)
    ensures var i := d.disk.intent.value;
            var t, plan := TargetOf(i, source.records), ResumePlan(codec, d, i, source);
            && FitsTarget(codec, t) && Holding(d, t)
            && (plan == FinishPlan(codec, d, t) || (plan.writes == [] && plan.outcome.Err?))
            && (i == IntentTo(source) ==> plan == FinishPlan(codec, d, t))
  {
    hide FitsTarget, FinishPlan, Load, SnapshotFor;
    var i := d.disk.intent.value;
    assert i == IntentTo(source) ==> TargetOf(i, source.records) == source by {
      if i == IntentTo(source) {
        assert source.records[..i.count] == source.records;
      }
    }
  }

  /** On the way to a prefix of the records is a proper state for all of them. */
  lemma TowardsIsOk(codec: Codec, d: World, t: Target, records: seq<Record>)
    requires Towards(codec, d, t) && FitsTarget(codec, t) && t.records <= records
    ensures DestinationOk(codec, d, records)
  {
    hide FitsTarget, AtRest, AnchorFor;
    if Bare(d, t.records) {
      SourceMayGrow(codec, d, t.records, records);
    } else if Holding(d, t) {
      HoldingIsUnderway(codec, d, t, records);
    } else {
      RestoredRecords(codec, d, t.records);
    }
  }

  lemma RestoredRecords(codec: Codec, d: World, records: seq<Record>)
    requires Restored(codec, d, records)
    ensures RecordsAt(codec, Payload(d)) == records
  {
  }

  lemma SafeTowardsIsSafe(
    codec: Codec, d: World, t: Target, records: seq<Record>, plan: Plan<Opened>, done: nat, torn: nat)
    requires SafeTowards(codec, d, t, plan, done, torn) && FitsTarget(codec, t) && t.records <= records
    ensures var cut := Interrupted(d, plan.writes, done, torn);
            MovedAtMostOnce(d.anchor, cut.anchor, records) && DestinationOk(codec, cut, records)
    ensures plan.outcome.Ok? && plan.outcome.value.records == t.records
    ensures Restored(codec, PerformAll(d, plan.writes), t.records)
  {
    hide Towards, FitsTarget, DestinationOk, Restored, Interrupted, PerformAll;
    TowardsIsOk(codec, Interrupted(d, plan.writes, done, torn), t, records);
    AnchorVouches(t.records, records);
  }

  /** What one attempt does to a destination, given the source's records. */
  ghost predicate AttemptSafe(codec: Codec, d: World, plan: Plan<Opened>, records: seq<Record>, done: nat, torn: nat) {
    && (plan.outcome.Ok? ==>
          plan.outcome.value.records <= records
          && Restored(codec, PerformAll(d, plan.writes), plan.outcome.value.records))
    && var cut := Interrupted(d, plan.writes, done, torn);
       MovedAtMostOnce(d.anchor, cut.anchor, records) && DestinationOk(codec, cut, records)
  }

  lemma ResumeSafe(codec: Codec, d: World, source: Target, done: nat, torn: nat)
    requires Underway(codec, d, source.records) && FitsTarget(codec, source)
    ensures AttemptSafe(codec, d, ResumePlan(codec, d, d.disk.intent.value, source), source.records, done, torn)
  {
    var i := d.disk.intent.value;
    var t, plan := TargetOf(i, source.records), ResumePlan(codec, d, i, source);
    ResumeShape(codec, d, source);
    assert DestinationOk(codec, d, source.records);
    hide Underway, FitsTarget, Holding, FinishPlan, ResumePlan, SafeTowards, Restored, DestinationOk, Vouches,
         AnchorFor;
    if plan == FinishPlan(codec, d, t) {
      FinishSafe(codec, d, t, done, torn);
      SafeTowardsIsSafe(codec, d, t, source.records, plan, done, torn);
    }
  }

  lemma BeginSafe(codec: Codec, d: World, source: Target, done: nat, torn: nat)
    requires DestinationOk(codec, d, source.records) && !Underway(codec, d, source.records)
    requires FitsTarget(codec, source)
    ensures d.disk.intent.None?
    ensures AttemptSafe(codec, d, StartPlan(codec, d, source), source.records, done, torn)
  {
    var plan := StartPlan(codec, d, source);
    hide FitsTarget, SafeTowards, AtRest, Vouches, AnchorFor, FinishPlan;
    if Bare(d, source.records) {
      if MayStart(d, AnchorFor(source.records)) {
        StartSafe(codec, d, source, done, torn);
        hide Restored;
        SafeTowardsIsSafe(codec, d, source, source.records, plan, done, torn);
      }
    } else {
      CompleteSafe(codec, d, source, done, torn);
    }
    hide DestinationOk, Bare, StartPlan, MayStart;
  }

  /** One attempt at a restore, stopped anywhere. */
  lemma RestoreSafe(codec: Codec, source: World, d: World, done: nat, torn: nat)
    requires Faithful(codec) && Consistent(codec, source)
    requires DestinationOk(codec, d, Committed(codec, source))
    ensures AttemptSafe(codec, d, RestorePlan(codec, source, d), Committed(codec, source), done, torn)
  {
    hide Consistent, Committed, SourceOf, FinishPlan, FitsTarget, DestinationOk, ResumePlan, StartPlan, Holding;
    SourceIsWhole(codec, source);
    if SourceOf(codec, source).Ok? {
      var t := SourceOf(codec, source).value;
      if Underway(codec, d, t.records) {
        ResumeSafe(codec, d, t, done, torn);
      } else {
        BeginSafe(codec, d, t, done, torn);
      }
      hide AttemptSafe;
    }
  }

  /** The source directory and the destination directory, each with its anchor. */
  datatype Sites = Sites(source: World, destination: World)

  /** One process: it opens or appends at either site, or restores and is stopped after some writes. */
  datatype Act = AtSource(attempt: Attempt) | AtDestination(attempt: Attempt) | Restore(done: nat)

  ghost function ActOn(codec: Codec, s: Sites, a: Act): Sites {
    match a
    case AtSource(x) => s.(source := Interrupted(s.source, Writes(codec, s.source, x), x.done, x.torn))
    case AtDestination(x) =>
      s.(destination := Interrupted(s.destination, Writes(codec, s.destination, x), x.done, x.torn))
    case Restore(done) =>
      Sites(PerformAll(s.source, OpenPlan(codec, s.source).writes),
            Interrupted(s.destination, RestorePlan(codec, s.source, s.destination).writes, done, 0))
  }

  ghost function Play(codec: Codec, s: Sites, acts: seq<Act>): Sites {
    if acts == [] then s
    else ActOn(codec, Play(codec, s, acts[..|acts| - 1]), acts[|acts| - 1])
  }

  ghost predicate SitesOk(codec: Codec, s: Sites) {
    Consistent(codec, s.source) && DestinationOk(codec, s.destination, Committed(codec, s.source))
  }

  /** An empty destination whose anchor was never set fits every source, and a restore may start there. */
  lemma NewDestinationIsOk(codec: Codec, source: World)
    requires Consistent(codec, source)
    ensures SitesOk(codec, Sites(source, NEW_LEDGER))
    ensures SourceOf(codec, source).Ok? ==> Towards(codec, NEW_LEDGER, SourceOf(codec, source).value)
  {
    hide Consistent, Committed, SourceOf, Underway, Restored;
  }

  /** What one act may change that leaves the destination to restores. */
  lemma ActSafe(codec: Codec, s: Sites, a: Act)
    requires Faithful(codec) && SitesOk(codec, s) && !a.AtDestination?
    ensures var t := ActOn(codec, s, a);
            && SitesOk(codec, t)
            && Committed(codec, s.source) <= Committed(codec, t.source)
            && MovedAtMostOnce(s.destination.anchor, t.destination.anchor, Committed(codec, t.source))
  {
    hide Consistent, Committed, DestinationOk, RestorePlan, OpenPlan, AppendPlan, Vouches;
    match a {
      case AtSource(Open(done, torn)) => OpenSafe(codec, s.source, done, torn);
      case AtSource(Append(event, done, torn)) =>
        AppendIsCrashAtomic(codec, s.source, event, done, torn);
        var grown := ActOn(codec, s, a).source;
        SourceMayGrow(codec, s.destination, Committed(codec, s.source), Committed(codec, grown));
      case Restore(done) =>
        var writes := OpenPlan(codec, s.source).writes;
        RestoreSafe(codec, s.source, s.destination, done, 0);
        OpenSafe(codec, s.source, |writes|, 0);
        InterruptedAtEnd(s.source, writes, |writes|, 0);
    }
  }

  lemma MovesCompose(a: Option<Anchor>, b: Option<Anchor>, c: Option<Anchor>, r: seq<Record>, s: seq<Record>)
    requires MovedAtMostOnce(a, b, r) && MovedAtMostOnce(b, c, s) && r <= s
    ensures MovedAtMostOnce(a, c, s)
  {
    if b.Some? && b.value.count <= |r| {
      assert s[..b.value.count] == r[..b.value.count];
    }
  }

  /**
   * Restore is crash-safe. However often restores are stopped and retried, and
   * however the source grows in between, as long as nothing else uses the
   * destination, the destination anchor moves at most once, from none to a prefix
   * of the source, and every restore that completes leaves the destination at rest
   * with a prefix of the source's records, the one its own anchor vouches for.
   */
  lemma {:induction false} RestoreIsCrashSafe(codec: Codec, s: Sites, acts: seq<Act>)
    requires Faithful(codec) && SitesOk(codec, s)
    requires forall a :: a in acts ==> !a.AtDestination?
    ensures var t := Play(codec, s, acts);
            var plan, records := RestorePlan(codec, t.source, t.destination), Committed(codec, t.source);
            && SitesOk(codec, t)
            && Committed(codec, s.source) <= records
            && MovedAtMostOnce(s.destination.anchor, t.destination.anchor, records)
            && (plan.outcome.Ok? ==>
                  plan.outcome.value.records <= records
                  && Restored(codec, PerformAll(t.destination, plan.writes), plan.outcome.value.records))
  {
    hide Consistent, Committed, DestinationOk, RestorePlan, MovedAtMostOnce, Restored, ActOn, PerformAll, Interrupted;
    if acts == [] {
      assert MovedAtMostOnce(s.destination.anchor, s.destination.anchor, Committed(codec, s.source)) by {
        Stayed(s.destination.anchor, Committed(codec, s.source));
      }
    } else {
      var before := Play(codec, s, acts[..|acts| - 1]);
      var after := Play(codec, s, acts);
      RestoreIsCrashSafe(codec, s, acts[..|acts| - 1]);
      ActSafe(codec, before, acts[|acts| - 1]);
      MovesCompose(s.destination.anchor, before.destination.anchor, after.destination.anchor,
                   Committed(codec, before.source), Committed(codec, after.source));
    }
    var t := Play(codec, s, acts);
    RestoreSafe(codec, t.source, t.destination, 0, 0);
  }

  /** A reading of a directory without a pending append, whatever else it holds, is of records at rest. */
  lemma OpenedIsAtRest(codec: Codec, w: World)
    requires w.disk.pending.None? && OpenUnlocked(codec, w).Ok?
    ensures AtRest(codec, w, OpenUnlocked(codec, w).value.records)
  {
    hide Load, Replay;
  }

  lemma AtRestWithoutIntent(codec: Codec, w: World, records: seq<Record>)
    requires AtRest(codec, w, records)
    ensures AtRest(codec, Perform(w, ClearIntent), records)
  {
    hide Load, SnapshotFor, AnchorFor;
  }

  /** The writes before the intent is dropped touch no pending append. */
  lemma FillKeepsPending(d: World, move: seq<Write>, t: Target)
    requires move == [] || exists a :: move == [MoveAnchor(a)]
    ensures PerformAll(d, move + [SetJournal(t.ledger), SetSnapshot(t.snapshot)]).disk.pending == d.disk.pending
  {
    PerformConcat(d, move, [SetJournal(t.ledger), SetSnapshot(t.snapshot)]);
    assert move != [] ==> move[1..] == [];
    CutTwo(PerformAll(d, move), SetJournal(t.ledger), SetSnapshot(t.snapshot), 0, 0);
  }

  /** Finishing succeeds only by reading back the target's records, from any destination without a pending append. */
  lemma FinishedIsAnchored(codec: Codec, d: World, t: Target)
    requires d.disk.pending.None? && FinishPlan(codec, d, t).outcome.Ok?
    ensures FinishPlan(codec, d, t).outcome.value.records == t.records
    ensures AtRest(codec, PerformAll(d, FinishPlan(codec, d, t).writes), t.records)
  {
    var anchor := AnchorFor(t.records);
    var move := if d.anchor != anchor then [MoveAnchor(anchor.value)] else [];
    var writes := move + [SetJournal(t.ledger), SetSnapshot(t.snapshot)];
    FillKeepsPending(d, move, t);
    var filled := PerformAll(d, writes);
    assert FinishPlan(codec, d, t).writes == writes + [ClearIntent] && OpenUnlocked(codec, filled).Ok?;
    assert OpenUnlocked(codec, filled).value.records == t.records;
    PerformConcat(d, writes, [ClearIntent]);
    assert PerformAll(filled, [ClearIntent]) == Perform(filled, ClearIntent);
    hide *;
    OpenedIsAtRest(codec, filled);
    AtRestWithoutIntent(codec, filled, t.records);
  }

  lemma ResumedIsAnchored(codec: Codec, d: World, i: Intent, source: Target)
    requires ResumePlan(codec, d, i, source).outcome.Ok?
    ensures var plan := ResumePlan(codec, d, i, source);
            plan.outcome.value.records <= source.records
            && AtRest(codec, PerformAll(d, plan.writes), plan.outcome.value.records)
  {
    hide FinishPlan, SnapshotFor, Lines, AtRest, AnchorFor;
    var t := if i == IntentTo(source) then source else PrefixTarget(codec, i, source.records).value;
    assert ResumePlan(codec, d, i, source) == FinishPlan(codec, d, t) && d.disk.pending.None?;
    assert t.records <= source.records;
    FinishedIsAnchored(codec, d, t);
  }

  lemma StartedIsAnchored(codec: Codec, d: World, source: Target)
    requires StartPlan(codec, d, source).outcome.Ok?
    ensures var plan := StartPlan(codec, d, source);
            plan.outcome.value.records == source.records
            && AtRest(codec, PerformAll(d, plan.writes), plan.outcome.value.records)
  {
    hide FinishPlan, OpenUnlocked, AtRest, AnchorFor;
    if MayStart(d, AnchorFor(source.records)) {
      var begun := Perform(d, SetIntent(IntentTo(source)));
      FinishedIsAnchored(codec, begun, source);
      CutFirst(d, SetIntent(IntentTo(source)), FinishPlan(codec, begun, source).writes, 0, 0);
    } else {
      var create := if d.disk.journal.None? then [SetJournal([])] else [];
      assert create == [] || create[1..] == [];
      assert create != [] ==> PerformAll(d, create) == Perform(d, create[0]);
      OpenedIsAtRest(codec, PerformAll(d, create));
    }
  }

  /**
   * Whatever the destination holds: a restore that completes leaves it at rest
   * with a prefix of the source's records, vouched for by its own anchor.
   */
  lemma SuccessIsAnchored(codec: Codec, source: World, d: World)
    requires Faithful(codec) && Consistent(codec, source)
    requires RestorePlan(codec, source, d).outcome.Ok?
    ensures var plan := RestorePlan(codec, source, d);
            plan.outcome.value.records <= Committed(codec, source)
            && AtRest(codec, PerformAll(d, plan.writes), plan.outcome.value.records)
  {
    SourceIsWhole(codec, source);
    hide Consistent, Committed, SourceOf, ResumePlan, StartPlan, AtRest, FitsTarget;
    var t := SourceOf(codec, source).value;
    if d.disk.intent.Some? {
      ResumedIsAnchored(codec, d, d.disk.intent.value, t);
    } else {
      StartedIsAnchored(codec, d, t);
    }
  }

  lemma SourceStays(codec: Codec, s: Sites, a: Act)
    requires Faithful(codec) && Consistent(codec, s.source)
    ensures var t := ActOn(codec, s, a);
            Consistent(codec, t.source) && Committed(codec, s.source) <= Committed(codec, t.source)
  {
    hide Consistent, Committed, RestorePlan, OpenPlan, AppendPlan, Interrupted;
    match a {
      case AtSource(Open(done, torn)) => OpenSafe(codec, s.source, done, torn);
      case AtSource(Append(event, done, torn)) => AppendIsCrashAtomic(codec, s.source, event, done, torn);
      case AtDestination(_) =>
      case Restore(done) =>
        var writes := OpenPlan(codec, s.source).writes;
        OpenSafe(codec, s.source, |writes|, 0);
        InterruptedAtEnd(s.source, writes, |writes|, 0);
    }
  }

  /**
   * The destination may also be used in between, as a ledger of its own: opened,
   * appended to, and stopped anywhere. Every restore that then completes still
   * leaves it at rest with a prefix of the source that its own anchor vouches for.
   */
  lemma {:induction false} RestoredIsVouchedFor(codec: Codec, s: Sites, acts: seq<Act>)
    requires Faithful(codec) && Consistent(codec, s.source)
    ensures var t := Play(codec, s, acts);
            var plan, records := RestorePlan(codec, t.source, t.destination), Committed(codec, t.source);
            && Consistent(codec, t.source) && Committed(codec, s.source) <= records
            && (plan.outcome.Ok? ==>
                  plan.outcome.value.records <= records
                  && AtRest(codec, PerformAll(t.destination, plan.writes), plan.outcome.value.records))
  {
    hide Consistent, Committed, RestorePlan, AtRest, ActOn, PerformAll;
    if acts != [] {
      RestoredIsVouchedFor(codec, s, acts[..|acts| - 1]);
      SourceStays(codec, Play(codec, s, acts[..|acts| - 1]), acts[|acts| - 1]);
    }
    var t := Play(codec, s, acts);
    hide Play;
    if RestorePlan(codec, t.source, t.destination).outcome.Ok? {
      SuccessIsAnchored(codec, t.source, t.destination);
    }
  }

  /**
   * A destination that was opened before anything was restored into it: it holds an
   * empty journal, no anchor and no snapshot, and any intent in it names records.
   */
  ghost predicate Spoiled(d: World) {
    && d.anchor.None? && d.disk.pending.None? && d.disk.journal.Some? && d.disk.snapshot.None?
    && (d.disk.intent.Some? ==> d.disk.intent.value.count > 0)
  }

  /** Every restore into it is refused without a write, whatever the source holds. */
  lemma SpoiledIsRefused(codec: Codec, source: World, d: World)
    requires Spoiled(d)
    ensures RestorePlan(codec, source, d).outcome.Err? && RestorePlan(codec, source, d).writes == []
  {
    hide SourceOf, FinishPlan, SnapshotFor, Lines;
    var whole := SourceOf(codec, source);
    if whole.Ok? && d.disk.intent.Some? {
      SpoiledIntent(codec, d, whole.value);
    }
  }

  lemma SpoiledIntent(codec: Codec, d: World, source: Target)
    requires Spoiled(d) && d.disk.intent.Some?
    ensures var plan := ResumePlan(codec, d, d.disk.intent.value, source);
            plan.outcome.Err? && plan.writes == []
  {
    hide FinishPlan, SnapshotFor, Lines;
    var i := d.disk.intent.value;
    if i == IntentTo(source) {
      assert source.records != [];
    } else if PrefixTarget(codec, i, source.records).Ok? {
      assert |PrefixTarget(codec, i, source.records).value.records| == i.count;
    }
  }

  /** An open of it, complete or stopped, writes nothing. */
  lemma SpoiledOpens(codec: Codec, d: World)
    requires Spoiled(d)
    ensures OpenPlan(codec, d).writes == []
  {
    hide OpenUnlocked;
    assert RecoverPlan(codec, d) == Plan([], Ok(false));
  }

  ghost predicate NoAppendAtDestination(acts: seq<Act>) {
    forall a :: a in acts ==> !(a.AtDestination? && a.attempt.Append?)
  }

  /** So it stays refused for good: over every run in which nobody appends to it, nothing changes it. */
  lemma {:induction false} SpoiledForGood(codec: Codec, s: Sites, acts: seq<Act>)
    requires Spoiled(s.destination) && NoAppendAtDestination(acts)
    ensures var t := Play(codec, s, acts);
            && t.destination == s.destination
            && RestorePlan(codec, t.source, t.destination).outcome.Err?
  {
    hide Spoiled, RestorePlan, OpenPlan, AppendPlan;
    if acts != [] {
      var front, a := acts[..|acts| - 1], acts[|acts| - 1];
      assert a in acts && forall x :: x in front ==> x in acts;
      SpoiledForGood(codec, s, front);
      var before := Play(codec, s, front);
      SpoiledIsRefused(codec, before.source, before.destination);
      SpoiledOpens(codec, before.destination);
    }
    SpoiledIsRefused(codec, Play(codec, s, acts).source, s.destination);
  }

  /** Only the empty journal holds no records. */
  lemma OnlyEmptyLoadsEmpty(codec: Codec, payload: seq<byte>)
    requires Load(codec, payload) == Ok([])
    ensures payload == []
  {
    if payload != [] {
      var n := LineEnd(payload);
      var first := codec.decode(payload[..n]).value;
      assert [] + [first] == [first] && [first][..0] == [];
      LoadedIsChained(codec, payload[n + 1..], [first]);
    }
  }

  /** What opening leaves of a directory without a pending append. */
  lemma OpenCreates(codec: Codec, d: World)
    requires d.disk.pending.None?
    ensures PerformAll(d, OpenPlan(codec, d).writes)
         == (if d.disk.journal.None? then Perform(d, SetJournal([])) else d)
  {
    hide OpenUnlocked;
    assert RecoverPlan(codec, d) == Plan([], Ok(false));
    assert [SetJournal([])][1..] == [];
    assert forall none: seq<Write>, x: seq<Write> | none == [] :: none + x == x;
    assert PerformAll(d, [SetJournal([])]) == Perform(d, SetJournal([]));
  }

  /** Whether a destination on its way to the target may be opened before the restore goes on. */
  ghost predicate MayBeOpened(d: World, t: Target) {
    d.anchor.Some? || (t.records == [] && (d.disk.intent.Some? || d.disk.snapshot.Some?))
  }

  ghost function Created(d: World): World {
    if d.disk.journal.None? then Perform(d, SetJournal([])) else d
  }

  lemma OpenedBare(codec: Codec, d: World, t: Target)
    requires Bare(d, t.records) && MayStart(d, AnchorFor(t.records))
    ensures MayBeOpened(d, t) ==> Towards(codec, Created(d), t)
    ensures !MayBeOpened(d, t) ==> Spoiled(Created(d))
  {
    hide Restored, Holding, AnchorFor;
  }

  lemma OpenedHolding(codec: Codec, d: World, t: Target)
    requires Holding(d, t) && FitsTarget(codec, t)
    ensures MayBeOpened(d, t) ==> Towards(codec, Created(d), t)
    ensures !MayBeOpened(d, t) ==> Spoiled(Created(d))
  {
    hide Restored, Bare, Load, SnapshotFor;
    if t.records == [] {
      OnlyEmptyLoadsEmpty(codec, t.ledger);
    }
  }

  lemma OpenedRestored(codec: Codec, d: World, t: Target)
    requires Restored(codec, d, t.records) && d.disk.journal == Some(t.ledger)
    ensures MayBeOpened(d, t) && Created(d) == d && d.disk.pending.None?
  {
    hide Load, Replay;
  }

  lemma OpenedTowards(codec: Codec, d: World, t: Target)
    requires Towards(codec, d, t) && FitsTarget(codec, t)
    ensures d.disk.pending.None?
    ensures MayBeOpened(d, t) ==> Towards(codec, Created(d), t)
    ensures !MayBeOpened(d, t) ==> Spoiled(Created(d))
  {
    hide FitsTarget, Restored, Created, MayBeOpened, Spoiled, MayStart, AnchorFor;
    if Bare(d, t.records) && MayStart(d, AnchorFor(t.records)) {
      OpenedBare(codec, d, t);
    } else if Holding(d, t) {
      OpenedHolding(codec, d, t);
    } else {
      OpenedRestored(codec, d, t);
    }
  }

  /**
   * Opening a destination between two attempts of one restore is harmless exactly
   * when its anchor has moved, or the source is empty and the destination already
   * holds the intent or the snapshot. Then the next restore returns the whole
   * source; otherwise the destination is spoiled.
   */
  lemma RestoreSurvivesOpening(codec: Codec, source: World, d: World)
    requires Faithful(codec) && Consistent(codec, source)
    requires SourceOf(codec, source).Ok? && Towards(codec, d, SourceOf(codec, source).value)
    ensures var t, after := SourceOf(codec, source).value, PerformAll(d, OpenPlan(codec, d).writes);
            var plan := RestorePlan(codec, source, after);
            && (plan.outcome.Ok? <==> MayBeOpened(d, t))
            && (if plan.outcome.Ok? then
                  plan.outcome.value.records == Committed(codec, source)
                  && Restored(codec, PerformAll(after, plan.writes), Committed(codec, source))
                else Spoiled(after))
  {
    hide *;
    SourceIsWhole(codec, source);
    var t := SourceOf(codec, source).value;
    OpenedTowards(codec, d, t);
    OpenCreates(codec, d);
    SameCreated(d);
    if MayBeOpened(d, t) {
      WholeRestore(codec, source, Created(d), 0, 0);
      SafeTowardsSucceeds(codec, Created(d), t, RestorePlan(codec, source, Created(d)));
    } else {
      SpoiledIsRefused(codec, source, Created(d));
    }
  }

  lemma SameCreated(d: World)
    ensures Created(d) == (if d.disk.journal.None? then Perform(d, SetJournal([])) else d)
  {
  }

  lemma SafeTowardsSucceeds(codec: Codec, d: World, t: Target, plan: Plan<Opened>)
    requires SafeTowards(codec, d, t, plan, 0, 0)
    ensures plan.outcome.Ok? && plan.outcome.value.records == t.records
    ensures Restored(codec, PerformAll(d, plan.writes), t.records)
  {
    hide Restored, Towards, Interrupted, PerformAll;
  }

  lemma Stayed(a: Option<Anchor>, records: seq<Record>)
    ensures MovedAtMostOnce(a, a, records)
  {
  }

  /** A destination on its way to the whole source: the next restore completes, and stopped anywhere it stays so. */
  lemma WholeRestore(codec: Codec, source: World, d: World, done: nat, torn: nat)
    requires SourceOf(codec, source).Ok?
    requires var t := SourceOf(codec, source).value; FitsTarget(codec, t) && Towards(codec, d, t)
    ensures SafeTowards(codec, d, SourceOf(codec, source).value, RestorePlan(codec, source, d), done, torn)
  {
    var t := SourceOf(codec, source).value;
    hide SourceOf;
    if Holding(d, t) {
      HoldingIsUnderway(codec, d, t, t.records);
      ResumeShape(codec, d, t);
      assert t.records[..|t.records|] == t.records;
      FinishSafe(codec, d, t, done, torn);
    } else if Bare(d, t.records) {
      StartSafe(codec, d, t, done, torn);
    } else {
      AlreadyRestored(codec, d, t);
    }
    hide FinishPlan, ResumePlan, StartPlan, AtRest, FitsTarget, AnchorFor, SafeTowards;
  }

  lemma AlreadyRestored(codec: Codec, d: World, t: Target)
    requires Restored(codec, d, t.records) && d.disk.journal == Some(t.ledger) && FitsTarget(codec, t)
    ensures StartPlan(codec, d, t).writes == []
    ensures StartPlan(codec, d, t).outcome.Ok? && StartPlan(codec, d, t).outcome.value.records == t.records
  {
    AtRestOpens(codec, d, t.records);
    hide Load, Replay, OpenUnlocked, AnchorFor;
  }

  /** Opening the source twice in a row reads the same. */
  lemma SourceSettles(codec: Codec, source: World)
    requires Faithful(codec) && Consistent(codec, source)
    ensures SourceOf(codec, PerformAll(source, OpenPlan(codec, source).writes)) == SourceOf(codec, source)
  {
    hide OpenUnlocked, Consistent, Committed, Load, Replay, SourceTarget;
    var open := OpenPlan(codec, source);
    var w := PerformAll(source, open.writes);
    OpenSafe(codec, source, 0, 0);
    JournalExists(codec, source);
    assert RecoverPlan(codec, w) == Plan([], Ok(false));
    assert forall none: seq<Write> | none == [] :: none + none == [];
    assert OpenPlan(codec, w) == Plan([], OpenUnlocked(codec, w));
  }

  lemma JournalExists(codec: Codec, source: World)
    requires OpenPlan(codec, source).outcome.Ok?
    ensures PerformAll(source, OpenPlan(codec, source).writes).disk.journal.Some?
  {
    var recovery := RecoverPlan(codec, source);
    hide RecoverPlan, OpenUnlocked;
    var recovered := PerformAll(source, recovery.writes);
    var create := if recovered.disk.journal.None? then [SetJournal([])] else [];
    PerformConcat(source, recovery.writes, create);
    assert create == [] || create[1..] == [];
  }

  ghost function Restores(stops: seq<nat>): seq<Act> {
    seq(|stops|, i requires 0 <= i < |stops| => Restore(stops[i]))
  }

  lemma RetryStep(codec: Codec, s: Sites, stop: nat)
    requires Faithful(codec) && Consistent(codec, s.source)
    requires SourceOf(codec, s.source).Ok? && Towards(codec, s.destination, SourceOf(codec, s.source).value)
    ensures var t := ActOn(codec, s, Restore(stop));
            && Consistent(codec, t.source)
            && SourceOf(codec, t.source) == SourceOf(codec, s.source)
            && Towards(codec, t.destination, SourceOf(codec, s.source).value)
  {
    hide Consistent, Committed, SourceOf, RestorePlan, Towards, FitsTarget, OpenPlan, Restored, Interrupted, PerformAll;
    SourceIsWhole(codec, s.source);
    SourceStandsStill(codec, s.source);
    WholeRestore(codec, s.source, s.destination, stop, 0);
  }

  lemma SourceStandsStill(codec: Codec, source: World)
    requires Faithful(codec) && Consistent(codec, source)
    ensures var w := PerformAll(source, OpenPlan(codec, source).writes);
            Consistent(codec, w) && SourceOf(codec, w) == SourceOf(codec, source)
  {
    hide Consistent, Committed, SourceOf, OpenPlan, OpenUnlocked, AtRest, Interrupted, PerformAll;
    var writes := OpenPlan(codec, source).writes;
    OpenSafe(codec, source, |writes|, 0);
    SourceSettles(codec, source);
    InterruptedAtEnd(source, writes, |writes|, 0);
  }

  /** Stopped attempts leave the source as it is and the destination on its way. */
  lemma {:induction false} RetriesKeepGoing(codec: Codec, s: Sites, stops: seq<nat>)
    requires Faithful(codec) && Consistent(codec, s.source)
    requires SourceOf(codec, s.source).Ok? && Towards(codec, s.destination, SourceOf(codec, s.source).value)
    ensures var t := Play(codec, s, Restores(stops));
            && Consistent(codec, t.source)
            && SourceOf(codec, t.source) == SourceOf(codec, s.source)
            && Towards(codec, t.destination, SourceOf(codec, s.source).value)
  {
    hide Consistent, SourceOf, Towards, ActOn;
    if stops != [] {
      var front, stop := stops[..|stops| - 1], stops[|stops| - 1];
      RetriesKeepGoing(codec, s, front);
      assert Restores(stops)[..|stops| - 1] == Restores(front);
      RetryStep(codec, Play(codec, s, Restores(front)), stop);
    }
  }

  /** A stopped open of a directory without a pending append has created its journal, or done nothing. */
  lemma StoppedOpen(codec: Codec, d: World, done: nat, torn: nat)
    requires d.disk.pending.None?
    ensures var cut := Interrupted(d, OpenPlan(codec, d).writes, done, torn);
            cut == d || cut == Created(d)
  {
    hide OpenUnlocked;
    assert RecoverPlan(codec, d) == Plan([], Ok(false));
    assert [SetJournal([])][1..] == [];
    assert forall none: seq<Write>, x: seq<Write> | none == [] :: none + x == x;
  }

  /** One stopped restore or one stopped open of the destination. */
  lemma OpenOrRetry(codec: Codec, s: Sites, a: Act)
    requires Faithful(codec) && Consistent(codec, s.source) && SourceOf(codec, s.source).Ok?
    requires Towards(codec, s.destination, SourceOf(codec, s.source).value) || Spoiled(s.destination)
    requires a.Restore? || (a.AtDestination? && a.attempt.Open?)
    ensures var t := ActOn(codec, s, a);
            && Consistent(codec, t.source) && SourceOf(codec, t.source) == SourceOf(codec, s.source)
            && (Towards(codec, t.destination, SourceOf(codec, s.source).value) || Spoiled(t.destination))
  {
    hide Consistent, Committed, SourceOf, RestorePlan, Towards, FitsTarget, OpenPlan, Restored, Interrupted, PerformAll,
         Spoiled, Created;
    SourceIsWhole(codec, s.source);
    SourceStandsStill(codec, s.source);
    var d, t := s.destination, SourceOf(codec, s.source).value;
    if Spoiled(d) {
      SpoiledIsRefused(codec, s.source, d);
      SpoiledOpens(codec, d);
      NothingInterrupted(d);
    } else if a.Restore? {
      WholeRestore(codec, s.source, d, a.done, 0);
      CutIsTowards(codec, d, t, RestorePlan(codec, s.source, d), a.done);
    } else {
      OpenedTowards(codec, d, t);
      StoppedOpen(codec, d, a.attempt.done, a.attempt.torn);
    }
  }

  lemma NothingInterrupted(d: World)
    ensures forall done, torn :: Interrupted(d, [], done, torn) == d
  {
  }

  lemma CutIsTowards(codec: Codec, d: World, t: Target, plan: Plan<Opened>, done: nat)
    requires SafeTowards(codec, d, t, plan, done, 0)
    ensures Towards(codec, Interrupted(d, plan.writes, done, 0), t)
  {
    hide Restored, Towards, Interrupted, PerformAll;
  }

  /**
   * Over every run of restores and opens of the destination stopped anywhere, with
   * an unchanged source, the next restore completes with the whole source exactly
   * when the destination is not spoiled.
   */
  lemma {:induction false} RetriesAmongOpens(codec: Codec, s: Sites, acts: seq<Act>)
    requires Faithful(codec) && Consistent(codec, s.source) && SourceOf(codec, s.source).Ok?
    requires Towards(codec, s.destination, SourceOf(codec, s.source).value) || Spoiled(s.destination)
    requires forall a :: a in acts ==> a.Restore? || (a.AtDestination? && a.attempt.Open?)
    ensures var t := Play(codec, s, acts);
            var plan := RestorePlan(codec, t.source, t.destination);
            && Consistent(codec, t.source) && SourceOf(codec, t.source) == SourceOf(codec, s.source)
            && (Towards(codec, t.destination, SourceOf(codec, s.source).value) || Spoiled(t.destination))
            && (plan.outcome.Ok? <==> !Spoiled(t.destination))
            && (plan.outcome.Ok? ==> plan.outcome.value.records == Committed(codec, s.source))
  {
    hide Consistent, Committed, SourceOf, Towards, ActOn, Spoiled, RestorePlan, FitsTarget, PerformAll, Restored;
    if acts != [] {
      var front, a := acts[..|acts| - 1], acts[|acts| - 1];
      assert a in acts && forall x :: x in front ==> x in acts;
      RetriesAmongOpens(codec, s, front);
      OpenOrRetry(codec, Play(codec, s, front), a);
    }
    SourceIsWhole(codec, s.source);
    var t := Play(codec, s, acts);
    if Spoiled(t.destination) {
      SpoiledIsRefused(codec, t.source, t.destination);
    } else {
      WholeRestore(codec, t.source, t.destination, 0, 0);
    }
  }

  /**
   * As long as the source does not change, restoring always gets there: after any
   * number of stopped attempts the next one that is not stopped returns the whole
   * source, and it is what the destination then holds.
   */
  lemma RetriesComplete(codec: Codec, s: Sites, stops: seq<nat>)
    requires Faithful(codec) && Consistent(codec, s.source)
    requires SourceOf(codec, s.source).Ok? && Towards(codec, s.destination, SourceOf(codec, s.source).value)
    ensures var t := Play(codec, s, Restores(stops));
            var plan := RestorePlan(codec, t.source, t.destination);
            && plan.outcome.Ok?
            && plan.outcome.value.records == Committed(codec, s.source)
            && Restored(codec, PerformAll(t.destination, plan.writes), Committed(codec, s.source))
  {
    hide Consistent, Committed, SourceOf, RestorePlan, Towards, FitsTarget, Restored, Interrupted, PerformAll, Play;
    SourceIsWhole(codec, s.source);
    RetriesKeepGoing(codec, s, stops);
    var t := Play(codec, s, Restores(stops));
    WholeRestore(codec, t.source, t.destination, 0, 0);
  }

  /** What resuming an intent for an older part of the source comes to. */
  lemma StaleResume(codec: Codec, d: World, source: Target)
    requires Underway(codec, d, source.records)
    requires d.disk.intent.value.count < |source.records|
    ensures var i := d.disk.intent.value;
            var t := TargetOf(i, source.records);
            ResumePlan(codec, d, i, source)
            == (if i.ledger != Lines(codec, t.records) then Plan([], Err(CorruptRestorePending))
                else if t.records != [] && d.anchor == AnchorFor(t.records) then FinishPlan(codec, d, t)
                else Plan([], Err(ProtectedAnchorMismatch)))
  {
    hide FinishPlan, Load, Lines, Replay;
    var i := d.disk.intent.value;
    var t := TargetOf(i, source.records);
    assert PrefixTarget(codec, i, source.records)
        == (if i.ledger == Lines(codec, t.records) then Ok(t) else Err(CorruptRestorePending));
    assert AnchorFor(t.records) != AnchorFor(source.records);
    hide PrefixTarget, FitsTarget, SnapshotFor;
  }

  /**
   * An intent for an older part of the source is honoured exactly when the
   * destination anchor already holds that part and the intent's journal is the one
   * the ledger writes for it; otherwise nothing is written.
   */
  lemma StaleIntentNeedsItsAnchor(codec: Codec, source: World, d: World)
    requires Faithful(codec) && Consistent(codec, source)
    requires SourceOf(codec, source).Ok? && Underway(codec, d, Committed(codec, source))
    requires d.disk.intent.value.count < |Committed(codec, source)|
    ensures var i := d.disk.intent.value;
            var plan, part := RestorePlan(codec, source, d), Committed(codec, source)[..i.count];
            && (plan.outcome.Ok? <==>
                  part != [] && d.anchor == AnchorFor(part) && i.ledger == Lines(codec, part))
            && (if plan.outcome.Ok? then plan.outcome.value.records == part else plan.writes == [])
  {
    SourceIsWhole(codec, source);
    var whole := SourceOf(codec, source).value;
    hide SourceOf, Consistent, Committed;
    StaleResume(codec, d, whole);
    FinishWrites(codec, d, TargetOf(d.disk.intent.value, whole.records));
    hide FinishPlan, ResumePlan, Load, SnapshotFor, Lines, PerformAll, Holding, FitsTarget;
  }

  /**
   * An intent for as many records as the source has, but not the source's own one,
   * is honoured exactly when it keeps the journal the ledger writes for them;
   * otherwise nothing is written.
   */
  lemma FullIntentNeedsItsJournal(codec: Codec, source: World, d: World)
    requires Faithful(codec) && Consistent(codec, source)
    requires SourceOf(codec, source).Ok? && Underway(codec, d, Committed(codec, source))
    requires d.disk.intent.value.count == |Committed(codec, source)|
    requires d.disk.intent.value != IntentTo(SourceOf(codec, source).value)
    ensures var i, records := d.disk.intent.value, Committed(codec, source);
            var plan := RestorePlan(codec, source, d);
            && (plan.outcome.Ok? <==> i.ledger == Lines(codec, records))
            && (if plan.outcome.Ok? then plan.outcome.value.records == records else plan.writes == [])
  {
    SourceIsWhole(codec, source);
    var whole := SourceOf(codec, source).value;
    hide SourceOf, Consistent, Committed;
    FullResume(codec, d, whole);
    FinishWrites(codec, d, TargetOf(d.disk.intent.value, whole.records));
    hide FinishPlan, ResumePlan, Load, SnapshotFor, Lines, PerformAll, Holding, FitsTarget;
    assert whole.records[..|whole.records|] == whole.records;
  }

  lemma FullResume(codec: Codec, d: World, source: Target)
    requires Underway(codec, d, source.records)
    requires d.disk.intent.value.count == |source.records| && d.disk.intent.value != IntentTo(source)
    ensures var i := d.disk.intent.value;
            var t := TargetOf(i, source.records);
            ResumePlan(codec, d, i, source)
            == (if i.ledger != Lines(codec, t.records) then Plan([], Err(CorruptRestorePending))
                else FinishPlan(codec, d, t))
  {
    hide FinishPlan, Load, Lines, Replay;
    var i := d.disk.intent.value;
    var t := TargetOf(i, source.records);
    assert t.records == source.records;
    assert PrefixTarget(codec, i, source.records)
        == (if i.ledger == Lines(codec, t.records) then Ok(t) else Err(CorruptRestorePending));
    hide PrefixTarget, FitsTarget, SnapshotFor;
  }

  /** A directory that holds nothing of anybody else: no strange entries, and at most the files of an empty ledger. */
  ghost predicate OnlyEmptyFiles(d: Disk) {
    && !d.foreign && d.pending.None?
    && (d.journal.None? || d.journal == Some([]))
    && (d.snapshot.None? || (SnapshotFor([]).Ok? && d.snapshot == Some(SnapshotFor([]).value)))
  }

  lemma EmptyTargetFiles(codec: Codec, t: Target)
    requires FitsTarget(codec, t) && t.records == []
    ensures t.ledger == [] && SnapshotFor([]) == Ok(t.snapshot)
  {
    hide Load, SnapshotFor;
    OnlyEmptyLoadsEmpty(codec, t.ledger);
  }

  lemma PrefixFits(codec: Codec, i: Intent, records: seq<Record>)
    requires PrefixTarget(codec, i, records).Ok?
    ensures var t := PrefixTarget(codec, i, records).value;
            SnapshotFor(t.records) == Ok(t.snapshot) && t.ledger == Lines(codec, t.records)
  {
    hide SnapshotFor, Lines;
  }

  lemma ResumeReplaces(codec: Codec, d: World, i: Intent, source: Target)
    requires FitsTarget(codec, source) && ResumePlan(codec, d, i, source).writes != []
    ensures NoStrangers(d.disk) && (d.anchor.None? ==> OnlyEmptyFiles(d.disk))
  {
    hide FinishPlan, Load, SnapshotFor, PrefixTarget, Lines, FitsTarget;
    var t := if i == IntentTo(source) then source else PrefixTarget(codec, i, source.records).value;
    if d.anchor.None? && AnchorFor(t.records).None? {
      if i == IntentTo(source) {
        EmptyTargetFiles(codec, source);
      } else {
        PrefixFits(codec, i, source.records);
        NoLines(codec);
      }
    }
  }

  lemma NoLines(codec: Codec)
    ensures Lines(codec, []) == []
  {
  }

  lemma StartReplaces(codec: Codec, d: World, source: Target)
    requires FitsTarget(codec, source) && StartPlan(codec, d, source).writes != []
    ensures OnlyEmptyFiles(d.disk)
  {
    hide FinishPlan, Load, SnapshotFor, OpenUnlocked, FitsTarget;
    if !MayStart(d, AnchorFor(source.records)) {
      assert source.ledger == [];
      EmptyLedger(codec, source);
      EmptyTargetFiles(codec, source);
    }
  }

  lemma EmptyLedger(codec: Codec, t: Target)
    requires FitsTarget(codec, t) && t.ledger == []
    ensures t.records == []
  {
    hide SnapshotFor;
  }

  /**
   * A restore never replaces what it did not write: whatever the destination holds, a
   * restore that writes finds no entry the ledger does not know and no pending append,
   * and, where no intent is recorded or no anchor stands, at most the files of an
   * empty ledger.
   */
  lemma OnlyOwnFilesAreReplaced(codec: Codec, source: World, d: World)
    requires Faithful(codec) && Consistent(codec, source)
    requires RestorePlan(codec, source, d).writes != []
    ensures NoStrangers(d.disk)
    ensures d.disk.intent.None? || d.anchor.None? ==> OnlyEmptyFiles(d.disk)
  {
    SourceIsWhole(codec, source);
    hide SourceOf, Consistent, Committed, ResumePlan, StartPlan, FitsTarget, SnapshotFor;
    var t := SourceOf(codec, source).value;
    if d.disk.intent.Some? {
      ResumeReplaces(codec, d, d.disk.intent.value, t);
    } else {
      StartReplaces(codec, d, t);
    }
  }

  lemma FinishKeepsAnchor(codec: Codec, d: World, t: Target)
    requires d.anchor.Some?
    ensures forall x :: x in FinishPlan(codec, d, t).writes ==> !x.MoveAnchor?
  {
    hide OpenUnlocked, AnchorFor;
  }

  /** A restore never moves an anchor that is set, whatever source and destination hold. */
  lemma SetAnchorStands(codec: Codec, source: World, d: World)
    requires d.anchor.Some?
    ensures forall x :: x in RestorePlan(codec, source, d).writes ==> !x.MoveAnchor?
  {
    hide SourceOf, FinishPlan, PrefixTarget, OpenUnlocked;
    var whole := SourceOf(codec, source);
    if whole.Ok? {
      FinishKeepsAnchor(codec, Perform(d, SetIntent(IntentTo(whole.value))), whole.value);
      if d.disk.intent.Some? {
        var i := d.disk.intent.value;
        FinishKeepsAnchor(codec, d, whole.value);
        if PrefixTarget(codec, i, whole.value.records).Ok? {
          FinishKeepsAnchor(codec, d, PrefixTarget(codec, i, whole.value.records).value);
        }
      }
    }
  }
}
