/** The restore operation itself, over a source and a destination medium. */
module RestoreLedger {
  import opened Prelude
  import opened LedgerReplay
  import opened HashChain
  import opened DurableStore
  import opened DurableMedium
  import opened CrashProtocol
  import opened AppendRuns
  import opened ReplayMachine
  import opened DurableLedgers
  import opened RestoreProtocol

  /** What `FinishPlan` does once the files are in place. */
  ghost function CheckPlan(codec: Codec, filled: World, t: Target): Plan<Opened> {
    var o := OpenUnlocked(codec, filled);
    if o.Err? then Plan([], o)
    else if o.value.records != t.records || o.value.state != t.snapshot.state
            || Head(o.value.records) != Head(t.records)
      then Plan([], Err(SnapshotMismatch))
    else Plan([ClearIntent], o)
  }

  lemma FinishIsFillThenCheck(codec: Codec, d: World, t: Target, move: seq<Write>)
    requires d.anchor == AnchorFor(t.records) || (d.anchor.None? && AnchorFor(t.records).Some?)
    requires move == if d.anchor != AnchorFor(t.records) then [MoveAnchor(AnchorFor(t.records).value)] else []
    ensures var fill: Plan<()> := Plan(move + [SetJournal(t.ledger), SetSnapshot(t.snapshot)], Ok(()));
            FinishPlan(codec, d, t) == Then(fill, CheckPlan(codec, PerformAll(d, fill.writes), t))
  {
    hide OpenUnlocked, AnchorFor, PerformAll;
    var fill := move + [SetJournal(t.ledger), SetSnapshot(t.snapshot)];
    assert fill + [] == fill;
  }

  /** Reading the filled destination back, and only then dropping the intent. */
  method CheckAndClear(codec: Codec, m: Medium, t: Target) returns (r: Result<Opened, Failure>)
    requires m.world.disk.journal.Some?
    modifies m
    ensures Ran(CheckPlan(codec, old(m.world), t), old(m.world), old(m.fuse), m.torn, m.lostReply, m.world, m.fuse, r)
  {
    var ledger := new DurableLedger.Empty(codec, m);
    hide OpenUnlocked, StoppedAt, Replay, Indexes;
    var ready := ledger.Reopen();
    if ready.Err? {
      return Err(ready.error);
    }
    if ledger.records != t.records || ledger.state != t.snapshot.state || Head(ledger.records) != Head(t.records) {
      return Err(Failed(SnapshotMismatch));
    }
    var shown := Opened(ledger.records, ledger.state, ledger.anchor, ledger.fileLen);
    assert OpenUnlocked(codec, old(m.world)) == Ok(shown);
    hide PerformAll;
    var cleared := m.DoAll([ClearIntent]);
    return if cleared then Ok(shown) else Err(Stopped);
  }

  /** The anchor step, the two files, and the check. */
  method Finish(codec: Codec, m: Medium, t: Target) returns (r: Result<Opened, Failure>)
    modifies m
    ensures Ran(FinishPlan(codec, old(m.world), t), old(m.world), old(m.fuse), m.torn, m.lostReply, m.world, m.fuse, r)
  {
    ghost var d, fuse := m.world, m.fuse;
    hide StoppedAt, PerformAll, AnchorFor, OpenUnlocked;
    var anchor := AnchorFor(t.records);
    if m.world.anchor != anchor && !(m.world.anchor.None? && anchor.Some?) {
      NoWrites(d);
      return Err(Failed(ProtectedAnchorMismatch));
    }
    var move := if m.world.anchor != anchor then [MoveAnchor(anchor.value)] else [];
    var writes := move + [SetJournal(t.ledger), SetSnapshot(t.snapshot)];
    FinishIsFillThenCheck(codec, d, t, move);
    FilledHasJournal(d, move, t);
    hide FinishPlan, CheckPlan, Then;
    var filled := m.DoAll(writes);
    ghost var mid, midFuse := m.world, m.fuse;
    if filled {
      r := CheckAndClear(codec, m, t);
    } else {
      r := Err(Stopped);
    }
    hide Ran;
    RanThen(Plan(writes, Ok(())), CheckPlan(codec, PerformAll(d, writes), t), d, fuse, m.torn, m.lostReply, mid,
            midFuse, if filled then Ok(()) else Err(Stopped), m.world, m.fuse, r);
  }

  lemma NoWrites(w: World)
    ensures PerformAll(w, []) == w
  {
  }

  lemma FilledHasJournal(d: World, move: seq<Write>, t: Target)
    ensures PerformAll(d, move + [SetJournal(t.ledger), SetSnapshot(t.snapshot)]).disk.journal.Some?
  {
    PerformConcat(d, move, [SetJournal(t.ledger), SetSnapshot(t.snapshot)]);
    var w := PerformAll(d, move);
    assert [SetJournal(t.ledger), SetSnapshot(t.snapshot)][1..] == [SetSnapshot(t.snapshot)];
    assert PerformAll(w, [SetJournal(t.ledger), SetSnapshot(t.snapshot)])
        == PerformAll(Perform(w, SetJournal(t.ledger)), [SetSnapshot(t.snapshot)]);
  }

  /** Rebuilds the part of the source that an earlier intent names. */
  method RebuildPrefix(codec: Codec, i: Intent, records: seq<Record>) returns (r: Result<Target, LedgerError>)
    ensures r == PrefixTarget(codec, i, records)
  {
    hide Replay, Line;
    if i.count > |records| || Head(records[..i.count]) != i.head {
      return Err(CorruptRestorePending);
    }
    var prefix := records[..i.count];
    var replayed := ReplayJournal(EventsOf(prefix));
    if replayed.Err? {
      return Err(replayed.error);
    }
    var snapshot := Snapshot(LEDGER_SCHEMA_VERSION, |prefix|, Head(prefix), replayed.value);
    var ledger: seq<byte> := [];
    var n := 0;
    while n < |prefix|
      invariant 0 <= n <= |prefix|
      invariant ledger == Lines(codec, prefix[..n])
    {
      ledger := ledger + Line(codec, prefix[n]);
      LinesSnoc(codec, prefix, n);
      n := n + 1;
    }
    assert prefix[..n] == prefix;
    if ledger != i.ledger || snapshot != i.snapshot {
      return Err(CorruptRestorePending);
    }
    return Ok(Target(ledger, snapshot, prefix));
  }

  lemma LinesSnoc(codec: Codec, records: seq<Record>, n: nat)
    requires n < |records|
    ensures Lines(codec, records[..n + 1]) == Lines(codec, records[..n]) + Line(codec, records[n])
  {
    assert records[..n + 1][..n] == records[..n];
  }

  method Resume(codec: Codec, m: Medium, i: Intent, source: Target) returns (r: Result<Opened, Failure>)
    modifies m
    ensures Ran(ResumePlan(codec, old(m.world), i, source), old(m.world), old(m.fuse), m.torn, m.lostReply,
                m.world, m.fuse, r)
  {
    NoWrites(m.world);
    hide FinishPlan, PrefixTarget, PerformAll, StoppedAt, AnchorFor;
    if i.count == 0 && i.head != Genesis {
      return Err(Failed(CorruptRestorePending));
    }
    var t := source;
    if i != IntentTo(source) {
      var found := RebuildPrefix(codec, i, source.records);
      if found.Err? {
        return Err(Failed(found.error));
      }
      t := found.value;
    }
    if m.world.anchor.None? && !OnlyUnanchoredEntries(m.world.disk, t) {
      return Err(Failed(RestoreDestinationNotEmpty));
    }
    hide OnlyUnanchoredEntries;
    if !NoStrangers(m.world.disk) {
      return Err(Failed(CorruptRestorePending));
    }
    if AnchorFor(t.records) != AnchorFor(source.records)
       && (AnchorFor(t.records).None? || m.world.anchor != AnchorFor(t.records)) {
      return Err(Failed(ProtectedAnchorMismatch));
    }
    r := Finish(codec, m, t);
  }

  method Start(codec: Codec, m: Medium, source: Target) returns (r: Result<Opened, Failure>)
    modifies m
    ensures Ran(StartPlan(codec, old(m.world), source), old(m.world), old(m.fuse), m.torn, m.lostReply,
                m.world, m.fuse, r)
  {
    ghost var d, fuse := m.world, m.fuse;
    NoWrites(d);
    hide FinishPlan, MayStart, HoldsFiles, StoppedAt, AnchorFor, OpenUnlocked;
    if MayStart(m.world, AnchorFor(source.records)) {
      var begin := SetIntent(IntentTo(source));
      StartIsBeginThenFinish(codec, d, source);
      hide StartPlan, PerformAll, Then;
      var begun := m.DoAll([begin]);
      ghost var mid, midFuse := m.world, m.fuse;
      if begun {
        r := Finish(codec, m, source);
      } else {
        r := Err(Stopped);
      }
      hide Ran;
      RanThen(Plan([begin], Ok(())), FinishPlan(codec, PerformAll(d, [begin]), source), d, fuse, m.torn, m.lostReply,
              mid, midFuse, if begun then Ok(()) else Err(Stopped), m.world, m.fuse, r);
      return;
    }
    if !HoldsFiles(m.world.disk, source) {
      return Err(Failed(RestoreDestinationNotEmpty));
    }
    r := CompleteOrRefuse(codec, m, source);
  }

  /** A destination that holds the right files is complete if it opens as the source. */
  method CompleteOrRefuse(codec: Codec, m: Medium, source: Target) returns (r: Result<Opened, Failure>)
    requires !MayStart(m.world, AnchorFor(source.records)) && HoldsFiles(m.world.disk, source)
    modifies m
    ensures Ran(StartPlan(codec, old(m.world), source), old(m.world), old(m.fuse), m.torn, m.lostReply,
                m.world, m.fuse, r)
  {
    hide PerformAll, StoppedAt, OpenUnlocked, MayStart, HoldsFiles, Replay, Indexes, AnchorFor;
    var ledger := new DurableLedger.Empty(codec, m);
    var ready := ledger.Reopen();
    if ready.Err? {
      return if ready.error.Stopped? then Err(Stopped) else Err(Failed(RestoreDestinationNotEmpty));
    }
    if ledger.records != source.records || ledger.state != source.snapshot.state {
      return Err(Failed(RestoreDestinationNotEmpty));
    }
    return Ok(Opened(ledger.records, ledger.state, ledger.anchor, ledger.fileLen));
  }

  lemma StartIsBeginThenFinish(codec: Codec, d: World, source: Target)
    requires MayStart(d, AnchorFor(source.records))
    ensures var begin := SetIntent(IntentTo(source));
            var first: Plan<()> := Plan([begin], Ok(()));
            StartPlan(codec, d, source) == Then(first, FinishPlan(codec, PerformAll(d, [begin]), source))
  {
    hide FinishPlan, MayStart, AnchorFor;
  }

  /** What a run of a restore over two mediums leaves behind and returns. */
  ghost predicate RestoreRan(
    codec: Codec, before: Sites, sourceFuse: nat, fuse: nat, sourceTorn: nat, torn: nat, sourceLost: bool, lost: bool,
    after: Sites, left: nat, r: Result<Opened, Failure>)
  {
    var open := OpenPlan(codec, before.source);
    if sourceFuse < |open.writes| then
      && after.source == StoppedAt(before.source, open.writes, sourceFuse, sourceTorn, sourceLost)
      && after.destination == before.destination && r == Err(Stopped)
    else
      && after.source == PerformAll(before.source, open.writes)
      && Ran(RestorePlan(codec, before.source, before.destination), before.destination, fuse, torn, lost,
             after.destination, left, r)
  }

  /** Restores the source into the destination; the source itself is recovered first. */
  method RestoreClean(codec: Codec, source: Medium, destination: Medium) returns (r: Result<Opened, Failure>)
    requires source != destination
    modifies source, destination
    ensures RestoreRan(codec, old(Sites(source.world, destination.world)), old(source.fuse), old(destination.fuse),
                       source.torn, destination.torn, source.lostReply, destination.lostReply,
                       Sites(source.world, destination.world), destination.fuse, r)
  {
    hide OpenPlan, PerformAll, StoppedAt, Load, Replay, ResumePlan, StartPlan, Indexes;
    NoWrites(destination.world);
    var ledger := new DurableLedger.Empty(codec, source);
    var ready := ledger.RecoverAndReopen();
    if ready.Err? {
      return Err(ready.error);
    }
    var shown := Opened(ledger.records, ledger.state, ledger.anchor, ledger.fileLen);
    assert SourceOf(codec, old(source.world)) == SourceTarget(codec, source.world, shown);
    var whole := SourceTarget(codec, source.world, shown);
    hide SourceOf, SourceTarget;
    if whole.Err? {
      return Err(Failed(whole.error));
    }
    if destination.world.disk.intent.Some? {
      r := Resume(codec, destination, destination.world.disk.intent.value, whole.value);
    } else {
      r := Start(codec, destination, whole.value);
    }
  }

  /**
   * So running the restore method on proper sites is safe, wherever either medium
   * gives out and also when the anchor moved and its reply was lost: the sites stay
   * proper, the source keeps its records, the destination anchor moves at most once,
   * and a restore that returns left the prefix it returns.
   */
  lemma RunningRestoreIsSafe(
    codec: Codec, before: Sites, sourceFuse: nat, fuse: nat, sourceTorn: nat, torn: nat, sourceLost: bool, lost: bool,
    after: Sites, left: nat, r: Result<Opened, Failure>)
    requires Faithful(codec) && SitesOk(codec, before)
    requires RestoreRan(codec, before, sourceFuse, fuse, sourceTorn, torn, sourceLost, lost, after, left, r)
    ensures SitesOk(codec, after) && Committed(codec, after.source) == Committed(codec, before.source)
    ensures MovedAtMostOnce(before.destination.anchor, after.destination.anchor, Committed(codec, after.source))
    ensures r.Ok? ==> r.value.records <= Committed(codec, after.source)
                      && Restored(codec, after.destination, r.value.records)
  {
    var open := OpenPlan(codec, before.source).writes;
    hide OpenPlan, RestorePlan, Consistent, Committed, DestinationOk, MovedAtMostOnce, Restored, PerformAll, StoppedAt;
    SourceRan(codec, before.source, sourceFuse, sourceTorn, sourceLost);
    if sourceFuse < |open| {
      Stayed(before.destination.anchor, Committed(codec, before.source));
    } else {
      DestinationRan(codec, before, fuse, torn, lost, after.destination, left, r);
    }
  }

  lemma SourceRan(codec: Codec, source: World, fuse: nat, torn: nat, lost: bool)
    requires Faithful(codec) && Consistent(codec, source)
    ensures var open := OpenPlan(codec, source).writes;
            var stopped, settled := StoppedAt(source, open, fuse, torn, lost), PerformAll(source, open);
            && Consistent(codec, stopped) && Committed(codec, stopped) == Committed(codec, source)
            && Consistent(codec, settled) && Committed(codec, settled) == Committed(codec, source)
  {
    hide *;
    var open := OpenPlan(codec, source).writes;
    var done, rest := StopIsACut(source, open, fuse, torn, lost);
    OpenSafe(codec, source, done, rest);
    OpenSafe(codec, source, |open|, rest);
    InterruptedAtEnd(source, open, |open|, rest);
  }

  lemma DestinationRan(
    codec: Codec, s: Sites, fuse: nat, torn: nat, lost: bool, after: World, left: nat, r: Result<Opened, Failure>)
    requires Faithful(codec) && SitesOk(codec, s)
    requires Ran(RestorePlan(codec, s.source, s.destination), s.destination, fuse, torn, lost, after, left, r)
    ensures var records := Committed(codec, s.source);
            && DestinationOk(codec, after, records)
            && MovedAtMostOnce(s.destination.anchor, after.anchor, records)
            && (r.Ok? ==> r.value.records <= records && Restored(codec, after, r.value.records))
  {
    var plan := RestorePlan(codec, s.source, s.destination);
    hide RestorePlan, Consistent, Committed, DestinationOk, MovedAtMostOnce, Restored, PerformAll, StoppedAt,
         Interrupted;
    var done, rest := StopIsACut(s.destination, plan.writes, fuse, torn, lost);
    RestoreSafe(codec, s.source, s.destination, done, rest);
    RestoreSafe(codec, s.source, s.destination, |plan.writes|, rest);
    InterruptedAtEnd(s.destination, plan.writes, |plan.writes|, rest);
  }
}
