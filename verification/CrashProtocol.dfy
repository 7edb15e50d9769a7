/**
 * Append is crash-atomic. Whatever stops a process, wherever it stops, and
 * however often recovery is stopped in turn, the anchor alone decides whether
 * the new record counts, and the next open returns exactly what it decides.
 */
module CrashProtocol {
  import opened Prelude
  import opened LedgerReplay
  import opened HashChain
  import opened DurableStore

  /** A directory at rest: its journal, snapshot and anchor hold exactly these records. */
  ghost predicate AtRest(codec: Codec, w: World, records: seq<Record>) {
    && w.disk.pending.None?
    && Load(codec, Payload(w)) == Ok(records)
    && w.anchor == AnchorFor(records)
    && SnapshotFor(records).Ok?
    && (if w.disk.snapshot.Some? then SnapshotFor(records) == Ok(w.disk.snapshot.value) else records == [])
  }

  /** An intent written by an append of `event` behind `prior`, whose journal bytes are `base`. */
  ghost predicate IntentFor(codec: Codec, p: Pending, base: seq<byte>, prior: seq<Record>) {
    && p.version == PENDING_SCHEMA_VERSION
    && p.priorLen == |base|
    && p.priorCount == |prior|
    && p.priorHead == Head(prior)
    && Load(codec, base) == Ok(prior)
    && Continues(prior, p.record)
    && SnapshotFor(prior).Ok?
    && SnapshotFor(prior + [p.record]) == Ok(p.snapshot)
  }

  /** An append under way: some part of its line may be in the journal, and the anchor may have moved. */
  ghost predicate InFlight(codec: Codec, w: World, base: seq<byte>, prior: seq<Record>) {
    && w.disk.pending.Some?
    && IntentFor(codec, w.disk.pending.value, base, prior)
    && base <= Payload(w)
    && Payload(w)[|base|..] <= Line(codec, w.disk.pending.value.record)
    && (w.anchor == AnchorFor(prior) || w.anchor == AnchorFor(prior + [w.disk.pending.value.record]))
  }

  /** The bytes and records that an append under way started from. */
  function BaseOf(w: World): seq<byte> {
    if w.disk.pending.Some? && w.disk.pending.value.priorLen <= |Payload(w)| then
      Payload(w)[..w.disk.pending.value.priorLen]
    else Payload(w)
  }

  function RecordsAt(codec: Codec, payload: seq<byte>): seq<Record> {
    var loaded := Load(codec, payload);
    if loaded.Ok? then loaded.value else []
  }

  ghost predicate Consistent(codec: Codec, w: World) {
    if w.disk.pending.None? then AtRest(codec, w, RecordsAt(codec, Payload(w)))
    else InFlight(codec, w, BaseOf(w), RecordsAt(codec, BaseOf(w)))
  }

  /** The records that count: those the anchor vouches for. */
  function Committed(codec: Codec, w: World): seq<Record> {
    var prior := RecordsAt(codec, BaseOf(w));
    if w.disk.pending.Some? && w.anchor != AnchorFor(prior) then prior + [w.disk.pending.value.record]
    else prior
  }

  lemma AtRestIsConsistent(codec: Codec, w: World, records: seq<Record>)
    requires AtRest(codec, w, records)
    ensures Consistent(codec, w) && Committed(codec, w) == records
  {
  }

  lemma InFlightIsConsistent(codec: Codec, w: World, base: seq<byte>, prior: seq<Record>)
    requires InFlight(codec, w, base, prior)
    ensures Consistent(codec, w)
    ensures w.anchor == AnchorFor(prior) ==> Committed(codec, w) == prior
    ensures w.anchor == AnchorFor(prior + [w.disk.pending.value.record]) ==>
              Committed(codec, w) == prior + [w.disk.pending.value.record]
  {
    assert BaseOf(w) == base;
    AnchorsDiffer(prior, w.disk.pending.value.record);
  }

  lemma AnchorsDiffer(prior: seq<Record>, r: Record)
    ensures AnchorFor(prior) != AnchorFor(prior + [r])
  {
  }

  lemma RecordedIntentIsWellFormed(codec: Codec, p: Pending, base: seq<byte>, prior: seq<Record>)
    requires IntentFor(codec, p, base, prior)
    ensures WellFormedPending(p)
    ensures AnchorFor(prior + [p.record]) == Some(AnchorOf(p.snapshot))
    ensures ValidateSnapshot(p.snapshot, prior + [p.record]).Pass?
  {
    hide Replay;
  }

  /** What recovery does about an append under way, in the two cases. */
  lemma RecoveryCases(codec: Codec, w: World, base: seq<byte>, prior: seq<Record>)
    requires InFlight(codec, w, base, prior)
    ensures var p := w.disk.pending.value;
            RecoverPlan(codec, w) ==
            if w.anchor == AnchorFor(prior) then RollbackPlan(base, prior, Payload(w)[|base|..] != [])
            else ForwardPlan(base, Line(codec, p.record), prior, p)
  {
    var p := w.disk.pending.value;
    assert Payload(w)[..p.priorLen] == base;
    RecordedIntentIsWellFormed(codec, p, base, prior);
    hide Replay, Load, RollbackPlan, ForwardPlan, WellFormedPending, ValidateSnapshot, SnapshotFor;
    AnchorsDiffer(prior, p.record);
  }

  /** A cut before or behind the first whole-file write. */
  lemma CutFirst(w: World, x: Write, rest: seq<Write>, done: nat, torn: nat)
    requires !x.AppendJournal?
    ensures PerformAll(w, [x] + rest) == PerformAll(Perform(w, x), rest)
    ensures Interrupted(w, [x] + rest, done, torn)
         == (if done == 0 then w else Interrupted(Perform(w, x), rest, done - 1, torn))
  {
    assert ([x] + rest)[1..] == rest;
  }

  /** Two whole-file writes, cut anywhere. */
  lemma CutTwo(w: World, a: Write, b: Write, done: nat, torn: nat)
    requires !a.AppendJournal? && !b.AppendJournal?
    ensures PerformAll(w, [a, b]) == Perform(Perform(w, a), b)
    ensures Interrupted(w, [a, b], done, torn)
         == (if done == 0 then w else if done == 1 then Perform(w, a) else Perform(Perform(w, a), b))
  {
    assert [a, b][1..] == [b] && [b][1..] == [];
    assert PerformAll(Perform(w, a), [b]) == Perform(Perform(w, a), b);
    if done >= 1 {
      assert Interrupted(w, [a, b], done, torn) == Interrupted(Perform(w, a), [b], done - 1, torn);
    }
    if done >= 2 {
      InterruptedAtEnd(w, [a, b], done, torn);
    }
  }

  /** Three whole-file writes, cut anywhere. */
  lemma CutThree(w: World, a: Write, b: Write, c: Write, done: nat, torn: nat)
    requires !a.AppendJournal? && !b.AppendJournal? && !c.AppendJournal?
    ensures PerformAll(w, [a, b, c]) == Perform(Perform(Perform(w, a), b), c)
    ensures Interrupted(w, [a, b, c], done, torn)
         == (if done == 0 then w else if done == 1 then Perform(w, a)
             else if done == 2 then Perform(Perform(w, a), b) else Perform(Perform(Perform(w, a), b), c))
  {
    assert [a, b, c][1..] == [b, c];
    CutTwo(Perform(w, a), b, c, if done == 0 then 0 else done - 1, torn);
  }

  /** Rewriting the snapshot of an append under way changes nothing that counts. */
  lemma SnapshotInFlight(codec: Codec, w: World, base: seq<byte>, prior: seq<Record>, x: Write)
    requires InFlight(codec, w, base, prior)
    requires x.SetSnapshot? || x.DropSnapshot?
    ensures InFlight(codec, Perform(w, x), base, prior)
  {
    hide IntentFor;
  }

  /** So does putting the journal back to its base, or forward to its base and the whole line. */
  lemma JournalInFlight(codec: Codec, w: World, base: seq<byte>, prior: seq<Record>, tail: seq<byte>)
    requires InFlight(codec, w, base, prior)
    requires tail <= Line(codec, w.disk.pending.value.record)
    ensures InFlight(codec, Perform(w, SetJournal(base + tail)), base, prior)
  {
    hide IntentFor, Line;
    assert (base + tail)[|base|..] == tail;
  }

  /** Dropping the intent once journal and snapshot agree with the anchor brings the directory to rest. */
  lemma ClearedIsAtRest(codec: Codec, w: World, records: seq<Record>)
    requires Load(codec, Payload(w)) == Ok(records)
    requires w.anchor == AnchorFor(records)
    requires SnapshotFor(records).Ok?
    requires if records == [] then w.disk.snapshot.None? else w.disk.snapshot == Some(SnapshotFor(records).value)
    ensures AtRest(codec, Perform(w, ClearPending), records)
  {
    hide SnapshotFor, Load;
  }

  lemma RollbackWrites(base: seq<byte>, prior: seq<Record>, replace: bool)
    requires SnapshotFor(prior).Ok?
    ensures var snap := if prior == [] then DropSnapshot else SetSnapshot(SnapshotFor(prior).value);
            RollbackPlan(base, prior, replace)
            == Plan(if replace then [SetJournal(base), snap, ClearPending] else [snap, ClearPending], Ok(replace))
  {
    hide SnapshotFor;
  }

  lemma ForwardWrites(base: seq<byte>, line: seq<byte>, prior: seq<Record>, p: Pending)
    requires SnapshotFor(prior + [p.record]) == Ok(p.snapshot)
    requires ValidateSnapshot(p.snapshot, prior + [p.record]).Pass?
    ensures ForwardPlan(base, line, prior, p)
         == Plan([SetJournal(base + line), SetSnapshot(p.snapshot), ClearPending], Ok(true))
  {
    hide SnapshotFor, ValidateSnapshot;
  }

  ghost predicate StillInFlight(codec: Codec, w: World, cut: World, base: seq<byte>, prior: seq<Record>) {
    InFlight(codec, cut, base, prior) && cut.disk.pending == w.disk.pending
  }

  /** The last two steps of either recovery, from a journal that already reads as `records`. */
  lemma FinishSafe(
    codec: Codec, w: World, base: seq<byte>, prior: seq<Record>, records: seq<Record>, snap: Write)
    requires InFlight(codec, w, base, prior)
    requires Load(codec, Payload(w)) == Ok(records) && w.anchor == AnchorFor(records)
    requires SnapshotFor(records).Ok?
    requires snap == if records == [] then DropSnapshot else SetSnapshot(SnapshotFor(records).value)
    ensures InFlight(codec, Perform(w, snap), base, prior)
    ensures AtRest(codec, Perform(Perform(w, snap), ClearPending), records)
  {
    hide InFlight, Load, SnapshotFor, AnchorFor, AtRest;
    SnapshotInFlight(codec, w, base, prior, snap);
    ClearedIsAtRest(codec, Perform(w, snap), records);
  }

  /** Those two steps, stopped anywhere. */
  lemma FinishCut(
    codec: Codec, w: World, base: seq<byte>, prior: seq<Record>, records: seq<Record>, snap: Write, done: nat,
    torn: nat)
    requires InFlight(codec, w, base, prior)
    requires Load(codec, Payload(w)) == Ok(records) && w.anchor == AnchorFor(records)
    requires SnapshotFor(records).Ok?
    requires snap == if records == [] then DropSnapshot else SetSnapshot(SnapshotFor(records).value)
    ensures AtRest(codec, PerformAll(w, [snap, ClearPending]), records)
    ensures var cut := Interrupted(w, [snap, ClearPending], done, torn);
            cut.anchor == w.anchor && (StillInFlight(codec, w, cut, base, prior) || AtRest(codec, cut, records))
  {
    FinishSafe(codec, w, base, prior, records, snap);
    CutTwo(w, snap, ClearPending, done, torn);
    hide InFlight, Load, SnapshotFor, AnchorFor, AtRest, PerformAll, Interrupted;
  }

  /** The same behind a rewrite of the journal. */
  lemma RewriteCut(
    codec: Codec, w: World, base: seq<byte>, tail: seq<byte>, prior: seq<Record>, records: seq<Record>, snap: Write,
    done: nat, torn: nat)
    requires InFlight(codec, w, base, prior) && tail <= Line(codec, w.disk.pending.value.record)
    requires Load(codec, base + tail) == Ok(records) && w.anchor == AnchorFor(records)
    requires SnapshotFor(records).Ok?
    requires snap == if records == [] then DropSnapshot else SetSnapshot(SnapshotFor(records).value)
    ensures var writes := [SetJournal(base + tail), snap, ClearPending];
            && AtRest(codec, PerformAll(w, writes), records)
            && var cut := Interrupted(w, writes, done, torn);
               cut.anchor == w.anchor && (StillInFlight(codec, w, cut, base, prior) || AtRest(codec, cut, records))
  {
    hide InFlight, Load, SnapshotFor, AnchorFor, AtRest, PerformAll, Interrupted, Line;
    var journal := Perform(w, SetJournal(base + tail));
    JournalInFlight(codec, w, base, prior, tail);
    FinishCut(codec, journal, base, prior, records, snap, if done == 0 then 0 else done - 1, torn);
    CutFirst(w, SetJournal(base + tail), [snap, ClearPending], done, torn);
    assert [SetJournal(base + tail)] + [snap, ClearPending] == [SetJournal(base + tail), snap, ClearPending];
  }

  /** Undoing: stopped after any write it is still under way with the same anchor; at its end it is at rest. */
  lemma RollbackSafe(codec: Codec, w: World, base: seq<byte>, prior: seq<Record>, done: nat, torn: nat)
    requires InFlight(codec, w, base, prior) && w.anchor == AnchorFor(prior)
    ensures var plan := RollbackPlan(base, prior, Payload(w)[|base|..] != []);
            && plan.outcome.Ok?
            && AtRest(codec, PerformAll(w, plan.writes), prior)
            && var cut := Interrupted(w, plan.writes, done, torn);
               cut.anchor == w.anchor && (StillInFlight(codec, w, cut, base, prior) || AtRest(codec, cut, prior))
  {
    assert Load(codec, base) == Ok(prior) && SnapshotFor(prior).Ok?;
    var replace := Payload(w)[|base|..] != [];
    assert replace || Payload(w) == base;
    var snap := if prior == [] then DropSnapshot else SetSnapshot(SnapshotFor(prior).value);
    RollbackWrites(base, prior, replace);
    assert base + [] == base;
    hide Load, Line, SnapshotFor, AnchorFor, RollbackPlan, InFlight, AtRest, PerformAll, Interrupted;
    if replace {
      RewriteCut(codec, w, base, [], prior, prior, snap, done, torn);
    } else {
      FinishCut(codec, w, base, prior, prior, snap, done, torn);
    }
  }

  /** Completing: likewise, with the new record counting throughout. */
  lemma ForwardSafe(codec: Codec, w: World, base: seq<byte>, prior: seq<Record>, done: nat, torn: nat)
    requires Faithful(codec)
    requires InFlight(codec, w, base, prior) && w.anchor != AnchorFor(prior)
    ensures var p := w.disk.pending.value;
            var plan := ForwardPlan(base, Line(codec, p.record), prior, p);
            && plan.outcome.Ok?
            && AtRest(codec, PerformAll(w, plan.writes), prior + [p.record])
            && var cut := Interrupted(w, plan.writes, done, torn);
               cut.anchor == w.anchor
               && (StillInFlight(codec, w, cut, base, prior) || AtRest(codec, cut, prior + [p.record]))
  {
    var p := w.disk.pending.value;
    var records, line := prior + [p.record], Line(codec, p.record);
    assert IntentFor(codec, p, base, prior);
    LoadExtended(codec, base, p.record);
    RecordedIntentIsWellFormed(codec, p, base, prior);
    ForwardWrites(base, line, prior, p);
    hide Load, Line, SnapshotFor, AnchorFor, ForwardPlan, InFlight, AtRest, ValidateSnapshot, PerformAll, Interrupted;
    RewriteCut(codec, w, base, line, prior, records, SetSnapshot(p.snapshot), done, torn);
  }

  /**
   * Recovery of any consistent directory succeeds, brings it to rest with the
   * records that count, and may itself be stopped anywhere without changing
   * which records count.
   */
  lemma RecoverySafe(codec: Codec, w: World, done: nat, torn: nat)
    requires Faithful(codec) && Consistent(codec, w)
    ensures var plan := RecoverPlan(codec, w);
            && plan.outcome.Ok?
            && AtRest(codec, PerformAll(w, plan.writes), Committed(codec, w))
            && var cut := Interrupted(w, plan.writes, done, torn);
               cut.anchor == w.anchor && Consistent(codec, cut) && Committed(codec, cut) == Committed(codec, w)
  {
    if w.disk.pending.None? {
      assert RecoverPlan(codec, w).writes == [];
      hide Replay, Load;
    } else {
      var base, prior := BaseOf(w), RecordsAt(codec, BaseOf(w));
      var p := w.disk.pending.value;
      RecoveryCases(codec, w, base, prior);
      InFlightIsConsistent(codec, w, base, prior);
      var plan := RecoverPlan(codec, w);
      var cut := Interrupted(w, plan.writes, done, torn);
      var records := if w.anchor == AnchorFor(prior) then prior else prior + [p.record];
      if w.anchor == AnchorFor(prior) {
        RollbackSafe(codec, w, base, prior, done, torn);
      } else {
        ForwardSafe(codec, w, base, prior, done, torn);
      }
      assert w.anchor == AnchorFor(records);
      hide Replay, Load, Line, RollbackPlan, ForwardPlan, RecoverPlan, Interrupted, PerformAll, Consistent, Committed;
      CutStillCounts(codec, cut, base, prior, p.record, records);
    }
  }

  lemma CutStillCounts(
    codec: Codec, cut: World, base: seq<byte>, prior: seq<Record>, r: Record, records: seq<Record>)
    requires InFlight(codec, cut, base, prior) || AtRest(codec, cut, records)
    requires InFlight(codec, cut, base, prior) ==> cut.disk.pending.value.record == r
    requires cut.anchor == AnchorFor(records)
    requires records == prior || records == prior + [r]
    ensures Consistent(codec, cut) && Committed(codec, cut) == records
  {
    if InFlight(codec, cut, base, prior) {
      InFlightIsConsistent(codec, cut, base, prior);
    } else {
      AtRestIsConsistent(codec, cut, records);
    }
  }
}
